/**
 * The first-generation VE.Direct reader of a Victron SmartSolar charger: a
 * store of twenty raw string fields that every poll overwrites from the
 * CRLF-separated `KEY<TAB>VALUE` records of the serial buffer, and the
 * accessors that read it.
 */
module SmartSolar {
  import opened Wrappers
  import opened Strings
  import opened Tables
  import Decimals

  /** The twenty keys of the store; no update adds or removes one. */
  const KnownKeys: set<string> := {
    "PID", "FW", "SER#", "CS", "MPPT", "OR", "HSDS", "Checksum", "IL", "ERR",
    "LOAD", "V", "VPV", "PPV", "I", "H19", "H20", "H21", "H22", "H23"}

  /**
   * The value a key starts with. The state of operation, tracker mode, off
   * reason, error code and day number are random in the charger model; here
   * they are the caller's choice within the same ranges.
   */
  function InitialValue(k: string, cs: string, mppt: string, or: string, hsds: string, err: string): string
  {
    if k == "PID" then "0xA060"
    else if k == "FW" then "156"
    else if k == "SER#" then "HQ2129WD7QV"
    else if k == "CS" then cs
    else if k == "MPPT" then mppt
    else if k == "OR" then or
    else if k == "HSDS" then hsds
    else if k == "Checksum" then "ABCDE"
    else if k == "LOAD" then "ON"
    else if k == "ERR" then err
    else "0"
  }

  /** The store a new coordinator starts from. */
  function InitialData(cs: string, mppt: string, or: string, hsds: nat, err: string): (d: map<string, string>)
    ensures d.Keys == KnownKeys
  {
    map k | k in KnownKeys :: InitialValue(k, cs, mppt, or, Decimals.IntToString(hsds), err)
  }

  /** The product id is the SmartSolar's, and the four random fields hold what was drawn. */
  lemma InitialDataDrawn(cs: string, mppt: string, or: string, hsds: nat, err: string)
    ensures var d := InitialData(cs, mppt, or, hsds, err);
      d["PID"] == "0xA060" && d["CS"] == cs && d["MPPT"] == mppt && d["OR"] == or && d["ERR"] == err
  {
  }

  /** The day sequence number reads back as the day drawn. */
  lemma InitialDataDay(cs: string, mppt: string, or: string, hsds: nat, err: string)
    ensures Decimals.ParseDecimal(InitialData(cs, mppt, or, hsds, err)["HSDS"]) == Some(hsds as real)
  {
    var d := InitialData(cs, mppt, or, hsds, err);
    assert d["HSDS"] == Decimals.IntToString(hsds);
    Decimals.ParseIntToString(hsds);
  }

  /**
   * What a coordinator logs: a record it cannot use, with the record's
   * tokens, or, in the VE.Direct coordinator, the whole buffer of a poll,
   * whose printed form is modelled by its number of lines.
   */
  datatype Warning = KeyNotDefined(fields: seq<string>) | FieldStructureNotValid(fields: seq<string>) | BufferLogged(lines: nat)

  /**
   * The records of a raw serial buffer: the ASCII text split at CRLF, without
   * the last segment, which may be a record still being received.
   */
  function Records(buffer: seq<byte>): seq<string>
  {
    var segments := Split(DecodeAscii(buffer), "\r\n");
    segments[..|segments| - 1]
  }

  /** The record has a key and a value token and its key is `k`. */
  predicate Sets(line: string, k: string)
  {
    var f := Split(line, "\t");
    |f| > 1 && f[0] == k
  }

  /** The record has a key and a value token and its key is one of `keys`. */
  predicate GoodRecord(keys: set<string>, line: string)
  {
    var f := Split(line, "\t");
    |f| > 1 && f[0] in keys
  }

  /** One record applied to the store: a known key takes the second token. */
  function ApplyRecord(d: map<string, string>, line: string): (r: map<string, string>)
    ensures r.Keys == d.Keys
  {
    var f := Split(line, "\t");
    if |f| > 1 && f[0] in d then d[f[0] := f[1]] else d
  }

  /** The records applied in order. */
  function ApplyRecords(d: map<string, string>, lines: seq<string>): (r: map<string, string>)
    ensures r.Keys == d.Keys
  {
    if lines == [] then d
    else ApplyRecord(ApplyRecords(d, lines[..|lines| - 1]), lines[|lines| - 1])
  }

  /** The warnings one record causes in a store with the given keys. */
  function RecordWarnings(keys: set<string>, line: string): (w: seq<Warning>)
    ensures |w| <= 1
  {
    var f := Split(line, "\t");
    if |f| <= 1 then [FieldStructureNotValid(f)]
    else if f[0] in keys then []
    else [KeyNotDefined(f)]
  }

  /** A record passes without a warning exactly when it is the one it changes the store with: a known key and a value. */
  lemma RecordWarningsNone(d: map<string, string>, line: string)
    ensures RecordWarnings(d.Keys, line) == [] <==> var f := Split(line, "\t"); |f| > 1 && f[0] in d
    ensures RecordWarnings(d.Keys, line) != [] ==> ApplyRecord(d, line) == d
  {
  }

  function Warnings(keys: set<string>, lines: seq<string>): (w: seq<Warning>)
    ensures |w| <= |lines|
  {
    if lines == [] then []
    else Warnings(keys, lines[..|lines| - 1]) + RecordWarnings(keys, lines[|lines| - 1])
  }

  /** The stored fields read as they are, without a code table. */
  datatype PlainField =
    | Firmware | SerialNumber | DaySeqNumber | Checksum | LoadCurrent | LoadState
    | BatteryVoltage | PanelVoltage | PanelPower | BatteryCurrent
    | YieldTotal | YieldToday | MaxPowerToday | YieldYesterday | MaxPowerYesterday

  function PlainKey(p: PlainField): (k: string)
    ensures k in KnownKeys
  {
    match p
    case Firmware => "FW"
    case SerialNumber => "SER#"
    case DaySeqNumber => "HSDS"
    case Checksum => "Checksum"
    case LoadCurrent => "IL"
    case LoadState => "LOAD"
    case BatteryVoltage => "V"
    case PanelVoltage => "VPV"
    case PanelPower => "PPV"
    case BatteryCurrent => "I"
    case YieldTotal => "H19"
    case YieldToday => "H20"
    case MaxPowerToday => "H21"
    case YieldYesterday => "H22"
    case MaxPowerYesterday => "H23"
  }

  class SmartSolarCoordinator {
    var data: map<string, string>
    /** True when the serial port could not be opened. */
    const simulation: bool

    ghost predicate Valid()
      reads this
    {
      data.Keys == KnownKeys
    }

    constructor (portOpened: bool, cs: string, mppt: string, or: string, hsds: nat, err: string)
      requires cs in CsTable && mppt in MpptTable && or in OrTable && err in ErrTable && hsds < 365
      ensures Valid()
      ensures simulation == !portOpened
      ensures data == InitialData(cs, mppt, or, hsds, err)
    {
      data := InitialData(cs, mppt, or, hsds, err);
      simulation := !portOpened;
    }

    /**
     * One poll. In simulation the store is returned as it is; otherwise
     * every complete record of the buffer is applied in order, in place.
     */
    method Update(buffer: seq<byte>) returns (result: map<string, string>, warnings: seq<Warning>)
      requires Valid()
      modifies this
      ensures Valid()
      ensures simulation ==> data == old(data) && warnings == []
      ensures !simulation ==> data == ApplyRecords(old(data), Records(buffer))
      ensures !simulation ==> warnings == Warnings(KnownKeys, Records(buffer))
      ensures result == data
    {
      if simulation {
        return data, [];
      }
      var lines := Records(buffer);
      ghost var start := data;
      warnings := [];
      for i := 0 to |lines|
        invariant data == ApplyRecords(start, lines[..i])
        invariant warnings == Warnings(start.Keys, lines[..i])
      {
        assert lines[..i + 1][..i] == lines[..i];
        ghost var next := ApplyRecord(data, lines[i]);
        ghost var more := RecordWarnings(start.Keys, lines[i]);
        assert ApplyRecords(start, lines[..i + 1]) == next;
        assert Warnings(start.Keys, lines[..i + 1]) == warnings + more;
        var field := Split(lines[i], "\t");
        if |field| > 1 {
          var key := field[0];
          var value := field[1];
          if key in data {
            data := data[key := value];
          } else {
            warnings := warnings + [KeyNotDefined(field)];
          }
        } else {
          warnings := warnings + [FieldStructureNotValid(field)];
        }
      }
      assert lines[..|lines|] == lines;
      result := data;
    }

    /** `product_id`: the product name for a known PID, else None. */
    function ProductId(): (r: Option<string>)
      reads this
      requires Valid()
      ensures r.Some? <==> data["PID"] in PidTable
      ensures r.Some? ==> r.value == PidTable[data["PID"]]
    {
      Lookup(PidTable, data["PID"])
    }

    /** `state_of_operation`: the description of the CS code, else None. */
    function StateOfOperation(): (r: Option<string>)
      reads this
      requires Valid()
      ensures r.Some? <==> data["CS"] in CsTable
      ensures r.Some? ==> r.value == CsTable[data["CS"]]
    {
      Lookup(CsTable, data["CS"])
    }

    /** `tracker_operation_mode`: the description of the MPPT code, else None. */
    function TrackerOperationMode(): (r: Option<string>)
      reads this
      requires Valid()
      ensures r.Some? <==> data["MPPT"] in MpptTable
      ensures r.Some? ==> r.value == MpptTable[data["MPPT"]]
    {
      Lookup(MpptTable, data["MPPT"])
    }

    /** `off_reason`: the description of the OR code, matched as a whole string, else None. */
    function OffReason(): (r: Option<string>)
      reads this
      requires Valid()
      ensures r.Some? <==> data["OR"] in OrTable
      ensures r.Some? ==> r.value == OrTable[data["OR"]]
    {
      Lookup(OrTable, data["OR"])
    }

    /** `error_reason`: the description of the ERR code, else None. */
    function ErrorReason(): (r: Option<string>)
      reads this
      requires Valid()
      ensures r.Some? <==> data["ERR"] in ErrTable
      ensures r.Some? ==> r.value == ErrTable[data["ERR"]]
    {
      Lookup(ErrTable, data["ERR"])
    }

    /** `firmware`, `battery_voltage`, `panel_power` and the other plain accessors. */
    function Raw(p: PlainField): (r: string)
      reads this
      requires Valid()
      ensures r == data[PlainKey(p)]
    {
      data[PlainKey(p)]
    }
  }

  // ---------------------------------------------------------------------------
  // What one poll does to the store

  /** Bytes above 127 do not change which records a buffer holds. */
  lemma RecordsIgnoreHighBytes(a: seq<byte>, x: byte, b: seq<byte>)
    requires x >= 128
    ensures Records(a + [x] + b) == Records(a + b)
  {
    DecodeAsciiDropsHighByte(a, x, b);
  }

  /** A buffer without CRLF holds no complete record, so a poll changes nothing. */
  lemma NoCrlfNoRecords(buffer: seq<byte>, d: map<string, string>)
    requires forall j: nat :: !OccursAt(DecodeAscii(buffer), "\r\n", j)
    ensures Records(buffer) == []
    ensures ApplyRecords(d, Records(buffer)) == d
  {
    SplitWithoutSeparator(DecodeAscii(buffer), "\r\n");
  }

  /**
   * A record followed by CRLF and the start of the next record is read as
   * that one record: the trailing fragment is discarded, and so is the empty
   * segment after a final CRLF.
   */
  lemma OneCompleteRecord(line: string, partial: string)
    requires IsAscii(line + "\r\n" + partial)
    requires '\r' !in line && '\r' !in partial
    ensures Records(EncodeAscii(line + "\r\n" + partial)) == [line]
  {
    var text := line + "\r\n" + partial;
    DecodeEncodeAscii(text);
    SplitHead(line, "\r\n", partial);
    forall j: nat
      ensures !OccursAt(partial, "\r\n", j)
    {
      if j + 2 <= |partial| {
        assert partial[j..j + 2][0] == partial[j];
      }
    }
    SplitWithoutSeparator(partial, "\r\n");
  }

  /** A known key takes the second token of its record; further tokens are ignored. */
  lemma KnownKeyTakesValue(d: map<string, string>, key: string, value: string, extra: string)
    requires key in d && '\t' !in key && '\t' !in value
    ensures ApplyRecord(d, key + "\t" + value) == d[key := value]
    ensures ApplyRecord(d, key + "\t" + value + "\t" + extra) == d[key := value]
    ensures RecordWarnings(d.Keys, key + "\t" + value + "\t" + extra) == []
  {
    SplitTabPair(key, value);
    SplitTabFields(key, value, extra);
  }

  /** A record without a tab, the empty line included, changes nothing and is reported. */
  lemma MalformedRecordIgnored(d: map<string, string>, line: string)
    requires '\t' !in line
    ensures ApplyRecord(d, line) == d
    ensures RecordWarnings(d.Keys, line) == [FieldStructureNotValid([line])]
  {
    SplitTabSingle(line);
  }

  /** A record with an unknown key changes nothing and is reported. */
  lemma UnknownKeyIgnored(d: map<string, string>, key: string, rest: string)
    requires key !in d && '\t' !in key
    ensures ApplyRecord(d, key + "\t" + rest) == d
    ensures RecordWarnings(d.Keys, key + "\t" + rest) == [KeyNotDefined([key] + Split(rest, "\t"))]
  {
    SplitHead(key, "\t", rest);
  }

  /** A key that no record of the poll sets keeps its value. */
  lemma {:induction false} UntouchedKeyKept(d: map<string, string>, lines: seq<string>, k: string)
    requires k in d
    requires forall j | 0 <= j < |lines| :: !Sets(lines[j], k)
    ensures ApplyRecords(d, lines)[k] == d[k]
    decreases |lines|
  {
    if lines != [] {
      UntouchedKeyKept(d, lines[..|lines| - 1], k);
    }
  }

  /** When a key is set several times in one poll, the last record that sets it wins. */
  lemma {:induction false} LastRecordWins(d: map<string, string>, lines: seq<string>, i: nat, k: string)
    requires k in d && i < |lines| && Sets(lines[i], k)
    requires forall j | i < j < |lines| :: !Sets(lines[j], k)
    ensures ApplyRecords(d, lines)[k] == Split(lines[i], "\t")[1]
    decreases |lines|
  {
    if i < |lines| - 1 {
      LastRecordWins(d, lines[..|lines| - 1], i, k);
    }
  }

  /** The warnings of a poll are one per malformed record or unknown key: none when every record is good. */
  lemma {:induction false} NoWarningsForGoodRecords(keys: set<string>, lines: seq<string>)
    requires forall j | 0 <= j < |lines| :: GoodRecord(keys, lines[j])
    ensures Warnings(keys, lines) == []
    decreases |lines|
  {
    if lines != [] {
      NoWarningsForGoodRecords(keys, lines[..|lines| - 1]);
    }
  }
}
