/**
 * The second-generation VE.Direct reader: a store of field records, each with
 * a display name, a value that is either a number or text, the time of its
 * last update and optional presentation data, updated in place from the
 * `KEY<TAB>VALUE` lines of a poll; and the generator of simulated polls used
 * when no serial port is present.
 */
module VEDirect {
  import opened Wrappers
  import opened Strings
  import opened Tables
  import opened Decimals
  import SmartSolar

  /** A field's value: a Decimal, or the raw text of the line. */
  datatype Value = Num(amount: real) | Text(text: string)

  datatype FieldRecord = FieldRecord(
    name: string,
    value: Value,
    lastUpdate: real,
    valueList: Option<map<string, string>>,
    icon: Option<string>,
    unitConversion: Option<real>,
    unit: Option<string>,
    deviceClass: Option<string>)

  /** The eighteen keys the store declares; `Name` is the string a line carries for each. */
  datatype Key =
    | PID | FW | SER | V | I | VPV | PPV | CS | MPPT | OR
    | H19 | H20 | H22 | H21 | H23 | HSDS | Checksum | IL

  function Name(k: Key): string
  {
    match k
    case PID => "PID"
    case FW => "FW"
    case SER => "SER#"
    case V => "V"
    case I => "I"
    case VPV => "VPV"
    case PPV => "PPV"
    case CS => "CS"
    case MPPT => "MPPT"
    case OR => "OR"
    case H19 => "H19"
    case H20 => "H20"
    case H22 => "H22"
    case H21 => "H21"
    case H23 => "H23"
    case HSDS => "HSDS"
    case Checksum => "Checksum"
    case IL => "IL"
  }

  /** The declared key a line's first token names, if any. */
  function KeyOf(s: string): (r: Option<Key>)
    ensures r.Some? ==> Name(r.value) == s
  {
    if s == "PID" then Some(PID)
    else if s == "FW" then Some(FW)
    else if s == "SER#" then Some(SER)
    else if s == "V" then Some(V)
    else if s == "I" then Some(I)
    else if s == "VPV" then Some(VPV)
    else if s == "PPV" then Some(PPV)
    else if s == "CS" then Some(CS)
    else if s == "MPPT" then Some(MPPT)
    else if s == "OR" then Some(OR)
    else if s == "H19" then Some(H19)
    else if s == "H20" then Some(H20)
    else if s == "H22" then Some(H22)
    else if s == "H21" then Some(H21)
    else if s == "H23" then Some(H23)
    else if s == "HSDS" then Some(HSDS)
    else if s == "Checksum" then Some(Checksum)
    else if s == "IL" then Some(IL)
    else None
  }

  /** Every declared name is recognised as its own key. */
  lemma NameKeyOf(k: Key)
    ensures KeyOf(Name(k)) == Some(k)
  {
  }

  /** A token names key `k` exactly when it is `k`'s name. */
  lemma KeyOfExact(s: string, k: Key)
    ensures KeyOf(s) == Some(k) <==> s == Name(k)
  {
    NameKeyOf(k);
  }

  lemma KeyHasNoTab(k: Key)
    ensures '\t' !in Name(k)
  {
  }

  /** The keys in the order the store declares them, which is the order a simulated poll follows. */
  const KeyOrder: seq<Key> := [PID, FW, SER, V, I, VPV, PPV, CS, MPPT, OR, H19, H20, H22, H21, H23, HSDS, Checksum, IL]

  lemma KeyOrderComplete(k: Key)
    ensures k in KeyOrder
  {
  }

  function TextField(name: string, valueList: Option<map<string, string>>, icon: Option<string>): FieldRecord
  {
    FieldRecord(name, Text(""), 0.0, valueList, icon, None, None, None)
  }

  function NumField(name: string, factor: real, unit: string, deviceClass: string): FieldRecord
  {
    FieldRecord(name, Num(0.0), 0.0, None, None, Some(factor), Some(unit), Some(deviceClass))
  }

  /**
   * The record a key starts with. Every factor is the exact rational the
   * source's `Decimal(0.001)`, `Decimal(0.01)` or `Decimal(1.0)` approximates.
   */
  function Template(k: Key): (t: FieldRecord)
    ensures t.value.Num? <==> t.unitConversion.Some?
    ensures t.value.Num? ==> t.valueList.None? && t.icon.None?
  {
    match k
    case PID => TextField("Product ID", Some(PidTable), Some("mdi:identifier"))
    case FW => TextField("Firmware Version", None, Some("mdi:identifier"))
    case SER => TextField("Serial Number", None, Some("mdi:music-accidental-sharp"))
    case V => NumField("Battery Voltage", 0.001, "V", "voltage")
    case I => NumField("Battery Current", 0.001, "A", "current")
    case VPV => NumField("Panel Voltage", 0.001, "V", "voltage")
    case PPV => NumField("Panel Power", 1.0, "W", "power")
    case CS => TextField("State of operation", Some(CsTable), Some("mdi:car-turbocharger"))
    case MPPT => TextField("Tracker operation mode", Some(MpptTable), Some("mdi:radar"))
    case OR => TextField("Off Reason", Some(OrTable), Some("mdi:playlist-remove"))
    case H19 => NumField("Yield total", 0.01, "kWh", "energy")
    case H20 => NumField("Yield today", 0.01, "kWh", "energy")
    case H22 => NumField("Yield yesterday", 0.01, "kWh", "energy")
    case H21 => NumField("Max power today", 1.0, "W", "power")
    case H23 => NumField("Max power yesterday", 1.0, "W", "power")
    case HSDS => TextField("Day seq number", None, None)
    case Checksum => TextField("CheckSum", None, None)
    case IL => NumField("Load Current", 0.001, "A", "power")
  }

  /** Two records agree in everything but their value and time stamp, and their values are of the same kind. */
  predicate SameShape(a: FieldRecord, b: FieldRecord)
  {
    a.name == b.name && a.valueList == b.valueList && a.icon == b.icon
    && a.unitConversion == b.unitConversion && a.unit == b.unit && a.deviceClass == b.deviceClass
    && a.value.Num? == b.value.Num?
  }

  /** The store has every declared key, each record shaped like its template. */
  ghost predicate Conforms(d: map<Key, FieldRecord>)
  {
    forall k: Key :: k in d && SameShape(Template(k), d[k])
  }

  /** Replacing a record by one of the same shape keeps the store conforming. */
  lemma ConformsUpdate(d: map<Key, FieldRecord>, k: Key, r: FieldRecord)
    requires Conforms(d) && SameShape(d[k], r)
    ensures Conforms(d[k := r])
  {
    assert SameShape(Template(k), d[k]);
  }

  function InitialData(now: real): (d: map<Key, FieldRecord>)
    ensures Conforms(d)
    ensures forall k | k in d :: d[k] == Template(k).(lastUpdate := now)
  {
    var d := map k | k in KeyOrder :: Template(k).(lastUpdate := now);
    assert forall k: Key :: k in d by {
      forall k: Key
        ensures k in d
      {
        KeyOrderComplete(k);
      }
    }
    d
  }

  /** The line's first token is a key of the store. */
  predicate Known(d: map<Key, FieldRecord>, token: string)
  {
    KeyOf(token).Some? && KeyOf(token).value in d
  }

  /** What makes a poll raise: a numeric field whose token is not a number. */
  datatype UpdateError = InvalidDecimal(key: Key, token: string)

  /** What a poll of a real port raises as written: splitting a byte string at a text separator is a TypeError. */
  datatype PortError = TypeError

  /** One line applied to the store: a known key takes the second token, as a Decimal when its value is one. */
  function Step(d: map<Key, FieldRecord>, line: string, now: real): (r: Result<map<Key, FieldRecord>, UpdateError>)
    ensures r.Success? ==> r.value.Keys == d.Keys
  {
    var f := Split(line, "\t");
    if |f| > 1 && Known(d, f[0]) then
      var k := KeyOf(f[0]).value;
      var rec := d[k];
      if rec.value.Num? then
        match ParseDecimal(f[1])
        case None => Failure(InvalidDecimal(k, f[1]))
        case Some(x) => Success(d[k := rec.(value := Num(x), lastUpdate := now)])
      else Success(d[k := rec.(value := Text(f[1]), lastUpdate := now)])
    else Success(d)
  }

  /** The warning a line draws: no tab, or a key the store does not have. */
  function LineWarnings(d: map<Key, FieldRecord>, line: string): (w: seq<SmartSolar.Warning>)
    ensures |w| <= 1
  {
    var f := Split(line, "\t");
    if |f| <= 1 then [SmartSolar.FieldStructureNotValid(f)]
    else if Known(d, f[0]) then []
    else [SmartSolar.KeyNotDefined(f)]
  }

  /** The store, the warnings and the error, if any, after the lines of a poll. */
  datatype Outcome = Outcome(data: map<Key, FieldRecord>, warnings: seq<SmartSolar.Warning>, failure: Option<UpdateError>)

  /** The outcome after one more line: nothing once a line has raised, otherwise that line's step. */
  function Next(o: Outcome, line: string, now: real): (r: Outcome)
    ensures r.data.Keys == o.data.Keys
  {
    if o.failure.Some? then o
    else
      match Step(o.data, line, now)
      case Failure(e) => Outcome(o.data, o.warnings, Some(e))
      case Success(d') => Outcome(d', o.warnings + LineWarnings(o.data, line), None)
  }

  /**
   * The lines applied in order, every one of them, up to the first that
   * raises; what was applied before it stays applied.
   */
  function ApplyLines(d: map<Key, FieldRecord>, lines: seq<string>, now: real): (o: Outcome)
    ensures o.data.Keys == d.Keys
  {
    if lines == [] then Outcome(d, [], None)
    else Next(ApplyLines(d, lines[..|lines| - 1], now), lines[|lines| - 1], now)
  }

  /** The outcome of a prefix one line longer. */
  lemma ApplySnoc(d: map<Key, FieldRecord>, lines: seq<string>, i: nat, now: real)
    requires i < |lines|
    ensures ApplyLines(d, lines[..i + 1], now) == Next(ApplyLines(d, lines[..i], now), lines[i], now)
  {
    assert lines[..i + 1][..i] == lines[..i];
  }

  /** The product id, firmware version and serial number have all been received. */
  predicate Ready(d: map<Key, FieldRecord>)
    requires PID in d && FW in d && SER in d
  {
    d[PID].value != Text("") && d[FW].value != Text("") && d[SER].value != Text("")
  }

  // ---------------------------------------------------------------------------
  // Simulated polls

  /** How a simulated poll produces the value of a key, if it writes a line for it at all. */
  datatype Gen = Fixed(text: string) | Range(lo: int, hi: int) | Choice(codes: map<string, string>) | NoLine

  /** The branch `simulate_buffer` takes for a key, given the key's record. */
  function Generator(k: Key, rec: FieldRecord): Gen
  {
    if k == PID then Fixed("0xA060")
    else if k == FW then Fixed("156")
    else if k == SER then Fixed("1234567890")
    else if k == V then Range(9000, 14500)
    else if k == I then Range(-5000, 5000)
    else if k == IL then Range(0, 5000)
    else if k == VPV then Range(0, 20000)
    else if k == PPV then Range(0, 100)
    else if k in {H19, H20, H21, H22, H23} then Range(0, 200)
    else if rec.valueList.Some? then Choice(rec.valueList.value)
    else NoLine
  }

  /** `v` is a value the generator can produce: the fixed text, `f"{n}"` for an `n` in `range(lo, hi)`, or a code of the table. */
  ghost predicate Generates(g: Gen, v: string)
  {
    match g
    case Fixed(t) => v == t
    case Range(lo, hi) => exists n: int | lo <= n < hi :: v == IntToString(n)
    case Choice(codes) => v in codes
    case NoLine => false
  }

  /** A generator that can produce a value. */
  ghost predicate Productive(g: Gen)
  {
    match g
    case Fixed(_) => true
    case Range(lo, hi) => lo < hi
    case Choice(codes) => exists c :: c in codes
    case NoLine => false
  }

  /** Numeric fields get a non-empty integer range, and only they do. */
  lemma NumericKeysGetRanges(k: Key)
    ensures Template(k).value.Num? <==> Generator(k, Template(k)).Range?
    ensures Generator(k, Template(k)).Range? ==> Generator(k, Template(k)).lo < Generator(k, Template(k)).hi
  {
    match k
    case PID =>
    case FW =>
    case SER =>
    case V =>
    case I =>
    case VPV =>
    case PPV =>
    case CS =>
    case MPPT =>
    case OR =>
    case H19 =>
    case H20 =>
    case H22 =>
    case H21 =>
    case H23 =>
    case HSDS =>
    case Checksum =>
    case IL =>
  }

  /** The fixed texts are non-empty and free of tabs. */
  lemma FixedTextsClean(k: Key)
    ensures var g := Generator(k, Template(k)); g.Fixed? ==> g.text != "" && '\t' !in g.text
  {
    match k
    case PID =>
    case FW =>
    case SER =>
    case V =>
    case I =>
    case VPV =>
    case PPV =>
    case CS =>
    case MPPT =>
    case OR =>
    case H19 =>
    case H20 =>
    case H22 =>
    case H21 =>
    case H23 =>
    case HSDS =>
    case Checksum =>
    case IL =>
  }

  /** Only the state of operation, the tracker mode and the off reason are drawn from their tables. */
  lemma ChoiceKeys(k: Key)
    ensures Generator(k, Template(k)).Choice? <==> k == CS || k == MPPT || k == OR
    ensures k == CS ==> Generator(k, Template(k)) == Choice(CsTable)
    ensures k == MPPT ==> Generator(k, Template(k)) == Choice(MpptTable)
    ensures k == OR ==> Generator(k, Template(k)) == Choice(OrTable)
  {
    match k
    case PID =>
    case FW =>
    case SER =>
    case V =>
    case I =>
    case VPV =>
    case PPV =>
    case CS =>
    case MPPT =>
    case OR =>
    case H19 =>
    case H20 =>
    case H22 =>
    case H21 =>
    case H23 =>
    case HSDS =>
    case Checksum =>
    case IL =>
  }

  /** The code tables drawn from are non-empty and their codes free of tabs. */
  lemma ChoicesClean(k: Key)
    ensures var g := Generator(k, Template(k)); g.Choice? ==> exists c :: c in g.codes
    ensures var g := Generator(k, Template(k)); g.Choice? ==> forall c | c in g.codes :: '\t' !in c
  {
    ChoiceKeys(k);
    CsCodesDrawable();
    MpptCodesDrawable();
    OrCodesDrawable();
  }

  /** Only the day number and the checksum get no line. */
  lemma SilentKeys(k: Key)
    ensures Generator(k, Template(k)).NoLine? <==> k == HSDS || k == Checksum
  {
    match k
    case PID =>
    case FW =>
    case SER =>
    case V =>
    case I =>
    case VPV =>
    case PPV =>
    case CS =>
    case MPPT =>
    case OR =>
    case H19 =>
    case H20 =>
    case H22 =>
    case H21 =>
    case H23 =>
    case HSDS =>
    case Checksum =>
    case IL =>
  }

  /** The branch taken depends on the record only through its value list. */
  lemma GeneratorReadsValueList(k: Key, a: FieldRecord, b: FieldRecord)
    requires a.valueList == b.valueList
    ensures Generator(k, a) == Generator(k, b)
  {
  }

  /** The generator of a key, taken from a record shaped like its template. */
  lemma GeneratorOfDeclaredKey(k: Key, rec: FieldRecord)
    requires rec.valueList == Template(k).valueList
    ensures Generator(k, rec) == Generator(k, Template(k))
    ensures !Generator(k, rec).NoLine? ==> Productive(Generator(k, rec))
  {
    GeneratorReadsValueList(k, rec, Template(k));
    NumericKeysGetRanges(k);
    ChoicesClean(k);
  }

  /** One random draw: `random.randrange(lo, hi)` or `random.choice` of the table's codes. */
  method Draw(g: Gen) returns (value: string)
    requires Productive(g)
    ensures Generates(g, value)
  {
    match g {
      case Fixed(text) =>
        value := text;
      case Range(lo, hi) =>
        var n: int :| lo <= n < hi;
        value := IntToString(n);
      case Choice(codes) =>
        var c :| c in codes;
        value := c;
    }
  }

  /** The keys of `keys` that get a line, in order. */
  function EmittedKeys(keys: seq<Key>): (r: seq<Key>)
    ensures forall i | 0 <= i < |r| :: !Generator(r[i], Template(r[i])).NoLine?
  {
    if keys == [] then []
    else
      var k := keys[|keys| - 1];
      EmittedKeys(keys[..|keys| - 1]) + (if Generator(k, Template(k)).NoLine? then [] else [k])
  }

  /** `line` is `f"{key}\t{v}"` for a value `v` the simulation can produce for the key. */
  ghost predicate SimLine(k: Key, line: string)
  {
    var n := Name(k);
    |line| > |n| && line[..|n| + 1] == n + "\t" && Generates(Generator(k, Template(k)), line[|n| + 1..])
  }

  /** One simulated line for each key of `keys`, in order. */
  ghost predicate SimLinesFor(keys: seq<Key>, buff: seq<string>)
  {
    |buff| == |keys| && forall i | 0 <= i < |keys| :: SimLine(keys[i], buff[i])
  }

  /** A buffer `simulate_buffer` can return. */
  ghost predicate SimulatedBuffer(buff: seq<string>)
  {
    SimLinesFor(EmittedKeys(KeyOrder), buff)
  }

  lemma EmittedStep(keys: seq<Key>, i: nat)
    requires i < |keys|
    ensures Generator(keys[i], Template(keys[i])).NoLine? ==> EmittedKeys(keys[..i + 1]) == EmittedKeys(keys[..i])
    ensures !Generator(keys[i], Template(keys[i])).NoLine? ==> EmittedKeys(keys[..i + 1]) == EmittedKeys(keys[..i]) + [keys[i]]
  {
    assert keys[..i + 1][..i] == keys[..i];
    assert EmittedKeys(keys[..i]) + [] == EmittedKeys(keys[..i]);
  }

  lemma SimLinesSnoc(keys: seq<Key>, buff: seq<string>, k: Key, v: string)
    requires SimLinesFor(keys, buff) && Generates(Generator(k, Template(k)), v)
    ensures SimLinesFor(keys + [k], buff + [Name(k) + "\t" + v])
  {
    var line := Name(k) + "\t" + v;
    assert line[..|Name(k)| + 1] == Name(k) + "\t" && line[|Name(k)| + 1..] == v;
  }

  class VEDirectCoordinator {
    var data: map<Key, FieldRecord>
    /** True when the serial port could not be opened. */
    const simulation: bool

    ghost predicate Valid()
      reads this
    {
      Conforms(data)
    }

    constructor (portOpened: bool, now: real)
      ensures Valid()
      ensures simulation == !portOpened
      ensures data == InitialData(now)
    {
      data := InitialData(now);
      simulation := !portOpened;
    }

    /** `config_ready`: the product id, firmware version and serial number are all non-empty. */
    function ConfigReady(): (r: bool)
      reads this
      requires Valid()
      ensures r <==> Ready(data)
    {
      data[PID].value != Text("") && data[FW].value != Text("") && data[SER].value != Text("")
    }

    /** `simulate_buffer`: one `KEY<TAB>VALUE` line per key that has a generator, in store order. */
    method SimulateBuffer() returns (buff: seq<string>)
      requires Valid()
      ensures SimulatedBuffer(buff)
    {
      buff := [];
      for i := 0 to |KeyOrder|
        invariant SimLinesFor(EmittedKeys(KeyOrder[..i]), buff)
      {
        var key := KeyOrder[i];
        EmittedStep(KeyOrder, i);
        var gen := Generator(key, data[key]);
        GeneratorOfDeclaredKey(key, data[key]);
        if gen.NoLine? {
          continue;
        }
        var value := Draw(gen);
        SimLinesSnoc(EmittedKeys(KeyOrder[..i]), buff, key, value);
        buff := buff + [Name(key) + "\t" + value];
      }
      assert KeyOrder[..|KeyOrder|] == KeyOrder;
    }

    /**
     * One line of a poll applied in place: a known key takes the second token,
     * as a Decimal when its value is one; a numeric token that is not a
     * number raises and changes nothing.
     */
    method ApplyLine(line: string, now: real) returns (error: Option<UpdateError>, lineWarnings: seq<SmartSolar.Warning>)
      requires Valid()
      modifies this
      ensures Valid()
      ensures error.None? ==> Step(old(data), line, now) == Success(data)
      ensures error.Some? ==> Step(old(data), line, now) == Failure(error.value) && data == old(data)
      ensures lineWarnings == LineWarnings(old(data), line)
    {
      lineWarnings := [];
      error := None;
      var field := Split(line, "\t");
      if |field| > 1 {
        var key := KeyOf(field[0]);
        if key.Some? && key.value in data {
          var k := key.value;
          var r := data[k];
          if r.value.Num? {
            StepNumber(data, line, now, k);
            var parsed := ParseDecimal(field[1]);
            if parsed.None? {
              return Some(InvalidDecimal(k, field[1])), [];
            }
            data := data[k := r.(value := Num(parsed.value), lastUpdate := now)];
          } else {
            StepText(data, line, now, k);
            data := data[k := r.(value := Text(field[1]), lastUpdate := now)];
          }
          ConformsUpdate(old(data), k, data[k]);
        } else {
          StepIgnored(data, line, now);
          lineWarnings := [SmartSolar.KeyNotDefined(field)];
        }
      } else {
        StepIgnored(data, line, now);
        lineWarnings := [SmartSolar.FieldStructureNotValid(field)];
      }
    }

    /** The loop of a poll: every line applied in order and in place, up to the first that raises. */
    method ApplyBuffer(buffer: seq<string>, now: real)
      returns (result: Result<map<Key, FieldRecord>, UpdateError>, warnings: seq<SmartSolar.Warning>)
      requires Valid()
      modifies this
      ensures Valid()
      ensures data == ApplyLines(old(data), buffer, now).data
      ensures warnings == ApplyLines(old(data), buffer, now).warnings
      ensures ApplyLines(old(data), buffer, now).failure.None? ==> result == Success(data)
      ensures ApplyLines(old(data), buffer, now).failure.Some? ==> result == Failure(ApplyLines(old(data), buffer, now).failure.value)
    {
      ghost var start := data;
      warnings := [];
      for i := 0 to |buffer|
        invariant Valid()
        invariant ApplyLines(start, buffer[..i], now) == Outcome(data, warnings, None)
      {
        ApplySnoc(start, buffer, i, now);
        ghost var before := Outcome(data, warnings, None);
        var error, lineWarnings := ApplyLine(buffer[i], now);
        if error.Some? {
          NextRaises(before, buffer[i], now, error.value);
          FailureSticks(start, buffer, i + 1, now);
          return Failure(error.value), warnings;
        }
        NextSteps(before, buffer[i], now, data, lineWarnings);
        warnings := warnings + lineWarnings;
      }
      assert buffer[..|buffer|] == buffer;
      result := Success(data);
    }

    /**
     * `_async_update_data`: one poll, of the lines of the serial port, taken
     * as text, or, when there is no port, of a simulated buffer. The buffer
     * is logged first, then each line adds its own warnings.
     */
    method Update(serialLines: seq<string>, now: real)
      returns (result: Result<map<Key, FieldRecord>, UpdateError>, buffer: seq<string>, warnings: seq<SmartSolar.Warning>)
      requires Valid()
      modifies this
      ensures Valid()
      ensures !simulation ==> buffer == serialLines
      ensures simulation ==> SimulatedBuffer(buffer)
      ensures data == ApplyLines(old(data), buffer, now).data
      ensures warnings == [SmartSolar.BufferLogged(|buffer|)] + ApplyLines(old(data), buffer, now).warnings
      ensures ApplyLines(old(data), buffer, now).failure.None? ==> result == Success(data)
      ensures ApplyLines(old(data), buffer, now).failure.Some? ==> result == Failure(ApplyLines(old(data), buffer, now).failure.value)
      ensures simulation ==> result.Success? && warnings == [SmartSolar.BufferLogged(|buffer|)] && ConfigReady()
    {
      if !simulation {
        buffer := serialLines;
      } else {
        buffer := SimulateBuffer();
        SimulatedUpdateReady(data, buffer, now);
      }
      var lineWarnings;
      result, lineWarnings := ApplyBuffer(buffer, now);
      warnings := [SmartSolar.BufferLogged(|buffer|)] + lineWarnings;
    }

    /**
     * `_async_update_data` as written: `readlines()` on a real port gives
     * byte strings, so splitting the first of them at the text "\t" raises
     * TypeError once the buffer has been logged, before any record changes.
     * A simulated poll builds text lines and runs as `Update` does.
     */
    method UpdateAsWritten(portLines: seq<seq<byte>>, now: real)
      returns (result: Result<map<Key, FieldRecord>, PortError>, warnings: seq<SmartSolar.Warning>)
      requires Valid()
      modifies this
      ensures Valid()
      ensures !simulation ==> data == old(data) && warnings == [SmartSolar.BufferLogged(|portLines|)]
      ensures !simulation ==> (result == Failure(TypeError) <==> portLines != [])
      ensures !simulation && portLines == [] ==> result == Success(data)
      ensures simulation ==> result.Success? && ConfigReady() && |warnings| == 1
    {
      if !simulation {
        warnings := [SmartSolar.BufferLogged(|portLines|)];
        result := if portLines == [] then Success(data) else Failure(TypeError);
      } else {
        var r, _, w := Update([], now);
        result, warnings := Success(r.value), w;
      }
    }
  }

  // ---------------------------------------------------------------------------
  // What one poll does to the store

  /** A line that sets a text field of the store stores its token. */
  lemma StepText(d: map<Key, FieldRecord>, line: string, now: real, k: Key)
    requires var f := Split(line, "\t"); |f| > 1 && KeyOf(f[0]) == Some(k)
    requires k in d && d[k].value.Text?
    ensures Step(d, line, now) == Success(d[k := d[k].(value := Text(Split(line, "\t")[1]), lastUpdate := now)])
    ensures LineWarnings(d, line) == []
  {
  }

  /** A line that sets a numeric field of the store stores its token as a number, or raises. */
  lemma StepNumber(d: map<Key, FieldRecord>, line: string, now: real, k: Key)
    requires var f := Split(line, "\t"); |f| > 1 && KeyOf(f[0]) == Some(k)
    requires k in d && d[k].value.Num?
    ensures var t := Split(line, "\t")[1];
      ParseDecimal(t).None? ==> Step(d, line, now) == Failure(InvalidDecimal(k, t))
    ensures var t := Split(line, "\t")[1];
      ParseDecimal(t).Some? ==> Step(d, line, now) == Success(d[k := d[k].(value := Num(ParseDecimal(t).value), lastUpdate := now)])
    ensures LineWarnings(d, line) == []
  {
  }

  /** A line without a tab, or with a key the store does not have, changes nothing and is reported. */
  lemma StepIgnored(d: map<Key, FieldRecord>, line: string, now: real)
    requires var f := Split(line, "\t"); !(|f| > 1 && Known(d, f[0]))
    ensures Step(d, line, now) == Success(d)
    ensures var f := Split(line, "\t");
      LineWarnings(d, line) == if |f| <= 1 then [SmartSolar.FieldStructureNotValid(f)] else [SmartSolar.KeyNotDefined(f)]
  {
  }

  /** A line that steps without raising adds its warnings and leaves the new store. */
  lemma NextSteps(o: Outcome, line: string, now: real, d': map<Key, FieldRecord>, w: seq<SmartSolar.Warning>)
    requires o.failure.None? && Step(o.data, line, now) == Success(d') && LineWarnings(o.data, line) == w
    ensures Next(o, line, now) == Outcome(d', o.warnings + w, None)
  {
  }

  /** A line that raises leaves the store and the warnings as they were. */
  lemma NextRaises(o: Outcome, line: string, now: real, e: UpdateError)
    requires o.failure.None? && Step(o.data, line, now) == Failure(e)
    ensures Next(o, line, now) == Outcome(o.data, o.warnings, Some(e))
  {
  }

  /** Two stores with the same keys whose records have the same shapes conform together. */
  lemma ConformsShapes(d: map<Key, FieldRecord>, e: map<Key, FieldRecord>)
    requires Conforms(d) && e.Keys == d.Keys && forall k | k in d :: SameShape(d[k], e[k])
    ensures Conforms(e)
  {
    forall k: Key
      ensures k in e && SameShape(Template(k), e[k])
    {
      assert SameShape(Template(k), d[k]) && SameShape(d[k], e[k]);
    }
  }

  /** A step that does not raise keeps the shape of every record. */
  lemma StepShape(d: map<Key, FieldRecord>, line: string, now: real, k: Key)
    requires k in d && Step(d, line, now).Success?
    ensures SameShape(d[k], Step(d, line, now).value[k])
  {
    var f := Split(line, "\t");
    if |f| > 1 && Known(d, f[0]) && KeyOf(f[0]).value == k {
      var rec := d[k];
      assert Step(d, line, now).value[k].value.Num? == rec.value.Num?;
    } else if |f| > 1 && Known(d, f[0]) {
      assert Step(d, line, now).value[k] == d[k];
    }
  }

  /** One more line keeps the shape of every record, whether it raises or not. */
  lemma NextShape(o: Outcome, line: string, now: real, k: Key)
    requires k in o.data
    ensures SameShape(o.data[k], Next(o, line, now).data[k])
  {
    if o.failure.None? && Step(o.data, line, now).Success? {
      StepShape(o.data, line, now, k);
    }
  }

  /** A poll keeps the shape of every record, whether it raises or not. */
  lemma {:induction false} ApplyLinesShape(d: map<Key, FieldRecord>, lines: seq<string>, now: real, k: Key)
    requires k in d
    ensures SameShape(d[k], ApplyLines(d, lines, now).data[k])
    decreases |lines|
  {
    if lines != [] {
      ApplyLinesShape(d, lines[..|lines| - 1], now, k);
      NextShape(ApplyLines(d, lines[..|lines| - 1], now), lines[|lines| - 1], now, k);
    }
  }

  /** A poll keeps the store conforming, whether it raises or not. */
  lemma ConformsAfter(d: map<Key, FieldRecord>, lines: seq<string>, now: real)
    requires Conforms(d)
    ensures Conforms(ApplyLines(d, lines, now).data)
  {
    var e := ApplyLines(d, lines, now).data;
    forall k | k in d
      ensures SameShape(d[k], e[k])
    {
      ApplyLinesShape(d, lines, now, k);
    }
    ConformsShapes(d, e);
  }

  /** Once a line has raised, the rest of the poll is never applied. */
  lemma {:induction false} FailureSticks(d: map<Key, FieldRecord>, lines: seq<string>, i: nat, now: real)
    requires i <= |lines| && ApplyLines(d, lines[..i], now).failure.Some?
    ensures ApplyLines(d, lines, now) == ApplyLines(d, lines[..i], now)
    decreases |lines| - i
  {
    if i < |lines| {
      assert lines[..i + 1][..i] == lines[..i];
      FailureSticks(d, lines, i + 1, now);
    } else {
      assert lines[..i] == lines;
    }
  }

  /** The line has a key and a value token and its key names `k`. */
  predicate Sets(line: string, k: Key)
  {
    var f := Split(line, "\t");
    |f| > 1 && KeyOf(f[0]) == Some(k)
  }

  /** A step leaves alone every record its line does not set. */
  lemma StepKeeps(d: map<Key, FieldRecord>, line: string, now: real, k: Key)
    requires k in d && !Sets(line, k) && Step(d, line, now).Success?
    ensures Step(d, line, now).value[k] == d[k]
  {
  }

  /** The record a line sets: its value converted to the record's kind, stamped with the poll's time. */
  ghost predicate SetBy(old_: FieldRecord, r: FieldRecord, token: string, now: real)
  {
    SameShape(old_, r) && r.lastUpdate == now
    && (if old_.value.Num? then ParseDecimal(token).Some? && r.value == Num(ParseDecimal(token).value)
        else r.value == Text(token))
  }

  /** A step that does not raise sets the record its line names to the line's value. */
  lemma StepSets(d: map<Key, FieldRecord>, line: string, now: real, k: Key)
    requires k in d && Sets(line, k) && Step(d, line, now).Success?
    ensures SetBy(d[k], Step(d, line, now).value[k], Split(line, "\t")[1], now)
  {
  }

  /** A key no line of the poll sets keeps its record, whether the poll raises or not. */
  lemma {:induction false} UntouchedRecordKept(d: map<Key, FieldRecord>, lines: seq<string>, now: real, k: Key)
    requires k in d
    requires forall j | 0 <= j < |lines| :: !Sets(lines[j], k)
    ensures ApplyLines(d, lines, now).data[k] == d[k]
    decreases |lines|
  {
    if lines != [] {
      var o := ApplyLines(d, lines[..|lines| - 1], now);
      UntouchedRecordKept(d, lines[..|lines| - 1], now, k);
      if o.failure.None? && Step(o.data, lines[|lines| - 1], now).Success? {
        StepKeeps(o.data, lines[|lines| - 1], now, k);
      }
    }
  }

  /** A poll that has not raised after one more line had not raised before it, and that line stepped. */
  lemma NextClean(o: Outcome, line: string, now: real)
    requires Next(o, line, now).failure.None?
    ensures o.failure.None? && Step(o.data, line, now).Success?
    ensures Next(o, line, now).data == Step(o.data, line, now).value
  {
  }

  /** The outcome of a poll is its last line applied to the outcome of the lines before. */
  lemma ApplyLast(d: map<Key, FieldRecord>, lines: seq<string>, now: real)
    requires lines != []
    ensures ApplyLines(d, lines, now) == Next(ApplyLines(d, lines[..|lines| - 1], now), lines[|lines| - 1], now)
  {
  }

  /** Setting a record is the same whichever of two records of one shape it replaces. */
  lemma SetByShape(a: FieldRecord, b: FieldRecord, r: FieldRecord, token: string, now: real)
    requires SameShape(a, b) && SetBy(b, r, token, now)
    ensures SetBy(a, r, token, now)
  {
  }

  /** In a poll that does not raise, the last line that sets a key of the store decides its record. */
  lemma {:induction false} LastLineWins(d: map<Key, FieldRecord>, lines: seq<string>, now: real, i: nat, k: Key)
    requires k in d && i < |lines| && Sets(lines[i], k)
    requires forall j | i < j < |lines| :: !Sets(lines[j], k)
    requires ApplyLines(d, lines, now).failure.None?
    ensures SetBy(d[k], ApplyLines(d, lines, now).data[k], Split(lines[i], "\t")[1], now)
    decreases |lines|
  {
    var last := |lines| - 1;
    var prefix := lines[..last];
    var o := ApplyLines(d, prefix, now);
    var token := Split(lines[i], "\t")[1];
    ApplyLast(d, lines, now);
    NextClean(o, lines[last], now);
    var r := Step(o.data, lines[last], now).value[k];
    assert ApplyLines(d, lines, now).data[k] == r;
    if i < last {
      assert prefix[i] == lines[i];
      LastLineWins(d, prefix, now, i, k);
      StepKeeps(o.data, lines[last], now, k);
      assert SetBy(d[k], o.data[k], token, now);
    } else {
      StepSets(o.data, lines[last], now, k);
      ApplyLinesShape(d, prefix, now, k);
      SetByShape(d[k], o.data[k], r, token, now);
    }
  }

  /** Unlike the first-generation reader, even the last line of a poll is applied. */
  lemma SingleLineApplied(d: map<Key, FieldRecord>, k: Key, v: string, now: real)
    requires k in d && d[k].value.Text? && '\t' !in v
    ensures ApplyLines(d, [Name(k) + "\t" + v], now).failure.None?
    ensures ApplyLines(d, [Name(k) + "\t" + v], now).data == d[k := d[k].(value := Text(v), lastUpdate := now)]
  {
    KeyHasNoTab(k);
    NameKeyOf(k);
    SplitTabPair(Name(k), v);
    assert [Name(k) + "\t" + v][..0] == [];
  }

  /** A non-numeric token for a numeric field makes the poll raise at that line, keeping what came before. */
  lemma InvalidNumberRaises(d: map<Key, FieldRecord>, before: seq<string>, k: Key, v: string, after: seq<string>, now: real)
    requires k in d && d[k].value.Num? && '\t' !in v && ParseDecimal(v).None?
    requires ApplyLines(d, before, now).failure.None?
    ensures ApplyLines(d, before + [Name(k) + "\t" + v] + after, now).failure == Some(InvalidDecimal(k, v))
    ensures ApplyLines(d, before + [Name(k) + "\t" + v] + after, now).data == ApplyLines(d, before, now).data
  {
    var lines := before + [Name(k) + "\t" + v] + after;
    KeyHasNoTab(k);
    NameKeyOf(k);
    SplitTabPair(Name(k), v);
    ApplyLinesShape(d, before, now, k);
    assert lines[..|before| + 1][..|before|] == before;
    FailureSticks(d, lines, |before| + 1, now);
  }

  /** A line with an unknown key or without a tab changes no record, adds no key and is reported. */
  lemma BadLineChangesNothing(d: map<Key, FieldRecord>, line: string, now: real)
    requires var f := Split(line, "\t"); !(|f| > 1 && Known(d, f[0]))
    ensures ApplyLines(d, [line], now) == Outcome(d, LineWarnings(d, line), None)
    ensures |LineWarnings(d, line)| == 1
  {
    assert [line][..0] == [];
  }

  /** The line has a key of the store, a value token, and a number for a numeric field. */
  ghost predicate GoodLine(d: map<Key, FieldRecord>, line: string)
  {
    var f := Split(line, "\t");
    |f| > 1 && Known(d, f[0]) && (d[KeyOf(f[0]).value].value.Num? ==> ParseDecimal(f[1]).Some?)
  }

  /** A poll of good lines neither raises nor warns. */
  lemma {:induction false} GoodLinesApplyCleanly(d: map<Key, FieldRecord>, lines: seq<string>, now: real)
    requires forall j | 0 <= j < |lines| :: GoodLine(d, lines[j])
    ensures ApplyLines(d, lines, now).failure.None?
    ensures ApplyLines(d, lines, now).warnings == []
    decreases |lines|
  {
    if lines != [] {
      var prefix := lines[..|lines| - 1];
      var last := lines[|lines| - 1];
      assert forall j | 0 <= j < |prefix| :: prefix[j] == lines[j];
      GoodLinesApplyCleanly(d, prefix, now);
      assert GoodLine(d, last);
      ApplyLinesShape(d, prefix, now, KeyOf(Split(last, "\t")[0]).value);
    }
  }

  /** A fresh store is not ready: its product id, firmware and serial number are empty. */
  lemma InitialNotReady(now: real)
    ensures !Ready(InitialData(now))
  {
  }

  /** A line written by the simulation splits into its key's name and its value and is good for the store. */
  lemma SimLineIsGood(d: map<Key, FieldRecord>, k: Key, line: string)
    requires Conforms(d) && SimLine(k, line)
    ensures Split(line, "\t") == [Name(k), line[|Name(k)| + 1..]]
    ensures Sets(line, k)
    ensures GoodLine(d, line)
  {
    var v := line[|Name(k)| + 1..];
    var g := Generator(k, Template(k));
    NumericKeysGetRanges(k);
    FixedTextsClean(k);
    ChoicesClean(k);
    NameKeyOf(k);
    assert line == Name(k) + "\t" + v;
    KeyHasNoTab(k);
    assert '\t' !in v by {
      if g.Range? {
        var n: int :| g.lo <= n < g.hi && v == IntToString(n);
        IntToStringNoTab(n);
      }
    }
    SplitTabPair(Name(k), v);
    if d[k].value.Num? {
      var n: int :| g.lo <= n < g.hi && v == IntToString(n);
      ParseIntToString(n);
    }
  }

  lemma {:induction false} EmittedKeysConcat(a: seq<Key>, b: seq<Key>)
    ensures EmittedKeys(a + b) == EmittedKeys(a) + EmittedKeys(b)
    decreases |b|
  {
    if b == [] {
      assert a + b == a;
    } else {
      assert (a + b)[..|a + b| - 1] == a + b[..|b| - 1];
      EmittedKeysConcat(a, b[..|b| - 1]);
    }
  }

  /** The keys of `a` that get a line come first among those of `a + b`. */
  lemma EmittedKeysPrefix(a: seq<Key>, b: seq<Key>)
    ensures |EmittedKeys(a)| <= |EmittedKeys(a + b)| && EmittedKeys(a + b)[..|EmittedKeys(a)|] == EmittedKeys(a)
  {
    EmittedKeysConcat(a, b);
  }

  /** The product id, the firmware version and the serial number all get a line. */
  lemma IdentityEmitted()
    ensures EmittedKeys([PID, FW, SER]) == [PID, FW, SER]
  {
    SilentKeys(PID);
    SilentKeys(FW);
    SilentKeys(SER);
    assert [PID, FW, SER][..2] == [PID, FW] && [PID, FW][..1] == [PID] && [PID][..0] == [];
  }

  /** A simulated poll starts with the product id, the firmware version and the serial number. */
  lemma SimulationStartsWithIdentity()
    ensures |EmittedKeys(KeyOrder)| >= 3 && EmittedKeys(KeyOrder)[..3] == [PID, FW, SER]
  {
    assert KeyOrder == [PID, FW, SER] + KeyOrder[3..];
    IdentityEmitted();
    EmittedKeysPrefix([PID, FW, SER], KeyOrder[3..]);
  }

  /** No simulated line is for the day number or the checksum. */
  lemma SimulationSkipsDayAndChecksum(buff: seq<string>)
    requires SimulatedBuffer(buff)
    ensures forall j | 0 <= j < |buff| :: !Sets(buff[j], HSDS) && !Sets(buff[j], Checksum)
  {
    var keys := EmittedKeys(KeyOrder);
    var d := InitialData(0.0);
    forall j | 0 <= j < |buff|
      ensures !Sets(buff[j], HSDS) && !Sets(buff[j], Checksum)
    {
      SimLineIsGood(d, keys[j], buff[j]);
      SilentKeys(keys[j]);
    }
  }

  /** The last line at or after `i` that sets `k`. */
  ghost function LastSetter(lines: seq<string>, k: Key, i: nat): (j: nat)
    requires i < |lines| && Sets(lines[i], k)
    ensures i <= j < |lines| && Sets(lines[j], k)
    ensures forall m | j < m < |lines| :: !Sets(lines[m], k)
    decreases |lines| - i
  {
    if exists m | i < m < |lines| :: Sets(lines[m], k) then
      var m :| i < m < |lines| && Sets(lines[m], k);
      LastSetter(lines, k, m)
    else i
  }

  /** A text field that some line sets, always to a non-empty token, ends non-empty. */
  lemma SetTextStaysNonEmpty(d: map<Key, FieldRecord>, lines: seq<string>, now: real, i: nat, k: Key)
    requires k in d && d[k].value.Text? && i < |lines| && Sets(lines[i], k)
    requires forall j | 0 <= j < |lines| && Sets(lines[j], k) :: Split(lines[j], "\t")[1] != ""
    requires ApplyLines(d, lines, now).failure.None?
    ensures ApplyLines(d, lines, now).data[k].value != Text("")
  {
    var j := LastSetter(lines, k, i);
    LastLineWins(d, lines, now, j, k);
  }

  /** Every simulated line is good for the store and sets the key it was written for. */
  lemma SimulatedLinesGood(d: map<Key, FieldRecord>, buff: seq<string>)
    requires Conforms(d) && SimulatedBuffer(buff)
    ensures forall j | 0 <= j < |buff| :: GoodLine(d, buff[j]) && Sets(buff[j], EmittedKeys(KeyOrder)[j])
  {
    var keys := EmittedKeys(KeyOrder);
    forall j | 0 <= j < |buff|
      ensures GoodLine(d, buff[j]) && Sets(buff[j], keys[j])
    {
      SimLineIsGood(d, keys[j], buff[j]);
    }
  }

  /** The identity lines of a simulated poll carry their fixed, non-empty values. */
  lemma SimulatedIdentityNonEmpty(buff: seq<string>, k: Key)
    requires SimulatedBuffer(buff) && (k == PID || k == FW || k == SER)
    ensures forall j | 0 <= j < |buff| && Sets(buff[j], k) :: Split(buff[j], "\t")[1] != ""
  {
    var keys := EmittedKeys(KeyOrder);
    var d := InitialData(0.0);
    forall j | 0 <= j < |buff| && Sets(buff[j], k)
      ensures Split(buff[j], "\t")[1] != ""
    {
      SimLineIsGood(d, keys[j], buff[j]);
      KeyOfExact(Name(keys[j]), k);
      FixedTextsClean(k);
    }
  }

  /** The first three lines of a simulated poll set the product id, the firmware version and the serial number. */
  lemma SimulatedIdentitySet(buff: seq<string>)
    requires SimulatedBuffer(buff)
    ensures |buff| >= 3 && Sets(buff[0], PID) && Sets(buff[1], FW) && Sets(buff[2], SER)
  {
    var keys := EmittedKeys(KeyOrder);
    SimulationStartsWithIdentity();
    assert keys[0] == PID && keys[1] == FW && keys[2] == SER by {
      assert keys[..3][0] == keys[0] && keys[..3][1] == keys[1] && keys[..3][2] == keys[2];
    }
    SimulatedLinesGood(InitialData(0.0), buff);
  }

  /** A text field set by a simulated poll ends non-empty if the poll writes it a non-empty value. */
  lemma SimulatedTextSet(d: map<Key, FieldRecord>, buff: seq<string>, now: real, i: nat, k: Key)
    requires Conforms(d) && SimulatedBuffer(buff) && ApplyLines(d, buff, now).failure.None?
    requires (k == PID || k == FW || k == SER) && i < |buff| && Sets(buff[i], k)
    ensures ApplyLines(d, buff, now).data[k].value != Text("")
  {
    assert SameShape(Template(k), d[k]);
    SimulatedIdentityNonEmpty(buff, k);
    SetTextStaysNonEmpty(d, buff, now, i, k);
  }

  /** After a simulated poll nothing raised, no line was reported and the configuration is ready. */
  lemma SimulatedUpdateReady(d: map<Key, FieldRecord>, buff: seq<string>, now: real)
    requires Conforms(d) && SimulatedBuffer(buff)
    ensures ApplyLines(d, buff, now).failure.None?
    ensures ApplyLines(d, buff, now).warnings == []
    ensures Ready(ApplyLines(d, buff, now).data)
  {
    SimulatedLinesGood(d, buff);
    GoodLinesApplyCleanly(d, buff, now);
    SimulatedIdentitySet(buff);
    SimulatedTextSet(d, buff, now, 0, PID);
    SimulatedTextSet(d, buff, now, 1, FW);
    SimulatedTextSet(d, buff, now, 2, SER);
  }

  /** Every key that has a generator is emitted. */
  lemma {:induction false} EmittedContains(keys: seq<Key>, k: Key)
    requires k in keys && !Generator(k, Template(k)).NoLine?
    ensures k in EmittedKeys(keys)
    decreases |keys|
  {
    var last := keys[|keys| - 1];
    if last != k {
      assert k in keys[..|keys| - 1] by {
        var j :| 0 <= j < |keys| && keys[j] == k;
        assert keys[..|keys| - 1][j] == k;
      }
      EmittedContains(keys[..|keys| - 1], k);
    }
  }

  /** Some line of a simulated poll sets every key other than the day number and the checksum. */
  lemma SimulatedKeySet(buff: seq<string>, k: Key)
    requires SimulatedBuffer(buff) && k != HSDS && k != Checksum
    ensures exists j | 0 <= j < |buff| :: Sets(buff[j], k)
  {
    var keys := EmittedKeys(KeyOrder);
    KeyOrderComplete(k);
    SilentKeys(k);
    EmittedContains(KeyOrder, k);
    var j :| 0 <= j < |keys| && keys[j] == k;
    SimLineIsGood(InitialData(0.0), keys[j], buff[j]);
  }

  /** After a simulated poll every text field holds a value its generator can produce. */
  lemma SimulatedTextValue(d: map<Key, FieldRecord>, buff: seq<string>, now: real, k: Key)
    requires Conforms(d) && SimulatedBuffer(buff) && d[k].value.Text? && k != HSDS && k != Checksum
    ensures ApplyLines(d, buff, now).data[k].value.Text?
    ensures Generates(Generator(k, Template(k)), ApplyLines(d, buff, now).data[k].value.text)
  {
    var keys := EmittedKeys(KeyOrder);
    SimulatedKeySet(buff, k);
    var j :| 0 <= j < |buff| && Sets(buff[j], k);
    SimulatedUpdateReady(d, buff, now);
    var m := LastSetter(buff, k, j);
    LastLineWins(d, buff, now, m, k);
    SimLineIsGood(d, keys[m], buff[m]);
    KeyOfExact(Name(keys[m]), k);
  }
}
