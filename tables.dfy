/**
 * The VE.Direct code tables of the SmartSolar charger: product id, state of
 * operation, tracker mode, off reason and error code, each mapping the raw
 * code string of the text protocol to its description.
 */
module Tables {
  import opened Wrappers

  const PidTable: map<string, string> := map["0xA060" := "SmartSolar MPPT 100|20 48V"]

  const CsTable: map<string, string> := map[
    "0" := "Off",
    "2" := "Fault",
    "3" := "Bulk",
    "4" := "Absorption",
    "5" := "Float",
    "6" := "Storage",
    "7" := "Equalize (manual)",
    "9" := "Inverting",
    "11" := "Power supply",
    "245" := "Starting-up",
    "246" := "Repeated absorption",
    "247" := "Auto equalize / Recondition",
    "248" := "BatterySafe",
    "252" := "External Control"]

  const MpptTable: map<string, string> := map[
    "0" := "Off",
    "1" := "Voltage or current limited",
    "2" := "MPP Tracker active"]

  const OrTable: map<string, string> := map[
    "0x00000000" := "No reason",
    "0x00000001" := "No input power",
    "0x00000002" := "Switched off (power switch)",
    "0x00000004" := "Switched off (device mode register) ",
    "0x00000008" := "Remote input",
    "0x00000010" := "Protection active ",
    "0x00000020" := "Paygo",
    "0x00000040" := "BMS",
    "0x00000080" := "Engine shutdown",
    "0x00000100" := "Analysing input voltage"]

  const ErrTable: map<string, string> := map[
    "0" := "No error",
    "2" := "Battery voltage too high",
    "17" := "Charger temperature too high",
    "18" := "Charger over current",
    "19" := "Charger current reversed",
    "20" := "Bulk time limit exceeded",
    "21" := "Current sensor issue (sensor bias/sensor broken)",
    "26" := "Terminals overheated",
    "28" := "Converter issue (dual converter models only)",
    "33" := "Input voltage too high (solar panel)",
    "34" := "Input current too high (solar panel)",
    "38" := "Input shutdown (due to excessive battery voltage)",
    "39" := "Input shutdown (due to current flow during off mode)",
    "65" := "Lost communication with one of devices",
    "66" := "Synchronised charging device configuration issue",
    "67" := "BMS connection lost",
    "68" := "Network misconfigured",
    "116" := "Factory calibration data lost",
    "117" := "Invalid/incompatible firmware",
    "119" := "User settings invalid"]

  /** `table[raw] if raw in table.keys() else None`: an exact match on the code string. */
  function Lookup(table: map<string, string>, raw: string): (r: Option<string>)
    ensures r.Some? <==> raw in table
    ensures r.Some? ==> r.value == table[raw]
  {
    if raw in table then Some(table[raw]) else None
  }

  /** A code table has at least the code `sample`, and none of its codes contains a tab. */
  predicate Drawable(table: map<string, string>, sample: string)
  {
    sample in table && forall c | c in table :: '\t' !in c
  }

  lemma PidCodesDrawable()
    ensures Drawable(PidTable, "0xA060")
  {
  }

  lemma CsCodesDrawable()
    ensures Drawable(CsTable, "0")
  {
  }

  lemma MpptCodesDrawable()
    ensures Drawable(MpptTable, "0")
  {
  }

  lemma OrCodesDrawable()
    ensures Drawable(OrTable, "0x00000000")
  {
  }

  /** No table has an entry for the empty code. */
  lemma EmptyCodeUnknown()
    ensures "" !in PidTable && "" !in CsTable && "" !in MpptTable && "" !in OrTable
  {
  }

  /** The state-of-operation table has no entry for the codes 1, 8 and 10. */
  lemma CsTableGaps()
    ensures Lookup(CsTable, "1") == None
    ensures Lookup(CsTable, "8") == None
    ensures Lookup(CsTable, "10") == None
    ensures Lookup(CsTable, "3") == Some("Bulk")
  {
  }

  /**
   * The off-reason code is matched as a whole string: a combination of two
   * reason bits, or the same number written without leading zeros, has no
   * description.
   */
  lemma OffReasonIsNotBitmask()
    ensures Lookup(OrTable, "0x00000001") == Some("No input power")
    ensures Lookup(OrTable, "0x00000002") == Some("Switched off (power switch)")
    ensures Lookup(OrTable, "0x00000003") == None
    ensures Lookup(OrTable, "0x1") == None
  {
  }
}
