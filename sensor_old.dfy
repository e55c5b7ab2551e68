/**
 * The display of one VE.Direct field record as a sensor: a Decimal value is
 * scaled by its unit conversion and rounded to thousandths, a coded value is
 * looked up in its table, any other text is shown as it is.
 */
module SensorOld {
  import opened Wrappers
  import opened Decimals
  import opened Tables
  import VD = VEDirect

  /** What a sensor shows: a number or a text. */
  datatype Shown = Number(x: real) | Label(text: string)

  /** The `KeyError` a dictionary subscript raises, with the missing key. */
  datatype DisplayError = KeyError(key: string)

  /**
   * `native_value`: the Decimal test comes first, then the value table, then
   * the raw text.
   */
  function NativeValue(r: VD.FieldRecord): (v: Result<Shown, DisplayError>)
    ensures r.value.Num? && r.unitConversion.Some? ==> v == Success(Number(Quantize(r.value.amount * r.unitConversion.value, Thousandth)))
    ensures r.value.Num? && r.unitConversion.None? ==> v == Failure(KeyError("unit_conversion"))
    ensures r.value.Text? && r.valueList.Some? ==>
      (r.value.text in r.valueList.value <==> v.Success?)
      && (v.Success? ==> v.value == Label(r.valueList.value[r.value.text]))
      && (v.Failure? ==> v.error == KeyError(r.value.text))
    ensures r.value.Text? && r.valueList.None? ==> v == Success(Label(r.value.text))
  {
    if r.value.Num? then
      if r.unitConversion.Some? then Success(Number(Quantize(r.value.amount * r.unitConversion.value, Thousandth)))
      else Failure(KeyError("unit_conversion"))
    else if r.valueList.Some? then
      if r.value.text in r.valueList.value then Success(Label(r.valueList.value[r.value.text]))
      else Failure(KeyError(r.value.text))
    else Success(Label(r.value.text))
  }

  /** `icon`: the record's own icon for a non-Decimal value, otherwise the entity's default, none. */
  function Icon(r: VD.FieldRecord): (icon: Option<string>)
    ensures icon.Some? <==> r.value.Text? && r.icon.Some?
    ensures icon.Some? ==> icon == r.icon
  {
    if r.value.Text? && r.icon.Some? then r.icon else None
  }

  /** The attributes `__init__` copies from the record: the device class and the unit, each only when present. */
  datatype Attributes = Attributes(name: string, deviceClass: Option<string>, unit: Option<string>)

  function SensorAttributes(r: VD.FieldRecord): (a: Attributes)
    ensures a.name == r.name
    ensures a.deviceClass.Some? <==> r.deviceClass.Some?
    ensures a.unit.Some? <==> r.unit.Some?
    ensures a.deviceClass.Some? ==> a.deviceClass == r.deviceClass
    ensures a.unit.Some? ==> a.unit == r.unit
  {
    Attributes(r.name, r.deviceClass, r.unit)
  }

  /** A shown number is a whole number of thousandths, never more than half a thousandth from the exact product. */
  lemma NumberIsRounded(r: VD.FieldRecord)
    requires r.value.Num? && r.unitConversion.Some?
    ensures NativeValue(r).Success? && NativeValue(r).value.Number?
    ensures OnGrid(NativeValue(r).value.x, Thousandth)
    ensures -0.0005 <= NativeValue(r).value.x - r.value.amount * r.unitConversion.value <= 0.0005
  {
  }

  /** The Decimal test takes precedence: a numeric record is scaled even if it also has a value table. */
  lemma DecimalBeforeTable(r: VD.FieldRecord)
    requires r.value.Num? && r.unitConversion.Some? && r.valueList.Some?
    ensures NativeValue(r) == Success(Number(Quantize(r.value.amount * r.unitConversion.value, Thousandth)))
  {
  }

  /** In a store shaped by its templates, no numeric record lacks its unit conversion. */
  lemma StoreNumbersScale(d: map<VD.Key, VD.FieldRecord>, k: VD.Key)
    requires VD.Conforms(d) && d[k].value.Num?
    ensures NativeValue(d[k]).Success? && NativeValue(d[k]).value.Number?
  {
    assert VD.SameShape(VD.Template(k), d[k]);
  }

  /** Before the first poll the coded fields hold the empty text, which no table has: showing them raises. */
  lemma FreshCodesRaise(now: real)
    ensures NativeValue(VD.InitialData(now)[VD.CS]) == Failure(KeyError(""))
    ensures NativeValue(VD.InitialData(now)[VD.PID]) == Failure(KeyError(""))
  {
    var d := VD.InitialData(now);
    assert VD.CS in d && VD.PID in d;
    EmptyCodeUnknown();
    assert d[VD.CS].value == VD.Text("") && d[VD.CS].valueList == Some(CsTable);
    assert d[VD.PID].value == VD.Text("") && d[VD.PID].valueList == Some(PidTable);
  }

  /** Only the product id, the state of operation, the tracker mode and the off reason have a value table. */
  lemma CodedKeys(k: VD.Key)
    ensures VD.Template(k).valueList.Some? <==> k == VD.PID || k == VD.CS || k == VD.MPPT || k == VD.OR
  {
    match k
    case PID =>
    case FW =>
    case SER =>
    case V =>
    case I =>
    case VPV =>
    case PPV =>
    case CS =>
    case MPPT =>
    case OR =>
    case H19 =>
    case H20 =>
    case H22 =>
    case H21 =>
    case H23 =>
    case HSDS =>
    case Checksum =>
    case IL =>
  }

  /** A code the simulation can write for a coded field is in that field's table. */
  lemma SimulatedCodeInTable(k: VD.Key, text: string)
    requires k == VD.PID || k == VD.CS || k == VD.MPPT || k == VD.OR
    requires VD.Generates(VD.Generator(k, VD.Template(k)), text)
    ensures VD.Template(k).valueList.Some? && text in VD.Template(k).valueList.value
  {
    VD.ChoiceKeys(k);
    if k == VD.PID {
      PidCodesDrawable();
    }
  }

  /** After a simulated poll every record can be shown: every code drawn is one its table has. */
  lemma SimulatedPollDisplays(d: map<VD.Key, VD.FieldRecord>, buff: seq<string>, now: real, k: VD.Key)
    requires VD.Conforms(d) && VD.SimulatedBuffer(buff)
    ensures NativeValue(VD.ApplyLines(d, buff, now).data[k]).Success?
  {
    var out := VD.ApplyLines(d, buff, now).data;
    VD.ConformsAfter(d, buff, now);
    assert VD.SameShape(VD.Template(k), out[k]) && VD.SameShape(VD.Template(k), d[k]);
    if out[k].value.Num? {
      StoreNumbersScale(out, k);
    } else {
      CodedKeys(k);
      if k == VD.PID || k == VD.CS || k == VD.MPPT || k == VD.OR {
        VD.SimulatedTextValue(d, buff, now, k);
        SimulatedCodeInTable(k, out[k].value.text);
      }
      assert out[k].valueList == VD.Template(k).valueList;
    }
  }
}
