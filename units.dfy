/**
 * The weight unit of a catalog unit (internal/entity/unit.go): a Go int whose
 * two meaningful values are Gram and Kilogram, stored in the database as the
 * text "G" or "KG".
 */
module Units {
  import opened Wrappers
  import opened Foreign

  /** Gram = iota + 1 and Kilogram the next one, so the zero WeightUnit names no unit. */
  const Gram: int := 1
  const Kilogram: int := 2

  predicate IsUnit(wu: int)
  {
    wu == Gram || wu == Kilogram
  }

  /** (*WeightUnit).String */
  function String(wu: int): (s: string)
    ensures IsUnit(wu) <==> s != "UNKNOWN"
  {
    if wu == Gram then "G"
    else if wu == Kilogram then "KG"
    else "UNKNOWN"
  }

  /** WeightUnit.Value, the driver.Value written to the database: never an error. */
  function Value(wu: int): (r: Result<string, ScanError>)
    ensures r.Success?
  {
    Success(String(wu))
  }

  /** What database/sql hands to Scan: NULL, a string, a byte slice, or something else. */
  datatype ScanValue = NullValue | Text(s: string) | RawBytes(b: Bytes) | OtherType

  datatype ScanError = CannotScanType | InvalidWeightUnit(text: string)

  /** string(v) for a byte slice: one character per byte. */
  function BytesText(b: Bytes): (s: string)
    ensures |s| == |b|
    ensures forall i :: 0 <= i < |b| ==> s[i] as int == b[i] as int
  {
    seq(|b|, i requires 0 <= i < |b| => b[i] as int as char)
  }

  /** The unit a text names: only "G" and "KG", case-sensitive. */
  function UnitOfText(s: string): (r: Option<int>)
    ensures r.Some? <==> s == "G" || s == "KG"
    ensures r.Some? ==> IsUnit(r.value) && String(r.value) == s
  {
    if s == "G" then Some(Gram)
    else if s == "KG" then Some(Kilogram)
    else None
  }

  /**
   * (*WeightUnit).Scan: the error it returns and the receiver's value after it,
   * given its value before.
   */
  function ScanSpec(current: int, value: ScanValue): (int, Option<ScanError>)
  {
    match value
    case NullValue => (current, None)
    case OtherType => (current, Some(CannotScanType))
    case Text(s) =>
      if UnitOfText(s).Some? then (UnitOfText(s).value, None) else (current, Some(InvalidWeightUnit(s)))
    case RawBytes(b) =>
      var s := BytesText(b);
      if UnitOfText(s).Some? then (UnitOfText(s).value, None) else (current, Some(InvalidWeightUnit(s)))
  }

  /** A WeightUnit variable that Scan writes through its receiver. */
  class WeightUnitVar {
    var unit: int

    constructor (initial: int)
      ensures unit == initial
    {
      unit := initial;
    }

    method Scan(value: ScanValue) returns (err: Option<ScanError>)
      modifies this
      ensures (unit, err) == ScanSpec(old(unit), value)
    {
      if value.NullValue? {
        return None;
      }
      var str: string;
      match value {
        case Text(s) => str := s;
        case RawBytes(b) => str := BytesText(b);
        case OtherType => return Some(CannotScanType);
      }
      if str == "G" {
        unit := Gram;
      } else if str == "KG" {
        unit := Kilogram;
      } else {
        return Some(InvalidWeightUnit(str));
      }
      err := None;
    }
  }

  /** Scan accepts a value exactly when it is NULL or the text (or bytes) "G" or "KG". */
  lemma ScanAccepts(current: int, value: ScanValue)
    ensures ScanSpec(current, value).1.None? <==>
      (value.NullValue?
      || (value.Text? && (value.s == "G" || value.s == "KG"))
      || (value.RawBytes? && (value.b == [0x47] || value.b == [0x4B, 0x47])))
  {
    if value.RawBytes? {
      var s := BytesText(value.b);
      if s == "G" {
        assert value.b[0] as int == 0x47;
      } else if s == "KG" {
        assert value.b[0] as int == 0x4B && value.b[1] as int == 0x47;
      }
      if value.b == [0x47] {
        assert s == "G";
      } else if value.b == [0x4B, 0x47] {
        assert s == "KG";
      }
    }
  }

  /** Scanning NULL leaves the receiver as it was, with no error. */
  lemma ScanNullKeepsReceiver(current: int)
    ensures ScanSpec(current, NullValue) == (current, None)
  {
  }

  /** A failed Scan never changes the receiver. */
  lemma ScanFailureKeepsReceiver(current: int, value: ScanValue)
    ensures ScanSpec(current, value).1.Some? ==> ScanSpec(current, value).0 == current
  {
  }

  /** A successful Scan of a non-NULL value leaves a real unit, never the zero value. */
  lemma ScanYieldsUnit(current: int, value: ScanValue)
    requires !value.NullValue?
    ensures ScanSpec(current, value).1.None? ==> IsUnit(ScanSpec(current, value).0) && ScanSpec(current, value).0 != 0
  {
  }

  /**
   * The database round trip: what Value writes scans back to the same unit, for
   * Gram and Kilogram, and the text of any other value is refused.
   */
  lemma ValueRoundTrip(wu: int, current: int)
    ensures IsUnit(wu) ==> ScanSpec(current, Text(Value(wu).value)) == (wu, None)
    ensures !IsUnit(wu) ==> ScanSpec(current, Text(Value(wu).value)) == (current, Some(InvalidWeightUnit("UNKNOWN")))
  {
  }

  /** entity.Unit */
  datatype Unit = Unit(id: Uuid, isApiece: bool, weightUnit: int, value: int)

  datatype NewUnitError = InvalidWeightUnitText(text: string)

  /**
   * entity.NewUnit: scans the text into a zero WeightUnit, and on success builds
   * a unit with no id that carries the other two arguments unchanged.
   */
  function NewUnit(isApiece: bool, weightUnit: string, value: int): (r: Result<Unit, NewUnitError>)
    ensures r.Success? <==> weightUnit == "G" || weightUnit == "KG"
    ensures r.Success? ==> (r.value.id == Nil && r.value.isApiece == isApiece && r.value.value == value
      && IsUnit(r.value.weightUnit) && String(r.value.weightUnit) == weightUnit)
    ensures r.Failure? ==> r.error == InvalidWeightUnitText(weightUnit)
  {
    var (wu, err) := ScanSpec(0, Text(weightUnit));
    if err.Some? then Failure(InvalidWeightUnitText(weightUnit))
    else Success(Unit(Nil, isApiece, wu, value))
  }
}
