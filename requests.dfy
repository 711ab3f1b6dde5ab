/**
 * The request-body validators of the catalog: each Bind runs its checks in a
 * fixed order and reports the first one that fails.
 */
module Requests {
  import opened Wrappers
  import opened Foreign
  import Units

  datatype BindError =
    | ValueNotPositive
    | InvalidWeightUnit(text: string)
    | NameRequired
    | ColorRequired
    | InvalidColorFormat
    | RatingOutOfRange

  /** unitSchemas.RequestModel */
  datatype UnitRequest = UnitRequest(isApiece: bool, weightUnit: string, value: int)

  /**
   * unitSchemas.(*RequestModel).Bind: the value must be positive, then the unit
   * text must scan into a WeightUnit; IsApiece is never looked at.
   */
  function BindUnitRequest(rm: UnitRequest): (err: Option<BindError>)
    ensures err.None? <==> rm.value > 0 && (rm.weightUnit == "G" || rm.weightUnit == "KG")
    ensures rm.value <= 0 ==> err == Some(ValueNotPositive)
    ensures rm.value > 0 && err.Some? ==> err == Some(InvalidWeightUnit(rm.weightUnit))
  {
    if rm.value <= 0 then Some(ValueNotPositive)
    else if Units.ScanSpec(0, Units.Text(rm.weightUnit)).1.Some? then Some(InvalidWeightUnit(rm.weightUnit))
    else None
  }

  /** A unit request that Bind accepts is one NewUnit accepts, with the same fields. */
  lemma BoundUnitRequestBuildsUnit(rm: UnitRequest)
    requires BindUnitRequest(rm).None?
    ensures Units.NewUnit(rm.isApiece, rm.weightUnit, rm.value).Success?
    ensures Units.NewUnit(rm.isApiece, rm.weightUnit, rm.value).value.value == rm.value > 0
  {
  }

  /** tagSchemas.RequestModel */
  datatype TagRequest = TagRequest(name: string, color: string)

  predicate IsHexDigit(c: char)
  {
    ('0' <= c <= '9') || ('a' <= c <= 'f') || ('A' <= c <= 'F')
  }

  /** `(?:[0-9a-fA-F]{3})` repeated exactly `count` times, and nothing else. */
  predicate HexGroups(s: string, count: nat)
    decreases count
  {
    if count == 0 then s == ""
    else |s| >= 3 && IsHexDigit(s[0]) && IsHexDigit(s[1]) && IsHexDigit(s[2]) && HexGroups(s[3..], count - 1)
  }

  /**
   * `^#(?:[0-9a-fA-F]{3}){1,2}$` as Go's regexp matches it: anchored at both
   * ends of the whole text, a '#' and then one or two groups of three hex digits.
   */
  predicate MatchesColorPattern(s: string)
  {
    |s| >= 1 && s[0] == '#' && (HexGroups(s[1..], 1) || HexGroups(s[1..], 2))
  }

  lemma {:induction false} HexGroupsShape(s: string, count: nat)
    ensures HexGroups(s, count) <==> |s| == 3 * count && forall i :: 0 <= i < |s| ==> IsHexDigit(s[i])
    decreases count
  {
    if count > 0 && |s| >= 3 {
      HexGroupsShape(s[3..], count - 1);
      if |s| == 3 * count && forall i :: 0 <= i < |s| ==> IsHexDigit(s[i]) {
        assert forall i :: 0 <= i < |s[3..]| ==> s[3..][i] == s[i + 3];
      }
      if HexGroups(s, count) {
        forall i | 0 <= i < |s|
          ensures IsHexDigit(s[i])
        {
          if i >= 3 {
            assert s[i] == s[3..][i - 3];
          }
        }
      }
    }
  }

  /** The colour pattern accepts exactly '#' followed by three or six hex digits of either case. */
  lemma ColorPatternMeaning(s: string)
    ensures MatchesColorPattern(s) <==>
      (|s| == 4 || |s| == 7) && s[0] == '#' && forall i :: 1 <= i < |s| ==> IsHexDigit(s[i])
  {
    if |s| >= 1 {
      HexGroupsShape(s[1..], 1);
      HexGroupsShape(s[1..], 2);
      assert forall i :: 1 <= i < |s| ==> s[i] == s[1..][i - 1];
    }
  }

  lemma ColorExamples()
    ensures MatchesColorPattern("#abc") && MatchesColorPattern("#A1B2C3")
    ensures !MatchesColorPattern("#abcd") && !MatchesColorPattern("abc")
    ensures !MatchesColorPattern("#12345") && !MatchesColorPattern("#ggg")
  {
    ColorPatternMeaning("#abc");
    ColorPatternMeaning("#A1B2C3");
    ColorPatternMeaning("#abcd");
    ColorPatternMeaning("#12345");
    ColorPatternMeaning("#ggg");
    assert !IsHexDigit("#ggg"[1]);
  }

  /**
   * tagSchemas.(*RequestModel).Bind: name required, then colour required, then
   * the colour must match the pattern.
   */
  function BindTagRequest(rm: TagRequest): (err: Option<BindError>)
    ensures err.None? <==> rm.name != "" && MatchesColorPattern(rm.color)
    ensures rm.name == "" ==> err == Some(NameRequired)
    ensures rm.name != "" && rm.color == "" ==> err == Some(ColorRequired)
  {
    if rm.name == "" then Some(NameRequired)
    else if rm.color == "" then Some(ColorRequired)
    else if !MatchesColorPattern(rm.color) then Some(InvalidColorFormat)
    else None
  }

  /** teaSchemas.RequestModel; the prices are float64 values that no check reads. */
  datatype TeaRequest = TeaRequest(
    name: string, servePrice: real, unitPrice: real, description: string,
    categoryId: Uuid, tagIds: seq<Uuid>, isHidden: bool)

  /** teaSchemas.(*RequestModel).Bind: only the name is required. */
  function BindTeaRequest(tr: TeaRequest): (err: Option<BindError>)
    ensures err.None? <==> tr.name != ""
    ensures err.Some? ==> err == Some(NameRequired)
  {
    if tr.name == "" then Some(NameRequired) else None
  }

  /** Prices, description, category, tag ids and the hidden flag never decide the outcome. */
  lemma TeaBindReadsOnlyName(a: TeaRequest, b: TeaRequest)
    requires a.name == b.name
    ensures BindTeaRequest(a) == BindTeaRequest(b)
  {
  }

  /** teaSchemas.Evaluation: a float64 rating and a free note. */
  datatype Evaluation = Evaluation(rating: real, note: string)

  /** teaSchemas.(*Evaluation).Bind: the rating must lie in [1, 10]; the note is never checked. */
  function BindEvaluation(e: Evaluation): (err: Option<BindError>)
    ensures err.None? <==> 1.0 <= e.rating <= 10.0
    ensures err.Some? ==> err == Some(RatingOutOfRange)
  {
    if e.rating < 1.0 || e.rating > 10.0 then Some(RatingOutOfRange) else None
  }

  lemma EvaluationBounds(note: string)
    ensures BindEvaluation(Evaluation(1.0, note)).None? && BindEvaluation(Evaluation(10.0, note)).None?
    ensures BindEvaluation(Evaluation(0.5, note)).Some? && BindEvaluation(Evaluation(10.5, note)).Some?
  {
  }

  /** schemas.TeaRequestModel, the older tea request with a single price. */
  datatype LegacyTeaRequest = LegacyTeaRequest(
    name: string, price: real, description: string, categoryId: Uuid, tagIds: seq<Uuid>)

  /** schemas.(*TeaRequestModel).Bind: only the name is required. */
  function BindLegacyTeaRequest(tr: LegacyTeaRequest): (err: Option<BindError>)
    ensures err.None? <==> tr.name != ""
    ensures err.Some? ==> err == Some(NameRequired)
  {
    if tr.name == "" then Some(NameRequired) else None
  }
}
