/**
 * The offset-based tea list filters: teaSchemas.Filters
 * (internal/schemas/teaSchemas/teaFilter.go) and the older schemas.TeaFilters
 * (internal/schemas/tea.go), whose Validate and Parse are the same statements.
 * Validate reads limit and offset with defaults, then the optional categoryId
 * and name, the tags[] values, isAsc, sortBy and the price[] pair, stopping at
 * the first value it refuses with the fields set so far kept.
 */
module OffsetFilter {
  import opened Wrappers
  import opened Foreign
  import opened QueryParams

  /** The names a sortBy value may take, each mapped to itself. */
  const SortByMapping: map<string, string> := map["name" := "name", "price" := "price"]

  /** A SortByFilter (TeaSortByFilter) variable, which Parse writes through its receiver. */
  class SortByFilter {
    var value: string

    constructor (s: string)
      ensures value == s
    {
      value := s;
    }

    /** (*SortByFilter).String: the stored text. */
    function String(): (s: string)
      reads this
      ensures s == value
    {
      value
    }

    /** (*SortByFilter).Parse: "name" or "price" is stored; anything else is an error and no write. */
    method Parse(s: string) returns (err: Option<FilterError>)
      modifies this
      ensures err.None? <==> s == "name" || s == "price"
      ensures err.None? ==> value == s
      ensures err.Some? ==> err == Some(InvalidSortBy(s)) && value == old(value)
    {
      if s in SortByMapping {
        value := SortByMapping[s];
        return None;
      }
      return Some(InvalidSortBy(s));
    }
  }

  /** The fields of the filter struct; TeaFilters has no userId, which Validate never writes. */
  datatype FilterState = FilterState(
    limit: nat, offset: nat, categoryId: Uuid, name: string, tags: seq<string>,
    minPrice: real, maxPrice: real, sortBy: string, isAsc: bool, userId: Uuid)

  const ZeroFilters: FilterState := FilterState(0, 0, Nil, "", [], 0.0, 0.0, "", false, Nil)

  /** Limit and offset, each with its default. */
  function PagingStage(f: FilterState, q: Query): (g: FilterState)
    ensures g.limit == Default(ParseUint(Get(q, "limit")), 10)
    ensures g.offset == Default(ParseUint(Get(q, "offset")), 0)
    ensures g.(limit := f.limit, offset := f.offset) == f
  {
    f.(limit := Default(ParseUint(Get(q, "limit")), 10), offset := Default(ParseUint(Get(q, "offset")), 0))
  }

  /** The optional categoryId (Nil when it does not parse) and name. */
  function TextStage(f: FilterState, q: Query, lib: Lib): (g: FilterState)
    ensures g.(categoryId := f.categoryId, name := f.name) == f
  {
    var categoryIdStr := Get(q, "categoryId");
    var f1 := if categoryIdStr != "" then f.(categoryId := Default(lib.parseUuid(categoryIdStr), Nil)) else f;
    var nameStr := Get(q, "name");
    if nameStr != "" then f1.(name := nameStr) else f1
  }

  /** The tags[] values: all kept, in order, when every one is a UUID. */
  function TagsStage(f: FilterState, q: Query, lib: Lib): (r: (FilterState, Option<FilterError>))
    ensures r.0.(tags := f.tags) == f
  {
    var tagsStr := Values(q, "tags[]");
    var invalidTag := FirstInvalidUuid(tagsStr, lib);
    if |tagsStr| > 0 && invalidTag.Some? then (f, Some(InvalidTagId(invalidTag.value)))
    else if |tagsStr| > 0 then (f.(tags := tagsStr), None)
    else (f, None)
  }

  /** isAsc, then sortBy. */
  function SortStage(f: FilterState, q: Query): (r: (FilterState, Option<FilterError>))
    ensures r.0.(isAsc := f.isAsc, sortBy := f.sortBy) == f
  {
    var f1 := f.(isAsc := Default(ParseBool(Get(q, "isAsc")), true));
    var sortBy := Get(q, "sortBy");
    if sortBy != "" && sortBy !in SortByMapping then (f1, Some(InvalidSortBy(sortBy)))
    else (if sortBy != "" then f1.(sortBy := sortBy) else f1, None)
  }

  /** price[], whose count guard reads the isAsc parse error. */
  function PriceStage(f: FilterState, q: Query, parseFloat: FloatParser): (r: (FilterState, Outcome))
    ensures r.0.(minPrice := f.minPrice, maxPrice := f.maxPrice) == f
    ensures r.1 != Failed(PageIsZero) && !(r.1.Failed? && r.1.reason.InvalidTagId?)
    ensures r.1.Failed? && r.1.reason.InvalidPrice? ==>
      r.1.reason.value in Values(q, "price[]") && parseFloat(r.1.reason.value).None?
  {
    var step := PriceStepOf(Values(q, "price[]"), ParseBool(Get(q, "isAsc")).None?, parseFloat);
    match step
    case PriceFailed(reason) => (f, Failed(reason))
    case PricePanic(first) => (f.(minPrice := first), IndexPanic)
    case Bounds(min, max) => (f.(minPrice := min, maxPrice := max), Done)
    case NoPrices => (f, Done)
  }

  /**
   * (*Filters).Validate and (*TeaFilters).Validate: the receiver's fields
   * afterwards, given the fields before, and how the call ends.
   */
  function ValidateSpec(f: FilterState, q: Query, lib: Lib, parseFloat: FloatParser): (FilterState, Outcome)
  {
    var tagged := TagsStage(TextStage(PagingStage(f, q), q, lib), q, lib);
    if tagged.1.Some? then (tagged.0, Failed(tagged.1.value))
    else
      var sorted := SortStage(tagged.0, q);
      if sorted.1.Some? then (sorted.0, Failed(sorted.1.value))
      else PriceStage(sorted.0, q, parseFloat)
  }

  /** teaSchemas.Filters, and schemas.TeaFilters without its userId. */
  class Filters {
    var limit: nat
    var offset: nat
    var categoryId: Uuid
    var name: string
    var tags: seq<string>
    var minPrice: real
    var maxPrice: real
    var sortBy: string
    var isAsc: bool
    var userId: Uuid

    function State(): FilterState
      reads this
    {
      FilterState(limit, offset, categoryId, name, tags, minPrice, maxPrice, sortBy, isAsc, userId)
    }

    /** `&Filters{}`: every field at its zero value. */
    constructor ()
      ensures State() == ZeroFilters
    {
      limit, offset, categoryId, name, tags := 0, 0, Nil, "", [];
      minPrice, maxPrice, sortBy, isAsc, userId := 0.0, 0.0, "", false, Nil;
    }

    /** Validate, its statements grouped in the stages below. */
    method Validate(q: Query, lib: Lib, parseFloat: FloatParser) returns (outcome: Outcome)
      modifies this
      ensures (State(), outcome) == ValidateSpec(old(State()), q, lib, parseFloat)
    {
      ReadPaging(q);
      ReadCategoryAndName(q, lib);
      var err := ReadTags(q, lib);
      if err.Some? {
        return Failed(err.value);
      }
      err := ReadSort(q);
      if err.Some? {
        return Failed(err.value);
      }
      outcome := ReadPrices(q, parseFloat);
    }

    /** Limit and offset, each with its default. */
    method ReadPaging(q: Query)
      modifies this
      ensures State() == PagingStage(old(State()), q)
    {
      limit := Default(ParseUint(Get(q, "limit")), 10);
      offset := Default(ParseUint(Get(q, "offset")), 0);
    }

    /** The optional categoryId and name. */
    method ReadCategoryAndName(q: Query, lib: Lib)
      modifies this
      ensures State() == TextStage(old(State()), q, lib)
    {
      var categoryIdStr := Get(q, "categoryId");
      if categoryIdStr != "" {
        var parsed := lib.parseUuid(categoryIdStr);
        categoryId := if parsed.Some? then parsed.value else Nil;
      }

      var nameStr := Get(q, "name");
      if nameStr != "" {
        name := nameStr;
      }
    }

    /** The tags[] values, kept only when every one is a UUID. */
    method ReadTags(q: Query, lib: Lib) returns (err: Option<FilterError>)
      modifies this
      ensures (State(), err) == TagsStage(old(State()), q, lib)
    {
      var tagsStr := Values(q, "tags[]");
      if |tagsStr| > 0 {
        var collected, invalid := CollectTags(tagsStr, lib);
        if invalid.Some? {
          return Some(InvalidTagId(invalid.value));
        }
        tags := collected;
      }
      err := None;
    }

    /** isAsc, then a sortBy that Parse must accept. */
    method ReadSort(q: Query) returns (err: Option<FilterError>)
      modifies this
      ensures (State(), err) == SortStage(old(State()), q)
    {
      var parsedIsAsc := ParseBool(Get(q, "isAsc"));
      isAsc := if parsedIsAsc.Some? then parsedIsAsc.value else true;

      var sortByStr := Get(q, "sortBy");
      if sortByStr != "" {
        var filter := new SortByFilter(sortByStr);
        var parseErr := filter.Parse(sortByStr);
        if parseErr.Some? {
          return Some(InvalidSortBy(sortByStr));
        }
        sortBy := filter.value;
      }
      err := None;
    }

    /** price[]: the two smallest values become the bounds. */
    method ReadPrices(q: Query, parseFloat: FloatParser) returns (outcome: Outcome)
      modifies this
      ensures (State(), outcome) == PriceStage(old(State()), q, parseFloat)
    {
      var parsedIsAsc := ParseBool(Get(q, "isAsc"));
      var step := ReadPriceStep(Values(q, "price[]"), parsedIsAsc.None?, parseFloat);
      match step {
        case PriceFailed(reason) =>
          return Failed(reason);
        case PricePanic(first) =>
          minPrice := first;
          return IndexPanic;
        case Bounds(min, max) =>
          minPrice := min;
          maxPrice := max;
        case NoPrices =>
      }
      return Done;
    }
  }

  /** A missing or unparsable limit is 10 and offset is 0; there is no page check to fail. */
  lemma LimitAndOffsetDefaults(f: FilterState, q: Query, lib: Lib, parseFloat: FloatParser)
    ensures var r := ValidateSpec(f, q, lib, parseFloat);
      r.0.limit == Default(ParseUint(Get(q, "limit")), 10)
      && r.0.offset == Default(ParseUint(Get(q, "offset")), 0)
      && r.1 != Failed(PageIsZero)
  {
    var t := TextStage(PagingStage(f, q), q, lib);
    var tagged := TagsStage(t, q, lib);
    var sorted := SortStage(tagged.0, q);
    assert t.limit == PagingStage(f, q).limit && t.offset == PagingStage(f, q).offset;
    assert ValidateSpec(f, q, lib, parseFloat).0.limit == t.limit;
  }

  /**
   * A categoryId that does not parse becomes Nil rather than an error; an
   * absent one leaves the field as it was.
   */
  lemma CategoryIdRule(f: FilterState, q: Query, lib: Lib, parseFloat: FloatParser)
    ensures var r := ValidateSpec(f, q, lib, parseFloat);
      (Get(q, "categoryId") == "" ==> r.0.categoryId == f.categoryId)
      && (Get(q, "categoryId") != "" ==> r.0.categoryId == Default(lib.parseUuid(Get(q, "categoryId")), Nil))
  {
    var t := TextStage(PagingStage(f, q), q, lib);
    assert ValidateSpec(f, q, lib, parseFloat).0.categoryId == t.categoryId;
  }

  /** The first tags[] value that is not a UUID is the error, and no tag is stored. */
  lemma InvalidTagRejected(f: FilterState, q: Query, lib: Lib, parseFloat: FloatParser)
    requires FirstInvalidUuid(Values(q, "tags[]"), lib).Some?
    ensures var r := ValidateSpec(f, q, lib, parseFloat);
      r.1 == Failed(InvalidTagId(FirstInvalidUuid(Values(q, "tags[]"), lib).value)) && r.0.tags == f.tags
  {
  }

  /** Past the tags, a sortBy other than "name" or "price" is an error. */
  lemma UnknownSortByRejected(f: FilterState, q: Query, lib: Lib, parseFloat: FloatParser)
    requires FirstInvalidUuid(Values(q, "tags[]"), lib).None?
    requires Get(q, "sortBy") != "" && Get(q, "sortBy") != "name" && Get(q, "sortBy") != "price"
    ensures ValidateSpec(f, q, lib, parseFloat).1 == Failed(InvalidSortBy(Get(q, "sortBy")))
  {
  }

  /** A sort stage with no error has read isAsc and left a known sortBy or the old one. */
  lemma SortStageAccepted(f: FilterState, q: Query)
    requires SortStage(f, q).1.None?
    ensures SortStage(f, q).0.isAsc == Default(ParseBool(Get(q, "isAsc")), true)
    ensures SortStage(f, q).0.sortBy in SortByMapping || (Get(q, "sortBy") == "" && SortStage(f, q).0.sortBy == f.sortBy)
  {
  }

  /**
   * What an accepted query leaves: every tags[] value in order, isAsc true
   * unless it parses, and a sortBy that is "name", "price" or the one already
   * there.
   */
  lemma AcceptedFilters(f: FilterState, q: Query, lib: Lib, parseFloat: FloatParser)
    requires ValidateSpec(f, q, lib, parseFloat).1 == Done
    ensures var g := ValidateSpec(f, q, lib, parseFloat).0;
      g.tags == (if Values(q, "tags[]") == [] then f.tags else Values(q, "tags[]"))
      && g.isAsc == Default(ParseBool(Get(q, "isAsc")), true)
      && (g.sortBy == "name" || g.sortBy == "price" || (Get(q, "sortBy") == "" && g.sortBy == f.sortBy))
      && g.userId == f.userId
  {
    var t := TextStage(PagingStage(f, q), q, lib);
    var tagged := TagsStage(t, q, lib);
    assert tagged.1.None?;
    var sorted := SortStage(tagged.0, q);
    assert sorted.1.None?;
    assert ValidateSpec(f, q, lib, parseFloat) == PriceStage(sorted.0, q, parseFloat);
    SortStageAccepted(tagged.0, q);
  }

  /**
   * An accepted query with price[] values sent at least two of them, each of
   * which parses, and the bounds are the two smallest prices, lower first;
   * with exactly two values they are those two.
   */
  lemma AcceptedPricesOrdered(f: FilterState, q: Query, lib: Lib, parseFloat: FloatParser)
    requires ValidateSpec(f, q, lib, parseFloat).1 == Done
    requires Values(q, "price[]") != []
    ensures var g := ValidateSpec(f, q, lib, parseFloat).0;
      var priceStr := Values(q, "price[]");
      |priceStr| >= 2
      && (forall i :: 0 <= i < |priceStr| ==> parseFloat(priceStr[i]).Some?)
      && g.minPrice <= g.maxPrice
      && (forall x :: x in Floats(priceStr, parseFloat) ==> g.minPrice <= x)
      && multiset{g.minPrice, g.maxPrice} <= multiset(Floats(priceStr, parseFloat))
      && (|priceStr| == 2 ==> multiset{g.minPrice, g.maxPrice} == multiset(Floats(priceStr, parseFloat)))
  {
    var t := TextStage(PagingStage(f, q), q, lib);
    var tagged := TagsStage(t, q, lib);
    var sorted := SortStage(tagged.0, q);
    assert ValidateSpec(f, q, lib, parseFloat) == PriceStage(sorted.0, q, parseFloat);
    var priceStr := Values(q, "price[]");
    var isAscUnparsed := ParseBool(Get(q, "isAsc")).None?;
    assert PriceStepOf(priceStr, isAscUnparsed, parseFloat).Bounds?;
    assert |priceStr| == 2 || !isAscUnparsed;
    var prices := PriceLoop(priceStr, [], parseFloat).value;
    assert |prices| == |priceStr| >= 2;
    PricesGiveBounds(priceStr, isAscUnparsed, parseFloat);
  }
}
