/**
 * The page-based tea list filters (internal/schemas/teaSchemas/filter.go):
 * Validate reads the query string into the receiver's fields one by one,
 * falling back to defaults for values that are missing or do not parse, and
 * stops at the first value it refuses, keeping the fields set so far.
 */
module PageFilter {
  import opened Wrappers
  import opened Foreign
  import opened QueryParams

  /** The names a sortBy value may take, each mapped to itself. */
  const SortByMapping: map<string, string> := map["name" := "name", "servePrice" := "servePrice", "rating" := "rating"]

  /** A SortByFilter variable, which Parse writes through its receiver. */
  class SortByFilter {
    var value: string

    constructor (s: string)
      ensures value == s
    {
      value := s;
    }

    /** (*SortByFilter).String */
    function String(): string
      reads this
    {
      value
    }

    /** (*SortByFilter).Parse: a known name is stored; anything else is an error and no write. */
    method Parse(s: string) returns (err: Option<FilterError>)
      modifies this
      ensures err.None? <==> s == "name" || s == "servePrice" || s == "rating"
      ensures err.None? ==> value == s
      ensures err.Some? ==> err == Some(InvalidSortBy(s)) && value == old(value)
    {
      if s in SortByMapping {
        value := SortByMapping[s];
        return None;
      }
      return Some(InvalidSortBy(s));
    }
  }

  /** (*SortByFilter).ToDbFilter: the column to order by; "" for a value it does not know. */
  function ToDbFilter(sortBy: string): (column: string)
    ensures column != "" <==> sortBy in SortByMapping
    ensures sortBy == "servePrice" ==> column == "serve_price"
    ensures sortBy in SortByMapping && sortBy != "servePrice" ==> column == sortBy
  {
    var dbFilters := map["name" := "name", "servePrice" := "serve_price", "rating" := "rating"];
    if sortBy in dbFilters then dbFilters[sortBy] else ""
  }

  /** The fields of teaSchemas.Filters. */
  datatype FilterState = FilterState(
    limit: nat, page: nat, offset: nat, categoryId: Uuid, name: string, tags: seq<string>,
    minServePrice: real, maxServePrice: real, sortBy: string, isAsc: bool, isDeleted: bool, userId: Uuid)

  const ZeroFilters: FilterState := FilterState(0, 0, 0, Nil, "", [], 0.0, 0.0, "", false, false, Nil)

  function PageOf(q: Query): nat
  {
    Default(ParseUint(Get(q, "page")), 1)
  }

  /** Limit and page, each with its default. */
  function PagingStage(f: FilterState, q: Query): (g: FilterState)
    ensures g.limit == Default(ParseUint(Get(q, "limit")), 10) && g.page == PageOf(q)
    ensures g.(limit := f.limit, page := f.page) == f
  {
    f.(limit := Default(ParseUint(Get(q, "limit")), 10), page := PageOf(q))
  }

  /** The optional categoryId (Nil when it does not parse) and name. */
  function TextStage(f: FilterState, q: Query, lib: Lib): (g: FilterState)
    ensures g.(categoryId := f.categoryId, name := f.name) == f
  {
    var categoryIdStr := Get(q, "categoryId");
    var f1 := if categoryIdStr != "" then f.(categoryId := Default(lib.parseUuid(categoryIdStr), Nil)) else f;
    var nameStr := Get(q, "name");
    if nameStr != "" then f1.(name := nameStr) else f1
  }

  /** The tags[] values: all kept, in order, when every one is a UUID. */
  function TagsStage(f: FilterState, q: Query, lib: Lib): (r: (FilterState, Option<FilterError>))
    ensures r.0.(tags := f.tags) == f
  {
    var tagsStr := Values(q, "tags[]");
    var invalidTag := FirstInvalidUuid(tagsStr, lib);
    if |tagsStr| > 0 && invalidTag.Some? then (f, Some(InvalidTagId(invalidTag.value)))
    else if |tagsStr| > 0 then (f.(tags := tagsStr), None)
    else (f, None)
  }

  /** isAsc, then sortBy. */
  function SortStage(f: FilterState, q: Query): (r: (FilterState, Option<FilterError>))
    ensures r.0.(isAsc := f.isAsc, sortBy := f.sortBy) == f
  {
    var f5 := f.(isAsc := Default(ParseBool(Get(q, "isAsc")), true));
    var sortBy := Get(q, "sortBy");
    if sortBy != "" && sortBy !in SortByMapping then (f5, Some(InvalidSortBy(sortBy)))
    else (if sortBy != "" then f5.(sortBy := sortBy) else f5, None)
  }

  /** servePrice[], then isDeleted. */
  function PriceStage(f: FilterState, q: Query, parseFloat: FloatParser): (r: (FilterState, Outcome))
    ensures r.0.(minServePrice := f.minServePrice, maxServePrice := f.maxServePrice, isDeleted := f.isDeleted) == f
    ensures r.1 != Failed(PageIsZero) && !(r.1.Failed? && r.1.reason.InvalidTagId?)
    ensures r.1.Failed? && r.1.reason.InvalidPrice? ==>
      r.1.reason.value in Values(q, "servePrice[]") && parseFloat(r.1.reason.value).None?
  {
    var step := PriceStepOf(Values(q, "servePrice[]"), ParseBool(Get(q, "isAsc")).None?, parseFloat);
    match step
    case PriceFailed(reason) => (f, Failed(reason))
    case PricePanic(first) => (f.(minServePrice := first), IndexPanic)
    case Bounds(min, max) =>
      (f.(minServePrice := min, maxServePrice := max, isDeleted := Default(ParseBool(Get(q, "isDeleted")), false)), Done)
    case NoPrices => (f.(isDeleted := Default(ParseBool(Get(q, "isDeleted")), false)), Done)
  }

  /**
   * (*Filters).Validate: the receiver's fields afterwards, given the fields
   * before, and how the call ends.
   */
  function ValidateSpec(f: FilterState, q: Query, lib: Lib, parseFloat: FloatParser): (FilterState, Outcome)
  {
    if PageOf(q) == 0 then (f, Failed(PageIsZero))
    else
      var tagged := TagsStage(TextStage(PagingStage(f, q), q, lib), q, lib);
      if tagged.1.Some? then (tagged.0, Failed(tagged.1.value))
      else
        var sorted := SortStage(tagged.0, q);
        if sorted.1.Some? then (sorted.0, Failed(sorted.1.value))
        else PriceStage(sorted.0, q, parseFloat)
  }

  /** teaSchemas.Filters */
  class Filters {
    var limit: nat
    var page: nat
    var offset: nat
    var categoryId: Uuid
    var name: string
    var tags: seq<string>
    var minServePrice: real
    var maxServePrice: real
    var sortBy: string
    var isAsc: bool
    var isDeleted: bool
    var userId: Uuid

    function State(): FilterState
      reads this
    {
      FilterState(limit, page, offset, categoryId, name, tags, minServePrice, maxServePrice, sortBy, isAsc, isDeleted, userId)
    }

    /** `&Filters{}`: every field at its zero value. */
    constructor ()
      ensures State() == ZeroFilters
    {
      limit, page, offset, categoryId, name, tags := 0, 0, 0, Nil, "", [];
      minServePrice, maxServePrice, sortBy, isAsc, isDeleted, userId := 0.0, 0.0, "", false, false, Nil;
    }

    /**
     * (*Filters).Validate. Its statements run in stages, each a method
     * below, and the page check comes before any of them.
     */
    method Validate(q: Query, lib: Lib, parseFloat: FloatParser) returns (outcome: Outcome)
      modifies this
      ensures (State(), outcome) == ValidateSpec(old(State()), q, lib, parseFloat)
    {
      var parsedPage := ParseUint(Get(q, "page"));
      var pageValue := if parsedPage.Some? then parsedPage.value else 1;
      if pageValue == 0 {
        return Failed(PageIsZero);
      }
      ReadPaging(q);
      ReadCategoryAndName(q, lib);
      var err := ReadTags(q, lib);
      if err.Some? {
        return Failed(err.value);
      }
      err := ReadSort(q);
      if err.Some? {
        return Failed(err.value);
      }
      outcome := ReadPrices(q, parseFloat);
    }

    /** Limit and page, each with its default. */
    method ReadPaging(q: Query)
      modifies this
      ensures State() == PagingStage(old(State()), q)
    {
      limit := Default(ParseUint(Get(q, "limit")), 10);
      page := Default(ParseUint(Get(q, "page")), 1);
    }

    /** The optional categoryId and name. */
    method ReadCategoryAndName(q: Query, lib: Lib)
      modifies this
      ensures State() == TextStage(old(State()), q, lib)
    {
      var categoryIdStr := Get(q, "categoryId");
      if categoryIdStr != "" {
        var parsed := lib.parseUuid(categoryIdStr);
        categoryId := if parsed.Some? then parsed.value else Nil;
      }

      var nameStr := Get(q, "name");
      if nameStr != "" {
        name := nameStr;
      }
    }

    /** The tags[] values, kept only when every one is a UUID. */
    method ReadTags(q: Query, lib: Lib) returns (err: Option<FilterError>)
      modifies this
      ensures (State(), err) == TagsStage(old(State()), q, lib)
    {
      var tagsStr := Values(q, "tags[]");
      if |tagsStr| > 0 {
        var collected, invalid := CollectTags(tagsStr, lib);
        if invalid.Some? {
          return Some(InvalidTagId(invalid.value));
        }
        tags := collected;
      }
      err := None;
    }

    /** isAsc, then a sortBy that Parse must accept. */
    method ReadSort(q: Query) returns (err: Option<FilterError>)
      modifies this
      ensures (State(), err) == SortStage(old(State()), q)
    {
      var parsedIsAsc := ParseBool(Get(q, "isAsc"));
      isAsc := if parsedIsAsc.Some? then parsedIsAsc.value else true;

      var sortByStr := Get(q, "sortBy");
      if sortByStr != "" {
        var mapped := new SortByFilter(sortByStr);
        var parseErr := mapped.Parse(sortByStr);
        if parseErr.Some? {
          return Some(InvalidSortBy(sortByStr));
        }
        sortBy := mapped.value;
      }
      err := None;
    }

    /** servePrice[], whose count guard reads the isAsc parse error, then isDeleted. */
    method ReadPrices(q: Query, parseFloat: FloatParser) returns (outcome: Outcome)
      modifies this
      ensures (State(), outcome) == PriceStage(old(State()), q, parseFloat)
    {
      var parsedIsAsc := ParseBool(Get(q, "isAsc"));
      var step := ReadPriceStep(Values(q, "servePrice[]"), parsedIsAsc.None?, parseFloat);
      match step {
        case PriceFailed(reason) =>
          return Failed(reason);
        case PricePanic(first) =>
          minServePrice := first;
          return IndexPanic;
        case Bounds(min, max) =>
          minServePrice := min;
          maxServePrice := max;
        case NoPrices =>
      }

      var parsedIsDeleted := ParseBool(Get(q, "isDeleted"));
      isDeleted := if parsedIsDeleted.Some? then parsedIsDeleted.value else false;
      return Done;
    }
  }

  /** An explicit page of 0 is the one page refused, and it is refused before any field is set. */
  lemma PageZeroRejected(f: FilterState, q: Query, lib: Lib, parseFloat: FloatParser)
    ensures var r := ValidateSpec(f, q, lib, parseFloat);
      (r.1 == Failed(PageIsZero) <==> ParseUint(Get(q, "page")) == Some(0))
      && (r.1 == Failed(PageIsZero) ==> r.0 == f)
  {
  }

  /** Past the page check, a missing or unparsable limit is 10 and page is 1. */
  lemma LimitAndPageDefaults(f: FilterState, q: Query, lib: Lib, parseFloat: FloatParser)
    requires ParseUint(Get(q, "page")) != Some(0)
    ensures var r := ValidateSpec(f, q, lib, parseFloat);
      r.0.limit == Default(ParseUint(Get(q, "limit")), 10)
      && r.0.page == Default(ParseUint(Get(q, "page")), 1) && r.0.page >= 1
  {
  }

  /**
   * A categoryId that does not parse becomes Nil rather than an error; an
   * absent one leaves the field as it was.
   */
  lemma CategoryIdRule(f: FilterState, q: Query, lib: Lib, parseFloat: FloatParser)
    requires ParseUint(Get(q, "page")) != Some(0)
    ensures var r := ValidateSpec(f, q, lib, parseFloat);
      (Get(q, "categoryId") == "" ==> r.0.categoryId == f.categoryId)
      && (Get(q, "categoryId") != "" ==> r.0.categoryId == Default(lib.parseUuid(Get(q, "categoryId")), Nil))
  {
    var t := TextStage(PagingStage(f, q), q, lib);
    assert ValidateSpec(f, q, lib, parseFloat).0.categoryId == t.categoryId;
  }

  /** The first tags[] value that is not a UUID is the error, and no tag is stored. */
  lemma InvalidTagRejected(f: FilterState, q: Query, lib: Lib, parseFloat: FloatParser)
    requires ParseUint(Get(q, "page")) != Some(0)
    requires FirstInvalidUuid(Values(q, "tags[]"), lib).Some?
    ensures var r := ValidateSpec(f, q, lib, parseFloat);
      r.1 == Failed(InvalidTagId(FirstInvalidUuid(Values(q, "tags[]"), lib).value)) && r.0.tags == f.tags
  {
  }

  /** Past the tags, a sortBy other than the three names is an error. */
  lemma UnknownSortByRejected(f: FilterState, q: Query, lib: Lib, parseFloat: FloatParser)
    requires ParseUint(Get(q, "page")) != Some(0)
    requires FirstInvalidUuid(Values(q, "tags[]"), lib).None?
    requires Get(q, "sortBy") != "" && Get(q, "sortBy") !in SortByMapping
    ensures ValidateSpec(f, q, lib, parseFloat).1 == Failed(InvalidSortBy(Get(q, "sortBy")))
  {
  }

  /** A price stage that ends in Done has read isDeleted. */
  lemma PriceStageDone(f: FilterState, q: Query, parseFloat: FloatParser)
    requires PriceStage(f, q, parseFloat).1 == Done
    ensures PriceStage(f, q, parseFloat).0.isDeleted == Default(ParseBool(Get(q, "isDeleted")), false)
  {
  }

  /** A sort stage with no error has read isAsc and left a known sortBy or the old one. */
  lemma SortStageAccepted(f: FilterState, q: Query)
    requires SortStage(f, q).1.None?
    ensures SortStage(f, q).0.isAsc == Default(ParseBool(Get(q, "isAsc")), true)
    ensures SortStage(f, q).0.sortBy in SortByMapping || (Get(q, "sortBy") == "" && SortStage(f, q).0.sortBy == f.sortBy)
  {
  }

  /**
   * What an accepted query leaves: every tags[] value in order, isAsc true and
   * isDeleted false unless they parse, and a sortBy that is one of the three
   * names or the one already there.
   */
  lemma AcceptedFilters(f: FilterState, q: Query, lib: Lib, parseFloat: FloatParser)
    requires ValidateSpec(f, q, lib, parseFloat).1 == Done
    ensures var g := ValidateSpec(f, q, lib, parseFloat).0;
      g.tags == (if Values(q, "tags[]") == [] then f.tags else Values(q, "tags[]"))
      && g.isAsc == Default(ParseBool(Get(q, "isAsc")), true)
      && g.isDeleted == Default(ParseBool(Get(q, "isDeleted")), false)
      && (g.sortBy in SortByMapping || (Get(q, "sortBy") == "" && g.sortBy == f.sortBy))
      && g.offset == f.offset && g.userId == f.userId
  {
    var t := TextStage(PagingStage(f, q), q, lib);
    var tagged := TagsStage(t, q, lib);
    assert tagged.1.None?;
    var sorted := SortStage(tagged.0, q);
    assert sorted.1.None?;
    var priced := PriceStage(sorted.0, q, parseFloat);
    assert ValidateSpec(f, q, lib, parseFloat) == priced;
    SortStageAccepted(tagged.0, q);
    PriceStageDone(sorted.0, q, parseFloat);
  }
}
