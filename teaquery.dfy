/**
 * The tea repository's text building (internal/repository/postgres/tea.go):
 * prepareFilteredQuery, which assembles the named-parameter SQL for a tea list
 * from fixed fragments chosen by the filters, and insertTags, which builds one
 * (tea_id, tag_id) row per linked tag. The sqlx rewriting of the named query
 * and the execution of either statement are not part of this model.
 */
module TeaQueries {
  import opened Wrappers
  import opened Foreign
  import opened GoText
  import opened OffsetFilter

  const Base: string := "select teas.* from teas"
  const TeasTagsJoin: string := " join teas_tags tt on teas.id = tt.tea_id"
  const TagsTableJoin: string := " join tags on tt.tag_id = tags.id"
  /** The join that tags filtering adds: through teas_tags to tags. */
  const TagsJoin: string := TeasTagsJoin + TagsTableJoin
  const CategoryCondition: string := "category_id = :category_id"
  const NameCondition: string := "name like %:name%"
  const TagsCondition: string := "tags.id in (:tags)"
  const PriceCondition: string := "price between :min_price and :max_price"
  const LimitClause: string := " limit :limit offset :offset"

  predicate EndsWith(s: string, suffix: string)
  {
    |suffix| <= |s| && s[|s| - |suffix|..] == suffix
  }

  /** The price condition needs both bounds, compared with float64 zero. */
  predicate PriceActive(f: FilterState)
  {
    f.minPrice != 0.0 && f.maxPrice != 0.0
  }

  /** The filter statements, in the order the function appends them. */
  function Conditions(f: FilterState): seq<string>
  {
    (if f.categoryId != Nil then [CategoryCondition] else [])
    + (if f.name != "" then [NameCondition] else [])
    + (if |f.tags| > 0 then [TagsCondition] else [])
    + (if PriceActive(f) then [PriceCondition] else [])
  }

  function JoinClause(f: FilterState): string
  {
    if |f.tags| > 0 then TagsJoin else ""
  }

  function WhereClause(f: FilterState): string
  {
    if |Conditions(f)| > 0 then " where " + Join(Conditions(f), " and ") else ""
  }

  function Direction(isAsc: bool): string
  {
    if isAsc then "asc" else "desc"
  }

  function OrderClause(f: FilterState): string
  {
    if f.sortBy != "" then " order by " + f.sortBy + " " + Direction(f.isAsc) else ""
  }

  /** The order and limit clauses that close the query. */
  function Tail(f: FilterState): string
  {
    OrderClause(f) + LimitClause
  }

  /** Everything after the join. */
  function AfterJoin(f: FilterState): string
  {
    WhereClause(f) + Tail(f)
  }

  /** The query prepareFilteredQuery hands to sqlx.Named. */
  function FilteredQuery(f: FilterState): string
  {
    Base + (JoinClause(f) + AfterJoin(f))
  }

  /** The query text before the order and limit clauses. */
  function Front(f: FilterState): string
  {
    Base + JoinClause(f) + WhereClause(f)
  }

  lemma Regroup(a: string, b: string, c: string, d: string)
    ensures a + (b + (c + d)) == (a + b + c) + d
  {
  }

  lemma DropFront(a: string, b: string)
    ensures (a + b)[|a|..] == b && (a + b)[..|a|] == a
  {
  }

  lemma AppendEmpty(a: string)
    ensures a + "" == a && "" + a == a
  {
  }

  lemma NotPrefix(s: string, p: string, k: nat)
    requires k < |p| && k < |s| && s[k] != p[k]
    ensures !HasPrefix(s, p)
  {
    if |p| <= |s| {
      assert s[..|p|][k] != p[k];
    }
  }

  lemma NotSuffix(s: string, p: string, k: nat)
    requires |p| <= |s| && k < |p| && s[|s| - |p| + k] != p[k]
    ensures !EndsWith(s, p)
  {
    assert s[|s| - |p|..][k] != p[k];
  }

  lemma Regroup5(a: string, b: string, c: string, d: string, e: string)
    ensures a + (b + (c + (d + e))) == (((a + b) + c) + d) + e
  {
  }

  lemma SuffixOf(a: string, b: string)
    ensures EndsWith(a + b, b)
  {
    assert (a + b)[|a + b| - |b|..] == b;
  }

  /**
   * The first half of prepareFilteredQuery: the filter statements, and the
   * teas_tags join appended to the base text when tags are given.
   */
  method CollectConditions(f: FilterState) returns (query: string, filterStatements: seq<string>)
    ensures query == Base + JoinClause(f)
    ensures filterStatements == Conditions(f)
  {
    filterStatements := [];
    query := Base;
    if f.categoryId != Nil {
      filterStatements := filterStatements + [CategoryCondition];
    }
    if f.name != "" {
      filterStatements := filterStatements + [NameCondition];
    }
    if |f.tags| > 0 {
      query := query + TagsJoin;
      filterStatements := filterStatements + [TagsCondition];
    } else {
      AppendEmpty(query);
    }
    if f.minPrice != 0.0 && f.maxPrice != 0.0 {
      filterStatements := filterStatements + [PriceCondition];
    }
  }

  /** The order clause appended when a sortBy is set. */
  method AppendOrder(query0: string, f: FilterState) returns (query: string)
    ensures query == query0 + OrderClause(f)
  {
    query := query0;
    if f.sortBy != "" {
      var a := "asc";
      if f.isAsc {
        a := "asc";
      } else {
        a := "desc";
      }
      query := query + (" order by " + f.sortBy + " " + a);
    } else {
      AppendEmpty(query);
    }
  }

  /** The where clause appended when some filter statement was collected. */
  method AppendWhere(query0: string, filterStatements: seq<string>, f: FilterState) returns (query: string)
    requires filterStatements == Conditions(f)
    ensures query == query0 + WhereClause(f)
  {
    query := query0;
    if |filterStatements| > 0 {
      query := query + (" where " + Join(filterStatements, " and "));
    } else {
      AppendEmpty(query);
    }
  }

  /** prepareFilteredQuery, up to the call of sqlx.Named. */
  method PrepareFilteredQuery(f: FilterState) returns (query: string)
    ensures query == FilteredQuery(f)
  {
    var filterStatements;
    query, filterStatements := CollectConditions(f);
    query := AppendWhere(query, filterStatements, f);
    query := AppendOrder(query, f);
    query := query + LimitClause;
    Regroup5(Base, JoinClause(f), WhereClause(f), OrderClause(f), LimitClause);
  }

  /** The query always starts with the select from teas and ends with the limit clause. */
  lemma QueryFrame(f: FilterState)
    ensures HasPrefix(FilteredQuery(f), Base)
    ensures EndsWith(FilteredQuery(f), LimitClause)
  {
    DropFront(Base, JoinClause(f) + AfterJoin(f));
    Regroup(Base, JoinClause(f), WhereClause(f), Tail(f));
    Regroup(Front(f), OrderClause(f), "", LimitClause);
    AppendEmpty(LimitClause);
    AppendEmpty(Front(f) + OrderClause(f));
    SuffixOf(Front(f) + OrderClause(f), LimitClause);
  }

  /** The second character of what follows the join: " where ...", " order by ..." or " limit ...". */
  lemma AfterJoinSecondChar(f: FilterState)
    ensures |AfterJoin(f)| >= 2
    ensures AfterJoin(f)[1] == (if |Conditions(f)| > 0 then 'w' else if f.sortBy != "" then 'o' else 'l')
  {
    var t := Tail(f);
    if f.sortBy != "" {
      assert OrderClause(f) == " order by " + f.sortBy + " " + Direction(f.isAsc);
      assert OrderClause(f)[1] == 'o';
    } else {
      AppendEmpty(LimitClause);
    }
    assert |t| >= 2 && t[1] == (if f.sortBy != "" then 'o' else 'l');
    if |Conditions(f)| > 0 {
      assert WhereClause(f)[1] == 'w';
    } else {
      AppendEmpty(t);
    }
  }

  /** Any text whose second character is not 'j' does not start with the join. */
  lemma NotTagsJoin(rest: string)
    requires |rest| >= 2 && rest[1] != 'j'
    ensures !HasPrefix(rest, TagsJoin)
  {
    assert TeasTagsJoin[1] == 'j';
    NotPrefix(rest, TagsJoin, 1);
  }

  /** The teas_tags join follows the base text exactly when tags are given. */
  lemma JoinPresentIff(f: FilterState)
    ensures HasPrefix(FilteredQuery(f)[|Base|..], TagsJoin) <==> |f.tags| > 0
  {
    var rest := JoinClause(f) + AfterJoin(f);
    DropFront(Base, rest);
    if |f.tags| > 0 {
      DropFront(TagsJoin, AfterJoin(f));
    } else {
      AppendEmpty(AfterJoin(f));
      AfterJoinSecondChar(f);
      NotTagsJoin(rest);
    }
  }

  /** Any text whose second character is not 'w' does not start with " where ". */
  lemma NotWhere(rest: string)
    requires |rest| >= 2 && rest[1] != 'w'
    ensures !HasPrefix(rest, " where ")
  {
    NotPrefix(rest, " where ", 1);
  }

  lemma WherePrefix(j: string, t: string)
    ensures HasPrefix((" where " + j) + t, " where ")
  {
    assert ((" where " + j) + t)[..7] == " where ";
  }

  /** A where clause follows the base and join text exactly when some condition is active. */
  lemma WherePresentIff(f: FilterState)
    ensures HasPrefix(FilteredQuery(f)[|Base| + |JoinClause(f)|..], " where ") <==> |Conditions(f)| > 0
  {
    var bj := Base + JoinClause(f);
    Regroup(Base, JoinClause(f), "", AfterJoin(f));
    AppendEmpty(bj);
    AppendEmpty(AfterJoin(f));
    DropFront(bj, AfterJoin(f));
    if |Conditions(f)| > 0 {
      WherePrefix(Join(Conditions(f), " and "), Tail(f));
    } else {
      AfterJoinSecondChar(f);
      NotWhere(AfterJoin(f));
    }
  }

  /** The place of each condition in the fixed order category, name, tags, price. */
  function Rank(condition: string): nat
  {
    if condition == CategoryCondition then 0
    else if condition == NameCondition then 1
    else if condition == TagsCondition then 2
    else 3
  }

  /** The four conditions have distinct lengths, so each gets its own rank. */
  lemma RankValues()
    ensures Rank(CategoryCondition) == 0 && Rank(NameCondition) == 1
    ensures Rank(TagsCondition) == 2 && Rank(PriceCondition) == 3
  {
    assert |CategoryCondition| == 26 && |NameCondition| == 17 && |TagsCondition| == 18;
  }

  /** Each condition is present exactly when its filter is set. */
  lemma ConditionsPresence(f: FilterState)
    ensures CategoryCondition in Conditions(f) <==> f.categoryId != Nil
    ensures NameCondition in Conditions(f) <==> f.name != ""
    ensures TagsCondition in Conditions(f) <==> |f.tags| > 0
    ensures PriceCondition in Conditions(f) <==> PriceActive(f)
  {
    assert CategoryCondition[0] == 'c' && NameCondition[0] == 'n' && TagsCondition[0] == 't' && PriceCondition[0] == 'p';
  }

  /** The conditions present keep the order category, name, tags, price. */
  lemma ConditionsOrder(f: FilterState)
    ensures forall i, j :: 0 <= i < j < |Conditions(f)| ==> Rank(Conditions(f)[i]) < Rank(Conditions(f)[j])
  {
    RankValues();
    var c := Conditions(f);
    forall i, j | 0 <= i < j < |c|
      ensures Rank(c[i]) < Rank(c[j])
    {
    }
  }

  /** The last character of Join is the last character of its last part. */
  lemma {:induction false} JoinLastChar(parts: seq<string>, sep: string)
    requires parts != [] && |parts[|parts| - 1]| > 0
    ensures |Join(parts, sep)| > 0
    ensures Join(parts, sep)[|Join(parts, sep)| - 1] == parts[|parts| - 1][|parts[|parts| - 1]| - 1]
  {
    if |parts| > 1 {
      JoinLastChar(parts[1..], sep);
      assert parts[1..][|parts[1..]| - 1] == parts[|parts| - 1];
    }
  }

  /** The text before the order clause never ends in 'c', the last letter of "asc" and "desc". */
  lemma FrontLastChar(f: FilterState)
    ensures |Front(f)| >= |Base|
    ensures Front(f)[|Front(f)| - 1] in {'s', 'd', '%', ')', 'e'}
  {
    var c := Conditions(f);
    var bj := Base + JoinClause(f);
    if |c| > 0 {
      JoinLastChar(c, " and ");
      var j := Join(c, " and ");
      Regroup(bj, " where ", "", j);
      AppendEmpty(bj + " where ");
      AppendEmpty(j);
      assert Front(f) == (bj + " where ") + j;
      assert c[|c| - 1] in [CategoryCondition, NameCondition, TagsCondition, PriceCondition];
    } else {
      AppendEmpty(bj);
      AppendEmpty(Base);
    }
  }

  lemma RegroupOrder(front: string, ob: string, sortBy: string, dir: string)
    ensures front + (ob + sortBy + " " + dir + LimitClause) == (front + ob + sortBy) + (" " + dir + LimitClause)
  {
  }

  /** A text ending in " " + "asc" or " " + "desc" before the limit clause ends in exactly one of the two. */
  lemma DirectionSuffixes(head: string, dir: string)
    requires |head| > 0 && (dir == "asc" || dir == "desc")
    ensures EndsWith(head + (" " + dir + LimitClause), " asc" + LimitClause) <==> dir == "asc"
    ensures EndsWith(head + (" " + dir + LimitClause), " desc" + LimitClause) <==> dir == "desc"
  {
    var q := head + (" " + dir + LimitClause);
    if dir == "asc" {
      assert " " + dir + LimitClause == " asc" + LimitClause;
      SuffixOf(head, " asc" + LimitClause);
      assert q[|q| - |" desc" + LimitClause| + 2] == 'a';
      NotSuffix(q, " desc" + LimitClause, 2);
    } else {
      assert " " + dir + LimitClause == " desc" + LimitClause;
      SuffixOf(head, " desc" + LimitClause);
      assert q[|q| - |" asc" + LimitClause|] == 'd';
      NotSuffix(q, " asc" + LimitClause, 0);
    }
  }

  /** A text ending in none of the letters of "asc" and "desc"'s last place stays clear of both endings. */
  lemma NoDirectionSuffix(front: string)
    requires |front| >= 5 && front[|front| - 1] in {'s', 'd', '%', ')', 'e'}
    ensures !EndsWith(front + LimitClause, " asc" + LimitClause)
    ensures !EndsWith(front + LimitClause, " desc" + LimitClause)
  {
    var q := front + LimitClause;
    assert q[|q| - |" asc" + LimitClause| + 3] == front[|front| - 1];
    NotSuffix(q, " asc" + LimitClause, 3);
    assert q[|q| - |" desc" + LimitClause| + 4] == front[|front| - 1];
    NotSuffix(q, " desc" + LimitClause, 4);
  }

  /**
   * The order clause and its direction can be read off the end of the query:
   * it ends in " asc" before the limit clause exactly when a sortBy is set and
   * isAsc holds, and in " desc" exactly when a sortBy is set and isAsc does not.
   */
  lemma OrderDirectionIff(f: FilterState)
    ensures EndsWith(FilteredQuery(f), " asc" + LimitClause) <==> f.sortBy != "" && f.isAsc
    ensures EndsWith(FilteredQuery(f), " desc" + LimitClause) <==> f.sortBy != "" && !f.isAsc
  {
    Regroup(Base, JoinClause(f), WhereClause(f), Tail(f));
    if f.sortBy == "" {
      FrontLastChar(f);
      AppendEmpty(LimitClause);
      NoDirectionSuffix(Front(f));
    } else {
      RegroupOrder(Front(f), " order by ", f.sortBy, Direction(f.isAsc));
      DirectionSuffixes(Front(f) + " order by " + f.sortBy, Direction(f.isAsc));
    }
  }

  /**
   * No filter value enters the text except sortBy: two filters that set the
   * same conditions, sortBy and direction give the same query, whatever their
   * category, name, tags and prices are (those travel as named parameters).
   */
  lemma QueryTextDependsOnShape(f: FilterState, g: FilterState)
    requires (f.categoryId != Nil) == (g.categoryId != Nil) && (f.name != "") == (g.name != "")
    requires (|f.tags| > 0) == (|g.tags| > 0) && PriceActive(f) == PriceActive(g)
    requires f.sortBy == g.sortBy && f.isAsc == g.isAsc
    ensures FilteredQuery(f) == FilteredQuery(g)
  {
    assert Conditions(f) == Conditions(g);
  }

  /** The row insertTags builds for one tag id. */
  function TagRow(teaId: Uuid, tagId: Uuid, lib: Lib): map<string, string>
  {
    map["tea_id" := lib.formatUuid(teaId), "tag_id" := lib.formatUuid(tagId)]
  }

  /** insertTags, up to the NamedExec of the batch. */
  method InsertTagRows(teaId: Uuid, tagIds: seq<Uuid>, lib: Lib) returns (teaTags: seq<map<string, string>>)
    ensures |teaTags| == |tagIds|
    ensures forall i :: 0 <= i < |teaTags| ==> teaTags[i] == TagRow(teaId, tagIds[i], lib)
  {
    teaTags := [];
    var i := 0;
    while i < |tagIds|
      invariant 0 <= i <= |tagIds|
      invariant |teaTags| == i
      invariant forall k :: 0 <= k < i ==> teaTags[k] == TagRow(teaId, tagIds[k], lib)
    {
      teaTags := teaTags + [TagRow(teaId, tagIds[i], lib)];
      i := i + 1;
    }
  }

  /** The (tea, tag) pairs a batch of rows denotes, read back with uuid.Parse. */
  function LinkedPairs(rows: seq<map<string, string>>, lib: Lib): seq<(Option<Uuid>, Option<Uuid>)>
  {
    seq(|rows|, i requires 0 <= i < |rows| =>
      (if "tea_id" in rows[i] then lib.parseUuid(rows[i]["tea_id"]) else None,
       if "tag_id" in rows[i] then lib.parseUuid(rows[i]["tag_id"]) else None))
  }

  /**
   * When uuid.Parse reads back what UUID.String writes, the rows denote exactly
   * the pairs (teaId, tagIds[i]), in the given order, duplicates included.
   */
  lemma TagRowsDenoteLinks(teaId: Uuid, tagIds: seq<Uuid>, rows: seq<map<string, string>>, lib: Lib)
    requires lib.UuidRoundTrip()
    requires |rows| == |tagIds| && forall i :: 0 <= i < |rows| ==> rows[i] == TagRow(teaId, tagIds[i], lib)
    ensures LinkedPairs(rows, lib) == seq(|tagIds|, i requires 0 <= i < |tagIds| => (Some(teaId), Some(tagIds[i])))
  {
    forall i | 0 <= i < |rows|
      ensures LinkedPairs(rows, lib)[i] == (Some(teaId), Some(tagIds[i]))
    {
      assert rows[i]["tea_id"] == lib.formatUuid(teaId);
      assert rows[i]["tag_id"] == lib.formatUuid(tagIds[i]);
    }
  }
}
