/**
 * What the filter parsers read from a request's URL: the query values, Go's
 * strconv.ParseUint (base 10, 64 bits) and strconv.ParseBool, and the loop that
 * keeps the tags[] values after checking each one is a UUID.
 */
module QueryParams {
  import opened Wrappers
  import opened Foreign
  import GoText

  /** url.Values: every key with its values in the order they appear. */
  type Query = map<string, seq<string>>

  /** url.Values.Get: the first value of the key, or "" when there is none. */
  function Get(q: Query, key: string): (v: string)
    ensures (key !in q || q[key] == []) ==> v == ""
    ensures key in q && q[key] != [] ==> v == q[key][0]
  {
    if key in q && |q[key]| > 0 then q[key][0] else ""
  }

  /** query[key]: all values of the key, none when it is absent. */
  function Values(q: Query, key: string): seq<string>
  {
    if key in q then q[key] else []
  }

  function Default<T>(o: Option<T>, fallback: T): (r: T)
    ensures o.Some? ==> r == o.value
    ensures o.None? ==> r == fallback
  {
    if o.Some? then o.value else fallback
  }

  const MaxUint64: nat := 0xFFFF_FFFF_FFFF_FFFF

  predicate IsDigit(c: char)
  {
    '0' <= c <= '9'
  }

  predicate AllDigits(s: string)
  {
    forall i :: 0 <= i < |s| ==> IsDigit(s[i])
  }

  /** The number a string of decimal digits denotes. */
  function DecimalValue(s: string): nat
    requires AllDigits(s)
  {
    if s == [] then 0 else DecimalValue(s[..|s| - 1]) * 10 + (s[|s| - 1] as int - '0' as int)
  }

  /**
   * strconv.ParseUint(s, 10, 64): one or more ASCII digits (no sign, no
   * underscore, since the base is given) whose value fits in 64 bits.
   */
  function ParseUint(s: string): (r: Option<nat>)
    ensures r.Some? <==> s != "" && AllDigits(s) && DecimalValue(s) <= MaxUint64
    ensures r.Some? ==> r.value == DecimalValue(s) <= MaxUint64
  {
    if s != "" && AllDigits(s) && DecimalValue(s) <= MaxUint64 then Some(DecimalValue(s)) else None
  }

  lemma {:induction false} DecimalValueOfDigits(n: nat)
    ensures AllDigits(GoText.Digits(n)) && DecimalValue(GoText.Digits(n)) == n
    decreases n
  {
    var s := GoText.Digits(n);
    if n >= 10 {
      DecimalValueOfDigits(n / 10);
      var front := GoText.Digits(n / 10);
      assert s == front + [GoText.DigitChar(n % 10)];
      assert s[..|s| - 1] == front;
    } else {
      assert s == [GoText.DigitChar(n)];
      assert s[..|s| - 1] == [];
    }
  }

  /** ParseUint reads back every 64-bit number in its decimal form. */
  lemma ParseUintRoundTrip(n: nat)
    requires n <= MaxUint64
    ensures ParseUint(GoText.Itoa(n)) == Some(n)
  {
    DecimalValueOfDigits(n);
  }

  /** A missing parameter, a sign or a stray letter all fail to parse. */
  lemma ParseUintRejects()
    ensures ParseUint("").None? && ParseUint("-1").None? && ParseUint("+1").None? && ParseUint("1_0").None?
  {
    assert !IsDigit("-1"[0]) && !IsDigit("+1"[0]) && !IsDigit("1_0"[1]);
  }

  /** strconv.ParseBool */
  function ParseBool(s: string): (r: Option<bool>)
    ensures r == Some(true) <==> s in {"1", "t", "T", "TRUE", "true", "True"}
    ensures r == Some(false) <==> s in {"0", "f", "F", "FALSE", "false", "False"}
  {
    if s in {"1", "t", "T", "TRUE", "true", "True"} then Some(true)
    else if s in {"0", "f", "F", "FALSE", "false", "False"} then Some(false)
    else None
  }

  /** The first value that uuid.Parse refuses, scanning from the front. */
  function FirstInvalidUuid(values: seq<string>, lib: Lib): (r: Option<string>)
    ensures r.None? <==> forall i :: 0 <= i < |values| ==> lib.parseUuid(values[i]).Some?
    ensures r.Some? ==> r.value in values && lib.parseUuid(r.value).None?
  {
    if values == [] then None
    else if lib.parseUuid(values[0]).None? then Some(values[0])
    else
      var rest := FirstInvalidUuid(values[1..], lib);
      assert forall i :: 1 <= i < |values| ==> values[i] == values[1..][i - 1];
      rest
  }

  lemma {:induction false} FirstInvalidAt(values: seq<string>, i: nat, lib: Lib)
    requires i < |values| && lib.parseUuid(values[i]).None?
    requires forall j :: 0 <= j < i ==> lib.parseUuid(values[j]).Some?
    ensures FirstInvalidUuid(values, lib) == Some(values[i])
  {
    if i > 0 {
      FirstInvalidAt(values[1..], i - 1, lib);
    }
  }

  /**
   * The tags[] loop of every Validate: each value must parse as a UUID, and
   * the values are kept as text in their order.
   */
  method CollectTags(tagsStr: seq<string>, lib: Lib) returns (tags: seq<string>, invalid: Option<string>)
    ensures invalid == FirstInvalidUuid(tagsStr, lib)
    ensures invalid.None? ==> tags == tagsStr
  {
    tags := [];
    var i := 0;
    while i < |tagsStr|
      invariant 0 <= i <= |tagsStr|
      invariant tags == tagsStr[..i]
      invariant forall j :: 0 <= j < i ==> lib.parseUuid(tagsStr[j]).Some?
    {
      var tag := tagsStr[i];
      if lib.parseUuid(tag).None? {
        FirstInvalidAt(tagsStr, i, lib);
        return tags, Some(tag);
      }
      tags := tags + [tag];
      i := i + 1;
    }
    return tags, None;
  }

  /** Why a Validate refuses a query. */
  datatype FilterError = PageIsZero | InvalidTagId(tag: string) | InvalidSortBy(value: string) | PriceCount | InvalidPrice(value: string)

  /** How a Validate ends: nil, an error, or an index-out-of-range panic. */
  datatype Outcome = Done | Failed(reason: FilterError) | IndexPanic

  /** strconv.ParseFloat(p, 64) of one price value, or None when it reports an error. */
  type FloatParser = string -> Option<real>

  predicate Ascending(s: seq<real>)
  {
    forall i, j :: 0 <= i < j < |s| ==> s[i] <= s[j]
  }

  /**
   * `prices = append(prices, x)` followed by sort.Float64s(prices): on a slice
   * that is already sorted this places x before the first larger value.
   */
  function InsertPrice(x: real, s: seq<real>): (r: seq<real>)
    ensures multiset(r) == multiset(s) + multiset{x}
    ensures |r| == |s| + 1
  {
    if s == [] || x <= s[0] then [x] + s
    else
      assert s == [s[0]] + s[1..];
      [s[0]] + InsertPrice(x, s[1..])
  }

  lemma {:induction false} InsertPriceKeepsAscending(x: real, s: seq<real>)
    requires Ascending(s)
    ensures Ascending(InsertPrice(x, s))
  {
    if s != [] && x > s[0] {
      InsertPriceKeepsAscending(x, s[1..]);
      var rest := InsertPrice(x, s[1..]);
      forall k | 0 <= k < |rest|
        ensures s[0] <= rest[k]
      {
        assert rest[k] in multiset(rest);
        if rest[k] != x {
          assert rest[k] in s[1..];
          var j :| 0 <= j < |s[1..]| && s[1..][j] == rest[k];
          assert s[1..][j] == s[j + 1];
        }
      }
    }
  }

  /** The values that parse, in their order. */
  function Floats(ps: seq<string>, parseFloat: FloatParser): seq<real>
  {
    if ps == [] then []
    else (if parseFloat(ps[0]).Some? then [parseFloat(ps[0]).value] else []) + Floats(ps[1..], parseFloat)
  }

  /**
   * The price loop of every Validate, from the values not yet read and the
   * slice built so far: the first value that does not parse is the error,
   * otherwise every parsed value ends up in the slice.
   */
  function PriceLoop(ps: seq<string>, prices: seq<real>, parseFloat: FloatParser): (r: Result<seq<real>, string>)
    ensures r.Success? <==> forall i :: 0 <= i < |ps| ==> parseFloat(ps[i]).Some?
    ensures r.Failure? ==> r.error in ps && parseFloat(r.error).None?
    ensures r.Success? ==> |r.value| == |prices| + |ps|
    ensures r.Success? ==> multiset(r.value) == multiset(prices) + multiset(Floats(ps, parseFloat))
  {
    if ps == [] then Success(prices)
    else
      var parsed := parseFloat(ps[0]);
      if parsed.None? then Failure(ps[0])
      else
        assert forall i :: 1 <= i < |ps| ==> ps[i] == ps[1..][i - 1];
        PriceLoop(ps[1..], InsertPrice(parsed.value, prices), parseFloat)
  }

  lemma {:induction false} PriceLoopSorted(ps: seq<string>, prices: seq<real>, parseFloat: FloatParser)
    requires Ascending(prices) && PriceLoop(ps, prices, parseFloat).Success?
    ensures Ascending(PriceLoop(ps, prices, parseFloat).value)
  {
    if ps != [] {
      InsertPriceKeepsAscending(parseFloat(ps[0]).value, prices);
      PriceLoopSorted(ps[1..], InsertPrice(parseFloat(ps[0]).value, prices), parseFloat);
    }
  }

  /** The error names the first value that does not parse. */
  lemma {:induction false} PriceLoopFailsAt(ps: seq<string>, prices: seq<real>, i: nat, parseFloat: FloatParser)
    requires i < |ps| && parseFloat(ps[i]).None?
    requires forall j :: 0 <= j < i ==> parseFloat(ps[j]).Some?
    ensures PriceLoop(ps, prices, parseFloat) == Failure(ps[i])
  {
    if i > 0 {
      PriceLoopFailsAt(ps[1..], InsertPrice(parseFloat(ps[0]).value, prices), i - 1, parseFloat);
    }
  }

  /**
   * The price loop as the Validate methods run it: each value is parsed in
   * turn, appended and the slice sorted, until a value does not parse.
   */
  method CollectPrices(priceStr: seq<string>, parseFloat: FloatParser) returns (prices: seq<real>, invalid: Option<string>)
    ensures invalid.Some? <==> PriceLoop(priceStr, [], parseFloat).Failure?
    ensures invalid.Some? ==> invalid.value == PriceLoop(priceStr, [], parseFloat).error
    ensures invalid.None? ==> prices == PriceLoop(priceStr, [], parseFloat).value
  {
    prices := [];
    var i := 0;
    while i < |priceStr|
      invariant 0 <= i <= |priceStr|
      invariant PriceLoop(priceStr[i..], prices, parseFloat) == PriceLoop(priceStr, [], parseFloat)
    {
      assert priceStr[i..][1..] == priceStr[i + 1..];
      var parsedPrice := parseFloat(priceStr[i]);
      if parsedPrice.None? {
        return prices, Some(priceStr[i]);
      }
      prices := InsertPrice(parsedPrice.value, prices);
      i := i + 1;
    }
    return prices, None;
  }

  /**
   * The price section of every Validate. The count guard tests `err`, which
   * at that point holds the isAsc ParseBool error, so a wrong number of values
   * is refused only when isAsc did not parse; the bounds are then read from the
   * first two sorted values, which panics when there is only one.
   */
  datatype PriceStep = NoPrices | Bounds(min: real, max: real) | PriceFailed(reason: FilterError) | PricePanic(firstPrice: real)

  function PriceStepOf(priceStr: seq<string>, isAscUnparsed: bool, parseFloat: FloatParser): (r: PriceStep)
    ensures r.PriceFailed? && r.reason.InvalidPrice? ==> r.reason.value in priceStr && parseFloat(r.reason.value).None?
  {
    if |priceStr| == 0 then NoPrices
    else if |priceStr| != 2 && isAscUnparsed then PriceFailed(PriceCount)
    else
      match PriceLoop(priceStr, [], parseFloat)
      case Failure(p) => PriceFailed(InvalidPrice(p))
      case Success(prices) =>
        if |prices| == 1 then PricePanic(prices[0])
        else Bounds(prices[0], prices[1])
  }

  /**
   * The count guard and the price loop as the Validate methods run them, up
   * to the indexing of the sorted slice.
   */
  method ReadPriceStep(priceStr: seq<string>, isAscUnparsed: bool, parseFloat: FloatParser) returns (step: PriceStep)
    ensures step == PriceStepOf(priceStr, isAscUnparsed, parseFloat)
  {
    if |priceStr| == 0 {
      return NoPrices;
    }
    if |priceStr| != 2 {
      if isAscUnparsed {
        return PriceFailed(PriceCount);
      }
    }
    var prices, invalid := CollectPrices(priceStr, parseFloat);
    if invalid.Some? {
      return PriceFailed(InvalidPrice(invalid.value));
    }
    if |prices| == 1 {
      return PricePanic(prices[0]);
    }
    return Bounds(prices[0], prices[1]);
  }

  /**
   * When the count guard lets the values through, the first value that does
   * not parse is the one the error names.
   */
  lemma InvalidPriceNamed(priceStr: seq<string>, isAscUnparsed: bool, i: nat, parseFloat: FloatParser)
    requires |priceStr| == 2 || !isAscUnparsed
    requires i < |priceStr| && parseFloat(priceStr[i]).None?
    requires forall j :: 0 <= j < i ==> parseFloat(priceStr[j]).Some?
    ensures PriceStepOf(priceStr, isAscUnparsed, parseFloat) == PriceFailed(InvalidPrice(priceStr[i]))
  {
    PriceLoopFailsAt(priceStr, [], i, parseFloat);
  }

  /** The head of an ascending sequence is no larger than any of its elements. */
  lemma AscendingHeadLeast(prices: seq<real>, x: real)
    requires Ascending(prices) && x in multiset(prices)
    ensures prices[0] <= x
  {
    var k :| 0 <= k < |prices| && prices[k] == x;
  }

  /** The first two elements of a sequence are, as a multiset, part of it. */
  lemma FirstTwoIncluded(prices: seq<real>)
    requires |prices| >= 2
    ensures multiset{prices[0], prices[1]} <= multiset(prices)
    ensures |prices| == 2 ==> multiset{prices[0], prices[1]} == multiset(prices)
  {
    assert prices == [prices[0], prices[1]] + prices[2..];
  }

  /**
   * When every value parses and the count guard lets them through, the bounds
   * are the two smallest prices, lower first; with exactly two values they are
   * those two values.
   */
  lemma PricesGiveBounds(priceStr: seq<string>, isAscUnparsed: bool, parseFloat: FloatParser)
    requires |priceStr| == 2 || (|priceStr| > 2 && !isAscUnparsed)
    requires forall i :: 0 <= i < |priceStr| ==> parseFloat(priceStr[i]).Some?
    ensures var r := PriceStepOf(priceStr, isAscUnparsed, parseFloat);
      r.Bounds? && r.min <= r.max
      && (forall x :: x in Floats(priceStr, parseFloat) ==> r.min <= x)
      && multiset{r.min, r.max} <= multiset(Floats(priceStr, parseFloat))
      && (|priceStr| == 2 ==> multiset{r.min, r.max} == multiset(Floats(priceStr, parseFloat)))
  {
    var loop := PriceLoop(priceStr, [], parseFloat);
    var prices := loop.value;
    assert multiset(prices) == multiset(Floats(priceStr, parseFloat));
    PriceLoopSorted(priceStr, [], parseFloat);
    FirstTwoIncluded(prices);
    forall x | x in Floats(priceStr, parseFloat)
      ensures prices[0] <= x
    {
      AscendingHeadLeast(prices, x);
    }
    assert PriceStepOf(priceStr, isAscUnparsed, parseFloat) == Bounds(prices[0], prices[1]);
  }

  /**
   * A single price value that parses, sent with an isAsc that parses, gets past
   * the count guard and indexes past the end of the one-element slice.
   */
  lemma SinglePricePanics(priceStr: seq<string>, parseFloat: FloatParser)
    requires |priceStr| == 1 && parseFloat(priceStr[0]).Some?
    ensures PriceStepOf(priceStr, false, parseFloat) == PricePanic(parseFloat(priceStr[0]).value)
    ensures PriceStepOf(priceStr, true, parseFloat) == PriceFailed(PriceCount)
  {
    var v := parseFloat(priceStr[0]).value;
    assert priceStr[1..] == [];
    assert InsertPrice(v, []) == [v];
    assert PriceLoop(priceStr, [], parseFloat) == PriceLoop([], [v], parseFloat);
  }
}
