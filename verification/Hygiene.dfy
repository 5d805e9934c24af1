/** The corroboration layer of src/hygiene/__init__.py: the median of distinct price origins
    and the checks on an action's economic claims. */
module Hygiene {
  import opened Sorting
  import opened Action

  predicate RealLeq(a: real, b: real) {
    a <= b
  }

  lemma RealOrder()
    ensures TotalOrder(RealLeq)
  {}

  /** _median: of a sorted copy; zero for no values. */
  function Median(xs: seq<real>): real {
    var s := Sort(RealLeq, xs);
    var n := |xs|;
    SortLength(xs);
    if n == 0 then 0.0
    else if n % 2 == 1 then s[n / 2]
    else (s[n / 2 - 1] + s[n / 2]) / 2.0
  }

  lemma SortLength(xs: seq<real>)
    ensures |Sort(RealLeq, xs)| == |xs|
  {
    SortPermutes(RealLeq, xs);
    assert |multiset(Sort(RealLeq, xs))| == |multiset(xs)|;
  }

  /** How many values lie in [lo, hi]. */
  function Inside(xs: seq<real>, lo: real, hi: real): nat {
    if xs == [] then 0 else (if lo <= xs[0] <= hi then 1 else 0) + Inside(xs[1..], lo, hi)
  }

  lemma {:induction false} InsideInsert(x: real, s: seq<real>, lo: real, hi: real)
    ensures Inside(Insert(RealLeq, x, s), lo, hi) == Inside(s, lo, hi) + if lo <= x <= hi then 1 else 0
  {
    if s == [] || x <= s[0] {
      assert ([x] + s)[1..] == s;
    } else {
      InsideInsert(x, s[1..], lo, hi);
      assert ([s[0]] + Insert(RealLeq, x, s[1..]))[1..] == Insert(RealLeq, x, s[1..]);
    }
  }

  lemma {:induction false} InsideSort(xs: seq<real>, lo: real, hi: real)
    ensures Inside(Sort(RealLeq, xs), lo, hi) == Inside(xs, lo, hi)
  {
    if xs != [] {
      InsideSort(xs[1..], lo, hi);
      InsideInsert(xs[0], Sort(RealLeq, xs[1..]), lo, hi);
    }
  }

  /** At most |s| - k values are inside when the first k are not. */
  lemma {:induction false} PrefixOutside(s: seq<real>, k: nat, lo: real, hi: real)
    requires k <= |s| && forall i :: 0 <= i < k ==> !(lo <= s[i] <= hi)
    ensures Inside(s, lo, hi) <= |s| - k
  {
    if s != [] {
      assert forall i :: 0 <= i < k - 1 ==> s[1..][i] == s[i + 1];
      PrefixOutside(s[1..], if k == 0 then 0 else k - 1, lo, hi);
    }
  }

  /** At most k values are inside when everything from k on is not. */
  lemma {:induction false} SuffixOutside(s: seq<real>, k: nat, lo: real, hi: real)
    requires k <= |s| && forall i :: k <= i < |s| ==> !(lo <= s[i] <= hi)
    ensures Inside(s, lo, hi) <= k
  {
    if s != [] {
      assert forall i :: 0 <= i < |s| - 1 ==> s[1..][i] == s[i + 1];
      SuffixOutside(s[1..], if k == 0 then 0 else k - 1, lo, hi);
    }
  }

  /** With a strict majority inside, the sorted value at either middle position is inside. */
  lemma MiddleInside(s: seq<real>, k: nat, lo: real, hi: real)
    requires Sorted(RealLeq, s) && 2 * Inside(s, lo, hi) > |s|
    requires k < |s| && |s| - 1 <= 2 * k + 1 && 2 * k <= |s|
    ensures lo <= s[k] <= hi
  {
    if s[k] < lo {
      assert forall i :: 0 <= i < k ==> RealLeq(s[i], s[k]);
      PrefixOutside(s, k + 1, lo, hi);
    } else if s[k] > hi {
      assert forall i :: k < i < |s| ==> RealLeq(s[k], s[i]);
      SuffixOutside(s, k, lo, hi);
    }
  }

  /** The median is robust: a strict majority inside an interval puts it inside too. */
  lemma MedianRobust(xs: seq<real>, lo: real, hi: real)
    requires 2 * Inside(xs, lo, hi) > |xs|
    ensures lo <= Median(xs) <= hi
  {
    var s, n := Sort(RealLeq, xs), |xs|;
    RealOrder();
    SortSorts(RealLeq, xs);
    SortLength(xs);
    InsideSort(xs, lo, hi);
    if n == 0 {
    } else if n % 2 == 1 {
      MiddleInside(s, n / 2, lo, hi);
    } else {
      MiddleInside(s, n / 2, lo, hi);
      MiddleInside(s, n / 2 - 1, lo, hi);
    }
  }

  /** The median is the middle of the sorted values, or halfway between the two middle ones. */
  lemma MedianIsMiddle(xs: seq<real>) returns (s: seq<real>)
    ensures multiset(s) == multiset(xs) && |s| == |xs| && forall i, j :: 0 <= i < j < |s| ==> s[i] <= s[j]
    ensures |xs| == 0 ==> Median(xs) == 0.0
    ensures |xs| % 2 == 1 ==> Median(xs) == s[|xs| / 2]
    ensures |xs| > 0 && |xs| % 2 == 0 ==> Median(xs) == (s[|xs| / 2 - 1] + s[|xs| / 2]) / 2.0
  {
    s := Sort(RealLeq, xs);
    RealOrder();
    SortSorts(RealLeq, xs);
    SortPermutes(RealLeq, xs);
    SortLength(xs);
    hide Sort;
    assert forall i, j :: 0 <= i < j < |s| ==> RealLeq(s[i], s[j]);
  }

  // ----- origins -----

  /** The quotes_by_source dictionary, with its insertion order. */
  datatype Quotes = Quotes(order: seq<string>, byOrigin: map<string, real>)

  const NO_QUOTES: Quotes := Quotes([], map[])

  function Put(q: Quotes, origin: string, v: real): Quotes {
    Quotes(if origin in q.byOrigin then q.order else q.order + [origin], q.byOrigin[origin := v])
  }

  /** Every origin is listed once. */
  ghost predicate DictOk(q: Quotes) {
    && (forall x :: x in q.order <==> x in q.byOrigin)
    && (forall i, j :: 0 <= i < j < |q.order| ==> q.order[i] != q.order[j])
  }

  function ValuesIn(order: seq<string>, m: map<string, real>): (vs: seq<real>)
    requires forall x :: x in order ==> x in m
    ensures |vs| == |order|
  {
    if order == [] then [] else ValuesIn(order[..|order| - 1], m) + [m[order[|order| - 1]]]
  }

  // ----- the layer -----

  /** Feeds are anonymous lists; price sources are named, in configuration order. */
  datatype Layer = Layer(enabled: bool, instruments: set<string>, feeds: map<string, seq<real>>,
                         sources: seq<(string, map<string, real>)>, bandBps: int, quorum: int)

  function FeedQuotes(l: Layer, instrument: string): Quotes {
    if instrument in l.feeds && l.feeds[instrument] != [] then Put(NO_QUOTES, "feed", Median(l.feeds[instrument]))
    else NO_QUOTES
  }

  /** The quotes of an instrument: the feed as one origin, then every named source. */
  function QuotesFrom(l: Layer, sources: seq<(string, map<string, real>)>, instrument: string): Quotes {
    if sources == [] then FeedQuotes(l, instrument)
    else
      var q, (origin, quotes) := QuotesFrom(l, sources[..|sources| - 1], instrument), sources[|sources| - 1];
      if instrument in quotes then Put(q, origin, quotes[instrument]) else q
  }

  lemma {:induction false} QuotesOk(l: Layer, sources: seq<(string, map<string, real>)>, instrument: string)
    ensures DictOk(QuotesFrom(l, sources, instrument))
  {
    hide Median;
    if sources != [] { QuotesOk(l, sources[..|sources| - 1], instrument); }
  }

  ghost function AllQuotes(l: Layer, instrument: string): (q: Quotes)
    ensures DictOk(q)
  {
    QuotesOk(l, l.sources, instrument);
    QuotesFrom(l, l.sources, instrument)
  }

  /** The origins that quote an instrument: the names of its sources, and "feed" for any
      number of anonymous values. */
  ghost function Origins(l: Layer, instrument: string): set<string> {
    (set i | 0 <= i < |l.sources| && instrument in l.sources[i].1 :: l.sources[i].0)
    + if instrument in l.feeds && l.feeds[instrument] != [] then {"feed"} else {}
  }

  lemma {:induction false} QuotesAreOrigins(l: Layer, n: nat, instrument: string)
    requires n <= |l.sources|
    ensures QuotesFrom(l, l.sources[..n], instrument).byOrigin.Keys
         == (set i | 0 <= i < n && instrument in l.sources[i].1 :: l.sources[i].0)
            + if instrument in l.feeds && l.feeds[instrument] != [] then {"feed"} else {}
  {
    hide Median;
    if n > 0 {
      QuotesAreOrigins(l, n - 1, instrument);
      assert l.sources[..n][..n - 1] == l.sources[..n - 1];
    }
  }

  /** Violations are their codes, in the order they are appended. */
  datatype HygieneVerdict = HygieneVerdict(ok: bool, verdict: string, violations: seq<string>)

  function Band(mid: real, bps: int): real {
    mid * (bps as real) / 10000.0
  }

  /** The price check: an unverifiable or out-of-band code, or nothing. */
  function PriceCodes(l: Layer, values: seq<real>, price: real): seq<string> {
    if values == [] || |values| < l.quorum then ["price_unverifiable"]
    else
      var mid := Median(values);
      var band := Band(mid, l.bandBps);
      if mid - band <= price <= mid + band then [] else ["price_out_of_band"]
  }

  function DestinationCodes(a: FinancialAction, allowlist: set<string>): seq<string> {
    if a.destination == "" then []
    else if allowlist == {} then ["destination_untrusted"]
    else if a.destination !in allowlist then ["destination_off_allowlist"]
    else []
  }

  function OtherCodes(a: FinancialAction): seq<string> {
    (if a.evidence.intendedQuantity.Some? && Abs(a.quantity - a.evidence.intendedQuantity.value) > 0.000000001
     then ["quantity_intent_mismatch"] else [])
    + (if a.riskClass == "high" && a.evidence.isEmpty then ["evidence_ungrounded"] else [])
  }

  /** What evaluate finds wrong with an action. */
  ghost function Violations(l: Layer, a: FinancialAction, allowlist: set<string>): seq<string> {
    var q := AllQuotes(l, a.instrument);
    (if l.instruments != {} && a.instrument !in l.instruments then ["instrument_unknown"] else [])
    + PriceCodes(l, ValuesIn(q.order, q.byOrigin), a.priceLimit)
    + DestinationCodes(a, allowlist)
    + OtherCodes(a)
  }

  /** evaluate: pass-through when disabled, narrowing otherwise. */
  ghost function EvaluateSpec(l: Layer, a: FinancialAction, allowlist: set<string>, input: string): HygieneVerdict {
    if !l.enabled then HygieneVerdict(true, input, [])
    else if input == "BLOCKED" then HygieneVerdict(false, "BLOCKED", [])
    else
      var vs := Violations(l, a, allowlist);
      if vs != [] then HygieneVerdict(false, "BLOCKED", vs) else HygieneVerdict(true, input, vs)
  }

  lemma QuotesSnoc(l: Layer, n: nat, instrument: string)
    requires n < |l.sources|
    ensures var (origin, quotes) := l.sources[n]; var q := QuotesFrom(l, l.sources[..n], instrument);
      QuotesFrom(l, l.sources[..n + 1], instrument) == if instrument in quotes then Put(q, origin, quotes[instrument]) else q
  {
    hide FeedQuotes, Put;
    assert l.sources[..n + 1][..n] == l.sources[..n];
  }

  lemma NoSources(l: Layer, instrument: string)
    ensures QuotesFrom(l, l.sources[..0], instrument) == FeedQuotes(l, instrument)
  {}

  method Evaluate(l: Layer, a: FinancialAction, allowlist: set<string>, input: string) returns (v: HygieneVerdict)
    ensures v == EvaluateSpec(l, a, allowlist, input)
  {
    hide Median, PriceCodes, DestinationCodes, OtherCodes, FeedQuotes, Put, QuotesFrom, ValuesIn;
    if !l.enabled {
      return HygieneVerdict(true, input, []);
    }
    if input == "BLOCKED" {
      return HygieneVerdict(false, "BLOCKED", []);
    }
    var violations := [];
    if l.instruments != {} && a.instrument !in l.instruments {
      violations := violations + ["instrument_unknown"];
    }
    var q, i := FeedQuotes(l, a.instrument), 0;
    NoSources(l, a.instrument);
    while i < |l.sources|
      invariant 0 <= i <= |l.sources| && q == QuotesFrom(l, l.sources[..i], a.instrument)
    {
      QuotesSnoc(l, i, a.instrument);
      var (origin, quotes) := l.sources[i];
      if a.instrument in quotes {
        q := Put(q, origin, quotes[a.instrument]);
      }
      i := i + 1;
    }
    assert l.sources[..i] == l.sources;
    QuotesOk(l, l.sources, a.instrument);
    violations := violations + PriceCodes(l, ValuesIn(q.order, q.byOrigin), a.priceLimit);
    violations := violations + DestinationCodes(a, allowlist);
    violations := violations + OtherCodes(a);
    if violations != [] {
      return HygieneVerdict(false, "BLOCKED", violations);
    }
    return HygieneVerdict(true, input, violations);
  }

  // ----- what acceptance means -----

  lemma {:induction false} DictSize(order: seq<string>, keys: set<string>)
    requires forall x :: x in order <==> x in keys
    requires forall i, j :: 0 <= i < j < |order| ==> order[i] != order[j]
    ensures |order| == |keys|
    decreases |order|
  {
    if order == [] {
      assert keys == {};
    } else {
      var n := |order| - 1;
      var rest := order[..n];
      assert order == rest + [order[n]];
      forall x ensures x in rest <==> x in keys - {order[n]} {
        if x in rest {
          var i :| 0 <= i < n && order[i] == x;
        }
      }
      DictSize(rest, keys - {order[n]});
    }
  }

  lemma PriceAccepted(l: Layer, values: seq<real>, price: real)
    ensures PriceCodes(l, values, price) == [] <==>
      && values != [] && |values| >= l.quorum
      && Median(values) - Band(Median(values), l.bandBps) <= price <= Median(values) + Band(Median(values), l.bandBps)
  {}

  lemma NoPriceCode(l: Layer, a: FinancialAction, allowlist: set<string>, input: string)
    requires l.enabled && EvaluateSpec(l, a, allowlist, input).ok
    ensures var q := AllQuotes(l, a.instrument); PriceCodes(l, ValuesIn(q.order, q.byOrigin), a.priceLimit) == []
  {
    hide PriceCodes, DestinationCodes, OtherCodes, ValuesIn, AllQuotes;
  }

  /** There are as many values as origins. */
  lemma QuotesCount(l: Layer, instrument: string)
    ensures |AllQuotes(l, instrument).order| == |Origins(l, instrument)|
  {
    hide QuotesFrom;
    var q := AllQuotes(l, instrument);
    assert l.sources[..|l.sources|] == l.sources;
    QuotesAreOrigins(l, |l.sources|, instrument);
    DictSize(q.order, q.byOrigin.Keys);
  }

  // ----- who quotes what -----

  function Quote(l: Layer, k: nat, instrument: string): real
    requires k < |l.sources| && instrument in l.sources[k].1
  {
    l.sources[k].1[instrument]
  }

  /** Source k is named s and quotes the instrument, and none of the first n behind it does both. */
  predicate LastNamed(l: Layer, n: nat, k: nat, s: string, instrument: string)
    requires k < n <= |l.sources|
  {
    && l.sources[k].0 == s && instrument in l.sources[k].1
    && forall j :: k < j < n ==> l.sources[j].0 != s || instrument !in l.sources[j].1
  }

  ghost predicate SomeNamed(l: Layer, n: nat, s: string, instrument: string)
    requires n <= |l.sources|
  {
    exists k :: 0 <= k < n && LastNamed(l, n, k, s, instrument)
  }

  /** The origin s quotes v: the last source of that name that quotes the instrument does, or
      without one it is the feed, and v the median of the feed's values. */
  ghost predicate QuotesAt(l: Layer, n: nat, instrument: string, s: string, v: real)
    requires n <= |l.sources|
  {
    if SomeNamed(l, n, s, instrument) then
      exists k :: 0 <= k < n && LastNamed(l, n, k, s, instrument) && Quote(l, k, instrument) == v
    else
      s == "feed" && instrument in l.feeds && l.feeds[instrument] != [] && v == Median(l.feeds[instrument])
  }

  lemma QuotesStep(l: Layer, n: nat, instrument: string, s: string, v: real)
    requires 0 < n <= |l.sources|
    ensures QuotesAt(l, n, instrument, s, v) <==>
      if l.sources[n - 1].0 == s && instrument in l.sources[n - 1].1 then v == l.sources[n - 1].1[instrument]
      else QuotesAt(l, n - 1, instrument, s, v)
  {
    hide Median;
    if l.sources[n - 1].0 == s && instrument in l.sources[n - 1].1 {
      assert LastNamed(l, n, n - 1, s, instrument);
    } else {
      forall k | 0 <= k < n - 1 ensures LastNamed(l, n, k, s, instrument) <==> LastNamed(l, n - 1, k, s, instrument) {}
      assert !LastNamed(l, n, n - 1, s, instrument);
      hide LastNamed;
      if SomeNamed(l, n, s, instrument) {
        var k :| 0 <= k < n && LastNamed(l, n, k, s, instrument);
        assert k < n - 1 && LastNamed(l, n - 1, k, s, instrument);
      }
      if SomeNamed(l, n - 1, s, instrument) {
        var k :| 0 <= k < n - 1 && LastNamed(l, n - 1, k, s, instrument);
        assert LastNamed(l, n, k, s, instrument);
      }
      if k :| 0 <= k < n && LastNamed(l, n, k, s, instrument) && Quote(l, k, instrument) == v {
        assert k < n - 1 && LastNamed(l, n - 1, k, s, instrument);
      }
      if k :| 0 <= k < n - 1 && LastNamed(l, n - 1, k, s, instrument) && Quote(l, k, instrument) == v {
        assert LastNamed(l, n, k, s, instrument);
      }
    }
  }

  /** What is recorded is exactly what the origins quote. */
  lemma {:induction false} RecordedExactly(l: Layer, n: nat, instrument: string, s: string, v: real)
    requires n <= |l.sources|
    ensures var m := QuotesFrom(l, l.sources[..n], instrument).byOrigin;
      (s in m && m[s] == v) <==> QuotesAt(l, n, instrument, s, v)
  {
    hide Median;
    if n > 0 {
      RecordedExactly(l, n - 1, instrument, s, v);
      QuotesSnoc(l, n - 1, instrument);
      QuotesStep(l, n, instrument, s, v);
      hide QuotesAt, QuotesFrom;
    }
  }

  /** The origins whose quote lies in [lo, hi]. */
  ghost function Agreeing(l: Layer, instrument: string, lo: real, hi: real): set<string> {
    set s | s in Origins(l, instrument) && QuotesBetween(l, instrument, s, lo, hi)
  }

  ghost predicate QuotesBetween(l: Layer, instrument: string, s: string, lo: real, hi: real) {
    exists v :: QuotesAt(l, |l.sources|, instrument, s, v) && lo <= v <= hi
  }

  lemma {:induction false} InsideCounts(order: seq<string>, m: map<string, real>, inside: set<string>, lo: real, hi: real)
    requires forall x :: x in order ==> x in m
    requires forall i, j :: 0 <= i < j < |order| ==> order[i] != order[j]
    requires forall x :: x in inside <==> x in order && lo <= m[x] <= hi
    ensures Inside(ValuesIn(order, m), lo, hi) == |inside|
    decreases |order|
  {
    hide Inside, ValuesIn;
    if order == [] {
      NothingInside(m, lo, hi);
      assert inside == {};
    } else {
      var n := |order| - 1;
      var last := order[n];
      assert forall x :: x in order[..n] <==> x in order && x != last;
      InsideCounts(order[..n], m, inside - {last}, lo, hi);
      InsideSnoc(ValuesIn(order[..n], m), m[last], lo, hi);
      LastValue(order, m);
      if last !in inside { assert inside - {last} == inside; }
    }
  }

  lemma NothingInside(m: map<string, real>, lo: real, hi: real)
    ensures Inside(ValuesIn([], m), lo, hi) == 0
  {}

  lemma LastValue(order: seq<string>, m: map<string, real>)
    requires order != [] && forall x :: x in order ==> x in m
    ensures ValuesIn(order, m) == ValuesIn(order[..|order| - 1], m) + [m[order[|order| - 1]]]
  {}

  lemma {:induction false} InsideSnoc(xs: seq<real>, x: real, lo: real, hi: real)
    ensures Inside(xs + [x], lo, hi) == Inside(xs, lo, hi) + if lo <= x <= hi then 1 else 0
  {
    if xs != [] {
      InsideSnoc(xs[1..], x, lo, hi);
      assert (xs + [x])[1..] == xs[1..] + [x];
    } else {
      assert [] + [x] == [x] && [x][1..] == [];
    }
  }

  lemma AllRecorded(l: Layer, instrument: string)
    ensures AllQuotes(l, instrument).byOrigin.Keys == Origins(l, instrument)
    ensures forall s, v ::
      (QuotesAt(l, |l.sources|, instrument, s, v)
       <==> s in AllQuotes(l, instrument).byOrigin && AllQuotes(l, instrument).byOrigin[s] == v)
  {
    hide QuotesFrom, QuotesAt;
    assert l.sources[..|l.sources|] == l.sources;
    QuotesAreOrigins(l, |l.sources|, instrument);
    forall s, v ensures QuotesAt(l, |l.sources|, instrument, s, v)
      <==> s in AllQuotes(l, instrument).byOrigin && AllQuotes(l, instrument).byOrigin[s] == v
    {
      RecordedExactly(l, |l.sources|, instrument, s, v);
    }
  }

  lemma AgreeingCounts(l: Layer, instrument: string, lo: real, hi: real)
    ensures var q := AllQuotes(l, instrument);
      Inside(ValuesIn(q.order, q.byOrigin), lo, hi) == |Agreeing(l, instrument, lo, hi)|
  {
    AllRecorded(l, instrument);
    hide QuotesAt, AllQuotes, Origins, ValuesIn;
    var q := AllQuotes(l, instrument);
    var inside := Agreeing(l, instrument, lo, hi);
    forall x ensures x in inside <==> x in q.order && lo <= q.byOrigin[x] <= hi {
      if x in q.byOrigin { assert QuotesAt(l, |l.sources|, instrument, x, q.byOrigin[x]); }
    }
    InsideCounts(q.order, q.byOrigin, inside, lo, hi);
  }

  /** The origins in some order, and beside each its quote. */
  ghost predicate QuoteList(l: Layer, instrument: string, origins: seq<string>, values: seq<real>) {
    && |origins| == |values| == |Origins(l, instrument)|
    && (forall s :: s in origins <==> s in Origins(l, instrument))
    && forall i :: 0 <= i < |origins| ==> QuotesAt(l, |l.sources|, instrument, origins[i], values[i])
  }

  lemma {:induction false} ValuesAt(order: seq<string>, m: map<string, real>, i: nat)
    requires (forall x :: x in order ==> x in m) && i < |order|
    ensures ValuesIn(order, m)[i] == m[order[i]]
  {
    if i < |order| - 1 { ValuesAt(order[..|order| - 1], m, i); }
  }

  lemma RecordedList(l: Layer, instrument: string)
    ensures var q := AllQuotes(l, instrument); QuoteList(l, instrument, q.order, ValuesIn(q.order, q.byOrigin))
  {
    AllRecorded(l, instrument);
    QuotesCount(l, instrument);
    hide QuotesAt, AllQuotes, Origins, ValuesIn;
    var q := AllQuotes(l, instrument);
    forall i | 0 <= i < |q.order| ensures QuotesAt(l, |l.sources|, instrument, q.order[i], ValuesIn(q.order, q.byOrigin)[i]) {
      ValuesAt(q.order, q.byOrigin, i);
      assert q.order[i] in q.order;
    }
  }

  // ----- what each code means -----

  /** The price lies within the band of basis points around mid. */
  predicate InBand(price: real, mid: real, bps: int) {
    mid - mid * (bps as real) / 10000.0 <= price <= mid + mid * (bps as real) / 10000.0
  }

  ghost predicate Verifiable(l: Layer, instrument: string) {
    |Origins(l, instrument)| >= 1 && |Origins(l, instrument)| >= l.quorum
  }

  lemma CodesOfValues(l: Layer, values: seq<real>, price: real)
    ensures PriceCodes(l, values, price)
         == if values == [] || |values| < l.quorum then ["price_unverifiable"]
            else if !InBand(price, Median(values), l.bandBps) then ["price_out_of_band"]
            else []
  {
    hide Median;
  }

  lemma PriceCodesExactly(l: Layer, a: FinancialAction) returns (origins: seq<string>, values: seq<real>)
    ensures QuoteList(l, a.instrument, origins, values)
    ensures var q := AllQuotes(l, a.instrument);
      PriceCodes(l, ValuesIn(q.order, q.byOrigin), a.priceLimit)
      == if !Verifiable(l, a.instrument) then ["price_unverifiable"]
         else if !InBand(a.priceLimit, Median(values), l.bandBps) then ["price_out_of_band"]
         else []
  {
    hide Median, AllQuotes, ValuesIn, Origins, PriceCodes, InBand;
    RecordedList(l, a.instrument);
    var q := AllQuotes(l, a.instrument);
    origins, values := q.order, ValuesIn(q.order, q.byOrigin);
    CodesOfValues(l, values, a.priceLimit);
    assert |values| == |Origins(l, a.instrument)|;
    hide QuoteList;
  }

  /** An enabled layer, asked about an action that is not blocked already, answers exactly these
      codes: an instrument it does not know, a price that fewer than quorum origins vouch for or
      that is outside the band around the median quote, a destination that is not listed, a
      quantity other than the intended one, and high risk without evidence. */
  lemma CodesExactly(l: Layer, a: FinancialAction, allowlist: set<string>, input: string)
      returns (origins: seq<string>, values: seq<real>)
    requires l.enabled && input != "BLOCKED"
    ensures QuoteList(l, a.instrument, origins, values)
    ensures forall c :: c in EvaluateSpec(l, a, allowlist, input).violations <==>
      ((c == "instrument_unknown" && l.instruments != {} && a.instrument !in l.instruments)
       || (c == "price_unverifiable" && !Verifiable(l, a.instrument))
       || (c == "price_out_of_band" && Verifiable(l, a.instrument) && !InBand(a.priceLimit, Median(values), l.bandBps))
       || (c == "destination_untrusted" && a.destination != "" && allowlist == {})
       || (c == "destination_off_allowlist" && a.destination != "" && allowlist != {} && a.destination !in allowlist)
       || (c == "quantity_intent_mismatch" && a.evidence.intendedQuantity.Some?
           && !(-0.000000001 <= a.quantity - a.evidence.intendedQuantity.value <= 0.000000001))
       || (c == "evidence_ungrounded" && a.riskClass == "high" && a.evidence.isEmpty))
    ensures EvaluateSpec(l, a, allowlist, input).ok <==> EvaluateSpec(l, a, allowlist, input).violations == []
    ensures EvaluateSpec(l, a, allowlist, input).verdict
         == if EvaluateSpec(l, a, allowlist, input).violations == [] then input else "BLOCKED"
  {
    hide Median, AllQuotes, ValuesIn, PriceCodes, QuoteList, Verifiable, InBand, DestinationCodes, OtherCodes, Violations;
    origins, values := PriceCodesExactly(l, a);
    forall c ensures c in Violations(l, a, allowlist) <==>
      ((c == "instrument_unknown" && l.instruments != {} && a.instrument !in l.instruments)
       || (c == "price_unverifiable" && !Verifiable(l, a.instrument))
       || (c == "price_out_of_band" && Verifiable(l, a.instrument) && !InBand(a.priceLimit, Median(values), l.bandBps))
       || c in DestinationCodes(a, allowlist) || c in OtherCodes(a))
    {
      InViolations(l, a, allowlist, c);
    }
    OtherExactly(a);
    DestinationExactly(a, allowlist);
  }

  lemma InViolations(l: Layer, a: FinancialAction, allowlist: set<string>, c: string)
    ensures var q := AllQuotes(l, a.instrument);
      c in Violations(l, a, allowlist)
      <==> ((c == "instrument_unknown" && l.instruments != {} && a.instrument !in l.instruments)
            || c in PriceCodes(l, ValuesIn(q.order, q.byOrigin), a.priceLimit)
            || c in DestinationCodes(a, allowlist) || c in OtherCodes(a))
  {
    hide AllQuotes, ValuesIn, PriceCodes, DestinationCodes, OtherCodes;
  }

  lemma OtherExactly(a: FinancialAction)
    ensures forall c :: c in OtherCodes(a) <==>
      ((c == "quantity_intent_mismatch" && a.evidence.intendedQuantity.Some?
        && !(-0.000000001 <= a.quantity - a.evidence.intendedQuantity.value <= 0.000000001))
       || (c == "evidence_ungrounded" && a.riskClass == "high" && a.evidence.isEmpty))
  {}

  lemma DestinationExactly(a: FinancialAction, allowlist: set<string>)
    ensures forall c :: c in DestinationCodes(a, allowlist) <==>
      ((c == "destination_untrusted" && a.destination != "" && allowlist == {})
       || (c == "destination_off_allowlist" && a.destination != "" && allowlist != {} && a.destination !in allowlist))
  {}

  /** A layer that is not enabled passes everything through; one that is leaves a blocked action
      blocked. */
  lemma PassThrough(l: Layer, a: FinancialAction, allowlist: set<string>, input: string)
    ensures !l.enabled ==> EvaluateSpec(l, a, allowlist, input) == HygieneVerdict(true, input, [])
    ensures l.enabled && input == "BLOCKED" ==> EvaluateSpec(l, a, allowlist, input) == HygieneVerdict(false, "BLOCKED", [])
  {}

  /** The check that gives a code, in the order in which they are made. */
  function CheckOf(code: string): nat {
    if code == "instrument_unknown" then 1
    else if code == "price_unverifiable" || code == "price_out_of_band" then 2
    else if code == "destination_untrusted" || code == "destination_off_allowlist" then 3
    else if code == "quantity_intent_mismatch" then 4
    else if code == "evidence_ungrounded" then 5
    else 0
  }

  predicate InCheckOrder(codes: seq<string>) {
    forall i, j :: 0 <= i < j < |codes| ==> CheckOf(codes[i]) < CheckOf(codes[j])
  }

  predicate FromChecks(codes: seq<string>, first: nat, last: nat) {
    forall i :: 0 <= i < |codes| ==> first <= CheckOf(codes[i]) <= last
  }

  lemma OrderJoins(a: seq<string>, b: seq<string>, first: nat, middle: nat, next: nat, last: nat)
    requires InCheckOrder(a) && InCheckOrder(b) && FromChecks(a, first, middle) && FromChecks(b, next, last)
    requires first <= middle < next <= last
    ensures InCheckOrder(a + b) && FromChecks(a + b, first, last)
  {
    hide CheckOf;
  }

  /** Every check gives one code at most, and the codes stand in the order of the checks. */
  lemma CodesInOrder(l: Layer, a: FinancialAction, allowlist: set<string>, input: string)
    ensures InCheckOrder(EvaluateSpec(l, a, allowlist, input).violations)
  {
    hide AllQuotes, ValuesIn, Median, Band, Abs;
    var q := AllQuotes(l, a.instrument);
    var instrument := if l.instruments != {} && a.instrument !in l.instruments then ["instrument_unknown"] else [];
    var price := PriceCodes(l, ValuesIn(q.order, q.byOrigin), a.priceLimit);
    OneCheckEach(l, a, allowlist, ValuesIn(q.order, q.byOrigin));
    hide PriceCodes, DestinationCodes, OtherCodes, InCheckOrder, FromChecks, CheckOf;
    OrderJoins(instrument, price, 1, 1, 2, 2);
    OrderJoins(instrument + price, DestinationCodes(a, allowlist), 1, 2, 3, 3);
    OrderJoins(instrument + price + DestinationCodes(a, allowlist), OtherCodes(a), 1, 3, 4, 5);
    NothingInOrder();
  }

  lemma NothingInOrder()
    ensures InCheckOrder([])
  {}

  lemma OneCheckEach(l: Layer, a: FinancialAction, allowlist: set<string>, values: seq<real>)
    ensures InCheckOrder(["instrument_unknown"]) && FromChecks(["instrument_unknown"], 1, 1)
    ensures InCheckOrder([]) && FromChecks([], 1, 1)
    ensures InCheckOrder(PriceCodes(l, values, a.priceLimit)) && FromChecks(PriceCodes(l, values, a.priceLimit), 2, 2)
    ensures InCheckOrder(DestinationCodes(a, allowlist)) && FromChecks(DestinationCodes(a, allowlist), 3, 3)
    ensures InCheckOrder(OtherCodes(a)) && FromChecks(OtherCodes(a), 4, 5)
  {
    hide Median, Band, Abs;
  }

  /** An action the enabled layer accepts is corroborated by at least quorum distinct origins,
      however often one origin repeats itself; and if a strict majority of the origins quote
      inside [lo, hi], its price limit is within the basis-point band of a value in [lo, hi]. */
  lemma AcceptedPriceIsCorroborated(l: Layer, a: FinancialAction, allowlist: set<string>, input: string, lo: real, hi: real)
    requires l.enabled && EvaluateSpec(l, a, allowlist, input).ok
    ensures |Origins(l, a.instrument)| >= 1 && |Origins(l, a.instrument)| >= l.quorum
    ensures 2 * |Agreeing(l, a.instrument, lo, hi)| > |Origins(l, a.instrument)| ==>
      exists mid :: lo <= mid <= hi && InBand(a.priceLimit, mid, l.bandBps)
  {
    hide Median, EvaluateSpec, PriceCodes, Inside, ValuesIn, QuotesFrom, Origins, AllQuotes, Agreeing;
    var q := AllQuotes(l, a.instrument);
    var values := ValuesIn(q.order, q.byOrigin);
    NoPriceCode(l, a, allowlist, input);
    PriceAccepted(l, values, a.priceLimit);
    QuotesCount(l, a.instrument);
    AgreeingCounts(l, a.instrument, lo, hi);
    if 2 * Inside(values, lo, hi) > |values| {
      MedianRobust(values, lo, hi);
      var mid := Median(values);
      assert lo <= mid <= hi && InBand(a.priceLimit, mid, l.bandBps);
    }
  }

  /** A named destination passes only if it is on the tenant's allowlist. */
  lemma AcceptedDestinationIsListed(l: Layer, a: FinancialAction, allowlist: set<string>, input: string)
    requires l.enabled && input != "BLOCKED"
    ensures EvaluateSpec(l, a, allowlist, input).ok ==> a.destination == "" || a.destination in allowlist
    ensures EvaluateSpec(l, a, allowlist, input).ok <==> Violations(l, a, allowlist) == []
    ensures a.destination != "" && a.destination !in allowlist ==>
      exists c :: c in Violations(l, a, allowlist) && c in {"destination_off_allowlist", "destination_untrusted"}
  {
    hide PriceCodes, OtherCodes;
    if a.destination != "" && a.destination !in allowlist {
      var c := DestinationCodes(a, allowlist)[0];
      assert c in DestinationCodes(a, allowlist);
      assert c in Violations(l, a, allowlist);
    }
  }
}
