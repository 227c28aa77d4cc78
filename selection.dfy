/** The suggestion and trending lists of src/lib/yahoo-finance.ts, taken
    over the already fetched analyses (None where `analyzeStock` gave null),
    in candidate order. */
module Selection {
  import opened Common
  import opened Indicators

  // ---------------------------------------------------------------------
  // Symbols.

  predicate HasSymbol(xs: seq<StockAnalysis>, sym: string)
  {
    exists i :: 0 <= i < |xs| && xs[i].symbol == sym
  }

  /** No two entries share a ticker symbol. */
  predicate DistinctSymbols(xs: seq<StockAnalysis>)
  {
    forall i, j :: 0 <= i < j < |xs| ==> xs[i].symbol != xs[j].symbol
  }

  /** `xs.findIndex(t => t.symbol === sym)` from position `from` on; -1 if absent. */
  function FindIndexFrom(xs: seq<StockAnalysis>, sym: string, from: nat): (r: int)
    requires from <= |xs|
    ensures r == -1 || from <= r < |xs|
    ensures r >= 0 ==> xs[r].symbol == sym && forall j :: from <= j < r ==> xs[j].symbol != sym
    ensures r == -1 ==> forall j :: from <= j < |xs| ==> xs[j].symbol != sym
    decreases |xs| - from
  {
    if from == |xs| then -1
    else if xs[from].symbol == sym then from
    else FindIndexFrom(xs, sym, from + 1)
  }

  /** `filter((v, i, a) => a.findIndex(t => t.symbol === v.symbol) === i)`
      over the first `n` entries: each entry is kept only at the first
      position its symbol appears, so the kept entries are entries of the
      input whose first positions strictly increase (and their symbols are
      pairwise distinct). */
  function KeepFirstUpTo(xs: seq<StockAnalysis>, n: nat): (r: seq<StockAnalysis>)
    requires n <= |xs|
    ensures |r| <= n
    ensures forall k :: 0 <= k < |r| ==>
              0 <= FindIndexFrom(xs, r[k].symbol, 0) < n && r[k] == xs[FindIndexFrom(xs, r[k].symbol, 0)]
    ensures forall i, j :: 0 <= i < j < |r| ==>
              FindIndexFrom(xs, r[i].symbol, 0) < FindIndexFrom(xs, r[j].symbol, 0)
  {
    if n == 0 then []
    else
      var p := KeepFirstUpTo(xs, n - 1);
      if FindIndexFrom(xs, xs[n - 1].symbol, 0) == n - 1 then p + [xs[n - 1]] else p
  }

  function KeepFirst(xs: seq<StockAnalysis>): seq<StockAnalysis>
  {
    KeepFirstUpTo(xs, |xs|)
  }

  lemma KeepFirstDistinct(xs: seq<StockAnalysis>)
    ensures DistinctSymbols(KeepFirst(xs))
  {
  }

  /** Every symbol among the first `n` entries survives the de-duplication. */
  lemma {:induction false} KeepFirstCovers(xs: seq<StockAnalysis>, n: nat)
    requires n <= |xs|
    ensures forall i :: 0 <= i < n ==> HasSymbol(KeepFirstUpTo(xs, n), xs[i].symbol)
  {
    if n > 0 {
      KeepFirstCovers(xs, n - 1);
      var p := KeepFirstUpTo(xs, n - 1);
      var r := KeepFirstUpTo(xs, n);
      var f := FindIndexFrom(xs, xs[n - 1].symbol, 0);
      assert 0 <= f <= n - 1;
      forall i | 0 <= i < n ensures HasSymbol(r, xs[i].symbol) {
        var sym := xs[i].symbol;
        if i < n - 1 || f < n - 1 {
          var i' := if i < n - 1 then i else f;
          assert xs[i'].symbol == sym;
          assert HasSymbol(p, sym);
          var k :| 0 <= k < |p| && p[k].symbol == sym;
          assert r[k] == p[k];
        } else {
          assert r[|r| - 1] == xs[n - 1];
        }
      }
    }
  }

  // ---------------------------------------------------------------------
  // Stable sorting by a numeric key (JavaScript's `Array.prototype.sort`
  // with a subtracting comparator; stable since ES2019).

  datatype Order = ByRsiAscending | ByChangeDescending

  /** The key that the comparator orders ascending. */
  function Rank(o: Order, a: StockAnalysis): real
  {
    match o
    case ByRsiAscending => a.rsi
    case ByChangeDescending => -a.changePercent
  }

  predicate SortedBy(o: Order, xs: seq<StockAnalysis>)
  {
    forall i, j :: 0 <= i < j < |xs| ==> Rank(o, xs[i]) <= Rank(o, xs[j])
  }

  /** Inserts `x` before the first entry that does not rank below it. */
  function Insert(o: Order, x: StockAnalysis, xs: seq<StockAnalysis>): (r: seq<StockAnalysis>)
    requires SortedBy(o, xs)
    ensures |r| == |xs| + 1
    ensures r[0] == x || (|xs| > 0 && r[0] == xs[0])
    ensures SortedBy(o, r)
    ensures multiset(r) == multiset(xs) + multiset{x}
  {
    if |xs| == 0 || Rank(o, x) <= Rank(o, xs[0]) then [x] + xs
    else
      var t := Insert(o, x, xs[1..]);
      assert xs == [xs[0]] + xs[1..];
      ConsSorted(o, xs[0], t);
      [xs[0]] + t
  }

  /** An entry ranked no later than the head of a sorted list can go in
      front of it. */
  lemma ConsSorted(o: Order, a: StockAnalysis, t: seq<StockAnalysis>)
    requires SortedBy(o, t) && (|t| > 0 ==> Rank(o, a) <= Rank(o, t[0]))
    ensures SortedBy(o, [a] + t)
  {
    var r := [a] + t;
    forall i, j | 0 <= i < j < |r| ensures Rank(o, r[i]) <= Rank(o, r[j]) {
      if i == 0 {
        assert r[j] == t[j - 1];
      } else {
        assert r[i] == t[i - 1] && r[j] == t[j - 1];
      }
    }
  }

  /** Insertion sort, stable: equal keys keep their input order. */
  function SortBy(o: Order, xs: seq<StockAnalysis>): (r: seq<StockAnalysis>)
    ensures SortedBy(o, r)
    ensures multiset(r) == multiset(xs)
    ensures |r| == |xs|
  {
    if |xs| == 0 then []
    else
      assert xs == [xs[0]] + xs[1..];
      Insert(o, xs[0], SortBy(o, xs[1..]))
  }

  /** A symbol absent from `u` and different from `x`'s is absent from any
      arrangement of `u` plus `x`. */
  lemma AbsentAfterInsert(t: seq<StockAnalysis>, u: seq<StockAnalysis>, x: StockAnalysis, sym: string)
    requires multiset(t) == multiset(u) + multiset{x}
    requires !HasSymbol(u, sym) && x.symbol != sym
    ensures !HasSymbol(t, sym)
  {
    forall k | 0 <= k < |t| ensures t[k].symbol != sym {
      assert t[k] in multiset(t);
    }
  }

  lemma AbsentAfterPermute(t: seq<StockAnalysis>, u: seq<StockAnalysis>, sym: string)
    requires multiset(t) == multiset(u)
    requires !HasSymbol(u, sym)
    ensures !HasSymbol(t, sym)
  {
    forall k | 0 <= k < |t| ensures t[k].symbol != sym {
      assert t[k] in multiset(u);
    }
  }

  lemma ConsDistinct(a: StockAnalysis, t: seq<StockAnalysis>)
    requires DistinctSymbols(t) && !HasSymbol(t, a.symbol)
    ensures DistinctSymbols([a] + t)
  {
    var r := [a] + t;
    forall i, j | 0 <= i < j < |r| ensures r[i].symbol != r[j].symbol {
      if i == 0 {
        assert r[j] == t[j - 1];
      } else {
        assert r[i] == t[i - 1] && r[j] == t[j - 1];
      }
    }
  }

  lemma TailDistinct(xs: seq<StockAnalysis>)
    requires |xs| > 0 && DistinctSymbols(xs)
    ensures DistinctSymbols(xs[1..]) && !HasSymbol(xs[1..], xs[0].symbol)
  {
    var tail := xs[1..];
    forall i, j | 0 <= i < j < |tail| ensures tail[i].symbol != tail[j].symbol {
      assert tail[i] == xs[i + 1] && tail[j] == xs[j + 1];
    }
  }

  lemma {:induction false} InsertKeepsDistinct(o: Order, x: StockAnalysis, xs: seq<StockAnalysis>)
    requires SortedBy(o, xs) && DistinctSymbols(xs) && !HasSymbol(xs, x.symbol)
    ensures DistinctSymbols(Insert(o, x, xs))
  {
    if |xs| == 0 || Rank(o, x) <= Rank(o, xs[0]) {
      ConsDistinct(x, xs);
    } else {
      var tail := xs[1..];
      TailDistinct(xs);
      assert !HasSymbol(tail, x.symbol);
      assert x.symbol != xs[0].symbol;
      InsertKeepsDistinct(o, x, tail);
      var t := Insert(o, x, tail);
      AbsentAfterInsert(t, tail, x, xs[0].symbol);
      ConsDistinct(xs[0], t);
    }
  }

  /** Sorting neither adds nor duplicates symbols. */
  lemma {:induction false} SortKeepsDistinct(o: Order, xs: seq<StockAnalysis>)
    requires DistinctSymbols(xs)
    ensures DistinctSymbols(SortBy(o, xs))
  {
    if |xs| > 0 {
      var tail := xs[1..];
      TailDistinct(xs);
      SortKeepsDistinct(o, tail);
      var s := SortBy(o, tail);
      AbsentAfterPermute(s, tail, xs[0].symbol);
      InsertKeepsDistinct(o, xs[0], s);
    }
  }

  /** The entries whose key is `v`, in list order. */
  function OfRank(o: Order, v: real, xs: seq<StockAnalysis>): seq<StockAnalysis>
  {
    if |xs| == 0 then [] else (if Rank(o, xs[0]) == v then [xs[0]] else []) + OfRank(o, v, xs[1..])
  }

  lemma OfRankCons(o: Order, v: real, a: StockAnalysis, t: seq<StockAnalysis>)
    ensures OfRank(o, v, [a] + t) == (if Rank(o, a) == v then [a] else []) + OfRank(o, v, t)
  {
    assert ([a] + t)[1..] == t;
  }

  /** `x` inserted past the head of `xs`, whose key is smaller. */
  lemma OfRankPastHead(o: Order, v: real, x: StockAnalysis, xs: seq<StockAnalysis>, t: seq<StockAnalysis>)
    requires |xs| > 0 && Rank(o, xs[0]) < Rank(o, x)
    requires OfRank(o, v, t) == (if Rank(o, x) == v then [x] else []) + OfRank(o, v, xs[1..])
    ensures OfRank(o, v, [xs[0]] + t) == (if Rank(o, x) == v then [x] else []) + OfRank(o, v, xs)
  {
    OfRankCons(o, v, xs[0], t);
    OfRankCons(o, v, xs[0], xs[1..]);
    assert [xs[0]] + xs[1..] == xs;
  }

  /** Insertion places `x` before every entry of its own key in the list
      it is inserted into; the sort stays stable because it inserts the
      head of its input last. */
  lemma {:induction false} InsertOfRank(o: Order, v: real, x: StockAnalysis, xs: seq<StockAnalysis>)
    requires SortedBy(o, xs)
    ensures OfRank(o, v, Insert(o, x, xs)) == (if Rank(o, x) == v then [x] else []) + OfRank(o, v, xs)
  {
    var r := Insert(o, x, xs);
    if |xs| == 0 || Rank(o, x) <= Rank(o, xs[0]) {
      assert r == [x] + xs;
      OfRankCons(o, v, x, xs);
    } else {
      var tail := xs[1..];
      assert SortedBy(o, tail) by {
        forall i, j | 0 <= i < j < |tail| ensures Rank(o, tail[i]) <= Rank(o, tail[j]) {
          assert tail[i] == xs[i + 1] && tail[j] == xs[j + 1];
        }
      }
      var t := Insert(o, x, tail);
      InsertOfRank(o, v, x, tail);
      assert r == [xs[0]] + t;
      OfRankPastHead(o, v, x, xs, t);
    }
  }

  /** The sort is stable: for every key, the entries with that key keep
      their input order. */
  lemma {:induction false} SortStable(o: Order, v: real, xs: seq<StockAnalysis>)
    ensures OfRank(o, v, SortBy(o, xs)) == OfRank(o, v, xs)
  {
    if |xs| > 0 {
      SortStable(o, v, xs[1..]);
      InsertOfRank(o, v, xs[0], SortBy(o, xs[1..]));
    }
  }

  /** `xs.slice(0, n)`. */
  function Take(xs: seq<StockAnalysis>, n: nat): (r: seq<StockAnalysis>)
    ensures |r| <= n && |r| <= |xs|
    ensures r == xs[..|r|]
    ensures |xs| >= n ==> |r| == n
  {
    if |xs| <= n then xs else xs[..n]
  }

  /** A slice at least as long as the list is the whole list. */
  lemma TakeAll(xs: seq<StockAnalysis>, n: nat)
    requires |xs| <= n
    ensures Take(xs, n) == xs
  {
  }

  lemma TakeKeepsOrderAndDistinct(o: Order, xs: seq<StockAnalysis>, n: nat)
    requires SortedBy(o, xs) && DistinctSymbols(xs)
    ensures SortedBy(o, Take(xs, n)) && DistinctSymbols(Take(xs, n))
  {
  }

  // ---------------------------------------------------------------------
  // getTopSuggestions.

  const REASON_TECHNICAL: string := "💎 OPORTUNIDADE TÉCNICA: Ativo em sobrevenda extrema + RSI abaixo de 32."
  const REASON_DIVIDEND: string := "💰 DIVIDEND KING: Excelente retorno de dividendos (>8%) com preço estável."
  const REASON_RECOVERY: string := "🚀 RECOMPOSIÇÃO: Em recuperação técnica, preço acima da média de 50 dias."

  /** The reason of the first of the three suggestion rules the analysis
      satisfies, or none. */
  function SuggestionReason(a: StockAnalysis): (r: Option<string>)
    ensures r == Some(REASON_TECHNICAL) <==> a.rsi < 32.0 && a.action == Buy
    ensures r == Some(REASON_DIVIDEND) <==> !(a.rsi < 32.0 && a.action == Buy) && a.dy >= 8.0
    ensures r == Some(REASON_RECOVERY) <==>
              !(a.rsi < 32.0 && a.action == Buy) && a.dy < 8.0 && a.rsi < 45.0 && a.price > a.sma50
  {
    if a.rsi < 32.0 && a.action == Buy then Some(REASON_TECHNICAL)
    else if a.dy >= 8.0 then Some(REASON_DIVIDEND)
    else if a.rsi < 45.0 && a.price > a.sma50 then Some(REASON_RECOVERY)
    else None
  }

  predicate IsSuggestionReason(reason: string)
  {
    reason == REASON_TECHNICAL || reason == REASON_DIVIDEND || reason == REASON_RECOVERY
  }

  /** The categorised list: every non-null analysis that satisfies a rule,
      once, in candidate order, with its reason replaced by the rule's. */
  function Categorized(xs: seq<Option<StockAnalysis>>): (r: seq<StockAnalysis>)
    ensures |r| <= |xs|
    ensures forall k :: 0 <= k < |r| ==> IsSuggestionReason(r[k].reason)
  {
    if |xs| == 0 then []
    else
      var p := Categorized(xs[..|xs| - 1]);
      match xs[|xs| - 1]
      case None => p
      case Some(a) =>
        match SuggestionReason(a)
        case None => p
        case Some(why) => p + [a.(reason := why)]
  }

  /** The `forEach` that categorises the analyses and pushes the kept ones. */
  method Categorize(analyses: seq<Option<StockAnalysis>>) returns (results: seq<StockAnalysis>)
    ensures results == Categorized(analyses)
  {
    results := [];
    var i := 0;
    while i < |analyses|
      invariant 0 <= i <= |analyses|
      invariant results == Categorized(analyses[..i])
    {
      assert analyses[..i + 1][..i] == analyses[..i];
      var entry := analyses[i];
      if entry.Some? {
        var analysis := entry.value;
        if analysis.rsi < 32.0 && analysis.action == Buy {
          results := results + [analysis.(reason := REASON_TECHNICAL)];
        } else if analysis.dy >= 8.0 {
          results := results + [analysis.(reason := REASON_DIVIDEND)];
        } else if analysis.rsi < 45.0 && analysis.price > analysis.sma50 {
          results := results + [analysis.(reason := REASON_RECOVERY)];
        }
      }
      i := i + 1;
    }
    assert analyses[..|analyses|] == analyses;
  }

  /** `e` is a non-null analysis of `xs` that meets a rule, carrying that
      rule's reason. */
  predicate CategorizedFrom(xs: seq<Option<StockAnalysis>>, e: StockAnalysis)
  {
    exists i :: 0 <= i < |xs| && xs[i].Some? && SuggestionReason(xs[i].value) == Some(e.reason) &&
                e == xs[i].value.(reason := e.reason)
  }

  /** Every analysis that meets a rule is categorised, with the reason of
      the first rule it meets. */
  lemma {:induction false} CategorizedComplete(xs: seq<Option<StockAnalysis>>)
    ensures forall i :: 0 <= i < |xs| && xs[i].Some? && SuggestionReason(xs[i].value).Some? ==>
              xs[i].value.(reason := SuggestionReason(xs[i].value).value) in Categorized(xs)
  {
    if |xs| > 0 {
      var p := xs[..|xs| - 1];
      CategorizedComplete(p);
      var r, pr := Categorized(xs), Categorized(p);
      assert |pr| <= |r| && r[..|pr|] == pr;
      forall i | 0 <= i < |xs| && xs[i].Some? && SuggestionReason(xs[i].value).Some?
        ensures xs[i].value.(reason := SuggestionReason(xs[i].value).value) in r
      {
        if i < |p| {
          assert p[i] == xs[i];
        }
      }
    }
  }

  /** Number of non-null analyses that meet one of the three rules. */
  function MatchCount(xs: seq<Option<StockAnalysis>>): nat
  {
    if |xs| == 0 then 0
    else MatchCount(xs[..|xs| - 1]) + (if xs[|xs| - 1].Some? && SuggestionReason(xs[|xs| - 1].value).Some? then 1 else 0)
  }

  /** One categorised entry per analysis that meets a rule. */
  lemma {:induction false} CategorizedCount(xs: seq<Option<StockAnalysis>>)
    ensures |Categorized(xs)| == MatchCount(xs)
  {
    if |xs| > 0 {
      CategorizedCount(xs[..|xs| - 1]);
    }
  }

  /** Every categorised entry is an analysis that meets a rule, with that
      rule's reason. */
  lemma {:induction false} CategorizedSound(xs: seq<Option<StockAnalysis>>)
    ensures forall k :: 0 <= k < |Categorized(xs)| ==> CategorizedFrom(xs, Categorized(xs)[k])
  {
    if |xs| > 0 {
      var p := xs[..|xs| - 1];
      CategorizedSound(p);
      var r, pr := Categorized(xs), Categorized(p);
      assert |pr| <= |r| && r[..|pr|] == pr;
      assert |r| > |pr| ==> xs[|xs| - 1].Some? && SuggestionReason(xs[|xs| - 1].value).Some?;
      forall k | 0 <= k < |r| ensures CategorizedFrom(xs, r[k]) {
        if k < |pr| {
          assert CategorizedFrom(p, pr[k]);
          var i :| 0 <= i < |p| && p[i].Some? && SuggestionReason(p[i].value) == Some(pr[k].reason) &&
                   pr[k] == p[i].value.(reason := pr[k].reason);
          assert xs[i] == p[i] && r[k] == pr[k];
        } else {
          var last := |xs| - 1;
          var a := xs[last].value;
          var w := SuggestionReason(a).value;
          assert r == pr + [a.(reason := w)];
          assert r[k] == a.(reason := w);
          assert xs[last].Some? && SuggestionReason(xs[last].value) == Some(r[k].reason) &&
                 r[k] == xs[last].value.(reason := r[k].reason);
        }
      }
    }
  }

  /** The returned suggestions: de-duplicated, sorted by RSI, at most four. */
  function TopSuggestionsOf(analyses: seq<Option<StockAnalysis>>): seq<StockAnalysis>
  {
    Take(SortBy(ByRsiAscending, KeepFirst(Categorized(analyses))), 4)
  }

  /** At most four suggestions, pairwise-distinct symbols, lowest RSI first,
      each an analysis that meets a rule, carrying that rule's reason. */
  lemma TopSuggestionsProperties(analyses: seq<Option<StockAnalysis>>)
    ensures var r := TopSuggestionsOf(analyses);
            |r| <= 4 && DistinctSymbols(r) && SortedBy(ByRsiAscending, r) &&
            (forall k :: 0 <= k < |r| ==> IsSuggestionReason(r[k].reason)) &&
            forall k :: 0 <= k < |r| ==> CategorizedFrom(analyses, r[k])
  {
    var c := Categorized(analyses);
    CategorizedSound(analyses);
    var d := KeepFirst(c);
    KeepFirstDistinct(c);
    SortKeepsDistinct(ByRsiAscending, d);
    var s := SortBy(ByRsiAscending, d);
    TakeKeepsOrderAndDistinct(ByRsiAscending, s, 4);
    PermutationMembers(s, d);
    forall k | 0 <= k < |s| ensures IsSuggestionReason(s[k].reason) && CategorizedFrom(analyses, s[k]) {
      var i :| 0 <= i < |d| && d[i] == s[k];
      assert d[i] == c[FindIndexFrom(c, d[i].symbol, 0)];
    }
    var r := TopSuggestionsOf(analyses);
    assert r == s[..|r|];
  }

  /** An entry of a sorted list that lies outside its first `|r|` entries
      ranks no earlier than any of them. */
  lemma OutsidePrefixRanksLater(o: Order, s: seq<StockAnalysis>, r: seq<StockAnalysis>, k: nat, y: StockAnalysis)
    requires SortedBy(o, s) && |r| <= |s| && r == s[..|r|]
    requires k < |r| && y in s && y !in r
    ensures Rank(o, r[k]) <= Rank(o, y)
  {
    var m :| 0 <= m < |s| && s[m] == y;
    assert forall i :: 0 <= i < |r| ==> s[i] == r[i] && r[i] in r;
    assert Rank(o, s[k]) <= Rank(o, s[m]);
  }

  /** The first `n` of a sorted rearrangement `s` of `d` rank no later than
      any entry of `d` they leave out. */
  lemma PermutedTakeIsLowest(o: Order, s: seq<StockAnalysis>, d: seq<StockAnalysis>, n: nat)
    requires SortedBy(o, s) && multiset(s) == multiset(d)
    ensures var r := Take(s, n);
            |r| == Min(n, |d|) &&
            (forall k :: 0 <= k < |r| ==> r[k] in d) &&
            forall k, j :: 0 <= k < |r| && 0 <= j < |d| && d[j] !in r ==> Rank(o, r[k]) <= Rank(o, d[j])
  {
    var r := Take(s, n);
    assert |s| == |d| by {
      assert |multiset(s)| == |multiset(d)|;
    }
    PermutationMembers(s, d);
    PermutationMembers(d, s);
    forall k, j | 0 <= k < |r| && 0 <= j < |d| && d[j] !in r ensures Rank(o, r[k]) <= Rank(o, d[j]) {
      OutsidePrefixRanksLater(o, s, r, k, d[j]);
    }
  }

  /** The first `n` of the sorted `d` rank no later than any entry of `d`
      they leave out. */
  lemma SortedTakeIsLowest(o: Order, d: seq<StockAnalysis>, n: nat)
    ensures var r := Take(SortBy(o, d), n);
            |r| == Min(n, |d|) &&
            (forall k :: 0 <= k < |r| ==> r[k] in d) &&
            forall k, j :: 0 <= k < |r| && 0 <= j < |d| && d[j] !in r ==> Rank(o, r[k]) <= Rank(o, d[j])
  {
    PermutedTakeIsLowest(o, SortBy(o, d), d, n);
  }

  /** The suggestions are the de-duplicated categorised entries of lowest
      RSI: four of them, or all when fewer; none left out has a lower RSI. */
  lemma TopSuggestionsAreLowest(analyses: seq<Option<StockAnalysis>>)
    ensures var d := KeepFirst(Categorized(analyses));
            var r := TopSuggestionsOf(analyses);
            |r| == Min(4, |d|) &&
            (forall k :: 0 <= k < |r| ==> r[k] in d) &&
            forall k, j :: 0 <= k < |r| && 0 <= j < |d| && d[j] !in r ==> r[k].rsi <= d[j].rsi
  {
    SortedTakeIsLowest(ByRsiAscending, KeepFirst(Categorized(analyses)), 4);
  }

  /** A short de-duplicated list survives sorting and the slice with all
      its symbols, so every symbol of `c` is kept. */
  lemma {:induction false} ShortListKeepsSymbols(o: Order, c: seq<StockAnalysis>, n: nat)
    requires |KeepFirst(c)| <= n
    ensures forall m :: 0 <= m < |c| ==> HasSymbol(Take(SortBy(o, KeepFirst(c)), n), c[m].symbol)
  {
    var d := KeepFirst(c);
    var s := SortBy(o, d);
    TakeAll(s, n);
    KeepFirstCovers(c, |c|);
    PermutationMembers(d, s);
    forall m | 0 <= m < |c| ensures HasSymbol(s, c[m].symbol) {
      var j :| 0 <= j < |d| && d[j].symbol == c[m].symbol;
      var t :| 0 <= t < |s| && s[t] == d[j];
    }
  }

  /** When at most four distinct symbols are categorised, every analysis
      that meets a rule has its symbol among the suggestions. */
  lemma FewSuggestionsAllKept(analyses: seq<Option<StockAnalysis>>)
    requires |KeepFirst(Categorized(analyses))| <= 4
    ensures forall i :: 0 <= i < |analyses| && analyses[i].Some? && SuggestionReason(analyses[i].value).Some? ==>
              HasSymbol(TopSuggestionsOf(analyses), analyses[i].value.symbol)
  {
    var c := Categorized(analyses);
    CategorizedComplete(analyses);
    ShortListKeepsSymbols(ByRsiAscending, c, 4);
    forall i | 0 <= i < |analyses| && analyses[i].Some? && SuggestionReason(analyses[i].value).Some?
      ensures HasSymbol(TopSuggestionsOf(analyses), analyses[i].value.symbol)
    {
      var a := analyses[i].value;
      var m :| 0 <= m < |c| && c[m] == a.(reason := SuggestionReason(a).value);
    }
  }

  /** `getTopSuggestions` after the candidates have been shuffled and
      analysed. */
  method GetTopSuggestions(analyses: seq<Option<StockAnalysis>>) returns (top: seq<StockAnalysis>)
    ensures top == TopSuggestionsOf(analyses)
    ensures |top| <= 4 && DistinctSymbols(top) && SortedBy(ByRsiAscending, top)
  {
    var results := Categorize(analyses);
    top := Take(SortBy(ByRsiAscending, KeepFirst(results)), 4);
    TopSuggestionsProperties(analyses);
  }

  // ---------------------------------------------------------------------
  // getTrendingStocks.

  const TRENDING_SIZE: nat := 6

  /** Positive change, RSI in [50, 70] and price above the 50-day average. */
  predicate IsTrending(a: StockAnalysis)
  {
    a.changePercent > 0.0 && a.rsi >= 50.0 && a.rsi <= 70.0 && a.price > a.sma50
  }

  /** The analyses meeting the trending predicate, in candidate order. */
  function Qualifying(xs: seq<Option<StockAnalysis>>): (r: seq<StockAnalysis>)
    ensures |r| <= |xs|
    ensures forall k :: 0 <= k < |r| ==> IsTrending(r[k])
  {
    if |xs| == 0 then []
    else
      var p := Qualifying(xs[..|xs| - 1]);
      match xs[|xs| - 1]
      case Some(a) => if IsTrending(a) then p + [a] else p
      case None => p
  }

  /** The non-null analyses whose symbol is not among `chosen`. */
  function NotChosen(xs: seq<Option<StockAnalysis>>, chosen: seq<StockAnalysis>): (r: seq<StockAnalysis>)
    ensures |r| <= |xs|
    ensures forall k :: 0 <= k < |r| ==> !HasSymbol(chosen, r[k].symbol)
  {
    if |xs| == 0 then []
    else
      var p := NotChosen(xs[..|xs| - 1], chosen);
      match xs[|xs| - 1]
      case Some(a) => if !HasSymbol(chosen, a.symbol) then p + [a] else p
      case None => p
  }

  /** Every trending analysis is collected, and nothing else is. */
  lemma {:induction false} QualifyingExactly(xs: seq<Option<StockAnalysis>>)
    ensures forall i :: 0 <= i < |xs| && xs[i].Some? && IsTrending(xs[i].value) ==> xs[i].value in Qualifying(xs)
    ensures forall k :: 0 <= k < |Qualifying(xs)| ==> Some(Qualifying(xs)[k]) in xs
  {
    if |xs| > 0 {
      var p := xs[..|xs| - 1];
      QualifyingExactly(p);
      var r, pr := Qualifying(xs), Qualifying(p);
      assert |pr| <= |r| && r[..|pr|] == pr;
      forall i | 0 <= i < |xs| && xs[i].Some? && IsTrending(xs[i].value) ensures xs[i].value in r {
        if i < |p| {
          assert p[i] == xs[i];
        }
      }
      forall k | 0 <= k < |r| ensures Some(r[k]) in xs {
        if k < |pr| {
          var i :| 0 <= i < |p| && p[i] == Some(pr[k]);
          assert xs[i] == p[i] && r[k] == pr[k];
        } else {
          assert xs[|xs| - 1] == Some(r[k]);
        }
      }
    }
  }

  /** Every non-null analysis whose symbol is not chosen is a candidate,
      and nothing else is. */
  lemma {:induction false} NotChosenExactly(xs: seq<Option<StockAnalysis>>, chosen: seq<StockAnalysis>)
    ensures forall i :: 0 <= i < |xs| && xs[i].Some? && !HasSymbol(chosen, xs[i].value.symbol) ==>
              xs[i].value in NotChosen(xs, chosen)
    ensures forall k :: 0 <= k < |NotChosen(xs, chosen)| ==> Some(NotChosen(xs, chosen)[k]) in xs
  {
    if |xs| > 0 {
      var p := xs[..|xs| - 1];
      NotChosenExactly(p, chosen);
      var r, pr := NotChosen(xs, chosen), NotChosen(p, chosen);
      assert |pr| <= |r| && r[..|pr|] == pr;
      forall i | 0 <= i < |xs| && xs[i].Some? && !HasSymbol(chosen, xs[i].value.symbol) ensures xs[i].value in r {
        if i < |p| {
          assert p[i] == xs[i];
        }
      }
      forall k | 0 <= k < |r| ensures Some(r[k]) in xs {
        if k < |pr| {
          var i :| 0 <= i < |p| && p[i] == Some(pr[k]);
          assert xs[i] == p[i] && r[k] == pr[k];
        } else {
          assert xs[|xs| - 1] == Some(r[k]);
        }
      }
    }
  }

  function Min(a: nat, b: nat): nat { if a <= b then a else b }

  /** The list before the final slice: the qualifiers `q`, topped up with
      the most positive movers among `others` while fewer than six are
      collected. */
  function Collect(q: seq<StockAnalysis>, others: seq<StockAnalysis>): seq<StockAnalysis>
  {
    if |q| < TRENDING_SIZE then q + SortBy(ByChangeDescending, others)[..Min(TRENDING_SIZE - |q|, |others|)]
    else q
  }

  /** The first six collected, most positive change first. */
  function TrendingFrom(q: seq<StockAnalysis>, others: seq<StockAnalysis>): seq<StockAnalysis>
  {
    SortBy(ByChangeDescending, Take(Collect(q, others), TRENDING_SIZE))
  }

  /** `getTrendingStocks` over the analyses of its candidates: the
      qualifiers, then the analyses that do not share a qualifier's symbol. */
  function TrendingOf(xs: seq<Option<StockAnalysis>>): seq<StockAnalysis>
  {
    TrendingFrom(Qualifying(xs), NotChosen(xs, Qualifying(xs)))
  }

  /** At most six entries, most positive change first. */
  lemma TrendingShape(q: seq<StockAnalysis>, others: seq<StockAnalysis>)
    ensures |TrendingFrom(q, others)| <= TRENDING_SIZE && SortedBy(ByChangeDescending, TrendingFrom(q, others))
  {
  }

  /** With six or more qualifiers the six kept are the first six in
      candidate order, not the six with the largest change. */
  lemma TrendingManyQualifiers(q: seq<StockAnalysis>, others: seq<StockAnalysis>)
    requires |q| >= TRENDING_SIZE
    ensures multiset(TrendingFrom(q, others)) == multiset(q[..TRENDING_SIZE])
  {
    assert Collect(q, others) == q;
  }

  /** Fewer than six qualifiers: the collected list is the qualifiers and
      the first fillers, and it is short enough to survive the slice. */
  lemma CollectFew(q: seq<StockAnalysis>, others: seq<StockAnalysis>)
    requires |q| < TRENDING_SIZE
    ensures var n := Min(TRENDING_SIZE - |q|, |others|);
            Collect(q, others) == q + SortBy(ByChangeDescending, others)[..n] &&
            TrendingFrom(q, others) == SortBy(ByChangeDescending, Collect(q, others))
  {
    var c := Collect(q, others);
    assert |c| <= TRENDING_SIZE;
    TakeAll(c, TRENDING_SIZE);
  }

  /** Every entry of a rearrangement of `c` is an entry of `c`. */
  lemma PermutationMembers(r: seq<StockAnalysis>, c: seq<StockAnalysis>)
    requires multiset(r) == multiset(c)
    ensures forall k :: 0 <= k < |r| ==> r[k] in c
  {
    forall k | 0 <= k < |r| ensures r[k] in c {
      assert r[k] in multiset(r);
    }
  }

  /** With fewer than six qualifiers every qualifier is kept. */
  lemma TrendingKeepsQualifiers(q: seq<StockAnalysis>, others: seq<StockAnalysis>)
    requires |q| < TRENDING_SIZE
    ensures multiset(q) <= multiset(TrendingFrom(q, others))
  {
    var f := SortBy(ByChangeDescending, others);
    var n := Min(TRENDING_SIZE - |q|, |others|);
    CollectFew(q, others);
    assert multiset(q + f[..n]) == multiset(q) + multiset(f[..n]);
  }

  /** With fewer than six qualifiers the fillers bring the list to six, or
      every other analysis is used. */
  lemma TrendingFewLength(q: seq<StockAnalysis>, others: seq<StockAnalysis>)
    requires |q| < TRENDING_SIZE
    ensures |TrendingFrom(q, others)| == Min(TRENDING_SIZE, |q| + |others|)
  {
    CollectFew(q, others);
  }

  /** Nothing but qualifiers and other analyses enters the list. */
  lemma TrendingFewMembers(q: seq<StockAnalysis>, others: seq<StockAnalysis>)
    requires |q| < TRENDING_SIZE
    ensures forall k :: 0 <= k < |TrendingFrom(q, others)| ==>
              TrendingFrom(q, others)[k] in q || TrendingFrom(q, others)[k] in others
  {
    var f := SortBy(ByChangeDescending, others);
    var n := Min(TRENDING_SIZE - |q|, |others|);
    var r := TrendingFrom(q, others);
    CollectFew(q, others);
    PermutationMembers(r, q + f[..n]);
    PermutationMembers(f, others);
    forall k | 0 <= k < |r| ensures r[k] in q || r[k] in others {
      assert r[k] in q + f[..n];
      if r[k] !in q {
        assert r[k] in f;
      }
    }
  }

  /** In a list sorted by descending change, an entry of a prefix moved at
      least as much as any entry outside it. */
  lemma PrefixDominates(f: seq<StockAnalysis>, n: nat, x: StockAnalysis, y: StockAnalysis)
    requires SortedBy(ByChangeDescending, f) && n <= |f|
    requires x in f[..n] && y in f && y !in f[..n]
    ensures x.changePercent >= y.changePercent
  {
    var a :| 0 <= a < n && f[a] == x;
    var b :| 0 <= b < |f| && f[b] == y;
    assert Rank(ByChangeDescending, f[a]) <= Rank(ByChangeDescending, f[b]);
  }

  /** An entry of a rearrangement of `q + f[..n]` that is not in `q`
      moved at least as much as an entry of `f` the rearrangement leaves
      out. */
  lemma FillerDominates(q: seq<StockAnalysis>, f: seq<StockAnalysis>, n: nat, t: seq<StockAnalysis>,
                        x: StockAnalysis, y: StockAnalysis)
    requires SortedBy(ByChangeDescending, f) && n <= |f|
    requires multiset(t) == multiset(q + f[..n])
    requires x in t && x !in q && y in f && y !in t
    ensures x.changePercent >= y.changePercent
  {
    assert x in multiset(q + f[..n]);
    assert y !in multiset(q + f[..n]);
    PrefixDominates(f, n, x, y);
  }

  /** With fewer than six qualifiers, each filler moved at least as much
      as every other analysis left out of the list. */
  lemma TrendingFillersAreTopMovers(q: seq<StockAnalysis>, others: seq<StockAnalysis>)
    requires |q| < TRENDING_SIZE
    ensures var t := TrendingFrom(q, others);
            forall k, j :: 0 <= k < |t| && 0 <= j < |others| && t[k] !in q && others[j] !in t ==>
              t[k].changePercent >= others[j].changePercent
  {
    var f := SortBy(ByChangeDescending, others);
    var n := Min(TRENDING_SIZE - |q|, |others|);
    var t := TrendingFrom(q, others);
    CollectFew(q, others);
    PermutationMembers(others, f);
    forall k, j | 0 <= k < |t| && 0 <= j < |others| && t[k] !in q && others[j] !in t
      ensures t[k].changePercent >= others[j].changePercent
    {
      FillerDominates(q, f, n, t, t[k], others[j]);
    }
  }

  /** The `forEach` that pushes every trending analysis. */
  method CollectQualifying(analyses: seq<Option<StockAnalysis>>) returns (results: seq<StockAnalysis>)
    ensures results == Qualifying(analyses)
    ensures forall k :: 0 <= k < |results| ==> IsTrending(results[k])
  {
    results := [];
    var i := 0;
    while i < |analyses|
      invariant 0 <= i <= |analyses|
      invariant results == Qualifying(analyses[..i])
    {
      assert analyses[..i + 1][..i] == analyses[..i];
      var analysis := analyses[i];
      if analysis.Some? && analysis.value.changePercent > 0.0 && analysis.value.rsi >= 50.0
         && analysis.value.rsi <= 70.0 && analysis.value.price > analysis.value.sma50 {
        results := results + [analysis.value];
      }
      i := i + 1;
    }
    assert analyses[..|analyses|] == analyses;
  }

  /** The fallback loop: push the sorted remaining analyses until six are
      collected or none is left. */
  method FillUp(q: seq<StockAnalysis>, remaining: seq<StockAnalysis>) returns (results: seq<StockAnalysis>)
    requires |q| < TRENDING_SIZE
    ensures results == q + remaining[..Min(TRENDING_SIZE - |q|, |remaining|)]
  {
    results := q;
    var j := 0;
    while j < |remaining|
      invariant 0 <= j <= |remaining|
      invariant results == q + remaining[..j]
      invariant j <= TRENDING_SIZE - |q|
    {
      if |results| >= TRENDING_SIZE {
        break;
      }
      results := results + [remaining[j]];
      j := j + 1;
    }
  }

  /** `getTrendingStocks` after the candidates have been analysed. */
  method GetTrendingStocks(analyses: seq<Option<StockAnalysis>>) returns (trending: seq<StockAnalysis>)
    ensures trending == TrendingOf(analyses)
    ensures |trending| <= TRENDING_SIZE && SortedBy(ByChangeDescending, trending)
  {
    var results := CollectQualifying(analyses);
    if |results| < TRENDING_SIZE {
      var remaining := SortBy(ByChangeDescending, NotChosen(analyses, results));
      results := FillUp(results, remaining);
    }
    trending := SortBy(ByChangeDescending, Take(results, TRENDING_SIZE));
  }
}
