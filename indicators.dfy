/** Technical indicators and the Buy/Venda/Hold signal of one quote
    (src/lib/yahoo-finance.ts). Prices are exact reals: the floating-point
    rounding of the source and its `toFixed(2)` are not modelled. */
module Indicators {
  import opened Common

  datatype Action = Buy | Venda | Hold

  /** The analysis record produced for one ticker. */
  datatype StockAnalysis = StockAnalysis(
    symbol: string,
    price: real,
    changePercent: real,
    rsi: real,
    sma50: real,
    sma200: real,
    action: Action,
    reason: string,
    dy: real,
    logo: string)

  // ---------------------------------------------------------------------
  // Simple moving average.

  function Sum(xs: seq<real>): real
  {
    if |xs| == 0 then 0.0 else Sum(xs[..|xs| - 1]) + xs[|xs| - 1]
  }

  /** A sum of values that all lie in [lo, hi] lies between n*lo and n*hi. */
  lemma {:induction false} SumBounds(xs: seq<real>, lo: real, hi: real)
    requires forall i :: 0 <= i < |xs| ==> lo <= xs[i] <= hi
    ensures |xs| as real * lo <= Sum(xs) <= |xs| as real * hi
  {
    if |xs| > 0 {
      SumBounds(xs[..|xs| - 1], lo, hi);
    }
  }

  /** `calculateSMA`: the mean of the last `period` closes, or nothing when
      fewer than `period` closes exist. */
  function Sma(data: seq<real>, period: nat): (r: Option<real>)
    requires period > 0
    ensures r.None? <==> |data| < period
  {
    if |data| < period then None
    else Some(Sum(data[|data| - period..]) / period as real)
  }

  /** The moving average lies within the range of the closes it averages;
      in particular it is positive when those closes are. */
  lemma SmaWithinRange(data: seq<real>, period: nat, lo: real, hi: real)
    requires period > 0 && |data| >= period
    requires forall i :: |data| - period <= i < |data| ==> lo <= data[i] <= hi
    ensures lo <= Sma(data, period).value <= hi
  {
    var w := data[|data| - period..];
    assert forall i :: 0 <= i < |w| ==> lo <= w[i] <= hi by {
      forall i | 0 <= i < |w| ensures lo <= w[i] <= hi {
        assert w[i] == data[|data| - period + i];
      }
    }
    SumBounds(w, lo, hi);
    MeanBounds(Sum(w), period as real, lo, hi);
  }

  lemma MeanBounds(s: real, p: real, lo: real, hi: real)
    requires p > 0.0 && p * lo <= s <= p * hi
    ensures lo <= s / p <= hi
  {
    assert s / p * p == s;
  }

  // ---------------------------------------------------------------------
  // Relative strength index.

  /** Upward move into close `i` (zero for a fall). */
  function Gain(data: seq<real>, i: int): real
    requires 1 <= i < |data|
  {
    var diff := data[i] - data[i - 1];
    if diff >= 0.0 then diff else 0.0
  }

  /** Downward move into close `i`, as a positive amount (zero for a rise). */
  function Loss(data: seq<real>, i: int): real
    requires 1 <= i < |data|
  {
    var diff := data[i] - data[i - 1];
    if diff >= 0.0 then 0.0 else -diff
  }

  /** Total gains over the moves into closes lo .. hi-1. */
  function Gains(data: seq<real>, lo: int, hi: int): (g: real)
    requires 1 <= lo <= hi <= |data|
    ensures g >= 0.0
    decreases hi - lo
  {
    if hi == lo then 0.0 else Gains(data, lo, hi - 1) + Gain(data, hi - 1)
  }

  /** Total losses over the moves into closes lo .. hi-1. */
  function Losses(data: seq<real>, lo: int, hi: int): (l: real)
    requires 1 <= lo <= hi <= |data|
    ensures l >= 0.0
    decreases hi - lo
  {
    if hi == lo then 0.0 else Losses(data, lo, hi - 1) + Loss(data, hi - 1)
  }

  /** The RSI formula from the total gains and losses of a window. */
  function RsiFrom(gains: real, losses: real, period: nat): real
    requires period > 0 && gains >= 0.0 && losses >= 0.0
  {
    var avgGain := gains / period as real;
    var avgLoss := losses / period as real;
    if avgLoss == 0.0 then 100.0
    else 100.0 - 100.0 / (1.0 + avgGain / avgLoss)
  }

  /** The RSI is a value between 0 and 100 whenever the window's gains and
      losses are non-negative. */
  lemma RsiFromBounds(gains: real, losses: real, period: nat)
    requires period > 0 && gains >= 0.0 && losses >= 0.0
    ensures 0.0 <= RsiFrom(gains, losses, period) <= 100.0
  {
    var p := period as real;
    var avgGain := gains / p;
    var avgLoss := losses / p;
    if avgLoss != 0.0 {
      assert avgLoss > 0.0;
      var rs := avgGain / avgLoss;
      assert rs >= 0.0;
      var d := 1.0 + rs;
      assert 100.0 / d * d == 100.0;
      assert 0.0 < 100.0 / d <= 100.0;
    }
  }

  /** A window with losses and no gain reads RSI 0 (the most oversold). */
  lemma RsiOfOnlyLosses(losses: real, period: nat)
    requires period > 0 && losses > 0.0
    ensures RsiFrom(0.0, losses, period) == 0.0
  {
    var avgLoss := losses / period as real;
    assert avgLoss > 0.0;
    assert 0.0 / period as real == 0.0;
    assert 0.0 / avgLoss == 0.0;
  }

  /** What `calculateRSI` returns: nothing with fewer than `period + 1`
      closes, else the formula over the last `period` moves. */
  function Rsi(data: seq<real>, period: nat): Option<real>
    requires period > 0
  {
    if |data| < period + 1 then None
    else Some(RsiFrom(Gains(data, |data| - period, |data|), Losses(data, |data| - period, |data|), period))
  }

  /** `calculateRSI`, accumulating gains and losses over the window in a loop. */
  method CalculateRsi(data: seq<real>, period: nat) returns (r: Option<real>)
    requires period > 0
    ensures r.None? <==> |data| < period + 1
    ensures r == Rsi(data, period)
    ensures r.Some? ==> 0.0 <= r.value <= 100.0
    ensures r.Some? && Losses(data, |data| - period, |data|) == 0.0 ==> r.value == 100.0
  {
    if |data| < period + 1 {
      return None;
    }
    var gains := 0.0;
    var losses := 0.0;
    var i := |data| - period;
    while i < |data|
      invariant |data| - period <= i <= |data|
      invariant gains == Gains(data, |data| - period, i)
      invariant losses == Losses(data, |data| - period, i)
    {
      var diff := data[i] - data[i - 1];
      if diff >= 0.0 {
        gains := gains + diff;
      } else {
        losses := losses - diff;
      }
      i := i + 1;
    }
    RsiFromBounds(gains, losses, period);
    var avgGain := gains / period as real;
    var avgLoss := losses / period as real;
    if avgLoss == 0.0 {
      return Some(100.0);
    }
    var rs := avgGain / avgLoss;
    r := Some(100.0 - 100.0 / (1.0 + rs));
  }

  // ---------------------------------------------------------------------
  // The signal rules.

  /** Price and indicators that the signal rules look at. */
  datatype Reading = Reading(price: real, rsi: real, sma50: real, sma200: real)

  const RULE_COUNT: nat := 6

  const REASON_LATERAL: string := "Mercado lateralizado, sem sinais claros."

  /** Condition of rule `k`, in the order the source tests them. */
  predicate RuleHolds(k: nat, m: Reading)
  {
    match k
    case 0 => m.rsi < 30.0 && m.price > m.sma200
    case 1 => m.rsi > 70.0 && m.price < m.sma200
    case 2 => m.sma50 > m.sma200 && m.rsi < 50.0
    case 3 => m.sma50 < m.sma200 && m.rsi > 50.0
    case 4 => m.rsi < 35.0
    case 5 => m.rsi > 65.0
    case _ => false
  }

  function RuleAction(k: nat): Action
  {
    if k == 0 || k == 2 || k == 4 then Buy
    else if k == 1 || k == 3 || k == 5 then Venda
    else Hold
  }

  function RuleReason(k: nat): string
  {
    match k
    case 0 => "Ativo sobrevendido (RSI < 30) em tendência de alta."
    case 1 => "Ativo sobrecomprado (RSI > 70) em tendência de baixa."
    case 2 => "Golden Cross (SMA50 > SMA200) em correção (RSI < 50)."
    case 3 => "Death Cross (SMA50 < SMA200) e possível topo local (RSI > 50)."
    case 4 => "Ativo perto de sobrevenda extrema (RSI < 35)."
    case 5 => "Ativo perto de sobrecompra extrema (RSI > 65)."
    case _ => REASON_LATERAL
  }

  /** The first rule from `k` on whose condition holds. */
  function FirstRule(k: nat, m: Reading): (r: Option<nat>)
    requires k <= RULE_COUNT
    ensures r.Some? ==> k <= r.value < RULE_COUNT && RuleHolds(r.value, m)
    ensures r.Some? ==> forall j :: k <= j < r.value ==> !RuleHolds(j, m)
    ensures r.None? ==> forall j :: k <= j < RULE_COUNT ==> !RuleHolds(j, m)
    decreases RULE_COUNT - k
  {
    if k == RULE_COUNT then None
    else if RuleHolds(k, m) then Some(k)
    else FirstRule(k + 1, m)
  }

  /** The action and reason of the first matching rule; 'Hold' with the
      "lateralizado" reason when no rule matches. */
  function Signal(m: Reading): (Action, string)
  {
    match FirstRule(0, m)
    case None => (Hold, REASON_LATERAL)
    case Some(k) => (RuleAction(k), RuleReason(k))
  }

  /** Every Buy rule requires an RSI under 50 and every Venda rule an RSI
      over 50, so an RSI of exactly 50 always yields Hold. */
  lemma SignalSidesOfNeutral(m: Reading)
    ensures Signal(m).0 == Buy ==> m.rsi < 50.0
    ensures Signal(m).0 == Venda ==> m.rsi > 50.0
    ensures m.rsi == 50.0 ==> Signal(m) == (Hold, REASON_LATERAL)
  {
    var r := FirstRule(0, m);
    if r.Some? {
      assert RuleHolds(r.value, m);
    } else if m.rsi == 50.0 {
      assert Signal(m) == (Hold, REASON_LATERAL);
    }
  }

  // ---------------------------------------------------------------------
  // analyzeStock.

  /** The fields of the first quote result the analysis reads; an absent
      number is 0, which the source's `||` treats like null. */
  datatype QuoteResult = QuoteResult(
    regularMarketPrice: real,
    regularMarketChangePercent: real,
    historical: seq<Option<real>>,
    dividendYield: real,
    logoUrl: string)

  /** The numeric closes of the history, skipping entries without one. */
  function Closes(hist: seq<Option<real>>): (cs: seq<real>)
    ensures |cs| <= |hist|
  {
    if |hist| == 0 then []
    else
      var p := Closes(hist[..|hist| - 1]);
      match hist[|hist| - 1]
      case None => p
      case Some(c) => p + [c]
  }

  /** The market price, else the last close, else 0. */
  function ResolvedPrice(q: QuoteResult): real
  {
    var cs := Closes(q.historical);
    if q.regularMarketPrice != 0.0 then q.regularMarketPrice
    else if |cs| > 0 then cs[|cs| - 1]
    else 0.0
  }

  /** RSI of the closes, or the neutral 50 when fewer than 15 closes exist
      or the computed value is 0. */
  function RsiOrNeutral(cs: seq<real>): real
  {
    if |cs| >= 15 then
      match Rsi(cs, 14)
      case Some(v) => if v != 0.0 then v else 50.0
      case None => 50.0
    else 50.0
  }

  /** 50-session average, or the price when history is short or the
      average is 0. */
  function Sma50OrPrice(cs: seq<real>, price: real): real
  {
    if |cs| >= 50 then
      match Sma(cs, 50)
      case Some(v) => if v != 0.0 then v else price
      case None => price
    else price
  }

  /** 200-session average, or the 50-session value when history is short or
      the average is 0. */
  function Sma200OrSma50(cs: seq<real>, sma50: real): real
  {
    if |cs| >= 200 then
      match Sma(cs, 200)
      case Some(v) => if v != 0.0 then v else sma50
      case None => sma50
    else sma50
  }

  /** Number of history entries without a numeric close. */
  function Gaps(hist: seq<Option<real>>): nat
  {
    if |hist| == 0 then 0 else Gaps(hist[..|hist| - 1]) + (if hist[|hist| - 1].None? then 1 else 0)
  }

  /** One step of `Closes`: the last entry adds its value when present. */
  lemma ClosesStep(hist: seq<Option<real>>)
    requires |hist| > 0
    ensures var pc := Closes(hist[..|hist| - 1]);
            Closes(hist) == if hist[|hist| - 1].Some? then pc + [hist[|hist| - 1].value] else pc
  {
  }

  /** Each close is the value of some entry of the history. */
  lemma {:induction false} ClosesFromHistory(hist: seq<Option<real>>)
    ensures forall k :: 0 <= k < |Closes(hist)| ==> Some(Closes(hist)[k]) in hist
  {
    if |hist| > 0 {
      var p := hist[..|hist| - 1];
      ClosesFromHistory(p);
      ClosesStep(hist);
      var cs, pc := Closes(hist), Closes(p);
      forall k | 0 <= k < |cs| ensures Some(cs[k]) in hist {
        if k < |pc| {
          var i :| 0 <= i < |p| && p[i] == Some(pc[k]);
          assert hist[i] == p[i];
        } else {
          assert hist[|hist| - 1] == Some(cs[k]);
        }
      }
    }
  }

  /** Each present value of the history is a close. */
  lemma {:induction false} ClosesCoverHistory(hist: seq<Option<real>>)
    ensures forall i :: 0 <= i < |hist| && hist[i].Some? ==> hist[i].value in Closes(hist)
  {
    if |hist| > 0 {
      var p := hist[..|hist| - 1];
      ClosesCoverHistory(p);
      ClosesStep(hist);
      var cs, pc := Closes(hist), Closes(p);
      assert forall v :: v in pc ==> v in cs;
      forall i | 0 <= i < |hist| && hist[i].Some? ensures hist[i].value in cs {
        if i < |p| {
          assert p[i] == hist[i];
          assert hist[i].value in pc;
        } else {
          assert cs == pc + [hist[i].value];
        }
      }
    }
  }

  /** One close per present entry. */
  lemma {:induction false} ClosesCount(hist: seq<Option<real>>)
    ensures |Closes(hist)| == |hist| - Gaps(hist)
  {
    if |hist| > 0 {
      ClosesCount(hist[..|hist| - 1]);
      ClosesStep(hist);
    }
  }

  /** The last close is the value of the last present entry, which
      `ResolvedPrice` falls back on. */
  lemma {:induction false} LastClose(hist: seq<Option<real>>)
    ensures |Closes(hist)| > 0 ==>
              exists i :: 0 <= i < |hist| && hist[i] == Some(Closes(hist)[|Closes(hist)| - 1]) &&
                          forall j :: i < j < |hist| ==> hist[j].None?
  {
    if |hist| > 0 {
      var p := hist[..|hist| - 1];
      LastClose(p);
      ClosesStep(hist);
      var cs, pc := Closes(hist), Closes(p);
      if hist[|hist| - 1].None? && |cs| > 0 {
        var i :| 0 <= i < |p| && p[i] == Some(pc[|pc| - 1]) && forall j :: i < j < |p| ==> p[j].None?;
        assert hist[i] == p[i];
        assert forall j :: i < j < |hist| ==> hist[j].None? by {
          forall j | i < j < |hist| ensures hist[j].None? {
            if j < |p| { assert p[j] == hist[j]; }
          }
        }
      }
    }
  }

  /** A computed average of 0 falls back exactly as a short history does;
      a non-zero one is used. */
  lemma AverageFallbacks(cs: seq<real>, price: real, sma50: real)
    ensures Sma(cs, 50) == Some(0.0) ==> Sma50OrPrice(cs, price) == price
    ensures Sma(cs, 200) == Some(0.0) ==> Sma200OrSma50(cs, sma50) == sma50
    ensures |cs| >= 50 && Sma(cs, 50).value != 0.0 ==> Sma50OrPrice(cs, price) == Sma(cs, 50).value
    ensures |cs| >= 200 && Sma(cs, 200).value != 0.0 ==> Sma200OrSma50(cs, sma50) == Sma(cs, 200).value
  {
  }

  /** The analysis of a quote whose resolved price is non-zero. */
  function AnalysisOf(symbol: string, q: QuoteResult): StockAnalysis
  {
    var cs := Closes(q.historical);
    var price := ResolvedPrice(q);
    var rsi := RsiOrNeutral(cs);
    var sma50 := Sma50OrPrice(cs, price);
    var sma200 := Sma200OrSma50(cs, sma50);
    var signal := Signal(Reading(price, rsi, sma50, sma200));
    StockAnalysis(symbol, price, q.regularMarketChangePercent, rsi, sma50, sma200,
                  signal.0, signal.1, q.dividendYield, q.logoUrl)
  }

  /** The indicator fallbacks: short histories take the neutral RSI, the
      price for SMA50 and SMA50 for SMA200. */
  lemma ShortHistoryFallbacks(symbol: string, q: QuoteResult)
    ensures var cs := Closes(q.historical);
            var a := AnalysisOf(symbol, q);
            (|cs| < 15 ==> a.rsi == 50.0) &&
            (|cs| < 50 ==> a.sma50 == a.price) &&
            (|cs| < 200 ==> a.sma200 == a.sma50) &&
            a.rsi >= 0.0 && a.rsi <= 100.0
  {
    var cs := Closes(q.historical);
    if |cs| >= 15 {
      RsiFromBounds(Gains(cs, |cs| - 14, |cs|), Losses(cs, |cs| - 14, |cs|), 14);
    }
  }

  /** With fewer than 15 closes the RSI is neutral, so the signal is always
      Hold whatever the averages say. */
  lemma ShortHistoryHolds(symbol: string, q: QuoteResult)
    requires |Closes(q.historical)| < 15
    ensures AnalysisOf(symbol, q).action == Hold
  {
    var a := AnalysisOf(symbol, q);
    SignalSidesOfNeutral(Reading(a.price, a.rsi, a.sma50, a.sma200));
  }

  /** The formula gives 0 exactly when the window had losses and no gain. */
  lemma RsiZeroExactly(gains: real, losses: real, period: nat)
    requires period > 0 && gains >= 0.0 && losses >= 0.0
    ensures RsiFrom(gains, losses, period) == 0.0 <==> gains == 0.0 && losses > 0.0
  {
    var p := period as real;
    var avgGain := gains / p;
    var avgLoss := losses / p;
    if losses > 0.0 {
      assert avgLoss > 0.0;
      var rs := avgGain / avgLoss;
      assert rs * avgLoss == avgGain;
      var d := 1.0 + rs;
      assert 100.0 / d * d == 100.0;
      if gains == 0.0 {
        RsiOfOnlyLosses(losses, period);
      } else {
        assert avgGain > 0.0 && rs > 0.0;
        assert 100.0 / d < 100.0;
      }
    }
  }

  /** The window's gains are 0 exactly when no close in it rose; a flat
      move counts as a gain of 0. */
  lemma {:induction false} GainsZeroIff(cs: seq<real>, lo: int, hi: int)
    requires 1 <= lo <= hi <= |cs|
    ensures Gains(cs, lo, hi) == 0.0 <==> forall i :: lo <= i < hi ==> cs[i] <= cs[i - 1]
    decreases hi - lo
  {
    if hi > lo {
      GainsZeroIff(cs, lo, hi - 1);
    }
  }

  /** The window's losses are positive exactly when some close in it fell. */
  lemma {:induction false} LossesPositiveIff(cs: seq<real>, lo: int, hi: int)
    requires 1 <= lo <= hi <= |cs|
    ensures Losses(cs, lo, hi) > 0.0 <==> exists i :: lo <= i < hi && cs[i] < cs[i - 1]
    decreases hi - lo
  {
    if hi > lo {
      LossesPositiveIff(cs, lo, hi - 1);
    }
  }

  /** A computed RSI of 0 happens exactly when no close of the last 14
      moves rose and at least one fell; the `|| 50` fallback then stores the
      neutral 50. */
  lemma ComputedRsiZero(cs: seq<real>)
    requires |cs| >= 15
    ensures Rsi(cs, 14).value == 0.0 <==>
              (forall i :: |cs| - 14 <= i < |cs| ==> cs[i] <= cs[i - 1]) &&
              (exists i :: |cs| - 14 <= i < |cs| && cs[i] < cs[i - 1])
    ensures Rsi(cs, 14).value == 0.0 ==> RsiOrNeutral(cs) == 50.0
  {
    var lo := |cs| - 14;
    GainsZeroIff(cs, lo, |cs|);
    LossesPositiveIff(cs, lo, |cs|);
    RsiZeroExactly(Gains(cs, lo, |cs|), Losses(cs, lo, |cs|), 14);
  }

  /** The six rules tried in order: the first that matches is the rule. */
  lemma FirstRuleUnrolled(m: Reading)
    ensures FirstRule(0, m) ==
              if RuleHolds(0, m) then Some(0) else if RuleHolds(1, m) then Some(1)
              else if RuleHolds(2, m) then Some(2) else if RuleHolds(3, m) then Some(3)
              else if RuleHolds(4, m) then Some(4) else if RuleHolds(5, m) then Some(5)
              else None
  {
    assert FirstRule(5, m) == if RuleHolds(5, m) then Some(5) else FirstRule(6, m);
    assert FirstRule(4, m) == if RuleHolds(4, m) then Some(4) else FirstRule(5, m);
    assert FirstRule(3, m) == if RuleHolds(3, m) then Some(3) else FirstRule(4, m);
    assert FirstRule(2, m) == if RuleHolds(2, m) then Some(2) else FirstRule(3, m);
    assert FirstRule(1, m) == if RuleHolds(1, m) then Some(1) else FirstRule(2, m);
  }

  /** The signal as the chain of six tests, each giving its rule's action
      and reason. */
  lemma SignalUnrolled(m: Reading)
    ensures Signal(m) ==
              if RuleHolds(0, m) then (Buy, RuleReason(0)) else if RuleHolds(1, m) then (Venda, RuleReason(1))
              else if RuleHolds(2, m) then (Buy, RuleReason(2)) else if RuleHolds(3, m) then (Venda, RuleReason(3))
              else if RuleHolds(4, m) then (Buy, RuleReason(4)) else if RuleHolds(5, m) then (Venda, RuleReason(5))
              else (Hold, REASON_LATERAL)
  {
    FirstRuleUnrolled(m);
  }

  /** The if/else-if chain of `analyzeStock`. */
  method ClassifySignal(price: real, rsi: real, sma50: real, sma200: real) returns (action: Action, reason: string)
    ensures (action, reason) == Signal(Reading(price, rsi, sma50, sma200))
  {
    ghost var m := Reading(price, rsi, sma50, sma200);
    SignalUnrolled(m);
    action := Hold;
    reason := REASON_LATERAL;
    if rsi < 30.0 && price > sma200 {
      assert RuleHolds(0, m);
      action, reason := Buy, RuleReason(0);
    } else if rsi > 70.0 && price < sma200 {
      assert !RuleHolds(0, m) && RuleHolds(1, m);
      action, reason := Venda, RuleReason(1);
    } else if sma50 > sma200 && rsi < 50.0 {
      assert !RuleHolds(0, m) && !RuleHolds(1, m) && RuleHolds(2, m);
      action, reason := Buy, RuleReason(2);
    } else if sma50 < sma200 && rsi > 50.0 {
      assert !RuleHolds(0, m) && !RuleHolds(1, m) && !RuleHolds(2, m) && RuleHolds(3, m);
      action, reason := Venda, RuleReason(3);
    } else if rsi < 35.0 {
      assert !RuleHolds(0, m) && !RuleHolds(1, m) && !RuleHolds(2, m) && !RuleHolds(3, m) && RuleHolds(4, m);
      action, reason := Buy, RuleReason(4);
    } else if rsi > 65.0 {
      assert !RuleHolds(0, m) && !RuleHolds(1, m) && !RuleHolds(2, m) && !RuleHolds(3, m) && !RuleHolds(4, m);
      assert RuleHolds(5, m);
      action, reason := Venda, RuleReason(5);
    } else {
      assert !RuleHolds(0, m) && !RuleHolds(1, m) && !RuleHolds(2, m) && !RuleHolds(3, m) && !RuleHolds(4, m);
      assert !RuleHolds(5, m);
    }
  }



  /** `analyzeStock` after the fetch: `response` is None when the request
      failed, else the list of quote results. */
  method AnalyzeStock(symbol: string, response: Option<seq<QuoteResult>>) returns (a: Option<StockAnalysis>)
    ensures a.None? <==> response.None? || |response.value| == 0 || ResolvedPrice(response.value[0]) == 0.0
    ensures a.Some? ==> a.value == AnalysisOf(symbol, response.value[0])
  {
    if response.None? || |response.value| == 0 {
      return None;
    }
    var result := response.value[0];
    var closes := Closes(result.historical);
    var price := if result.regularMarketPrice != 0.0 then result.regularMarketPrice
                 else if |closes| > 0 then closes[|closes| - 1] else 0.0;
    var changePercent := result.regularMarketChangePercent;
    if price == 0.0 {
      return None;
    }

    var rsi := 50.0;
    if |closes| >= 15 {
      var computed := CalculateRsi(closes, 14);
      if computed.Some? && computed.value != 0.0 {
        rsi := computed.value;
      }
    }
    var sma50 := price;
    if |closes| >= 50 {
      var s := Sma(closes, 50);
      if s.Some? && s.value != 0.0 {
        sma50 := s.value;
      }
    }
    var sma200 := sma50;
    if |closes| >= 200 {
      var s := Sma(closes, 200);
      if s.Some? && s.value != 0.0 {
        sma200 := s.value;
      }
    }

    var action, reason := ClassifySignal(price, rsi, sma50, sma200);
    a := Some(StockAnalysis(symbol, price, changePercent, rsi, sma50, sma200,
                            action, reason, result.dividendYield, result.logoUrl));
  }
}
