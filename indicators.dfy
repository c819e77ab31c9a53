/**
 * The indicator arithmetic of `getMarketData`: the closing prices of the
 * provider's historical series and their 7- and 50-point simple moving
 * averages. Prices are modelled as `real`, so the means are exact.
 */
module Indicators {
  import opened Wrappers

  /** One `[timestamp, price]` pair of the historical series. */
  datatype PricePoint = PricePoint(timestamp: int, price: real)

  /**
   * The `marketIndicators` object as far as this model keeps it. The series is
   * `None` when the provider's response has no `prices` field; `sma7` and
   * `sma50` are `None` when the field is never set.
   */
  datatype Snapshot = Snapshot(
    currentPrice: Option<real>,
    historicalPrices: Option<seq<PricePoint>>,
    sma7: Option<real>,
    sma50: Option<real>)

  const ShortWindow: nat := 7
  const LongWindow: nat := 50

  /** `historicalPrices.map(p => p[1])` */
  function Closes(h: seq<PricePoint>): (c: seq<real>)
    ensures |c| == |h|
    ensures forall i :: 0 <= i < |h| ==> c[i] == h[i].price
  {
    seq(|h|, i requires 0 <= i < |h| => h[i].price)
  }

  /** `s.reduce((a, b) => a + b, acc)`: a left fold, as JavaScript evaluates it. */
  function Reduce(acc: real, s: seq<real>): real
    decreases s
  {
    if s == [] then acc else Reduce(acc + s[0], s[1..])
  }

  /** The mathematical sum of a sequence, the reference the fold is measured against. */
  function Sum(s: seq<real>): real
  {
    if s == [] then 0.0 else s[0] + Sum(s[1..])
  }

  /** The last `n` elements: `s.slice(-n)` when `|s| >= n`. */
  function Last(s: seq<real>, n: nat): seq<real>
    requires n <= |s|
  {
    s[|s| - n..]
  }

  /** The mean of the last `n` closes, present only when there are at least `n`. */
  function WindowMean(closes: seq<real>, n: nat): Option<real>
    requires n > 0
  {
    if |closes| >= n then Some(Reduce(0.0, Last(closes, n)) / n as real) else None
  }

  /**
   * The indicator object that `getMarketData` returns for a fetched spot price
   * and historical series.
   */
  function DeriveSnapshot(currentPrice: Option<real>, history: Option<seq<PricePoint>>): (r: Snapshot)
    ensures r.currentPrice == currentPrice && r.historicalPrices == history
    ensures r.sma7.Some? <==> history.Some? && |history.value| >= ShortWindow
    ensures r.sma7.Some? ==>
      r.sma7.value * ShortWindow as real == Sum(Last(Closes(history.value), ShortWindow))
    ensures r.sma50.Some? <==> history.Some? && |history.value| >= LongWindow
    ensures r.sma50.Some? ==>
      r.sma50.value * LongWindow as real == Sum(Last(Closes(history.value), LongWindow))
  {
    if history.Some? && |history.value| > 0 then
      var closes := Closes(history.value);
      WindowMeanIsSum(closes, ShortWindow);
      WindowMeanIsSum(closes, LongWindow);
      Snapshot(currentPrice, history, WindowMean(closes, ShortWindow), WindowMean(closes, LongWindow))
    else
      Snapshot(currentPrice, history, None, None)
  }

  /** The left fold computes the sum, whatever the order of additions. */
  lemma {:induction false} ReduceIsSum(acc: real, s: seq<real>)
    ensures Reduce(acc, s) == acc + Sum(s)
    decreases s
  {
    if s != [] {
      ReduceIsSum(acc + s[0], s[1..]);
    }
  }

  /** A window mean, when present, is the sum of the window divided by its width. */
  lemma WindowMeanIsSum(closes: seq<real>, n: nat)
    requires n > 0
    ensures WindowMean(closes, n).Some? <==> |closes| >= n
    ensures WindowMean(closes, n).Some? ==> WindowMean(closes, n).value * n as real == Sum(Last(closes, n))
  {
    if |closes| >= n {
      ReduceIsSum(0.0, Last(closes, n));
    }
  }

  /** A sum of values in `[lo, hi]` lies between `|s| * lo` and `|s| * hi`. */
  lemma {:induction false} SumBounds(s: seq<real>, lo: real, hi: real)
    requires forall i :: 0 <= i < |s| ==> lo <= s[i] <= hi
    ensures |s| as real * lo <= Sum(s) <= |s| as real * hi
  {
    if s != [] {
      SumBounds(s[1..], lo, hi);
    }
  }

  /** The sum of a concatenation is the sum of the parts. */
  lemma {:induction false} SumAppend(a: seq<real>, b: seq<real>)
    ensures Sum(a + b) == Sum(a) + Sum(b)
  {
    if a == [] {
      assert a + b == b;
    } else {
      assert (a + b)[0] == a[0];
      assert (a + b)[1..] == a[1..] + b;
      SumAppend(a[1..], b);
    }
  }

  /** Whether every price of the last `n` points lies in `[lo, hi]`. */
  predicate WindowWithin(h: seq<PricePoint>, n: nat, lo: real, hi: real)
    requires n <= |h|
  {
    forall i :: |h| - n <= i < |h| ==> lo <= h[i].price <= hi
  }

  /** The sum of a window whose prices lie in `[lo, hi]` lies between `n * lo` and `n * hi`. */
  lemma WindowSumBounds(h: seq<PricePoint>, n: nat, lo: real, hi: real)
    requires n <= |h| && WindowWithin(h, n, lo, hi)
    ensures n as real * lo <= Sum(Last(Closes(h), n)) <= n as real * hi
  {
    var w := Last(Closes(h), n);
    forall i | 0 <= i < |w|
      ensures lo <= w[i] <= hi
    {
      assert w[i] == h[|h| - n + i].price;
    }
    SumBounds(w, lo, hi);
  }

  /**
   * A moving average lies between the lowest and highest price of its window;
   * in particular a flat series has its price as both averages.
   */
  lemma SmaWithinWindowRange(p: Option<real>, h: seq<PricePoint>, lo: real, hi: real)
    ensures var r := DeriveSnapshot(p, Some(h));
      (|h| >= ShortWindow && WindowWithin(h, ShortWindow, lo, hi) ==> lo <= r.sma7.value <= hi) &&
      (|h| >= LongWindow && WindowWithin(h, LongWindow, lo, hi) ==> lo <= r.sma50.value <= hi)
  {
    var r := DeriveSnapshot(p, Some(h));
    if |h| >= ShortWindow && WindowWithin(h, ShortWindow, lo, hi) {
      WindowSumBounds(h, ShortWindow, lo, hi);
      var m := r.sma7.value;
      assert 7.0 * lo <= m * 7.0 <= 7.0 * hi;
    }
    if |h| >= LongWindow && WindowWithin(h, LongWindow, lo, hi) {
      WindowSumBounds(h, LongWindow, lo, hi);
      var m := r.sma50.value;
      assert 50.0 * lo <= m * 50.0 <= 50.0 * hi;
    }
  }

  /** Closes of a concatenation are the concatenation of the closes. */
  lemma ClosesAppend(a: seq<PricePoint>, b: seq<PricePoint>)
    ensures Closes(a + b) == Closes(a) + Closes(b)
  {
    assert |Closes(a + b)| == |Closes(a) + Closes(b)|;
    forall i | 0 <= i < |a + b|
      ensures Closes(a + b)[i] == (Closes(a) + Closes(b))[i]
    {
      if i < |a| {
        assert (a + b)[i] == a[i];
      } else {
        assert (a + b)[i] == b[i - |a|];
      }
    }
  }

  /** Points older than the window do not affect a moving average. */
  lemma SmaIgnoresOlderHistory(p: Option<real>, older: seq<PricePoint>, h: seq<PricePoint>)
    ensures |h| >= ShortWindow ==>
      DeriveSnapshot(p, Some(older + h)).sma7 == DeriveSnapshot(p, Some(h)).sma7
    ensures |h| >= LongWindow ==>
      DeriveSnapshot(p, Some(older + h)).sma50 == DeriveSnapshot(p, Some(h)).sma50
  {
    ClosesAppend(older, h);
    var c := Closes(older + h);
    if |h| >= ShortWindow {
      assert Last(c, ShortWindow) == Last(Closes(h), ShortWindow);
    }
    if |h| >= LongWindow {
      assert Last(c, LongWindow) == Last(Closes(h), LongWindow);
    }
  }

  /**
   * A new point slides the 7-point window by one: the window sum gains the new
   * price and loses the oldest one of the previous window.
   */
  lemma ShortSmaSlides(p: Option<real>, h: seq<PricePoint>, x: PricePoint)
    requires |h| >= ShortWindow
    ensures DeriveSnapshot(p, Some(h + [x])).sma7.value * 7.0 ==
      DeriveSnapshot(p, Some(h)).sma7.value * 7.0 - h[|h| - 7].price + x.price
  {
    ClosesAppend(h, [x]);
    var c := Closes(h);
    var old7 := Last(c, 7);
    var new7 := Last(Closes(h + [x]), 7);
    assert old7 == [c[|c| - 7]] + c[|c| - 6..];
    assert new7 == c[|c| - 6..] + [x.price];
    SumAppend([c[|c| - 7]], c[|c| - 6..]);
    SumAppend(c[|c| - 6..], [x.price]);
  }
}
