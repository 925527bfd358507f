/** Rescaling of the node scores to the framework's range, in 64-bit
    arithmetic that wraps around and division that truncates. */
module NormalizeScore {
  import opened Kube
  import opened Packing

  const MAX_NODE_SCORE := 100
  const MIN_NODE_SCORE := 0
  const TWO64: int := 0x1_0000_0000_0000_0000

  datatype NodeScore = NodeScore(name: string, score: int64)

  // ----- 64-bit arithmetic -----

  function Wrap(x: int): (r: int64)
    ensures MIN_INT64 <= x <= MAX_INT64 ==> r == x
    ensures exists k: int :: x == r + k * TWO64
  {
    var m := x % TWO64;
    assert x == m + (x / TWO64) * TWO64;
    assert x == (m - TWO64) + (x / TWO64 + 1) * TWO64;
    if m > MAX_INT64 then m - TWO64 else m
  }

  /** Division toward zero, for divisors of either sign. */
  function Quotient(a: int64, b: int64): int64
    requires b != 0
  {
    var x: int, y: int := a, b;
    Wrap(if y > 0 then TruncDiv(x, y) else TruncDiv(-x, -y))
  }

  // ----- what the code computes -----

  function Highest(s: seq<NodeScore>): int64 {
    if s == [] then -MAX_INT64
    else
      var h := Highest(s[..|s| - 1]);
      if s[|s| - 1].score > h then s[|s| - 1].score else h
  }

  function Lowest(s: seq<NodeScore>): int64 {
    if s == [] then MAX_INT64
    else
      var l := Lowest(s[..|s| - 1]);
      if s[|s| - 1].score < l then s[|s| - 1].score else l
  }

  function Rescaled(x: int64, lowest: int64, oldRange: int64): int64 {
    if oldRange == 0 then MIN_NODE_SCORE
    else
      var scaled := Quotient(Wrap(Wrap(x - lowest) * (MAX_NODE_SCORE - MIN_NODE_SCORE)), oldRange);
      Wrap(scaled + MIN_NODE_SCORE)
  }

  function RescaledList(s: seq<NodeScore>, lowest: int64, oldRange: int64): seq<NodeScore> {
    seq(|s|, i requires 0 <= i < |s| => s[i].(score := Rescaled(s[i].score, lowest, oldRange)))
  }

  function Normalized(s: seq<NodeScore>): seq<NodeScore> {
    RescaledList(s, Lowest(s), Wrap(Highest(s) - Lowest(s)))
  }

  /** The first loop. */
  method FindRange(scores: array<NodeScore>) returns (highest: int64, lowest: int64)
    ensures highest == Highest(scores[..]) && lowest == Lowest(scores[..])
  {
    highest, lowest := -MAX_INT64, MAX_INT64;
    for i := 0 to scores.Length
      invariant highest == Highest(scores[..i]) && lowest == Lowest(scores[..i])
    {
      assert scores[..i + 1][..i] == scores[..i];
      if scores[i].score > highest {
        highest := scores[i].score;
      }
      if scores[i].score < lowest {
        lowest := scores[i].score;
      }
    }
    assert scores[..scores.Length] == scores[..];
  }

  /** The second loop. */
  method RescaleAll(scores: array<NodeScore>, lowest: int64, oldRange: int64)
    modifies scores
    ensures scores[..] == RescaledList(old(scores[..]), lowest, oldRange)
  {
    ghost var was := scores[..];
    var newRange := MAX_NODE_SCORE - MIN_NODE_SCORE;
    for i := 0 to scores.Length
      invariant forall k :: 0 <= k < i ==> scores[k] == RescaledList(was, lowest, oldRange)[k]
      invariant forall k :: i <= k < scores.Length ==> scores[k] == was[k]
    {
      if oldRange == 0 {
        scores[i] := scores[i].(score := MIN_NODE_SCORE);
      } else {
        var scaled := Quotient(Wrap(Wrap(scores[i].score - lowest) * newRange), oldRange);
        scores[i] := scores[i].(score := Wrap(scaled + MIN_NODE_SCORE));
      }
    }
  }

  method NormalizeScore(scores: array<NodeScore>)
    modifies scores
    ensures scores[..] == Normalized(old(scores[..]))
  {
    var highest: int, lowest: int := FindRange(scores);
    RescaleAll(scores, lowest, Wrap(highest - lowest));
  }

  // ----- what it should compute -----

  /** These are the least and the greatest score. */
  predicate Bounds(s: seq<NodeScore>, lo: int64, hi: int64) {
    && (forall i :: 0 <= i < |s| ==> lo <= s[i].score <= hi)
    && (exists i :: 0 <= i < |s| && s[i].score == lo)
    && (exists i :: 0 <= i < |s| && s[i].score == hi)
  }

  /** Rescaling in unbounded arithmetic. */
  function Ideal(x: int, lo: int, hi: int): int
    requires lo <= x <= hi
  {
    if lo == hi then MIN_NODE_SCORE else (x - lo) * (MAX_NODE_SCORE - MIN_NODE_SCORE) / (hi - lo) + MIN_NODE_SCORE
  }

  /** The scaled range fits 64 bits. */
  predicate RangeFits(lo: int, hi: int) {
    (hi - lo) * (MAX_NODE_SCORE - MIN_NODE_SCORE) <= MAX_INT64
  }

  lemma {:induction false} LowestIsLeast(s: seq<NodeScore>)
    ensures forall i :: 0 <= i < |s| ==> Lowest(s) <= s[i].score
    ensures s != [] ==> exists i :: 0 <= i < |s| && s[i].score == Lowest(s)
  {
    if s != [] {
      var init := s[..|s| - 1];
      LowestIsLeast(init);
      if s[|s| - 1].score != Lowest(s) {
        assert init == [] ==> Lowest(init) == MAX_INT64;
        var i :| 0 <= i < |init| && init[i].score == Lowest(init);
        assert s[i].score == Lowest(s);
      }
    }
  }

  lemma {:induction false} HighestIsGreatest(s: seq<NodeScore>)
    ensures Highest(s) >= -MAX_INT64
    ensures forall i :: 0 <= i < |s| ==> s[i].score <= Highest(s)
    ensures Highest(s) > -MAX_INT64 ==> exists i :: 0 <= i < |s| && s[i].score == Highest(s)
  {
    if s != [] {
      var init := s[..|s| - 1];
      HighestIsGreatest(init);
      if s[|s| - 1].score != Highest(s) && Highest(s) > -MAX_INT64 {
        var i :| 0 <= i < |init| && init[i].score == Highest(init);
        assert s[i].score == Highest(s);
      }
    }
  }

  /** The loop finds the least and the greatest score of a list exactly when
      some score is above the least 64-bit integer, which is below the first
      value of `highest`. */
  lemma BoundsFoundIff(s: seq<NodeScore>)
    ensures Bounds(s, Lowest(s), Highest(s)) <==> exists i :: 0 <= i < |s| && s[i].score > MIN_INT64
  {
    LowestIsLeast(s);
    HighestIsGreatest(s);
    if i :| 0 <= i < |s| && s[i].score > MIN_INT64 {
      assert s[i].score <= Highest(s);
      if Highest(s) == -MAX_INT64 {
        assert s[i].score == Highest(s);
      }
    }
  }

  /** The bounds of a list are the only ones. */
  lemma BoundsUnique(s: seq<NodeScore>, lo: int64, hi: int64)
    requires Bounds(s, lo, hi)
    ensures lo == Lowest(s) && hi >= lo
    ensures hi == Highest(s) || (lo == hi == MIN_INT64 && Highest(s) == -MAX_INT64)
  {
    LowestIsLeast(s);
    HighestIsGreatest(s);
    BoundsFoundIff(s);
  }

  // ----- when the two agree -----

  /** Division is the greatest whole number of times. */
  lemma QuotientIs(a: int, c: int, q: int)
    requires c > 0
    ensures q <= a / c <==> q * c <= a
  {
    var t := a / c;
    assert t * c <= a < t * c + c;
    if q <= t {
      TimesMonotone(q, t, c);
    } else {
      TimesMonotone(t + 1, q, c);
      assert (t + 1) * c == t * c + c;
    }
  }

  lemma IdealInRange(x: int, lo: int, hi: int)
    requires lo <= x <= hi
    ensures MIN_NODE_SCORE <= Ideal(x, lo, hi) <= MAX_NODE_SCORE
    ensures lo < hi ==> Ideal(lo, lo, hi) == MIN_NODE_SCORE && Ideal(hi, lo, hi) == MAX_NODE_SCORE
  {
    if lo < hi {
      QuotientIs((x - lo) * 100, hi - lo, 0);
      QuotientIs((x - lo) * 100, hi - lo, 101);
      QuotientIs((hi - lo) * 100, hi - lo, 100);
      QuotientIs((hi - lo) * 100, hi - lo, 101);
      assert (lo - lo) * 100 / (hi - lo) == 0;
    }
  }

  lemma RescaledIsIdeal(x: int64, lo: int64, hi: int64)
    requires lo <= x <= hi && RangeFits(lo, hi)
    ensures Rescaled(x, lo, Wrap(hi - lo)) == Ideal(x, lo, hi)
  {
    IdealInRange(x, lo, hi);
  }

  /** A range that fits 64 bits but not when scaled sends the greatest score
      elsewhere. */
  lemma GreatestMissed(lo: int64, hi: int64)
    requires lo <= hi && hi - lo <= MAX_INT64 && !RangeFits(lo, hi)
    ensures Rescaled(hi, lo, Wrap(hi - lo)) != Ideal(hi, lo, hi)
  {
    var r := hi - lo;
    IdealInRange(hi, lo, hi);
    var w := Wrap(r * 100);
    assert w < r * 100;
    if w >= 0 {
      QuotientIs(w, r, 100);
      QuotientIs(w, r, 0);
    } else {
      QuotientIs(-w, r, 0);
    }
  }

  /** A range that wraps around to o, not close to the least integer, sends a
      score that belongs at the minimum below it. */
  lemma LowMissed(lo: int64, hi: int64)
    requires TWO64 - (hi - lo) <= MAX_INT64 / 100 * 100
    ensures var x := lo + MAX_INT64 / 100;
            lo <= x <= hi && Rescaled(x, lo, Wrap(hi - lo)) != Ideal(x, lo, hi)
  {
    var d := MAX_INT64 / 100;
    WrapOnce(hi - lo);
    var o := Wrap(hi - lo);
    QuotientIs(d * 100, -o, 1);
    QuotientIs(d * 100, hi - lo, 1);
    QuotientIs(d * 100, hi - lo, 0);
    assert Ideal(lo + d, lo, hi) == 0;
  }

  lemma WrapOnce(x: int)
    requires MAX_INT64 < x <= MAX_INT64 + TWO64
    ensures Wrap(x) == x - TWO64
  {
  }

  lemma WrapFifty(e: int)
    requires 0 <= e <= 7
    ensures Wrap((MIN_INT64 + e) * 100) == 100 * e
  {
    assert (MIN_INT64 + e) * 100 == 100 * e - 50 * TWO64;
  }

  /** Any other range that wraps around sends the greatest score to 0. */
  lemma HighMissed(lo: int64, hi: int64)
    requires MAX_INT64 < hi - lo < TWO64 - MAX_INT64 / 100 * 100
    ensures Rescaled(hi, lo, Wrap(hi - lo)) != Ideal(hi, lo, hi)
  {
    WrapOnce(hi - lo);
    var o := Wrap(hi - lo);
    var e := o - MIN_INT64;
    WrapFifty(e);
    QuotientIs(100 * e, -o, 1);
    QuotientIs(100 * e, -o, 0);
    assert Quotient(100 * e, o) == 0;
    IdealInRange(hi, lo, hi);
  }

  /** Every score between two bounds is rescaled exactly if and only if the
      scaled range fits 64 bits. */
  lemma ExactIffFits(lo: int64, hi: int64)
    requires lo <= hi
    ensures (forall x: int64 :: lo <= x <= hi ==> Rescaled(x, lo, Wrap(hi - lo)) == Ideal(x, lo, hi)) <==> RangeFits(lo, hi)
  {
    if RangeFits(lo, hi) {
      forall x: int64 | lo <= x <= hi
        ensures Rescaled(x, lo, Wrap(hi - lo)) == Ideal(x, lo, hi)
      {
        RescaledIsIdeal(x, lo, hi);
      }
    } else if hi - lo <= MAX_INT64 {
      GreatestMissed(lo, hi);
    } else if TWO64 - (hi - lo) <= MAX_INT64 / 100 * 100 {
      LowMissed(lo, hi);
    } else {
      HighMissed(lo, hi);
    }
  }

  /** What goes wrong otherwise: a negative score, below the framework's
      minimum, for the node that scored highest. */
  lemma TooWide()
    ensures var s := [NodeScore("a", 0), NodeScore("b", 0x200_0000_0000_0000)];
            Bounds(s, 0, 0x200_0000_0000_0000) && Normalized(s) == [NodeScore("a", 0), NodeScore("b", -28)]
  {
    var a, b := NodeScore("a", 0), NodeScore("b", 0x200_0000_0000_0000);
    var s := [a, b];
    assert s[0] == a && s[1] == b;
    assert Bounds(s, 0, 0x200_0000_0000_0000);
    BoundsUnique(s, 0, 0x200_0000_0000_0000);
    assert Wrap(0x200_0000_0000_0000 * 100) == -28 * 0x200_0000_0000_0000;
    assert Normalized(s) == [Normalized(s)[0], Normalized(s)[1]];
  }

  // ----- the whole list -----

  /** The list is rescaled exactly, and only its scores change. */
  lemma NormalizedIsIdeal(s: seq<NodeScore>, lo: int64, hi: int64)
    requires Bounds(s, lo, hi) && RangeFits(lo, hi)
    ensures |Normalized(s)| == |s|
    ensures forall i :: 0 <= i < |s| ==> Normalized(s)[i].name == s[i].name
    ensures forall i :: 0 <= i < |s| ==> Normalized(s)[i].score == Ideal(s[i].score, lo, hi)
  {
    BoundsUnique(s, lo, hi);
    forall i | 0 <= i < |s|
      ensures Normalized(s)[i].score == Ideal(s[i].score, lo, hi)
    {
      if Highest(s) == hi {
        RescaledIsIdeal(s[i].score, lo, hi);
      } else {
        assert Wrap(1) == 1 && Rescaled(s[i].score, lo, 1) == 0;
      }
    }
  }

  /** In a range that wraps around: the scaled score is a whole multiple of the
      range, or smaller than what the range lacks to 64 bits. */
  predicate ScoreFits(d: int, range: int)
    requires range > 0
  {
    d * 100 % range == 0 || d * 100 < TWO64 - range
  }

  /** When the result of a list is exact: the scaled range fits 64 bits, or the
      range wraps around so closely to zero that even a hundred times its
      wrapped value fits, and every score fits in the sense above. */
  predicate ListFits(s: seq<NodeScore>, lo: int, hi: int) {
    if hi - lo <= MAX_INT64 then RangeFits(lo, hi)
    else
      && (TWO64 - (hi - lo)) * 100 <= MAX_INT64 + 1
      && forall i :: 0 <= i < |s| ==> ScoreFits(s[i].score - lo, hi - lo)
  }

  lemma WrapScaled(d: int)
    requires 0 <= d < TWO64
    ensures Wrap(Wrap(d) * 100) == Wrap(d * 100)
  {
    assert Wrap(d) == d || Wrap(d) == d - TWO64;
    assert (d * 100 - 100 * TWO64) % TWO64 == d * 100 % TWO64;
  }

  lemma WrapShifted(y: int, q: int)
    ensures Wrap(q * TWO64 + y) == Wrap(y)
  {
    assert (q * TWO64 + y) % TWO64 == y % TWO64;
  }

  lemma ShareOf(v: int, a: int)
    requires a > 0 && v >= 0
    ensures 0 <= v / a <= v
  {
    QuotientIs(v, a, 0);
    QuotientIs(v, a, v + 1);
    TimesMonotone(1, a, v + 1);
  }

  lemma TruncNegated(w: int, a: int)
    requires MIN_INT64 <= w <= MAX_INT64 && 0 < a <= MAX_INT64
    ensures Quotient(w, -a) == Wrap(if w <= 0 then (-w) / a else -(w / a))
  {
    if w == 0 {
      QuotientIs(0, a, 0);
      QuotientIs(0, a, 1);
    }
  }

  /** Division by a negative number meets a small quotient. */
  lemma QuotientAgainst(w: int, a: int, q: int)
    requires MIN_INT64 <= w <= MAX_INT64 && 0 < a <= MAX_INT64 && 0 <= q <= 100
    ensures Quotient(w, -a) == q <==> if w <= 0 then q * a <= -w && -w < (q + 1) * a else q == 0 && w < a
  {
    TruncNegated(w, a);
    if w <= 0 {
      ShareOf(-w, a);
      QuotientIs(-w, a, q);
      QuotientIs(-w, a, q + 1);
    } else {
      ShareOf(w, a);
      QuotientIs(w, a, 0);
      QuotientIs(w, a, 1);
    }
  }

  lemma TimesNext(q: int, a: int)
    ensures (q + 1) * a == q * a + a
  {
  }

  /** With d * 100 == q * range + r, what the division yields. */
  lemma WideQuotient(q: int, r: int, a: int, w: int64)
    requires 0 <= q <= 100 && 0 <= r < TWO64 - a && 0 < a && a * 100 <= MAX_INT64 + 1
    requires w == Wrap(r - q * a)
    ensures Quotient(w, -a) == q <==> r == 0 || (q == 0 && r < a)
  {
    TimesMonotone(q, 100, a);
    TimesMonotone(0, q, a);
    if q > 0 {
      TimesMonotone(1, q, a);
    }
    TimesNext(q, a);
    QuotientAgainst(w, a, q);
    WideCases(q, r, a, q * a, w);
  }

  lemma WideCases(q: int, r: int, a: int, t: int, w: int)
    requires 0 <= q <= 100 && 0 <= r < TWO64 - a && 0 < a && 0 <= t <= MAX_INT64 + 1
    requires (q == 0 ==> t == 0) && (q > 0 ==> t >= a) && w == Wrap(r - t)
    ensures (if w <= 0 then t <= -w && -w < t + a else q == 0 && w < a) <==> r == 0 || (q == 0 && r < a)
  {
    if r - t > MAX_INT64 {
      WrapOnce(r - t);
    }
  }

  lemma WideScore(x: int64, lo: int64, hi: int64)
    requires lo <= x <= hi && hi - lo > MAX_INT64 && (TWO64 - (hi - lo)) * 100 <= MAX_INT64 + 1
    ensures Rescaled(x, lo, Wrap(hi - lo)) == Ideal(x, lo, hi) <==> ScoreFits(x - lo, hi - lo)
  {
    var d, range, a := x - lo, hi - lo, TWO64 - (hi - lo);
    var q, r := d * 100 / range, d * 100 % range;
    IdealInRange(x, lo, hi);
    WrapOnce(range);
    WrapScaled(d);
    SplitScaled(d, range, q, r, a);
    WrapShifted(r - q * a, q);
    WideQuotient(q, r, a, Wrap(d * 100));
    WideRescaled(x, lo, range, a);
    FitsIs(d, range);
  }

  lemma FitsIs(d: int, range: int)
    requires 0 <= d && MAX_INT64 < range < TWO64 && (TWO64 - range) * 100 <= MAX_INT64 + 1
    ensures ScoreFits(d, range) <==> d * 100 % range == 0 || (d * 100 / range == 0 && d * 100 % range < TWO64 - range)
  {
    QuotientIs(d * 100, range, 1);
    QuotientIs(d * 100, range, 0);
    assert d * 100 / range == 0 ==> d * 100 % range == d * 100;
  }

  lemma SplitScaled(d: int, range: int, q: int, r: int, a: int)
    requires range > 0 && q == d * 100 / range && r == d * 100 % range && a == TWO64 - range
    ensures d * 100 == q * TWO64 + (r - q * a)
  {
    assert d * 100 == q * range + r;
    assert q * (TWO64 - a) == q * TWO64 - q * a;
  }

  lemma WideRescaled(x: int64, lo: int64, range: int, a: int64)
    requires lo <= x && 0 < a && range == TWO64 - a && x - lo <= range
    ensures Wrap(Wrap(x - lo) * 100) == Wrap((x - lo) * 100)
    ensures Wrap(range) == -a ==> Rescaled(x, lo, -a) == Quotient(Wrap((x - lo) * 100), -a)
  {
    WrapScaled(x - lo);
  }

  /** If not even a hundred times the wrapped range fits, the greatest score is
      missed. */
  lemma WideGreatestMissed(lo: int64, hi: int64)
    requires hi - lo > MAX_INT64 && (TWO64 - (hi - lo)) * 100 > MAX_INT64 + 1
    ensures Rescaled(hi, lo, Wrap(hi - lo)) != Ideal(hi, lo, hi)
  {
    if TWO64 - (hi - lo) > MAX_INT64 {
      HighMissed(lo, hi);
    } else {
      var a := TWO64 - (hi - lo);
      WrapOnce(hi - lo);
      IdealInRange(hi, lo, hi);
      WideRescaled(hi, lo, hi - lo, a);
      WrapBelow(a);
      assert Wrap((hi - lo) * 100) == Wrap(-a * 100) by {
        WrapShifted(-a * 100, 100);
      }
      QuotientAgainst(Wrap(-a * 100), a, 100);
    }
  }

  lemma WrapBelow(a: int)
    requires a * 100 > MAX_INT64 + 1
    ensures Wrap(-a * 100) > -a * 100
  {
  }

  /** For every list, exactly when the result is exact. */
  lemma ListExactIff(s: seq<NodeScore>, lo: int64, hi: int64)
    requires Bounds(s, lo, hi)
    ensures (forall i :: 0 <= i < |s| ==> Normalized(s)[i].score == Ideal(s[i].score, lo, hi)) <==> ListFits(s, lo, hi)
  {
    BoundsUnique(s, lo, hi);
    var j :| 0 <= j < |s| && s[j].score == hi;
    if RangeFits(lo, hi) {
      NormalizedIsIdeal(s, lo, hi);
    } else if hi - lo <= MAX_INT64 {
      GreatestMissed(lo, hi);
      assert Normalized(s)[j].score != Ideal(s[j].score, lo, hi);
    } else if (TWO64 - (hi - lo)) * 100 > MAX_INT64 + 1 {
      WideGreatestMissed(lo, hi);
      assert Normalized(s)[j].score != Ideal(s[j].score, lo, hi);
    } else {
      forall i | 0 <= i < |s|
        ensures Normalized(s)[i].score == Ideal(s[i].score, lo, hi) <==> ScoreFits(s[i].score - lo, hi - lo)
      {
        WideScore(s[i].score, lo, hi);
      }
    }
  }

  lemma IdealOrder(x: int, y: int, lo: int, hi: int)
    requires lo <= x <= y <= hi
    ensures Ideal(x, lo, hi) <= Ideal(y, lo, hi)
    ensures lo < hi <= lo + (y - x) * (MAX_NODE_SCORE - MIN_NODE_SCORE) ==> Ideal(x, lo, hi) < Ideal(y, lo, hi)
  {
    if lo < hi {
      var q := (x - lo) * 100 / (hi - lo);
      QuotientIs((x - lo) * 100, hi - lo, q);
      QuotientIs((y - lo) * 100, hi - lo, q);
      if hi <= lo + (y - x) * 100 {
        assert (q + 1) * (hi - lo) == q * (hi - lo) + (hi - lo);
        QuotientIs((y - lo) * 100, hi - lo, q + 1);
      }
    }
  }

  /** Results lie in the framework's range; order is weakly kept; scores at
      least a hundredth of the range apart stay apart; when not all scores are
      equal the least goes to the minimum and the greatest to the maximum. */
  lemma NormalizedMeaning(s: seq<NodeScore>, lo: int64, hi: int64)
    requires Bounds(s, lo, hi) && RangeFits(lo, hi)
    ensures |Normalized(s)| == |s|
    ensures forall i :: 0 <= i < |s| ==> MIN_NODE_SCORE <= Normalized(s)[i].score <= MAX_NODE_SCORE
    ensures forall i, j :: 0 <= i < |s| && 0 <= j < |s| && s[i].score <= s[j].score ==>
                             Normalized(s)[i].score <= Normalized(s)[j].score
    ensures forall i, j :: 0 <= i < |s| && 0 <= j < |s| && lo < hi
                           && hi - lo <= (s[j].score - s[i].score) * (MAX_NODE_SCORE - MIN_NODE_SCORE) ==>
                             Normalized(s)[i].score < Normalized(s)[j].score
    ensures forall i :: 0 <= i < |s| && lo < hi && s[i].score == lo ==> Normalized(s)[i].score == MIN_NODE_SCORE
    ensures forall i :: 0 <= i < |s| && lo < hi && s[i].score == hi ==> Normalized(s)[i].score == MAX_NODE_SCORE
  {
    NormalizedIsIdeal(s, lo, hi);
    forall i | 0 <= i < |s|
      ensures MIN_NODE_SCORE <= Ideal(s[i].score, lo, hi) <= MAX_NODE_SCORE
    {
      IdealInRange(s[i].score, lo, hi);
    }
    forall i, j | 0 <= i < |s| && 0 <= j < |s| && s[i].score <= s[j].score
      ensures Ideal(s[i].score, lo, hi) <= Ideal(s[j].score, lo, hi)
      ensures lo < hi <= lo + (s[j].score - s[i].score) * 100 ==> Ideal(s[i].score, lo, hi) < Ideal(s[j].score, lo, hi)
    {
      IdealOrder(s[i].score, s[j].score, lo, hi);
    }
    if lo < hi {
      IdealInRange(lo, lo, hi);
      IdealInRange(hi, lo, hi);
    }
  }

  /** After normalising, the scores span the framework's whole range, or are
      all the minimum. */
  lemma NormalizedBounds(s: seq<NodeScore>, lo: int64, hi: int64)
    requires Bounds(s, lo, hi) && RangeFits(lo, hi)
    ensures Bounds(Normalized(s), MIN_NODE_SCORE, if lo < hi then MAX_NODE_SCORE else MIN_NODE_SCORE)
  {
    NormalizedMeaning(s, lo, hi);
    NormalizedIsIdeal(s, lo, hi);
    var i :| 0 <= i < |s| && s[i].score == lo;
    var j :| 0 <= j < |s| && s[j].score == hi;
    assert Normalized(s)[i].score == MIN_NODE_SCORE;
    assert Normalized(s)[j].score == if lo < hi then MAX_NODE_SCORE else MIN_NODE_SCORE;
  }

  /** Normalising a second time changes nothing. */
  lemma NormalizedTwice(s: seq<NodeScore>, lo: int64, hi: int64)
    requires Bounds(s, lo, hi) && RangeFits(lo, hi)
    ensures Normalized(Normalized(s)) == Normalized(s)
  {
    NormalizedBounds(s, lo, hi);
    FixedPoint(Normalized(s), if lo < hi then MAX_NODE_SCORE else MIN_NODE_SCORE);
  }

  lemma FixedPoint(t: seq<NodeScore>, top: int64)
    requires Bounds(t, MIN_NODE_SCORE, top) && (top == MAX_NODE_SCORE || top == MIN_NODE_SCORE)
    ensures Normalized(t) == t
  {
    NormalizedIsIdeal(t, MIN_NODE_SCORE, top);
    forall k | 0 <= k < |t|
      ensures Normalized(t)[k] == t[k]
    {
      assert Ideal(t[k].score, MIN_NODE_SCORE, top) == t[k].score;
    }
  }

  /** The second list's scores are the first's, scaled and shifted. */
  predicate ScaledBy(s: seq<NodeScore>, t: seq<NodeScore>, factor: int, shift: int) {
    |s| == |t| && forall i :: 0 <= i < |s| ==> t[i].score == factor * s[i].score + shift && t[i].name == s[i].name
  }

  lemma IdealScaled(x: int, lo: int, hi: int, factor: int, shift: int)
    requires lo <= x <= hi && factor > 0
    ensures factor * lo + shift <= factor * x + shift <= factor * hi + shift
    ensures Ideal(factor * x + shift, factor * lo + shift, factor * hi + shift) == Ideal(x, lo, hi)
  {
    var d, r := (x - lo) * 100, hi - lo;
    assert factor * (x - lo) >= 0 && factor * (hi - x) >= 0;
    assert (factor * x + shift) - (factor * lo + shift) == factor * (x - lo);
    assert (factor * hi + shift) - (factor * lo + shift) == factor * r;
    if lo < hi {
      assert factor * r > 0;
      var q := d / r;
      QuotientIs(d, r, q);
      QuotientIs(d, r, q + 1);
      Cancelled(q, r, d, factor);
      Cancelled(q + 1, r, d, factor);
      QuotientIs(factor * d, factor * r, q);
      QuotientIs(factor * d, factor * r, q + 1);
      assert factor * (x - lo) * 100 == factor * d;
    }
  }

  lemma Cancelled(q: int, r: int, d: int, factor: int)
    requires factor > 0
    ensures q * (factor * r) <= factor * d <==> q * r <= d
  {
    assert q * (factor * r) == factor * (q * r);
    if q * r <= d {
      assert factor * (d - q * r) >= 0;
    } else {
      assert factor * (q * r - d) > 0;
    }
  }

  /** Shifting all scores, or scaling them by a positive factor, changes no
      result. */
  lemma ShiftAndScale(s: seq<NodeScore>, t: seq<NodeScore>, lo: int64, hi: int64, factor: int, shift: int)
    requires Bounds(s, lo, hi) && RangeFits(lo, hi)
    requires factor > 0 && ScaledBy(s, t, factor, shift) && RangeFits(factor * lo + shift, factor * hi + shift)
    ensures Normalized(t) == Normalized(s)
  {
    var lo', hi' := ScaledBounds(s, t, lo, hi, factor, shift);
    NormalizedIsIdeal(s, lo, hi);
    NormalizedIsIdeal(t, lo', hi');
    forall k | 0 <= k < |t|
      ensures Normalized(t)[k] == Normalized(s)[k]
    {
    }
  }

  lemma ScaledBounds(s: seq<NodeScore>, t: seq<NodeScore>, lo: int64, hi: int64, factor: int, shift: int)
    returns (lo': int64, hi': int64)
    requires Bounds(s, lo, hi) && factor > 0 && ScaledBy(s, t, factor, shift)
    ensures lo' == factor * lo + shift && hi' == factor * hi + shift
    ensures Bounds(t, lo', hi')
    ensures forall k :: 0 <= k < |t| ==> t[k].name == s[k].name && Ideal(t[k].score, lo', hi') == Ideal(s[k].score, lo, hi)
  {
    var i :| 0 <= i < |s| && s[i].score == lo;
    var j :| 0 <= j < |s| && s[j].score == hi;
    lo', hi' := t[i].score, t[j].score;
    forall k | 0 <= k < |t|
      ensures lo' <= t[k].score <= hi' && Ideal(t[k].score, lo', hi') == Ideal(s[k].score, lo, hi)
    {
      IdealScaled(s[k].score, lo, hi, factor, shift);
    }
  }
}
