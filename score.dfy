/**
 * The theoretical maximum score the statistics page shows for a course:
 * per-tier note values truncated to multiples of ten, gogo-time values
 * truncated again after the 1.2 boost, balloon points, pop bonuses and a
 * bonus per full hundred of combo.
 */
module Score {
  import opened Statistics

  // ---------------------------------------------------------------------------
  // Truncation and per-note values

  /** `drop1`: truncate down to a multiple of ten (a floor, also for negative
      values; Dafny's division by a positive constant is a floor). The result
      is the greatest multiple of ten that does not exceed `n`. */
  function Drop1(n: int): (r: int)
    ensures r % 10 == 0
    ensures r <= n < r + 10
  {
    (n / 10) * 10
  }

  /** No multiple of ten between `Drop1(n)` and `n` is missed. */
  lemma Drop1Greatest(n: int, m: int)
    requires m % 10 == 0 && m <= n
    ensures m <= Drop1(n)
  {
  }

  /** Truncating is monotone. */
  lemma Drop1Monotone(a: int, b: int)
    requires a <= b
    ensures Drop1(a) <= Drop1(b)
  {
  }

  /** Truncating twice is truncating once. */
  lemma Drop1Idempotent(n: int)
    ensures Drop1(Drop1(n)) == Drop1(n)
  {
  }

  /** A multiple of ten is left as it is. */
  lemma Drop1Fixed(n: int)
    requires n % 10 == 0
    ensures Drop1(n) == n
  {
  }

  /** The five multiplier tiers. */
  const Multipliers: seq<int> := [0, 1, 2, 4, 8]

  /** The raw value of a note of tier `i`, before truncation. */
  function RawValue(h: Headers, i: nat): int
    requires i < |Multipliers|
  {
    h.scoreInit + h.scoreDiff * Multipliers[i]
  }

  /** `noteScores`: one value per tier, each the greatest multiple of ten not
      above the tier's raw value. */
  function NoteScores(h: Headers): (r: seq<int>)
    ensures |r| == |Multipliers| == TierCount
    ensures forall i :: 0 <= i < |r| ==>
      r[i] % 10 == 0 && r[i] <= RawValue(h, i) < r[i] + 10
  {
    seq(|Multipliers|, i requires 0 <= i < |Multipliers| => Drop1(RawValue(h, i)))
  }

  /** The gogo value of a truncated note value `s`: 1.2 times `s`, truncated
      again. For a multiple of ten, `s * 6 / 5` is the product exactly. The
      result is the greatest multiple of ten not above `1.2 * s`. */
  function GogoValue(s: int): (r: int)
    ensures r % 10 == 0
    ensures 5 * r <= 6 * s < 5 * r + 50
  {
    var q := s * 6 / 5;
    assert 5 * q <= 6 * s < 5 * q + 5;
    Drop1(q)
  }

  /** `noteGogoScores`: the gogo value of each tier's already truncated note
      value. */
  function GogoScores(h: Headers): (r: seq<int>)
    ensures |r| == TierCount
    ensures forall i :: 0 <= i < |r| ==>
      r[i] % 10 == 0 && 5 * r[i] <= 6 * NoteScores(h)[i] < 5 * r[i] + 50
  {
    var base := NoteScores(h);
    seq(|base|, i requires 0 <= i < |base| => GogoValue(base[i]))
  }

  /** Truncating before the boost never gives more than boosting the raw
      value and truncating once: for every raw value `x`, the gogo value of
      `Drop1(x)` is at most `Drop1` of `1.2 * x`. */
  lemma TruncateFirstNeverMore(x: int)
    ensures GogoValue(Drop1(x)) <= Drop1(x * 6 / 5)
  {
    assert Drop1(x) * 6 / 5 <= x * 6 / 5;
    Drop1Monotone(Drop1(x) * 6 / 5, x * 6 / 5);
  }

  /** With a non-negative score difference, higher tiers are worth at least
      as much, in and out of gogo time. */
  lemma TierValuesNonDecreasing(h: Headers, i: nat, j: nat)
    requires h.scoreDiff >= 0
    requires i <= j < TierCount
    ensures NoteScores(h)[i] <= NoteScores(h)[j]
    ensures GogoScores(h)[i] <= GogoScores(h)[j]
  {
    var base := NoteScores(h);
    assert h.scoreDiff * Multipliers[i] <= h.scoreDiff * Multipliers[j];
    Drop1Monotone(RawValue(h, i), RawValue(h, j));
    assert base[i] * 6 / 5 <= base[j] * 6 / 5;
    Drop1Monotone(base[i] * 6 / 5, base[j] * 6 / 5);
  }

  /** Gogo time never lowers a non-negative note value. */
  lemma GogoAtLeastBase(s: int)
    requires s >= 0 && s % 10 == 0
    ensures s <= GogoValue(s)
  {
  }

  /** Worked example: with `scoreInit = 100` and `scoreDiff = 20` the
      quadruple tier is worth 180, and 210 in gogo time. */
  lemma QuadrupleTierExample()
    ensures NoteScores(Headers(100, 20))[3] == 180
    ensures GogoScores(Headers(100, 20))[3] == 210
  {
  }

  /** The inequality of `TruncateFirstNeverMore` can be strict: a raw value
      of 109 gives a gogo value of 120 when the truncated base is boosted, but
      130 if the raw value were boosted and truncated once. */
  lemma TruncationOrderMatters()
    ensures GogoScores(Headers(109, 0))[0] == 120
    ensures Drop1(109 * 6 / 5) == 130
  {
  }

  // ---------------------------------------------------------------------------
  // The weighted sum

  /** `values.map((s, i) => counts[i] * s)`. */
  function Weighted(counts: seq<nat>, values: seq<int>): (r: seq<int>)
    requires |counts| == |values|
    ensures |r| == |values|
  {
    seq(|values|, i requires 0 <= i < |values| => counts[i] * values[i])
  }

  /** `Math.floor(totalCombo / 100) * 10000`. */
  function Milestone(totalCombo: nat): nat {
    (totalCombo / 100) * 10000
  }

  /** `statPotential`: the theoretical maximum score of a course. */
  function MaxScore(st: Stats, h: Headers): int
    requires WellFormed(st)
  {
    Sum(Weighted(st.score.notes[0], NoteScores(h)))
    + Sum(Weighted(st.score.notes[1], GogoScores(h)))
    + st.score.balloon[0] * 300
    + st.score.balloon[1] * 360
    + st.score.balloonPop[0] * 5000
    + st.score.balloonPop[1] * 6000
    + Milestone(st.totalCombo)
  }

  // ---------------------------------------------------------------------------
  // Properties of the sum

  /** A sum of non-negative terms is non-negative. */
  lemma {:induction false} SumNonNegative(xs: seq<int>)
    requires forall i :: 0 <= i < |xs| ==> 0 <= xs[i]
    ensures 0 <= Sum(xs)
  {
    if xs != [] {
      SumNonNegative(xs[..|xs| - 1]);
    }
  }

  /** The sum is monotone in every term. */
  lemma {:induction false} SumMonotone(xs: seq<int>, ys: seq<int>)
    requires |xs| == |ys|
    requires forall i :: 0 <= i < |xs| ==> xs[i] <= ys[i]
    ensures Sum(xs) <= Sum(ys)
  {
    if xs != [] {
      SumMonotone(xs[..|xs| - 1], ys[..|ys| - 1]);
    }
  }

  /** Replacing one term changes the sum by exactly the difference. */
  lemma {:induction false} SumUpdate(xs: seq<int>, k: nat, v: int)
    requires k < |xs|
    ensures Sum(xs[k := v]) == Sum(xs) - xs[k] + v
  {
    var last := |xs| - 1;
    if k == last {
      assert xs[k := v][..last] == xs[..last];
    } else {
      assert xs[k := v][..last] == xs[..last][k := v];
      SumUpdate(xs[..last], k, v);
    }
  }

  /** The sum over the five tiers, written out term by term. */
  lemma SumOfFive(xs: seq<int>)
    requires |xs| == 5
    ensures Sum(xs) == xs[0] + xs[1] + xs[2] + xs[3] + xs[4]
  {
    assert xs[..5] == xs;
    assert xs[..5][..4] == xs[..4];
    assert xs[..4][..3] == xs[..3];
    assert xs[..3][..2] == xs[..2];
    assert xs[..2][..1] == xs[..1];
    assert xs[..1][..0] == [];
    assert Sum(xs[..1]) == xs[0];
    assert Sum(xs[..2]) == xs[0] + xs[1];
    assert Sum(xs[..3]) == xs[0] + xs[1] + xs[2];
    assert Sum(xs[..4]) == xs[0] + xs[1] + xs[2] + xs[3];
  }

  // ---------------------------------------------------------------------------
  // Properties of the maximum score

  /** The maximum score is the four groups of terms written out: non-gogo
      counts times the note values, gogo counts times the gogo values,
      balloon hits and pops at their fixed prices, and the combo bonus. */
  lemma MaxScoreExpanded(st: Stats, h: Headers)
    requires WellFormed(st)
    ensures var n, g, v, w := st.score.notes[0], st.score.notes[1], NoteScores(h), GogoScores(h);
      MaxScore(st, h) ==
        (n[0] * v[0] + n[1] * v[1] + n[2] * v[2] + n[3] * v[3] + n[4] * v[4])
        + (g[0] * w[0] + g[1] * w[1] + g[2] * w[2] + g[3] * w[3] + g[4] * w[4])
        + (300 * st.score.balloon[0] + 360 * st.score.balloon[1]
           + 5000 * st.score.balloonPop[0] + 6000 * st.score.balloonPop[1])
        + 10000 * (st.totalCombo / 100)
  {
    SumOfFive(Weighted(st.score.notes[0], NoteScores(h)));
    SumOfFive(Weighted(st.score.notes[1], GogoScores(h)));
  }

  /** With non-negative scoring headers every tier value is non-negative. */
  lemma TierValuesNonNegative(h: Headers, i: nat)
    requires h.scoreInit >= 0 && h.scoreDiff >= 0
    requires i < TierCount
    ensures 0 <= NoteScores(h)[i] <= GogoScores(h)[i]
  {
  }

  /** A weighted sum of counts with non-negative values is monotone in the
      counts. */
  lemma WeightedSumMonotone(xs: seq<nat>, ys: seq<nat>, values: seq<int>)
    requires |xs| == |ys| == |values|
    requires forall i :: 0 <= i < |values| ==> 0 <= values[i]
    requires forall i :: 0 <= i < |xs| ==> xs[i] <= ys[i]
    ensures 0 <= Sum(Weighted(xs, values)) <= Sum(Weighted(ys, values))
  {
    var a, b := Weighted(xs, values), Weighted(ys, values);
    forall i | 0 <= i < |values|
      ensures 0 <= a[i] <= b[i]
    {
      assert a[i] == xs[i] * values[i] && b[i] == ys[i] * values[i];
    }
    SumNonNegative(a);
    SumMonotone(a, b);
  }

  /** With non-negative scoring headers the maximum score is non-negative. */
  lemma MaxScoreNonNegative(st: Stats, h: Headers)
    requires WellFormed(st)
    requires h.scoreInit >= 0 && h.scoreDiff >= 0
    ensures 0 <= MaxScore(st, h)
  {
    forall i | 0 <= i < TierCount
      ensures 0 <= NoteScores(h)[i] <= GogoScores(h)[i]
    {
      TierValuesNonNegative(h, i);
    }
    WeightedSumMonotone(st.score.notes[0], st.score.notes[0], NoteScores(h));
    WeightedSumMonotone(st.score.notes[1], st.score.notes[1], GogoScores(h));
  }

  /** `b` has at least as many of every scoring count as `a`. */
  predicate Dominates(a: Stats, b: Stats)
    requires WellFormed(a) && WellFormed(b)
  {
    && (forall g, i :: 0 <= g < 2 && 0 <= i < TierCount ==>
          a.score.notes[g][i] <= b.score.notes[g][i])
    && (forall k :: 0 <= k < 2 ==> a.score.balloon[k] <= b.score.balloon[k])
    && (forall k :: 0 <= k < 2 ==> a.score.balloonPop[k] <= b.score.balloonPop[k])
    && a.totalCombo <= b.totalCombo
  }

  /** The combo bonus never decreases as the combo grows. */
  lemma MilestoneMonotone(c: nat, d: nat)
    requires c <= d
    ensures Milestone(c) <= Milestone(d)
  {
  }

  /** With non-negative scoring headers, more of any scoring count never
      lowers the maximum score. */
  lemma MaxScoreMonotone(a: Stats, b: Stats, h: Headers)
    requires WellFormed(a) && WellFormed(b)
    requires h.scoreInit >= 0 && h.scoreDiff >= 0
    requires Dominates(a, b)
    ensures MaxScore(a, h) <= MaxScore(b, h)
  {
    forall i | 0 <= i < TierCount
      ensures 0 <= NoteScores(h)[i] <= GogoScores(h)[i]
    {
      TierValuesNonNegative(h, i);
    }
    assert forall i :: 0 <= i < TierCount ==> a.score.notes[0][i] <= b.score.notes[0][i];
    assert forall i :: 0 <= i < TierCount ==> a.score.notes[1][i] <= b.score.notes[1][i];
    WeightedSumMonotone(a.score.notes[0], b.score.notes[0], NoteScores(h));
    WeightedSumMonotone(a.score.notes[1], b.score.notes[1], GogoScores(h));
    MilestoneMonotone(a.totalCombo, b.totalCombo);
  }

  /** `st` with tier `i` of row `g` (0 outside gogo time, 1 inside) raised by
      `d` notes. */
  function RaiseTier(st: Stats, g: nat, i: nat, d: nat): (r: Stats)
    requires WellFormed(st) && g < 2 && i < TierCount
    ensures WellFormed(r)
  {
    var row := st.score.notes[g];
    var v: nat := row[i] + d;
    var raised: seq<nat> := row[i := v];
    st.(score := st.score.(notes := st.score.notes[g := raised]))
  }

  /** Raising one tier count adds exactly that tier's value per note and
      leaves every other term unchanged. */
  lemma RaiseTierScore(st: Stats, h: Headers, g: nat, i: nat, d: nat)
    requires WellFormed(st) && g < 2 && i < TierCount
    ensures MaxScore(RaiseTier(st, g, i, d), h)
         == MaxScore(st, h) + d * (if g == 0 then NoteScores(h)[i] else GogoScores(h)[i])
  {
    var values := if g == 0 then NoteScores(h) else GogoScores(h);
    var row := st.score.notes[g];
    var v: nat := row[i] + d;
    var raised: seq<nat> := row[i := v];
    assert RaiseTier(st, g, i, d).score.notes[g] == raised;
    assert RaiseTier(st, g, i, d).score.notes[1 - g] == st.score.notes[1 - g];
    var before := Weighted(row, values);
    assert Weighted(raised, values) == before[i := (row[i] + d) * values[i]];
    SumUpdate(before, i, (row[i] + d) * values[i]);
    assert (row[i] + d) * values[i] == row[i] * values[i] + d * values[i];
  }

  /** `st` with `d` more balloon hits counted at index `k`. */
  function RaiseBalloon(st: Stats, k: nat, d: nat): (r: Stats)
    requires WellFormed(st) && k < 2
    ensures WellFormed(r)
  {
    var v: nat := st.score.balloon[k] + d;
    st.(score := st.score.(balloon := st.score.balloon[k := v]))
  }

  /** Each balloon hit is worth 300 at index 0 and 360 at index 1, whatever
      else the course holds. */
  lemma RaiseBalloonScore(st: Stats, h: Headers, k: nat, d: nat)
    requires WellFormed(st) && k < 2
    ensures MaxScore(RaiseBalloon(st, k, d), h)
         == MaxScore(st, h) + d * (if k == 0 then 300 else 360)
  {
  }

  /** `st` with `d` more popped balloons counted at index `k`. */
  function RaisePop(st: Stats, k: nat, d: nat): (r: Stats)
    requires WellFormed(st) && k < 2
    ensures WellFormed(r)
  {
    var v: nat := st.score.balloonPop[k] + d;
    st.(score := st.score.(balloonPop := st.score.balloonPop[k := v]))
  }

  /** Each popped balloon is worth 5000 at index 0 and 6000 at index 1,
      whatever else the course holds. */
  lemma RaisePopScore(st: Stats, h: Headers, k: nat, d: nat)
    requires WellFormed(st) && k < 2
    ensures MaxScore(RaisePop(st, k, d), h)
         == MaxScore(st, h) + d * (if k == 0 then 5000 else 6000)
  {
  }

  /** A longer combo changes only the combo bonus, which does not decrease. */
  lemma RaiseComboScore(st: Stats, h: Headers, d: nat)
    requires WellFormed(st)
    ensures var raised := st.(totalCombo := st.totalCombo + d);
      && WellFormed(raised)
      && MaxScore(raised, h)
         == MaxScore(st, h) - Milestone(st.totalCombo) + Milestone(st.totalCombo + d)
      && MaxScore(st, h) <= MaxScore(raised, h)
  {
  }

  /** The four note counters feed `statDon`/`statKat` only; they do not enter
      the maximum score. */
  lemma NoteCountersDoNotScore(st: Stats, counters: seq<nat>, h: Headers)
    requires WellFormed(st) && |counters| == 4
    ensures MaxScore(st.(notes := counters), h) == MaxScore(st, h)
  {
  }

  /** Below a combo of 100 there is no bonus. */
  lemma MilestoneBelowHundred(c: nat)
    requires c < 100
    ensures Milestone(c) == 0
  {
  }

  /** Every further 100 combo adds exactly 10000. */
  lemma MilestoneStep(c: nat)
    ensures Milestone(c + 100) == Milestone(c) + 10000
  {
  }

  /** The bonus is 10000 per complete hundred and constant in between. */
  lemma MilestoneBetweenHundreds(k: nat, c: nat)
    requires 100 * k <= c < 100 * k + 100
    ensures Milestone(c) == 10000 * k
  {
  }
}
