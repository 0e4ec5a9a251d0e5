/**
 * The statistics record that the chart analyser hands to the statistics
 * page, and the don/kat totals the page derives from its note counters.
 */
module Statistics {

  /** The scoring tallies of a course: `notes[0]` holds the per-tier note
      counts outside gogo time, `notes[1]` those inside gogo time (five
      multiplier tiers each); `balloon[0]`/`balloon[1]` count balloon hits
      and `balloonPop[0]`/`balloonPop[1]` popped balloons, in the two kinds
      the analyser distinguishes (index 1 is priced at 1.2 times index 0).
      Which balloons the analyser files under which index is its own
      decision; the statistics page reads them by index only. */
  datatype ScoreCounts = ScoreCounts(
    notes: seq<seq<nat>>,
    balloon: seq<nat>,
    balloonPop: seq<nat>
  )

  /** The integer part of the analyser's statistics: the total combo, the four
      note counters (0 small don, 1 small kat, 2 big don, 3 big kat) and the
      scoring tallies. */
  datatype Stats = Stats(totalCombo: nat, notes: seq<nat>, score: ScoreCounts)

  /** The scoring parameters of the selected course's headers. */
  datatype Headers = Headers(scoreInit: int, scoreDiff: int)

  const TierCount: nat := 5

  /** The shape the statistics page indexes into: four note counters, two
      rows of five tier counts, two balloon sizes. */
  predicate WellFormed(st: Stats) {
    && |st.notes| == 4
    && |st.score.notes| == 2
    && |st.score.notes[0]| == TierCount
    && |st.score.notes[1]| == TierCount
    && |st.score.balloon| == 2
    && |st.score.balloonPop| == 2
  }

  /** Counter indices 0 and 2 hold dons (small and big), 1 and 3 hold kats. */
  predicate IsDonCounter(i: nat) {
    i == 0 || i == 2
  }

  /** Total of the don counters */
  function StatDon(st: Stats): nat
    requires WellFormed(st)
  {
    st.notes[0] + st.notes[2]
  }

  /** Total of the kat counters */
  function StatKat(st: Stats): nat
    requires WellFormed(st)
  {
    st.notes[1] + st.notes[3]
  }

  /** `reduce((p, c) => p + c, 0)`: a left fold with `+`. */
  function Sum(xs: seq<int>): int {
    if xs == [] then 0 else Sum(xs[..|xs| - 1]) + xs[|xs| - 1]
  }

  /** Sum of the counters of one side (dons when `don` holds, kats otherwise),
      classifying each counter by its index alone. */
  function SideTotal(xs: seq<nat>, don: bool): nat {
    if xs == [] then 0
    else
      var last := |xs| - 1;
      SideTotal(xs[..last], don) + (if IsDonCounter(last) == don then xs[last] else 0)
  }

  /** Every counter belongs to exactly one side. */
  lemma {:induction false} SidesPartition(xs: seq<nat>)
    ensures SideTotal(xs, true) + SideTotal(xs, false) == Sum(xs)
  {
    if xs != [] {
      SidesPartition(xs[..|xs| - 1]);
    }
  }

  /** `statDon` and `statKat` are the two sides of the counters, and together
      they account for every note counted. */
  lemma DonKatTotals(st: Stats)
    requires WellFormed(st)
    ensures StatDon(st) == SideTotal(st.notes, true)
    ensures StatKat(st) == SideTotal(st.notes, false)
    ensures StatDon(st) + StatKat(st) == Sum(st.notes)
  {
    var xs := st.notes;
    assert xs[..4] == xs;
    forall don: bool
      ensures SideTotal(xs, don) == (if don then xs[0] + xs[2] else xs[1] + xs[3])
    {
      assert xs[..4][..3] == xs[..3];
      assert xs[..3][..2] == xs[..2];
      assert xs[..2][..1] == xs[..1];
      assert xs[..1][..0] == [];
      assert SideTotal(xs[..1], don) == (if don then xs[0] else 0);
      assert SideTotal(xs[..2], don) == (if don then xs[0] else xs[1]);
      assert SideTotal(xs[..3], don) == (if don then xs[0] + xs[2] else xs[1]);
    }
    SidesPartition(xs);
  }
}
