/**
 * The y axis of the density graph on the statistics page: the ceiling of the
 * axis, rounded up to a multiple of five, and the tick at every multiple of
 * five up to it.
 */
module Axis {

  /** `Math.ceil(graph.max / 5) * 5` for the graph's largest per-bin note
      count: the least multiple of five not below it. */
  function YMax(graphMax: nat): (r: nat)
    ensures r % 5 == 0
    ensures graphMax <= r < graphMax + 5
  {
    ((graphMax + 4) / 5) * 5
  }

  /** No multiple of five between `graphMax` and `YMax(graphMax)` is missed. */
  lemma YMaxLeast(graphMax: nat, m: nat)
    requires m % 5 == 0 && graphMax <= m
    ensures YMax(graphMax) <= m
  {
  }

  /** A ceiling that is already a multiple of five is kept. */
  lemma YMaxFixed(graphMax: nat)
    requires graphMax % 5 == 0
    ensures YMax(graphMax) == graphMax
  {
  }

  /** `[...Array(n).keys()]`: the indices `0, 1, …, n - 1` in order. */
  function Keys(n: nat): (r: seq<nat>)
    ensures |r| == n
    ensures forall i :: 0 <= i < n ==> r[i] == i
  {
    if n == 0 then [] else Keys(n - 1) + [n - 1]
  }

  /** `yTickValues`: `0, 5, …, yMax`. `Array(yMax / 5 + 1)` needs an integral
      length, so `yMax` must be a multiple of five (as `YMax` guarantees).
      The ticks are strictly increasing multiples of five from 0 to `yMax`,
      and every multiple of five in that range is a tick. */
  function YTickValues(yMax: nat): (r: seq<nat>)
    requires yMax % 5 == 0
    ensures |r| == yMax / 5 + 1
    ensures r[0] == 0 && r[|r| - 1] == yMax
    ensures forall i, j :: 0 <= i < j < |r| ==> r[i] < r[j]
    ensures forall i :: 0 <= i < |r| ==> r[i] % 5 == 0 && r[i] <= yMax
    ensures forall t :: 0 <= t <= yMax && t % 5 == 0 ==> t in r
  {
    var ks := Keys(yMax / 5 + 1);
    var r := seq(|ks|, i requires 0 <= i < |ks| => ks[i] * 5);
    assert forall t :: 0 <= t <= yMax && t % 5 == 0 ==>
      t / 5 < |r| && (t / 5) * 5 == t && r[t / 5] == t;
    r
  }

  /** The ticks of the graph's axis start at 0 and end at its ceiling, which
      covers the tallest bin by less than one step. */
  lemma AxisCoversGraph(graphMax: nat)
    ensures var ticks := YTickValues(YMax(graphMax));
      ticks[0] == 0 && graphMax <= ticks[|ticks| - 1] < graphMax + 5
  {
  }
}
