/**
 * The HP bar: the clamped fill percentage and the danger styling below one
 * fifth of the maximum (src/features/battle/components/HPBar.tsx).
 */
module HpBar {
  import opened Common

  /** `percentage`: `hp / maxHp * 100` clamped to [0, 100]. */
  function Percentage(hp: int, maxHp: int): (p: real)
    requires maxHp != 0
    ensures 0.0 <= p <= 100.0
  {
    MaxReal(0.0, MinReal(100.0, (hp as real / maxHp as real) * 100.0))
  }

  /** For a positive maximum, no HP is an empty bar, full HP or more a full bar, and in between the exact share. */
  lemma PercentageClamps(hp: int, maxHp: int)
    requires maxHp > 0
    ensures hp <= 0 ==> Percentage(hp, maxHp) == 0.0
    ensures hp >= maxHp ==> Percentage(hp, maxHp) == 100.0
    ensures 0 <= hp <= maxHp ==> Percentage(hp, maxHp) == hp as real * 100.0 / maxHp as real
  {
    var m := maxHp as real;
    var x := hp as real / m * 100.0;
    if hp <= 0 {
      assert hp as real / m <= 0.0;
    }
    if hp >= maxHp {
      assert hp as real / m >= 1.0;
    }
  }

  /** `isDanger`: the fill is at most 20 percent. */
  predicate IsDanger(hp: int, maxHp: int)
    requires maxHp != 0
  {
    Percentage(hp, maxHp) <= 20.0
  }

  /** For a positive maximum, danger means HP at most one fifth of the maximum. */
  lemma {:induction false} DangerIffOneFifth(hp: int, maxHp: int)
    requires maxHp > 0
    ensures IsDanger(hp, maxHp) <==> 5 * hp <= maxHp
  {
    QuotientAtMost(hp as real, maxHp as real, 0.2);
  }

  /** The styling of the bar: red HP text, a pulsing fill and a red glow all follow `isDanger` alone. */
  datatype Styling = Styling(redText: bool, pulse: bool, redGlow: bool)

  function BarStyling(hp: int, maxHp: int): (s: Styling)
    requires maxHp != 0
    ensures s.redText == s.pulse == s.redGlow == IsDanger(hp, maxHp)
  {
    var danger := IsDanger(hp, maxHp);
    Styling(danger, danger, danger)
  }

  /** The positions, in percent, of the segment markers. */
  const SegmentMarkers: seq<int> := [20, 40, 60, 80]

  /** The markers split the bar into five equal segments. */
  lemma SegmentMarkersEvenlySpaced()
    ensures |SegmentMarkers| == 4
    ensures forall i :: 0 <= i < |SegmentMarkers| ==> SegmentMarkers[i] == 20 * (i + 1)
  {
  }
}
