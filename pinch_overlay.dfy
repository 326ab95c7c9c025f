/**
 * The pinch overlay: a red vignette on the side of each player whose HP is
 * positive and at most a quarter of the maximum
 * (src/features/vfx/components/PinchOverlay.tsx).
 */
module PinchOverlay {
  import opened Common
  import opened BattleTypes
  import HpBar

  const PinchThreshold: real := 0.25

  /** `hpRatio`. */
  function HpRatio(p: Player): real
    requires p.maxHp != 0
  {
    p.hp as real / p.maxHp as real
  }

  /** `isPinch`: still standing, at a quarter of the maximum or less. */
  predicate IsPinch(p: Player)
    requires p.maxHp != 0
  {
    p.hp > 0 && HpRatio(p) <= PinchThreshold
  }

  /** For a positive maximum, pinch means 0 < hp and four times hp at most the maximum. */
  lemma {:induction false} PinchIff(p: Player)
    requires p.maxHp > 0
    ensures IsPinch(p) <==> 0 < p.hp && 4 * p.hp <= p.maxHp
  {
    QuotientAtMost(p.hp as real, p.maxHp as real, PinchThreshold);
  }

  /** A knocked-out player is never in a pinch. */
  lemma KnockedOutNotPinch(p: Player)
    requires p.maxHp != 0 && p.hp <= 0
    ensures !IsPinch(p)
  {
  }

  /** A player on a red HP bar who still stands is in a pinch. */
  lemma DangerImpliesPinch(p: Player)
    requires p.maxHp > 0 && p.hp > 0 && HpBar.IsDanger(p.hp, p.maxHp)
    ensures IsPinch(p)
  {
    HpBar.DangerIffOneFifth(p.hp, p.maxHp);
    PinchIff(p);
  }

  /** What is rendered: nothing, or the overlay with a left and/or right vignette. */
  datatype Overlay = Hidden | Shown(left: bool, right: bool)

  function Render(p0: Player, p1: Player): (o: Overlay)
    requires p0.maxHp != 0 && p1.maxHp != 0
    ensures o.Shown? <==> IsPinch(p0) || IsPinch(p1)
    ensures o.Shown? ==> (o.left <==> IsPinch(p0)) && (o.right <==> IsPinch(p1))
    ensures o.Shown? ==> o.left || o.right
  {
    var pinch0 := IsPinch(p0);
    var pinch1 := IsPinch(p1);
    if pinch0 || pinch1 then Shown(pinch0, pinch1) else Hidden
  }
}
