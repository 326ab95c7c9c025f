/**
 * The battle summary shown on the result screen: the number of rounds, the
 * hardest hit and the name of the attack that dealt it
 * (src/features/game/components/ResultScreen.tsx).
 */
module ResultSummary {
  import opened Common
  import opened BattleTypes

  /** `totalRounds`: the largest round in the log, or 0 for an empty log. */
  function TotalRounds(log: seq<BattleLogEntry>): (r: int)
    ensures log == [] ==> r == 0
    ensures forall i :: 0 <= i < |log| ==> log[i].round <= r
    ensures log != [] ==> exists i :: 0 <= i < |log| && log[i].round == r
  {
    if log == [] then 0
    else if |log| == 1 then log[0].round
    else Max(TotalRounds(log[..|log| - 1]), log[|log| - 1].round)
  }

  /**
   * The position of `maxDamageEntry`, folded front to back: an entry replaces
   * the best so far only when its damage is strictly greater, so the earliest of
   * equal hits wins.
   */
  function MaxDamageIndex(log: seq<BattleLogEntry>): (r: Option<nat>)
    ensures r.None? <==> log == []
    ensures r.Some? ==> r.value < |log|
    ensures r.Some? ==> forall j :: 0 <= j < |log| ==> log[j].attack.damage <= log[r.value].attack.damage
    ensures r.Some? ==> forall j :: 0 <= j < r.value ==> log[j].attack.damage < log[r.value].attack.damage
  {
    if log == [] then None
    else
      var best := MaxDamageIndex(log[..|log| - 1]);
      var last := |log| - 1;
      if best.None? || log[last].attack.damage > log[best.value].attack.damage then Some(last) else best
  }

  datatype Summary = Summary(totalRounds: int, maxDamage: int, mvpAttackName: string)

  /** The three figures the result screen shows. */
  function BattleSummary(log: seq<BattleLogEntry>): Summary
  {
    var best := MaxDamageIndex(log);
    Summary(
      TotalRounds(log),
      if best.Some? then log[best.value].attack.damage else 0,
      if best.Some? then log[best.value].attack.attackName else "-")
  }

  /** An empty log gives no rounds, no damage and the name '-'. */
  lemma EmptyLogSummary()
    ensures BattleSummary([]) == Summary(0, 0, "-")
  {
  }

  /** For a non-empty log the maximum damage is dealt by some entry, bounds every entry, and names that entry's attack. */
  lemma SummaryOfNonEmptyLog(log: seq<BattleLogEntry>)
    requires log != []
    ensures var s := BattleSummary(log);
      (forall j :: 0 <= j < |log| ==> log[j].attack.damage <= s.maxDamage)
      && (exists i :: 0 <= i < |log| && log[i].attack.damage == s.maxDamage && log[i].attack.attackName == s.mvpAttackName
                     && forall j :: 0 <= j < i ==> log[j].attack.damage < s.maxDamage)
  {
    var i := MaxDamageIndex(log).value;
    assert log[i].attack.damage == BattleSummary(log).maxDamage;
  }
}
