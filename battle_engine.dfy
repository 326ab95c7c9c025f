/**
 * Damage of one shout (`calculateDamage`) and the name of the attack
 * (`generateAttackName`), src/features/battle/hooks/useBattleEngine.ts.
 * The two `Math.random()` draws are the parameters `critRoll` and `nameRoll`,
 * each in [0, 1).
 */
module BattleEngine {
  import opened Common
  import opened BattleTypes
  import opened KaijuData

  /** What the voice analysis produced: an analysis, or an object with an `error` field. */
  datatype Analysis = Analysed(analysis: VoiceAnalysis) | AnalysisError(error: string)

  const FallbackDamage: int := 10
  const FallbackAttackName: string := "普通の叫び"
  const FallbackAnalysis: VoiceAnalysis := VoiceAnalysis(50.0, 50.0, 50.0, Ja, "（声にならない叫び）", Physical)

  /** The fixed result is used for an error object and for a falsy intensity (0). */
  predicate UsesFallback(a: Analysis)
  {
    a.AnalysisError? || a.analysis.intensity == 0.0
  }

  function TypeMultiplier(t: AttackType): real
  {
    match t
    case Ultimate => 1.8
    case Special => 1.3
    case Physical => 1.0
  }

  function LanguageBonus(l: Language): real
  {
    if l == Mixed then 1.2 else 1.0
  }

  /** The mean of the three analysis scores. */
  function BasePower(v: VoiceAnalysis): real
  {
    (v.intensity + v.creativity + v.emotion) / 3.0
  }

  /** The damage before rounding: base power times the type, language, element and stat factors. */
  function RawDamage(v: VoiceAnalysis, attacker: Player, defender: Player): real
    requires defender.kaiju.baseDefense != 0.0
  {
    BasePower(v) * TypeMultiplier(v.attackType) * LanguageBonus(v.language)
    * Matchup(attacker.kaiju.element, defender.kaiju.element)
    * (attacker.kaiju.baseAttack / defender.kaiju.baseDefense)
  }

  /** The critical rule: creativity above 80 and a roll below 0.2. */
  predicate CriticalHit(v: VoiceAnalysis, critRoll: real)
  {
    v.creativity > 80.0 && critRoll < 0.2
  }

  /** The three attack names of each element. */
  function ElementAttacks(e: Element): (names: seq<string>)
    ensures |names| == 3
    ensures forall i :: 0 <= i < |names| ==> names[i] != []
  {
    match e
    case Fire => ["ファイヤーブレス", "灼熱の咆哮", "炎の叫び"]
    case Ice => ["フリーズボイス", "氷結の絶叫", "凍てつく咆哮"]
    case Thunder => ["サンダーボルト", "雷鳴の叫び", "稲妻の咆哮"]
    case Earth => ["アースクエイク", "大地の怒り", "岩砕の咆哮"]
    case Void => ["ヴォイドスクリーム", "虚無の共鳴", "暗黒の咆哮"]
    case Light => ["ホーリーレイ", "光の裁き", "聖なる咆哮"]
  }

  /**
   * `generateAttackName`: a non-empty transcript in corner brackets, otherwise
   * one of the attacker's element names picked by `nameRoll`.
   */
  function GenerateAttackName(v: VoiceAnalysis, attacker: Player, nameRoll: real): (name: string)
    requires 0.0 <= nameRoll < 1.0
    ensures name != []
    ensures |v.transcript| > 0 ==> name == "「" + v.transcript + "」"
    ensures |v.transcript| == 0 ==> name in ElementAttacks(attacker.kaiju.element)
  {
    if |v.transcript| > 0 then "「" + v.transcript + "」"
    else
      var attacks := ElementAttacks(attacker.kaiju.element);
      attacks[RandomIndex(nameRoll, |attacks|)]
  }

  /** `calculateDamage`. */
  function CalculateDamage(a: Analysis, attacker: Player, defender: Player, critRoll: real, nameRoll: real): (r: AttackResult)
    requires UsesFallback(a) || defender.kaiju.baseDefense != 0.0
    requires 0.0 <= nameRoll < 1.0
    ensures r.player == attacker.id
    ensures r.damage >= 1
    ensures UsesFallback(a) ==>
      r.damage == FallbackDamage && !r.isCritical && r.attackName == FallbackAttackName
      && r.voiceAnalysis == FallbackAnalysis && r.voiceAnalysis.attackType == Physical
    ensures !UsesFallback(a) ==> r.voiceAnalysis == a.analysis
    ensures r.isCritical <==> !UsesFallback(a) && CriticalHit(a.analysis, critRoll)
    ensures !UsesFallback(a) ==>
      var rounded := Round(RawDamage(a.analysis, attacker, defender));
      r.damage == Max(1, if r.isCritical then 2 * rounded else rounded)
    ensures !UsesFallback(a) ==> r.attackName == GenerateAttackName(a.analysis, attacker, nameRoll)
  {
    if UsesFallback(a) then
      AttackResult(attacker.id, FallbackAnalysis, FallbackDamage, false, FallbackAttackName)
    else
      var v := a.analysis;
      var damage := Round(RawDamage(v, attacker, defender));
      var isCritical := CriticalHit(v, critRoll);
      var damage' := if isCritical then damage * 2 else damage;
      AttackResult(attacker.id, v, Max(1, damage'), isCritical, GenerateAttackName(v, attacker, nameRoll))
  }

  // ---------------------------------------------------------------------------
  // Properties

  /** Two analyses that differ at most in their attack type. */
  predicate SameButType(v: VoiceAnalysis, w: VoiceAnalysis)
  {
    v.intensity == w.intensity && v.creativity == w.creativity && v.emotion == w.emotion
    && v.language == w.language && v.transcript == w.transcript
  }

  /** Raising the raw damage never lowers the final damage, the critical decision being the same. */
  lemma {:induction false} DamageMonotoneInRaw(raw1: real, raw2: real, crit: bool)
    requires raw1 <= raw2
    ensures Max(1, if crit then 2 * Round(raw1) else Round(raw1)) <= Max(1, if crit then 2 * Round(raw2) else Round(raw2))
  {
    RoundMonotone(raw1, raw2);
  }

  /** The raw damage scales with the type multiplier when every other factor is nonnegative. */
  lemma {:induction false} RawDamageMonotoneInType(v: VoiceAnalysis, w: VoiceAnalysis, attacker: Player, defender: Player)
    requires SameButType(v, w)
    requires v.intensity >= 0.0 && v.creativity >= 0.0 && v.emotion >= 0.0
    requires attacker.kaiju.baseAttack >= 0.0 && defender.kaiju.baseDefense > 0.0
    requires TypeMultiplier(v.attackType) <= TypeMultiplier(w.attackType)
    ensures RawDamage(v, attacker, defender) <= RawDamage(w, attacker, defender)
  {
    var rest := LanguageBonus(v.language) * Matchup(attacker.kaiju.element, defender.kaiju.element)
                * (attacker.kaiju.baseAttack / defender.kaiju.baseDefense);
    MatchupValues(attacker.kaiju.element, defender.kaiju.element);
    assert attacker.kaiju.baseAttack / defender.kaiju.baseDefense >= 0.0;
    assert rest >= 0.0;
    var p := BasePower(v);
    assert p == BasePower(w) && p >= 0.0;
    assert RawDamage(v, attacker, defender) == p * TypeMultiplier(v.attackType) * rest;
    assert RawDamage(w, attacker, defender) == p * TypeMultiplier(w.attackType) * rest;
    assert p * rest >= 0.0;
    assert p * TypeMultiplier(v.attackType) * rest == (p * rest) * TypeMultiplier(v.attackType);
    assert p * TypeMultiplier(w.attackType) * rest == (p * rest) * TypeMultiplier(w.attackType);
  }

  /**
   * With every other input and both rolls fixed, the damage is monotone in the
   * attack type: physical, then special, then ultimate.
   */
  lemma {:induction false} DamageMonotoneInAttackType(v: VoiceAnalysis, w: VoiceAnalysis, attacker: Player, defender: Player,
                                                     critRoll: real, nameRoll: real)
    requires SameButType(v, w)
    requires v.intensity > 0.0 && v.creativity >= 0.0 && v.emotion >= 0.0
    requires attacker.kaiju.baseAttack >= 0.0 && defender.kaiju.baseDefense > 0.0
    requires 0.0 <= nameRoll < 1.0
    requires v.attackType == Physical || w.attackType == Ultimate || v.attackType == w.attackType
    ensures CalculateDamage(Analysed(v), attacker, defender, critRoll, nameRoll).damage
         <= CalculateDamage(Analysed(w), attacker, defender, critRoll, nameRoll).damage
  {
    RawDamageMonotoneInType(v, w, attacker, defender);
    DamageMonotoneInRaw(RawDamage(v, attacker, defender), RawDamage(w, attacker, defender), CriticalHit(v, critRoll));
  }

  /** Without a critical hit and with a raw damage of at least 1, the damage is the raw damage rounded to within one half. */
  lemma DamageNearRaw(v: VoiceAnalysis, attacker: Player, defender: Player, critRoll: real, nameRoll: real)
    requires v.intensity != 0.0 && defender.kaiju.baseDefense != 0.0
    requires 0.0 <= nameRoll < 1.0
    requires !CriticalHit(v, critRoll) && RawDamage(v, attacker, defender) >= 1.0
    ensures var d := CalculateDamage(Analysed(v), attacker, defender, critRoll, nameRoll).damage as real;
      RawDamage(v, attacker, defender) - 0.5 < d <= RawDamage(v, attacker, defender) + 0.5
  {
  }

  /** A critical hit at least doubles what the same shout would have done without it. */
  lemma CriticalDoubles(v: VoiceAnalysis, attacker: Player, defender: Player, nameRoll: real)
    requires v.intensity != 0.0 && v.creativity > 80.0 && defender.kaiju.baseDefense != 0.0
    requires 0.0 <= nameRoll < 1.0
    requires Round(RawDamage(v, attacker, defender)) >= 1
    ensures CalculateDamage(Analysed(v), attacker, defender, 0.0, nameRoll).damage
         == 2 * CalculateDamage(Analysed(v), attacker, defender, 0.5, nameRoll).damage
  {
  }
}
