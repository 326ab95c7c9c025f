/**
 * The value types of a battle: elements, character profiles, players,
 * voice analyses, attack results and log entries
 * (src/features/battle/types/battle.ts).
 */
module BattleTypes {
  import opened Common

  datatype Element = Fire | Ice | Thunder | Earth | Void | Light

  datatype Category = KaijuCategory | HeroCategory

  datatype GameMode = Pvp | VsAi | HeroVsKaiju

  datatype GamePhase = Title | Select | Battle | ResultPhase

  datatype BattleSubPhase = Ready | Recording | Analyzing | Attacking | Waiting | AiThinking

  /** A player slot, `0 | 1`. */
  type Slot = s: int | 0 <= s < 2

  /** The slot facing `s`. */
  function Other(s: Slot): (o: Slot)
    ensures o != s
  {
    if s == 0 then 1 else 0
  }

  /** A fighter's profile; `imageUrl` is `string | null`. */
  datatype KaijuProfile = KaijuProfile(
    id: string,
    name: string,
    nameJa: string,
    element: Element,
    category: Category,
    description: string,
    imageUrl: Option<string>,
    baseAttack: real,
    baseDefense: real)

  datatype Player = Player(id: Slot, name: string, kaiju: KaijuProfile, hp: int, maxHp: int)

  datatype Language = Ja | En | Mixed

  datatype AttackType = Physical | Special | Ultimate

  datatype VoiceAnalysis = VoiceAnalysis(
    intensity: real,
    creativity: real,
    emotion: real,
    language: Language,
    transcript: string,
    attackType: AttackType)

  datatype AttackResult = AttackResult(
    player: Slot,
    voiceAnalysis: VoiceAnalysis,
    damage: int,
    isCritical: bool,
    attackName: string)

  /** One battle-log line; `remainingHp` is the pair of HP values after the attack. */
  datatype BattleLogEntry = BattleLogEntry(
    round: int,
    turn: Slot,
    attack: AttackResult,
    remainingHp: (int, int),
    timestamp: int)
}
