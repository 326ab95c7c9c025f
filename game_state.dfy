/**
 * The game state machine: `initialState` and `gameReducer`
 * (src/features/game/hooks/useGameState.ts). `Date.now()`, read when an
 * attack is logged, is the parameter `now`.
 */
module GameState {
  import opened Common
  import opened Text
  import opened BattleTypes
  import opened KaijuData
  import BattleEngine

  /** The two player slots, each `Player | null`. */
  datatype Players = Players(p0: Option<Player>, p1: Option<Player>)
  {
    function At(s: Slot): Option<Player>
    {
      if s == 0 then p0 else p1
    }

    /** The pair with slot `s` replaced and the other slot kept. */
    function With(s: Slot, p: Option<Player>): (r: Players)
      ensures r.At(s) == p && r.At(Other(s)) == At(Other(s))
    {
      if s == 0 then Players(p, p1) else Players(p0, p)
    }
  }

  datatype State = State(
    phase: GamePhase,
    gameMode: GameMode,
    battleSubPhase: BattleSubPhase,
    players: Players,
    currentTurn: Slot,
    roundNumber: int,
    battleLog: seq<BattleLogEntry>,
    lastAttack: Option<AttackResult>,
    winner: Option<Slot>,
    selectingPlayer: Slot)

  /** The twelve `GameAction`s, plus any other `type` tag the reducer may receive. */
  datatype Action =
    | StartGame(mode: GameMode)
    | SelectKaiju(player: Slot, kaiju: KaijuProfile)
    | StartRecording
    | StopRecording
    | SetAnalyzing
    | SetAiThinking
    | ApplyAttack(attack: AttackResult)
    | NextTurn
    | EndBattle(winner: Slot)
    | PlayAgain
    | BackToTitle
    | UpdateKaijuImage(playerId: Slot, imageUrl: string)
    | Unknown

  const InitialState: State := State(Title, Pvp, Ready, Players(None, None), 0, 1, [], None, None, 0)

  /** The display name a selecting player receives under a game mode. */
  function PlayerName(mode: GameMode, player: Slot): (name: string)
    ensures mode == HeroVsKaiju ==> name == (if player == 0 then "HERO" else "KAIJU")
    ensures mode == VsAi && player == 1 ==> name == "AI"
    ensures mode == Pvp || (mode == VsAi && player == 0) ==> name == "P" + IntToDecimal(player + 1)
  {
    if mode == HeroVsKaiju && player == 0 then "HERO"
    else if mode == HeroVsKaiju && player == 1 then "KAIJU"
    else if mode == VsAi && player == 1 then "AI"
    else "P" + IntToDecimal(player + 1)
  }

  /** The new-game state of a mode: `initialState` in the select phase. */
  function Fresh(mode: GameMode): State
  {
    InitialState.(phase := Select, selectingPlayer := 0, gameMode := mode)
  }

  function HpOr0(p: Option<Player>): int
  {
    if p.Some? then p.value.hp else 0
  }

  /** `gameReducer(state, action)`, with `now` standing for `Date.now()`. */
  function Reduce(state: State, action: Action, now: int): State
  {
    match action
    case StartGame(mode) => Fresh(mode)
    case SelectKaiju(player, kaiju) =>
      var p := Player(player, PlayerName(state.gameMode, player), kaiju, InitialHp, InitialHp);
      var players := state.players.With(player, Some(p));
      if player == 0 then state.(players := players, selectingPlayer := 1)
      else state.(players := players, phase := Battle, battleSubPhase := Ready, currentTurn := 0, roundNumber := 1)
    case StartRecording => state.(battleSubPhase := Recording)
    case StopRecording => state
    case SetAnalyzing => state.(battleSubPhase := Analyzing)
    case SetAiThinking => state.(battleSubPhase := AiThinking)
    case ApplyAttack(attack) =>
      var defenderIdx := Other(attack.player);
      var defender := state.players.At(defenderIdx);
      if defender.None? then state
      else
        var newHp := Max(0, defender.value.hp - attack.damage);
        var players := state.players.With(defenderIdx, Some(defender.value.(hp := newHp)));
        var entry := BattleLogEntry(state.roundNumber, attack.player, attack,
                                    (HpOr0(players.p0), HpOr0(players.p1)), now);
        state.(players := players, lastAttack := Some(attack),
               battleLog := state.battleLog + [entry], battleSubPhase := Attacking)
    case NextTurn =>
      var defender := state.players.At(Other(state.currentTurn));
      if defender.Some? && defender.value.hp <= 0 then
        state.(phase := ResultPhase, winner := Some(state.currentTurn), battleSubPhase := Ready)
      else
        var nextTurn := Other(state.currentTurn);
        var nextRound := if nextTurn == 0 then state.roundNumber + 1 else state.roundNumber;
        state.(currentTurn := nextTurn, roundNumber := nextRound, battleSubPhase := Ready, lastAttack := None)
    case EndBattle(winner) => state.(phase := ResultPhase, winner := Some(winner))
    case PlayAgain => Fresh(state.gameMode)
    case BackToTitle => InitialState
    case UpdateKaijuImage(id, url) =>
      var p := state.players.At(id);
      if p.None? then state
      else state.(players := state.players.With(id, Some(p.value.(kaiju := p.value.kaiju.(imageUrl := Some(url))))))
    case Unknown => state
  }

  // ---------------------------------------------------------------------------
  // One action at a time

  /** START_GAME is the initial state in the select phase under the requested mode; earlier players and log are gone. */
  lemma StartGameResets(state: State, mode: GameMode, now: int)
    ensures var s := Reduce(state, StartGame(mode), now);
      s.phase == Select && s.selectingPlayer == 0 && s.gameMode == mode
      && s.players == Players(None, None) && s.battleLog == [] && s.winner == None
      && s.roundNumber == 1 && s.currentTurn == 0 && s.lastAttack == None && s.battleSubPhase == Ready
  {
  }

  /** SELECT_KAIJU fills exactly the chosen slot, with full HP and the mode's name, and keeps the other slot. */
  lemma SelectKaijuFillsSlot(state: State, player: Slot, kaiju: KaijuProfile, now: int)
    ensures var s := Reduce(state, SelectKaiju(player, kaiju), now);
      s.players.At(player) == Some(Player(player, PlayerName(state.gameMode, player), kaiju, 200, 200))
      && s.players.At(Other(player)) == state.players.At(Other(player))
      && s.battleLog == state.battleLog && s.gameMode == state.gameMode
  {
  }

  /** Selecting for player 0 passes the choice to player 1; selecting for player 1 starts the battle at round 1, turn 0. */
  lemma SelectKaijuTransitions(state: State, player: Slot, kaiju: KaijuProfile, now: int)
    ensures var s := Reduce(state, SelectKaiju(player, kaiju), now);
      if player == 0 then
        s.phase == state.phase && s.selectingPlayer == 1 && s.battleSubPhase == state.battleSubPhase
      else
        s.phase == Battle && s.battleSubPhase == Ready && s.currentTurn == 0 && s.roundNumber == 1
        && s.selectingPlayer == state.selectingPlayer
  {
  }

  /**
   * APPLY_ATTACK lowers the defender's HP by the damage, never below 0, leaves
   * the attacker as it was, appends one log entry with the current round and the
   * new HP pair, and moves to the attacking sub-phase.
   */
  lemma ApplyAttackHitsDefender(state: State, attack: AttackResult, now: int)
    requires state.players.At(Other(attack.player)).Some?
    ensures var s := Reduce(state, ApplyAttack(attack), now);
      var before := state.players.At(Other(attack.player)).value;
      var after := s.players.At(Other(attack.player));
      after == Some(before.(hp := after.value.hp))
      && after.value.hp == Max(0, before.hp - attack.damage)
      && s.players.At(attack.player) == state.players.At(attack.player)
      && |s.battleLog| == |state.battleLog| + 1
      && s.battleLog[..|state.battleLog|] == state.battleLog
      && s.battleLog[|state.battleLog|].round == state.roundNumber
      && s.battleLog[|state.battleLog|].turn == attack.player
      && s.battleLog[|state.battleLog|].attack == attack
      && s.battleLog[|state.battleLog|].remainingHp == (HpOr0(s.players.p0), HpOr0(s.players.p1))
      && s.battleLog[|state.battleLog|].timestamp == now
      && s.battleSubPhase == Attacking && s.lastAttack == Some(attack)
      && s.phase == state.phase && s.roundNumber == state.roundNumber && s.currentTurn == state.currentTurn
  {
  }

  /** APPLY_ATTACK against an empty slot changes nothing. */
  lemma ApplyAttackEmptyDefender(state: State, attack: AttackResult, now: int)
    requires state.players.At(Other(attack.player)).None?
    ensures Reduce(state, ApplyAttack(attack), now) == state
  {
  }

  /** NEXT_TURN ends the battle when the defender is knocked out, with the attacker as winner. */
  lemma NextTurnKnockOut(state: State, now: int)
    requires state.players.At(Other(state.currentTurn)).Some?
    requires state.players.At(Other(state.currentTurn)).value.hp <= 0
    ensures var s := Reduce(state, NextTurn, now);
      s.phase == ResultPhase && s.winner == Some(state.currentTurn) && s.battleSubPhase == Ready
      && s.players == state.players && s.battleLog == state.battleLog && s.roundNumber == state.roundNumber
  {
  }

  /**
   * Otherwise NEXT_TURN hands the turn over, counts a new round only when the
   * turn comes back to player 0, and clears the last attack.
   */
  lemma NextTurnAlternates(state: State, now: int)
    requires state.players.At(Other(state.currentTurn)).None? || state.players.At(Other(state.currentTurn)).value.hp > 0
    ensures var s := Reduce(state, NextTurn, now);
      s.currentTurn != state.currentTurn
      && s.roundNumber == state.roundNumber + (if state.currentTurn == 1 then 1 else 0)
      && s.battleSubPhase == Ready && s.lastAttack == None
      && s.phase == state.phase && s.winner == state.winner && s.players == state.players
  {
  }

  /** END_BATTLE records the winner and enters the result phase. */
  lemma EndBattleSetsWinner(state: State, winner: Slot, now: int)
    ensures var s := Reduce(state, EndBattle(winner), now);
      s.phase == ResultPhase && s.winner == Some(winner) && s.players == state.players
  {
  }

  /** PLAY_AGAIN goes back to selection under the same mode with no players; BACK_TO_TITLE is exactly the initial state. */
  lemma PlayAgainAndBackToTitle(state: State, now: int)
    ensures var s := Reduce(state, PlayAgain, now);
      s.phase == Select && s.gameMode == state.gameMode && s.players == Players(None, None)
      && s.battleLog == [] && s.winner == None && s.selectingPlayer == 0
    ensures Reduce(state, BackToTitle, now) == InitialState
    ensures InitialState.phase == Title && InitialState.gameMode == Pvp && InitialState.roundNumber == 1
  {
  }

  /** UPDATE_KAIJU_IMAGE changes only that player's image and nothing on an empty slot. */
  lemma UpdateImageOnlyImage(state: State, id: Slot, url: string, now: int)
    ensures var s := Reduce(state, UpdateKaijuImage(id, url), now);
      s.players.At(Other(id)) == state.players.At(Other(id))
      && (state.players.At(id).None? ==> s == state)
      && (state.players.At(id).Some? ==>
            var p := state.players.At(id).value;
            s.players.At(id) == Some(p.(kaiju := p.kaiju.(imageUrl := Some(url))))
            && s == state.(players := s.players))
  {
  }

  /** STOP_RECORDING and an unknown action leave the state as it is; the sub-phase actions change only the sub-phase. */
  lemma NoOpActions(state: State, now: int)
    ensures Reduce(state, StopRecording, now) == state
    ensures Reduce(state, Unknown, now) == state
    ensures Reduce(state, StartRecording, now) == state.(battleSubPhase := Recording)
    ensures Reduce(state, SetAnalyzing, now) == state.(battleSubPhase := Analyzing)
    ensures Reduce(state, SetAiThinking, now) == state.(battleSubPhase := AiThinking)
  {
  }

  // ---------------------------------------------------------------------------
  // Whole games

  /** Every player present has HP between 0 and a maximum of `INITIAL_HP`. */
  predicate PlayerHealthy(p: Option<Player>)
  {
    p.Some? ==> p.value.maxHp == InitialHp && 0 <= p.value.hp <= p.value.maxHp
  }

  /** What every reachable state satisfies. */
  predicate Inv(s: State)
  {
    s.roundNumber >= 1
    && (s.phase == ResultPhase ==> s.winner.Some?)
    && PlayerHealthy(s.players.p0) && PlayerHealthy(s.players.p1)
  }

  /** An action that cannot heal: attacks carry nonnegative damage. */
  predicate NonHealing(a: Action)
  {
    a.ApplyAttack? ==> a.attack.damage >= 0
  }

  lemma InitialStateInv()
    ensures Inv(InitialState)
  {
  }

  /** Every non-healing action keeps the invariant. */
  lemma {:induction false} ReducePreservesInv(s: State, a: Action, now: int)
    requires Inv(s) && NonHealing(a)
    ensures Inv(Reduce(s, a, now))
  {
    match a
    case ApplyAttack(attack) =>
      var d := s.players.At(Other(attack.player));
      if d.Some? {
        assert PlayerHealthy(d);
      }
    case UpdateKaijuImage(id, _) =>
      assert PlayerHealthy(s.players.At(id));
    case _ =>
  }

  /** The state after dispatching `actions` in order, the i-th at time `times[i]`. */
  function Run(s: State, actions: seq<Action>, times: seq<int>): State
    requires |times| == |actions|
  {
    if actions == [] then s
    else Reduce(Run(s, actions[..|actions| - 1], times[..|times| - 1]), actions[|actions| - 1], times[|times| - 1])
  }

  /** From the initial state, any sequence of non-healing actions keeps HP in range, the round positive and a winner in the result phase. */
  lemma {:induction false} RunPreservesInv(s: State, actions: seq<Action>, times: seq<int>)
    requires |times| == |actions|
    requires Inv(s)
    requires forall i :: 0 <= i < |actions| ==> NonHealing(actions[i])
    ensures Inv(Run(s, actions, times))
  {
    if actions != [] {
      RunPreservesInv(s, actions[..|actions| - 1], times[..|times| - 1]);
      ReducePreservesInv(Run(s, actions[..|actions| - 1], times[..|times| - 1]), actions[|actions| - 1], times[|times| - 1]);
    }
  }

  /** Every attack `calculateDamage` produces is non-healing, and it strictly lowers a defender that still has HP. */
  lemma {:induction false} EngineAttackHurts(state: State, a: BattleEngine.Analysis, attacker: Player, defender: Player,
                                             critRoll: real, nameRoll: real, now: int)
    requires BattleEngine.UsesFallback(a) || defender.kaiju.baseDefense != 0.0
    requires 0.0 <= nameRoll < 1.0
    requires var r := BattleEngine.CalculateDamage(a, attacker, defender, critRoll, nameRoll);
      state.players.At(Other(r.player)).Some? && state.players.At(Other(r.player)).value.hp > 0
    ensures var r := BattleEngine.CalculateDamage(a, attacker, defender, critRoll, nameRoll);
      NonHealing(ApplyAttack(r))
      && Reduce(state, ApplyAttack(r), now).players.At(Other(r.player)).value.hp
         < state.players.At(Other(r.player)).value.hp
  {
    var r := BattleEngine.CalculateDamage(a, attacker, defender, critRoll, nameRoll);
    ApplyAttackHitsDefender(state, r, now);
  }
}
