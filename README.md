# kaiju-voice core, modelled in Dafny

kaiju-voice is a two-player voice battle game built with Next.js: players
pick a kaiju or a hero, shout an attack into the microphone, and an analysis
of the shout (intensity, creativity, emotion, attack type, language) becomes
damage. Around the game sit repository-checking scripts that keep the UI flow
document, the feature registry, the generated code and the feature
boundaries consistent. This project models the deterministic core of both
and proves what the code and its tests promise about it.

What is modelled, file by file:

- `game_state.dfy`: `initialState` and `gameReducer`, all twelve actions, over
  a two-slot player tuple, with the battle log and the turn and round
  counters; lemmas for each action and an HP invariant kept over any run.
- `battle_engine.dfy`, `battle_types.dfy`, `kaiju_data.dfy`: `calculateDamage`
  (fallback path, type, language and element multipliers, the stat ratio, the
  critical rule and the minimum of 1) over exact reals, `generateAttackName`,
  and the element matchup table and presets. The two `Math.random` draws are
  parameters in [0, 1).
- `result_summary.dfy`, `battle_log.dfy`, `hp_bar.dfy`, `pinch_overlay.dfy`,
  `voice_recorder.dfy`, `voice_visualizer.dfy`: the view computations of the
  result screen, the battle log, the HP bar, the pinch overlay, the recorder
  button and the visualizer (the average-volume loop, the bar count and the
  hex colour parser).
- `victory_celebration.dfy`: the confetti emitter as a class whose
  `confetti` sequence is appended to (at most 200 pieces) and filtered frame
  by frame, with its running flags.
- `music_route.dfy`: `createWavHeader`, which writes a 44-byte array in place
  and is proved to parse back to the canonical 48 kHz stereo 16-bit PCM
  fields, and `buildMusicPrompt`.
- `severity_report.dfy`, `validate_ui_flow.dfy`, `ui_flow_doc.dfy`: the
  checks V1-V12 of `scripts/validate_ui_flow.py` over a parsed
  `ui-flow.json`, the report tally and the three-way exit code.
- `validate_docs.dfy`: the checks D1-D8 of
  `scripts/validate_docs_consistency.py`, with the file system given as
  inputs (source feature directories, documentation directories, their files
  and contents).
- `ssot_generator.dfy`: `toUpperSnake`, `deriveMachineEvent`, the statechart
  event set, the SSE entries of the panel registry, the Mermaid diagram, the
  panel matrix and the `--check` staleness mode of `scripts/generate-from-ssot.mjs`.
- `cross_feature_imports.dfy`: `get_feature_name`, the import regular
  expression (as an explicit matcher, proved leftmost and complete), the
  per-line loop of `check_file` and the exit code of
  `scripts/check_cross_feature_imports.py`.
- `common.dfy`, `text.dfy`, `sorting.dfy`: shared pieces (Option and Result,
  ordered JSON objects with distinct keys, `Math.round`, string helpers,
  Python's `sorted` as an insertion sort proved to be the unique sorted
  permutation).

JSON objects are sequences of key/value pairs in document order. Python's
dictionaries keep that order, so the details the validators report follow
it; the generator's text is modelled in the same order, which is what
JavaScript's `Object.keys` and `Object.entries` give as long as no key looks
like an array index (see "Left out"). Check details are structured values
rather than the printed messages.

## Model

| member | source | states |
|---|---|---|
| `GameState.PlayerName` | src/features/game/hooks/useGameState.ts:36-46 | HERO/KAIJU for the two slots in hero-vs-kaiju mode, AI for player 2 against the AI, otherwise P1/P2 |
| `GameState.Reduce` | src/features/game/hooks/useGameState.ts:26-151 | `gameReducer`, one case per action; what each case does is stated by the lemmas below, and the invariant it keeps by `GameState.ReducePreservesInv` |
| `GameState.StartGameResets` | src/features/game/hooks/useGameState.ts:13-29 | START_GAME gives the initial state in the select phase, selecting player 0, under the requested mode; earlier players and log are discarded |
| `GameState.SelectKaijuFillsSlot` | src/features/game/hooks/useGameState.ts:31-54 | SELECT_KAIJU fills exactly the chosen slot with hp = maxHp = 200 and the mode's display name, keeping the other slot |
| `GameState.SelectKaijuTransitions` | src/features/game/hooks/useGameState.ts:56-66 | selecting for player 0 hands selection to player 1 in the select phase; selecting for player 1 enters the battle, sub-phase ready, turn 0, round 1 |
| `GameState.ApplyAttackHitsDefender` | src/features/game/hooks/useGameState.ts:81-105 | APPLY_ATTACK sets the defender's HP to max(0, hp - damage), leaves the attacker unchanged, appends one log entry with the current round and the new HP pair, records the attack and enters the attacking sub-phase |
| `GameState.ApplyAttackEmptyDefender` | src/features/game/hooks/useGameState.ts:83-85 | APPLY_ATTACK against an empty defender slot returns the state unchanged |
| `GameState.NextTurnKnockOut` | src/features/game/hooks/useGameState.ts:108-113 | NEXT_TURN with the defender at HP <= 0 enters the result phase with the current player as winner |
| `GameState.NextTurnAlternates` | src/features/game/hooks/useGameState.ts:115-124 | otherwise NEXT_TURN flips the turn, increments the round only when the turn returns to 0, resets the sub-phase and clears the last attack |
| `GameState.EndBattleSetsWinner` | src/features/game/hooks/useGameState.ts:127-128 | END_BATTLE enters the result phase with the given winner |
| `GameState.PlayAgainAndBackToTitle` | src/features/game/hooks/useGameState.ts:130-134 | PLAY_AGAIN returns to selection with empty slots and the same mode; BACK_TO_TITLE returns exactly the initial state |
| `GameState.UpdateImageOnlyImage` | src/features/game/hooks/useGameState.ts:136-146 | UPDATE_KAIJU_IMAGE changes only that player's image URL and is a no-op on an empty slot |
| `GameState.NoOpActions` | src/features/game/hooks/useGameState.ts:69-79 | STOP_RECORDING and unknown actions return the state unchanged; the three sub-phase actions change only the sub-phase |
| `GameState.InitialStateInv` | src/features/game/hooks/useGameState.ts:13-24 | the initial state satisfies the reachable-state invariant |
| `GameState.ReducePreservesInv` | src/features/game/hooks/useGameState.ts:26-151 | every action with nonnegative damage keeps HP in [0, maxHp = 200], the round at least 1 and a winner in the result phase |
| `GameState.Run` | src/features/game/hooks/useGameState.ts:153-155 | the state `useReducer` reaches after a sequence of dispatches; `GameState.RunPreservesInv` states what it keeps |
| `GameState.RunPreservesInv` | src/features/game/hooks/useGameState.ts:153-155 | any sequence of such actions dispatched from the initial state keeps that invariant |
| `GameState.EngineAttackHurts` | src/features/battle/hooks/useBattleEngine.ts:47-57 | an attack produced by `calculateDamage` never heals and strictly lowers a defender that has HP left |
| `BattleEngine.ElementAttacks` | src/features/battle/hooks/useBattleEngine.ts:66-73 | each element has exactly three non-empty attack names |
| `BattleEngine.GenerateAttackName` | src/features/battle/hooks/useBattleEngine.ts:61-77 | a non-empty transcript gives 「transcript」; an empty one gives one of the attacker's element names, never empty |
| `BattleEngine.CalculateDamage` | src/features/battle/hooks/useBattleEngine.ts:5-58 | an error or a zero intensity gives the fixed result (10 damage, not critical, 普通の叫び, physical); otherwise the damage is at least 1, critical exactly when creativity > 80 and the roll < 0.2, the player is the attacker's id and the analysis passes through |
| `BattleEngine.DamageMonotoneInRaw` | src/features/battle/hooks/useBattleEngine.ts:39-47 | rounding, doubling and the minimum-1 clamp are monotone in the raw damage |
| `BattleEngine.RawDamage` | src/features/battle/hooks/useBattleEngine.ts:28-39 | the unrounded damage, base power times the type, language, element and stat factors; its growth with the attack type and its relation to the final damage are stated by `BattleEngine.RawDamageMonotoneInType` and `BattleEngine.DamageNearRaw` |
| `BattleEngine.RawDamageMonotoneInType` | src/features/battle/hooks/useBattleEngine.ts:28-39 | the raw damage grows with the type multiplier 1.0 / 1.3 / 1.8 |
| `BattleEngine.DamageMonotoneInAttackType` | src/features/battle/hooks/useBattleEngine.ts:30-47 | with everything else fixed, physical <= special <= ultimate damage |
| `BattleEngine.DamageNearRaw` | src/features/battle/hooks/useBattleEngine.ts:28-39 | without a critical hit the damage is the product of the mean score and the four factors, rounded to within one half |
| `BattleEngine.CriticalDoubles` | src/features/battle/hooks/useBattleEngine.ts:41-45 | a critical hit doubles the rounded damage before the clamp |
| `KaijuData.Matchup` | src/shared/constants/kaiju-data.ts:4-11 | `ELEMENT_MATCHUP` entry by entry; its values are stated by the three lemmas below |
| `KaijuData.MatchupValues` | src/shared/constants/kaiju-data.ts:4-11 | every one of the 36 matchups is 0.8, 1.0 or 1.5 |
| `KaijuData.MatchupSelfNeutral` | src/shared/constants/kaiju-data.ts:5-10 | every element against itself is 1.0 |
| `KaijuData.MatchupEveryElementHasAdvantage` | src/shared/constants/kaiju-data.ts:5-10 | every attacking element has a 1.5 matchup |
| `KaijuData.FireBeatsIce` | src/shared/constants/kaiju-data.ts:5 | fire against ice is 1.5 |
| `KaijuData.KaijuPresetsShape` | src/shared/constants/kaiju-data.ts:14-70 | five kaiju presets with ids 01..05, all in the kaiju category |
| `KaijuData.HeroPresetsShape` | src/shared/constants/kaiju-data.ts:73-129 | five hero presets with ids h01..h05, all in the hero category |
| `KaijuData.PresetIdsDistinct` | src/shared/constants/kaiju-data.ts:14-129 | preset ids are distinct within and across the two tables |
| `KaijuData.PresetsUsable` | src/shared/constants/kaiju-data.ts:14-129 | every preset has positive attack and defense and an image, so the stat ratio is defined |
| `KaijuData.ElementName` | src/shared/constants/kaiju-data.ts:132-139 | every element has a one-character name |
| `KaijuData.ElementNamesInjective` | src/shared/constants/kaiju-data.ts:132-139 | distinct elements have distinct names |
| `ResultSummary.TotalRounds` | src/features/game/components/ResultScreen.tsx:30 | the largest round in the log, bounding every entry and reached by one, or 0 for an empty log |
| `ResultSummary.MaxDamageIndex` | src/features/game/components/ResultScreen.tsx:31-34 | none exactly for an empty log; otherwise an entry whose damage bounds every entry's and is strictly above every earlier entry's (the earliest maximum, as the strict `>` gives) |
| `ResultSummary.BattleSummary` | src/features/game/components/ResultScreen.tsx:30-36 | the rounds, maximum damage and MVP attack name of the result screen; stated for an empty and a non-empty log by the two lemmas below |
| `ResultSummary.EmptyLogSummary` | src/features/game/components/ResultScreen.tsx:30-36 | an empty log gives 0 rounds, maximum damage 0 and MVP name '-' |
| `ResultSummary.SummaryOfNonEmptyLog` | src/features/game/components/ResultScreen.tsx:31-36 | for a non-empty log the maximum damage bounds every entry and is dealt by the earliest such entry, whose attack name is the MVP name |
| `BattleLogView.ReverseSpec` | src/features/battle/components/BattleLog.tsx:16 | the reversed copy has the same length and holds entry `|s|-1-k` at position k |
| `BattleLogView.RecentLogs` | src/features/battle/components/BattleLog.tsx:16 | min(5, |logs|) entries, newest first: position i holds `logs[|logs|-1-i]` |
| `BattleLogView.LogView` | src/features/battle/components/BattleLog.tsx:24-31 | the placeholder or the recent rows with the newest highlighted; stated by `BattleLogView.LogViewShape` |
| `BattleLogView.LogViewShape` | src/features/battle/components/BattleLog.tsx:24-31 | the placeholder shows exactly for an empty log; otherwise the rows are the recent entries newest first and only row 0 is highlighted |
| `HpBar.Percentage` | src/features/battle/components/HPBar.tsx:20 | the fill percentage always lies in [0, 100] |
| `HpBar.PercentageClamps` | src/features/battle/components/HPBar.tsx:20 | hp <= 0 gives 0, hp >= maxHp gives 100, and in between the exact share hp * 100 / maxHp |
| `HpBar.IsDanger` | src/features/battle/components/HPBar.tsx:21 | the bar is in danger at a fill of 20 percent or less; `HpBar.DangerIffOneFifth` restates it on hp and maxHp |
| `HpBar.DangerIffOneFifth` | src/features/battle/components/HPBar.tsx:21 | the bar is in danger exactly when hp is at most a fifth of maxHp |
| `HpBar.BarStyling` | src/features/battle/components/HPBar.tsx:42-62 | the red text, the pulse and the red glow each appear exactly when the bar is in danger |
| `HpBar.SegmentMarkersEvenlySpaced` | src/features/battle/components/HPBar.tsx:70 | four markers at 20, 40, 60 and 80 percent |
| `PinchOverlay.IsPinch` | src/features/vfx/components/PinchOverlay.tsx:17-20 | standing and at a quarter of the maximum or less; `PinchOverlay.PinchIff` restates it on hp and maxHp |
| `PinchOverlay.PinchIff` | src/features/vfx/components/PinchOverlay.tsx:10-20 | a player is in a pinch exactly when 0 < hp and hp is at most a quarter of maxHp |
| `PinchOverlay.KnockedOutNotPinch` | src/features/vfx/components/PinchOverlay.tsx:19 | a player with no HP left is never in a pinch |
| `PinchOverlay.DangerImpliesPinch` | src/features/vfx/components/PinchOverlay.tsx:17-20 | a standing player whose HP bar is red (at most 20 percent) is also in a pinch (at most 25 percent) |
| `PinchOverlay.Render` | src/features/vfx/components/PinchOverlay.tsx:26-58 | the overlay renders exactly when a player is in a pinch; the left vignette exactly for player 1, the right exactly for player 2 |
| `VoiceRecorder.PowerLevel` | src/features/voice/components/VoiceRecorder.tsx:32-36 | no analyser data gives 0; non-empty byte data gives a level in [0, 1]; an empty array gives NaN |
| `VoiceRecorder.PowerLevelOfMean` | src/features/voice/components/VoiceRecorder.tsx:34-35 | the level is the mean byte over 128, capped at 1 |
| `VoiceRecorder.RingColorSteps` | src/features/voice/components/VoiceRecorder.tsx:46-53 | blue below 0.3, cyan below 0.6, amber below 0.8, red otherwise; the colour never steps back as the level rises |
| `VoiceRecorder.RingColorWithoutData` | src/features/voice/components/VoiceRecorder.tsx:33-53 | no analyser data shows blue; an empty array (NaN level) falls through to red |
| `VoiceRecorder.HandleClick` | src/features/voice/components/VoiceRecorder.tsx:98-104 | recording starts exactly when neither disabled nor recording; the start callback fires exactly after a successful start when one is given |
| `VoiceRecorder.ProgressPercent` | src/features/voice/components/VoiceRecorder.tsx:106 | 100 exactly while recording, 0 exactly otherwise |
| `VoiceVisualizer.AverageVolume` | src/features/vfx/components/VoiceVisualizer.tsx:64-70 | the accumulator loop yields the sum over the length, a mean in [0, 255] |
| `VoiceVisualizer.BarCount` | src/features/vfx/components/VoiceVisualizer.tsx:119 | min(floor(len / 2), 64): at most 64 and at most half the samples |
| `VoiceVisualizer.BarOf` | src/features/vfx/components/VoiceVisualizer.tsx:124-127 | a bar's length lies in [0, 120] and its opacity in [0.3, 1] |
| `VoiceVisualizer.Bars` | src/features/vfx/components/VoiceVisualizer.tsx:119-145 | the bar loop draws `barCount` bars, bar i from `data[i]`, every read in bounds |
| `VoiceVisualizer.ColorWithAlpha` | src/features/vfx/components/VoiceVisualizer.tsx:230-235 | the result is `rgba(` ... `,alpha)` with the alpha text unchanged |
| `VoiceVisualizer.TwoDigitsParse` | src/features/vfx/components/VoiceVisualizer.tsx:231-233 | two hexadecimal digits parse base 16 to their value, which lies in 0..255 |
| `VoiceVisualizer.ComponentParses` | src/features/vfx/components/VoiceVisualizer.tsx:231-233 | for '#rrggbb' each slice (1,3), (3,5), (5,7) is those two digits and parses to a value in 0..255 |
| `VoiceVisualizer.WellFormedComponents` | src/features/vfx/components/VoiceVisualizer.tsx:230-235 | for '#rrggbb' the result prints r, g and b as the values of characters 1-2, 3-4 and 5-6 |
| `VoiceVisualizer.ColorRoundTrip` | src/features/vfx/components/VoiceVisualizer.tsx:230-235 | printing three bytes as '#rrggbb' and passing that through gives back those three bytes in decimal |
| `VoiceVisualizer.EmptyColorIsNaN` | src/features/vfx/components/VoiceVisualizer.tsx:231-234 | an empty colour string prints NaN for every component |
| `VictoryCelebration.CreateConfetti` | src/features/vfx/components/VictoryCelebration.tsx:31-51 | a new piece starts at y = -20 with no swing, a colour from [element colour, #fbbf24, #ffffff], vy in [1, 4), gravity in [0.05, 0.1) and x within the canvas |
| `VictoryCelebration.EmitCountBounds` | src/features/vfx/components/VictoryCelebration.tsx:137-142 | a tick adds min(50, 200 - len): nothing exactly on a full list, and never past 200 |
| `VictoryCelebration.FrameStepOnlyRemoves` | src/features/vfx/components/VictoryCelebration.tsx:91-112 | the per-frame filter never grows the list; every piece kept is an advanced old piece no more than 30 below the canvas |
| `VictoryCelebration.FrameStepKeepsVisible` | src/features/vfx/components/VictoryCelebration.tsx:100-111 | a piece still within 30 of the bottom after moving is kept |
| `VictoryCelebration.Celebration.constructor` | src/features/vfx/components/VictoryCelebration.tsx:58-63 | a mounted celebration starts with no confetti, no interval, no running loop and no frame |
| `VictoryCelebration.Celebration.SetActive` | src/features/vfx/components/VictoryCelebration.tsx:121-157 | activation starts the loop once and the 500 ms emitter; deactivation clears the emitter and keeps the confetti falling; reduced motion does nothing |
| `VictoryCelebration.Celebration.EmitTick` | src/features/vfx/components/VictoryCelebration.tsx:134-143 | with a canvas and an active emitter, appends min(50, 200 - len) new pieces to the existing list, keeping it at most 200 |
| `VictoryCelebration.Celebration.Frame` | src/features/vfx/components/VictoryCelebration.tsx:79-115 | without a canvas the loop stops; otherwise dt = min((t - last) / 1000, 0.05), the list becomes the filtered frame step and the next frame is requested |
| `VictoryCelebration.Celebration.Unmount` | src/features/vfx/components/VictoryCelebration.tsx:152-157 | unmounting clears the interval and cancels the pending frame |
| `MusicRoute.LE32RoundTrip` | src/app/api/music/generate/route.ts:31 | a 32-bit little-endian write reads back as the value written |
| `MusicRoute.LE16RoundTrip` | src/app/api/music/generate/route.ts:36 | a 16-bit little-endian write reads back as the value written |
| `MusicRoute.Put` | src/app/api/music/generate/route.ts:30-44 | a buffer write stores the bytes at the offset and leaves every other byte unchanged |
| `MusicRoute.CreateWavHeader` | src/app/api/music/generate/route.ts:19-47 | 44 bytes reading back as RIFF/WAVE/fmt /data with chunk size 36 + n, format 1, 2 channels, 48000 Hz, byte rate 192000, block align 4, 16 bits and data size n; a RangeError exactly when 36 + n does not fit in 32 bits |
| `MusicRoute.WriteRiff` | src/app/api/music/generate/route.ts:29-32 | bytes 0..12 become 'RIFF', the little-endian chunk size and 'WAVE' |
| `MusicRoute.WriteFmt` | src/app/api/music/generate/route.ts:33-41 | bytes 12..36 become the `fmt ` sub-chunk, bytes 0..12 unchanged |
| `MusicRoute.WriteData` | src/app/api/music/generate/route.ts:42-44 | bytes 36..44 become 'data' and the little-endian data size, bytes 0..36 unchanged |
| `MusicRoute.FmtChunkBytes` | src/app/api/music/generate/route.ts:34-41 | the `fmt ` sub-chunk is the 24 bytes `fmt `, 16, 1, 2, 48000, 192000, 4, 16 in little-endian order |
| `MusicRoute.FmtChunkFields` | src/app/api/music/generate/route.ts:34-41 | the `fmt ` sub-chunk reads back as sub-chunk size 16, format 1, 2 channels, 48000 Hz, byte rate 192000, block align 4, 16 bits |
| `MusicRoute.ParseHeader` | src/app/api/music/generate/route.ts:28-44 | reads the fields back from a 44-byte header with its four tags in place; it is the inverse that `MusicRoute.HeaderLayout`, `MusicRoute.CreateWavHeader` and `MusicRoute.AssembleWav` are stated against |
| `MusicRoute.HeaderLayout` | src/app/api/music/generate/route.ts:28-44 | the laid-out header parses to exactly the fields written |
| `MusicRoute.HeaderTags` | src/app/api/music/generate/route.ts:30-43 | the tags RIFF, WAVE, fmt and data sit at offsets 0, 8, 12 and 36 |
| `MusicRoute.HeaderSizes` | src/app/api/music/generate/route.ts:25-26 | the u32 at offset 4 is the chunk size and the one at offset 40 the data size |
| `MusicRoute.HeaderFmtFields` | src/app/api/music/generate/route.ts:35-41 | the format fields read back at offsets 16 to 34 of the header |
| `MusicRoute.FormatConstants` | src/app/api/music/generate/route.ts:20-24 | byte rate = 48000 * 2 * 16 / 8 = 192000 and block align = 2 * 16 / 8 = 4 |
| `MusicRoute.AssembleWav` | src/app/api/music/generate/route.ts:130-132 | the WAV is the header followed by the PCM bytes, 44 + n long, with a well-formed header |
| `MusicRoute.BuildMusicPrompt` | src/app/api/music/generate/route.ts:52-75 | `buildMusicPrompt`; its prompt is stated by `MusicRoute.PromptRoundTrip` and its tempo by `MusicRoute.BpmRange` |
| `MusicRoute.PhasePlain` | src/app/api/music/generate/route.ts:61-65 | no phase mood and not the fallback 'epic battle' contains a comma |
| `MusicRoute.ElementPlain` | src/app/api/music/generate/route.ts:53-59 | no element mood and not the fallback 'epic' contains a 'v', so none contains ' vs ' |
| `MusicRoute.SplitRestParts` | src/app/api/music/generate/route.ts:71 | after the first comma, the prompt splits at its first ' vs ' into the two element moods and the fixed tail |
| `MusicRoute.SplitPromptParts` | src/app/api/music/generate/route.ts:71 | the prompt splits at its first ', ' into the phase mood and the rest |
| `MusicRoute.PromptRoundTrip` | src/app/api/music/generate/route.ts:53-71 | the prompt reads back, at its first ', ' and then its first ' vs ', into the phase mood or 'epic battle', the first element's mood or 'epic' and the second's or 'battle', each decided by its own argument alone |
| `MusicRoute.PromptFallbacks` | src/app/api/music/generate/route.ts:53-69 | each part of the prompt falls back on its own: an element or phase that is not a key of its map gives 'epic', 'battle' or 'epic battle' in its own place whatever the other arguments are; `light` has no entry |
| `MusicRoute.PromptShape` | src/app/api/music/generate/route.ts:67-71 | the prompt opens with the phase mood and ends with the fixed tail about kaiju battle music |
| `MusicRoute.BpmRange` | src/app/api/music/generate/route.ts:72 | bpm = round(80 + 0.8 * intensity): 80 at 0, 160 at 100, within 80..160 between, never falling as intensity rises |
| `MusicRoute.BpmIgnoresText` | src/app/api/music/generate/route.ts:72 | the tempo depends on the intensity alone |
| `SeverityReport.Tally` | scripts/validate_ui_flow.py:309-317 | the three counters never add up to more than the number of checks |
| `SeverityReport.TallyCountsFailures` | scripts/validate_ui_flow.py:309-317 | each counter equals the number of failed checks of its severity (counts are per check, not per detail) |
| `SeverityReport.TallyCountsEveryFailure` | scripts/validate_ui_flow.py:309-317 | every failed check raises exactly one of the three counters |
| `SeverityReport.PartitionFailed` | scripts/validate_ui_flow.py:311-317 | the failed checks split into MVS, Tier and the rest (warnings) |
| `SeverityReport.TallyFailures` | scripts/validate_ui_flow.py:309-317 | the tally loop computes the counters of the outcomes seen |
| `SeverityReport.ExitCode` | scripts/validate_ui_flow.py:68-74 | the exit code is 0 exactly when no MVS and no Tier check failed |
| `SeverityReport.ExitCodeOfOutcomes` | scripts/validate_ui_flow.py:68-74 | the exit code is 1 iff an MVS check failed, 2 iff none did and a Tier check failed, 0 iff every non-warning check passed |
| `SeverityReport.NonEmptyFailedAt` | scripts/validate_ui_flow.py:70-73 | a counter is positive iff some check of that severity failed |
| `SeverityReport.ExitCodeIgnoresWarnings` | scripts/validate_ui_flow.py:68-74 | the warning counter never changes the exit code, which is always 0, 1 or 2 |
| `Common.Without` | scripts/validate_ui_flow.py:103-104 | the set difference: exactly the elements of the first list not in the second, empty iff the first is covered |
| `ValidateUiFlow.V1` | scripts/validate_ui_flow.py:86-96 | V1 fails iff the schema validator reported an error, one detail per error in order |
| `ValidateUiFlow.KeySetPassed` | scripts/validate_ui_flow.py:103-107 | a key-set check passes iff every expected key is present; unexpected keys never fail it |
| `ValidateUiFlow.KeySetMissing` | scripts/validate_ui_flow.py:103-107 | a failing key-set check's first detail lists exactly the missing keys, once each, in sorted order |
| `ValidateUiFlow.KeySetUnexpected` | scripts/validate_ui_flow.py:104-109 | the last detail lists the unexpected keys, once each and sorted, and is present iff there is such a key |
| `ValidateUiFlow.V2` | scripts/validate_ui_flow.py:99-110 | V2 is an MVS check passing iff all six expected statechart states are present |
| `ValidateUiFlow.V3` | scripts/validate_ui_flow.py:113-124 | V3 is an MVS check passing iff all twelve expected panels are present |
| `ValidateUiFlow.V4` | scripts/validate_ui_flow.py:127-138 | V4 is an MVS check passing iff all six expected phases are present |
| `ValidateUiFlow.V5` | scripts/validate_ui_flow.py:141-152 | V5 is an MVS check passing iff all eight expected SSE events are present |
| `ValidateUiFlow.ExpectedKeysPass` | scripts/validate_ui_flow.py:35-52 | a document with exactly the expected keys passes V2-V5 with no detail |
| `ValidateUiFlow.V6` | scripts/validate_ui_flow.py:155-164 | V6 is an MVS check |
| `ValidateUiFlow.CheckV6` | scripts/validate_ui_flow.py:157-164 | the loop over the SSE mapping computes V6 |
| `ValidateUiFlow.V6Spec` | scripts/validate_ui_flow.py:158-163 | V6 fails iff some mapping targets an undefined panel, with a detail for exactly the offending events |
| `ValidateUiFlow.V7` | scripts/validate_ui_flow.py:167-176 | V7 is an MVS check |
| `ValidateUiFlow.CheckV7` | scripts/validate_ui_flow.py:169-176 | the nested loop over phases and their active panels computes V7 |
| `ValidateUiFlow.V7Spec` | scripts/validate_ui_flow.py:170-175 | one detail for exactly each (phase, active panel) pair whose panel is undefined; fails iff there is one |
| `ValidateUiFlow.PhaseRefsSpec` | scripts/validate_ui_flow.py:172-175 | one phase contributes a detail for exactly each undefined active panel, and none iff all are defined |
| `ValidateUiFlow.V8` | scripts/validate_ui_flow.py:179-191 | V8 is an MVS check |
| `ValidateUiFlow.CheckV8` | scripts/validate_ui_flow.py:181-191 | the loop over panels computes V8 |
| `ValidateUiFlow.V8Spec` | scripts/validate_ui_flow.py:182-190 | `shared` panels are skipped; V8 fails iff another panel's feature directory is missing, with a detail for exactly those panels |
| `ValidateUiFlow.StatechartTriplesSpec` | scripts/validate_ui_flow.py:199-203 | a triple is collected iff some state has that event with that target |
| `ValidateUiFlow.DeclaredTriples` | scripts/validate_ui_flow.py:206-208 | one (from, event, to) triple per declared transition, in order |
| `ValidateUiFlow.CollectStatechartTriples` | scripts/validate_ui_flow.py:199-203 | the nested loop over states and their `on` entries collects the statechart's triples |
| `ValidateUiFlow.V9` | scripts/validate_ui_flow.py:194-224 | V9 is a Tier check |
| `ValidateUiFlow.CheckV9` | scripts/validate_ui_flow.py:196-224 | the collecting loops and the two sorted set differences compute V9 |
| `ValidateUiFlow.TripleLtIsOrder` | scripts/validate_ui_flow.py:214 | Python's field-by-field tuple order on triples is a strict total order |
| `ValidateUiFlow.V9Passed` | scripts/validate_ui_flow.py:210-222 | V9 passes iff the statechart's triples and the declared ones are the same set |
| `ValidateUiFlow.V9DetailsSpec` | scripts/validate_ui_flow.py:210-222 | the details are the statechart-only triples, once each in sorted order, then the declared-only ones likewise |
| `ValidateUiFlow.V10` | scripts/validate_ui_flow.py:227-252 | V10 is a Tier check |
| `ValidateUiFlow.CollectTargetDetails` | scripts/validate_ui_flow.py:240-245 | the nested loop over states and transitions gives one detail per undefined target |
| `ValidateUiFlow.CheckV10` | scripts/validate_ui_flow.py:229-252 | the initial test, the target loop and the id test compute V10 |
| `ValidateUiFlow.TargetDetailsSpec` | scripts/validate_ui_flow.py:240-245 | exactly the transitions whose target is not a state are reported |
| `ValidateUiFlow.StateTargetsSpec` | scripts/validate_ui_flow.py:241-245 | one state contributes a detail for exactly each transition to a missing state, and none iff every target is a state |
| `ValidateUiFlow.V10Spec` | scripts/validate_ui_flow.py:233-250 | V10 fails iff a non-empty initial is not a state, some target is not a state, or the id is falsy; an empty initial is never reported |
| `ValidateUiFlow.V11` | scripts/validate_ui_flow.py:255-268 | V11 is a Tier check |
| `ValidateUiFlow.CheckV11` | scripts/validate_ui_flow.py:257-268 | the loop over phases computes V11 |
| `ValidateUiFlow.V11Spec` | scripts/validate_ui_flow.py:260-266 | a null or absent ref is accepted; any other must be one of the five known refs, with a detail for exactly the others |
| `ValidateUiFlow.V12` | scripts/validate_ui_flow.py:271-287 | V12 is a warning check |
| `ValidateUiFlow.CheckV12` | scripts/validate_ui_flow.py:273-287 | the page test and the loop over user actions compute V12 |
| `ValidateUiFlow.V12Spec` | scripts/validate_ui_flow.py:275-285 | a missing page passes with one detail; otherwise V12 fails iff a non-empty handler does not occur in the page text |
| `ValidateUiFlow.AllChecks` | scripts/validate_ui_flow.py:294-307 | the twelve results in order |
| `ValidateUiFlow.AllChecksSeverities` | scripts/validate_ui_flow.py:294-307 | V1-V8 are MVS checks, V9-V11 Tier checks and V12 a warning |
| `ValidateUiFlow.SeverityTable` | scripts/validate_ui_flow.py:294-307 | twelve checks with those severities read back by position |
| `ValidateUiFlow.Outcomes` | scripts/validate_ui_flow.py:309-311 | the tally sees each result's severity and verdict, in order |
| `ValidateUiFlow.RunAllChecks` | scripts/validate_ui_flow.py:290-319 | keeps all twelve results in order and tallies the failures by severity |
| `ValidateUiFlow.ExitCodeOfChecks` | scripts/validate_ui_flow.py:68-74 | the exit code is 1 iff one of V1-V8 fails, 2 iff those pass and one of V9-V11 fails, 0 iff V1-V11 all pass; V12 never matters |
| `ValidateUiFlow.ExitCodeBySeverity` | scripts/validate_ui_flow.py:68-74 | the same for any twelve checks with those severities |
| `ValidateUiFlow.MainExitCodeSpec` | scripts/validate_ui_flow.py:405-428 | the command exits 1 when the document or the schema fails to load, 0 iff both load and V1-V11 pass, and always 0, 1 or 2 |
| `ValidateDocs.PairLtIsOrder` | scripts/validate_docs_consistency.py:119 | the tuple order used by `sorted(mappings.items())` is a strict total order |
| `ValidateDocs.ItemsSpec` | scripts/validate_docs_consistency.py:119 | the sorted items are exactly the mappings, each once, in increasing `(key, value)` order |
| `ValidateDocs.Values` | scripts/validate_docs_consistency.py:348 | the values list holds the value of every mapping, position by position |
| `ValidateDocs.Verdicts` | scripts/validate_docs_consistency.py:119-127 | one loop verdict per item, position by position |
| `ValidateDocs.TallyVerdicts` | scripts/validate_docs_consistency.py:119-127 | the loop ends with `ok_count` the number of passes and `details` the failures in loop order |
| `ValidateDocs.VerdictCounts` | scripts/validate_docs_consistency.py:119-127 | passes plus failures never exceed the iterations, and equal them when no iteration is skipped |
| `ValidateDocs.FailDetailsSpec` | scripts/validate_docs_consistency.py:124-127 | the details are exactly the failures recorded, and empty iff no iteration failed |
| `ValidateDocs.CheckItems` | scripts/validate_docs_consistency.py:116-128 | the loop method computes the per-mapping check result |
| `ValidateDocs.ItemsCheckSpec` | scripts/validate_docs_consistency.py:116-128 | `total` is the number of mappings, `ok_count` is at most that, the check fails iff some mapping fails, and the details are exactly those failures |
| `ValidateDocs.VerdictsOf` | scripts/validate_docs_consistency.py:116-128 | judging the sorted items one by one yields exactly the failures of the mappings, and none iff no mapping fails |
| `ValidateDocs.UnregisteredDirsSpec` | scripts/validate_docs_consistency.py:97-105 | the unregistered directories are exactly the source directories outside the registry, without repeats, in increasing order |
| `ValidateDocs.SplitCard` | scripts/validate_docs_consistency.py:96-98 | a set's size is that of its part outside a second set plus its part inside it |
| `ValidateDocs.D1` | scripts/validate_docs_consistency.py:86-106 | `d1_feature_directory_coverage`, the check record it returns; what it states is proved by `ValidateDocs.D1Spec` |
| `ValidateDocs.D1Spec` | scripts/validate_docs_consistency.py:86-106 | D1 fails iff some source directory is unregistered; `ok_count` is the number of registered source directories; each unregistered one is reported once, in increasing order |
| `ValidateDocs.UnregisteredDetails` | scripts/validate_docs_consistency.py:102-105 | one `Unregistered` detail per listed directory, in the listed (increasing) order |
| `ValidateDocs.D2` | scripts/validate_docs_consistency.py:109-128 | `d2_spec_directory_existence`, the check record it returns; what it states is proved by `ValidateDocs.D2Spec` |
| `ValidateDocs.D2Spec` | scripts/validate_docs_consistency.py:109-128 | D2 passes iff every registered id names an existing directory; `ok_count` is at most `total`, which is the number of mappings |
| `ValidateDocs.SpecFilesSpec` | scripts/validate_docs_consistency.py:151-153 | the SPEC files found are exactly the files of the directory matching `SPEC-{number}-*.md` |
| `ValidateDocs.D3` | scripts/validate_docs_consistency.py:131-162 | `d3_spec_file_existence`, the check record it returns; what it states is proved by `ValidateDocs.D3Spec` |
| `ValidateDocs.D3Spec` | scripts/validate_docs_consistency.py:131-162 | D3 passes iff every registered directory exists and holds a matching SPEC file |
| `ValidateDocs.FieldErrorsSpec` | scripts/validate_docs_consistency.py:194-209 | no field error iff the schema version is not absent, null or a number below 6, the feature id and title are truthy and `why` is truthy with 10 or more characters; a short `why` is reported with its length; errors keep the rule order |
| `ValidateDocs.D4` | scripts/validate_docs_consistency.py:165-219 | `d4_context_json_required_fields`, the check record it returns; what it states is proved by `ValidateDocs.D4Spec` |
| `ValidateDocs.D4Spec` | scripts/validate_docs_consistency.py:165-219 | D4 passes iff every registered id has a parsable `CONTEXT.json` without field errors |
| `ValidateDocs.CheckD5` | scripts/validate_docs_consistency.py:222-249 | the loop method computes D5 |
| `ValidateDocs.D5` | scripts/validate_docs_consistency.py:222-249 | `d5_index_md_feature_completeness`, the check record it returns; what it states is proved by `ValidateDocs.D5Spec` |
| `ValidateDocs.D5Spec` | scripts/validate_docs_consistency.py:222-249 | without an index D5 fails with exactly one detail; with one it passes iff every registered id or its leading number occurs in the index |
| `ValidateDocs.NumberAloneReferences` | scripts/validate_docs_consistency.py:241-242 | an id whose number occurs in the index counts as referenced, whatever its title part |
| `ValidateDocs.BeforeFirstDashOfPrefix` | scripts/validate_docs_consistency.py:241 | `split("-")[0]` of a dash-free prefix followed by a dash is that prefix |
| `ValidateDocs.MissingSectionsSpec` | scripts/validate_docs_consistency.py:274-279 | a section 0, 1 or 2 is listed iff its `## n.` heading is missing, each at most once, ascending; none missing iff all three are present |
| `ValidateDocs.HeadingLine` | scripts/validate_docs_consistency.py:276 | a `## n.` written at the start of a line is found |
| `ValidateDocs.HeadingIn` | scripts/validate_docs_consistency.py:276 | a line opening with `## n.` after a complete line is found whatever follows |
| `ValidateDocs.HeadingsFound` | scripts/validate_docs_consistency.py:274-279 | a SPEC made of the three heading lines has no missing section |
| `ValidateDocs.D6` | scripts/validate_docs_consistency.py:252-289 | `d6_spec_minimum_structure`, the check record it returns; what it states is proved by `ValidateDocs.D6Spec` |
| `ValidateDocs.D6Spec` | scripts/validate_docs_consistency.py:252-289 | D6 passes iff the first SPEC file of every registered directory that has one carries all three headings |
| `ValidateDocs.CheckD7` | scripts/validate_docs_consistency.py:292-337 | the nested loop method computes D7 |
| `ValidateDocs.D7` | scripts/validate_docs_consistency.py:292-337 | `d7_related_code_path_validity`, the check record it returns; what it states is proved by `ValidateDocs.D7Spec` |
| `ValidateDocs.D7Spec` | scripts/validate_docs_consistency.py:292-337 | `total` counts every path checked, each is valid or reported and never both, and D7 passes iff every checked path exists |
| `ValidateDocs.CollectOrphans` | scripts/validate_docs_consistency.py:353-361 | the loop collects the orphan directories in listing order |
| `ValidateDocs.OrphansSpec` | scripts/validate_docs_consistency.py:353-361 | a name is an orphan iff it is a listed directory, not excluded, named with three digits and a dash, and not a registered id |
| `ValidateDocs.OrphanDetailsSpec` | scripts/validate_docs_consistency.py:366-371 | one detail per orphan, exactly the orphans, in non-decreasing order |
| `ValidateDocs.CheckD8` | scripts/validate_docs_consistency.py:340-372 | the method computes D8 |
| `ValidateDocs.D8` | scripts/validate_docs_consistency.py:340-372 | `d8_orphan_spec_detection`, the check record it returns; what it states is proved by `ValidateDocs.D8Spec` |
| `ValidateDocs.D8Spec` | scripts/validate_docs_consistency.py:340-372 | `ok_count` is the number of distinct registered ids, the details are exactly the orphans in order, and D8 passes iff there is none |
| `ValidateDocs.AllChecks` | scripts/validate_docs_consistency.py:379-388 | eight results, D1 to D8 in that order |
| `ValidateDocs.Outcomes` | scripts/validate_docs_consistency.py:390-398 | each check contributes its severity and verdict, position by position |
| `ValidateDocs.RunAllChecks` | scripts/validate_docs_consistency.py:375-400 | the report holds the eight results in order and the failures tallied by severity |
| `ValidateDocs.SeverityTable` | scripts/validate_docs_consistency.py:379-388 | checks with the declared severities read back as MVS for D1-D5, Tier for D6-D7, Warning for D8 |
| `ValidateDocs.AllChecksSeverities` | scripts/validate_docs_consistency.py:379-388 | D1-D5 are MVS, D6-D7 Tier, D8 a warning |
| `ValidateDocs.ExitCodeBySeverity` | scripts/validate_docs_consistency.py:58-64 | for eight checks so classified, the exit code is 1 iff one of the first five fails, 2 iff they pass and the sixth or seventh fails, 0 iff the first seven pass |
| `ValidateDocs.ExitCodeOfChecks` | scripts/validate_docs_consistency.py:58-64 | the validator exits 1 iff D1-D5 has a failure, 2 iff they pass and D6 or D7 fails, 0 iff D1-D7 pass; D8 never matters |
| `ValidateDocs.MainExitCodeSpec` | scripts/validate_docs_consistency.py:477-505 | a missing registry exits 1; the command exits 0 iff the registry loads and D1-D7 pass; the code is always 0, 1 or 2 |
| `SsotGenerator.SnakeChar` | scripts/generate-from-ssot.mjs:43-44 | a converted character is never a lower-case ASCII letter and never `-` |
| `SsotGenerator.ToUpperSnake` | scripts/generate-from-ssot.mjs:41-46 | the converted name has no lower-case ASCII letter and no `-` |
| `SsotGenerator.ToUpperSnakeLength` | scripts/generate-from-ssot.mjs:41-46 | the name grows by exactly one underscore per lower-to-upper boundary |
| `SsotGenerator.SplitCamelLength` | scripts/generate-from-ssot.mjs:43 | the camel-case replacement adds one character per boundary |
| `SsotGenerator.SplitCamelNoLower` | scripts/generate-from-ssot.mjs:43 | a name without lower-case letters has no boundary and is unchanged |
| `SsotGenerator.ToUpperSnakeFixed` | scripts/generate-from-ssot.mjs:41-46 | a name already in UPPER_SNAKE_CASE is left unchanged |
| `SsotGenerator.ToUpperSnakeIdempotent` | scripts/generate-from-ssot.mjs:41-46 | converting twice gives the same name as converting once |
| `SsotGenerator.SplitCamelStep` | scripts/generate-from-ssot.mjs:43 | the replacement handles the first character, then the rest |
| `SsotGenerator.SplitCamelAppend` | scripts/generate-from-ssot.mjs:43 | the replacement of a concatenation is that of each half with an underscore exactly where a lower-case letter meets an upper-case one |
| `SsotGenerator.ToUpperSnakeAppend` | scripts/generate-from-ssot.mjs:41-46 | converting a concatenation converts each half, with an underscore exactly where a lower-case letter meets an upper-case one |
| `SsotGenerator.StatechartEventsSpec` | scripts/generate-from-ssot.mjs:65-72 | an event is collected iff some state has an `on` entry for it |
| `SsotGenerator.CollectEvents` | scripts/generate-from-ssot.mjs:65-72 | the nested loop collects the set of statechart events |
| `SsotGenerator.AddEvents` | scripts/generate-from-ssot.mjs:68-70 | the inner loop adds every `on` key of one state |
| `SsotGenerator.DeriveMachineEvent` | scripts/generate-from-ssot.mjs:49-57 | `deriveMachineEvent`; stated by `SsotGenerator.DeriveMachineEventSpec` |
| `SsotGenerator.DeriveMachineEventSpec` | scripts/generate-from-ssot.mjs:49-57 | the `SSE_` form is chosen iff it is an event, the plain form iff only it is, null iff neither; a result is always a statechart event |
| `SsotGenerator.SseEntries` | scripts/generate-from-ssot.mjs:240-248 | one entry per `sse_mapping` entry, in order |
| `SsotGenerator.SseEntryOf` | scripts/generate-from-ssot.mjs:241-246 | one `SSE_EVENT_MAP` entry; stated, for every entry, by `SsotGenerator.SseEntriesSpec` |
| `SsotGenerator.SseEntriesSpec` | scripts/generate-from-ssot.mjs:240-248 | each entry keeps its name and target panel; an explicit null status change gets no machine event; a machine event is a statechart event derived from the name; the status change is printed iff it is a non-empty state |
| `SsotGenerator.NullStatusPrintsNullEvent` | scripts/generate-from-ssot.mjs:242-246 | an entry with a null status change is printed with `machineEvent: null` |
| `SsotGenerator.MermaidLines` | scripts/generate-from-ssot.mjs:287-302 | the `lines` array of `generateMermaidDiagram`; the loop is proved against it and its shape is stated by `SsotGenerator.MermaidSpec` |
| `SsotGenerator.GenerateMermaidDiagram` | scripts/generate-from-ssot.mjs:287-304 | the loop pushes the diagram's lines, joined and newline-terminated |
| `SsotGenerator.PushStateLines` | scripts/generate-from-ssot.mjs:291-301 | one state contributes its description line, then one edge per `on` entry |
| `SsotGenerator.MermaidSpec` | scripts/generate-from-ssot.mjs:287-304 | the diagram opens with `stateDiagram-v2` and the initial arrow, ends with a newline, has an edge line for every `on` entry of every state, and every later line belongs to some state |
| `SsotGenerator.Cells` | scripts/generate-from-ssot.mjs:320-322 | one cell per phase |
| `SsotGenerator.MatrixRows` | scripts/generate-from-ssot.mjs:319-324 | one row per panel, in order |
| `SsotGenerator.GeneratePanelMatrix` | scripts/generate-from-ssot.mjs:307-327 | the loop produces the header and rows, joined and newline-terminated |
| `SsotGenerator.CellsSpec` | scripts/generate-from-ssot.mjs:320-322 | a cell is `●` iff the phase lists the panel as active, `−` otherwise |
| `SsotGenerator.MatrixSpec` | scripts/generate-from-ssot.mjs:307-327 | the table has five header lines then one row per panel, each opening with the panel's id |
| `SsotGenerator.RowStart` | scripts/generate-from-ssot.mjs:323 | a row opens with `\| <panel> \| ` |
| `SsotGenerator.OutputsDistinct` | scripts/generate-from-ssot.mjs:74-104 | the five output paths are distinct |
| `SsotGenerator.CheckOutputs` | scripts/generate-from-ssot.mjs:106-116 | the check loop reports staleness iff some output file is missing or differs |
| `SsotGenerator.WriteOutputs` | scripts/generate-from-ssot.mjs:129-136 | the write loop stores each output's text at its path |
| `SsotGenerator.WrittenSpec` | scripts/generate-from-ssot.mjs:129-136 | after writing, every output is up to date and every other file is untouched |
| `SsotGenerator.Run` | scripts/generate-from-ssot.mjs:106-136 | the exit code and the files after `main`; stated by `SsotGenerator.RunSpec` |
| `SsotGenerator.RunMain` | scripts/generate-from-ssot.mjs:106-136 | the method computes the run's exit code and files |
| `SsotGenerator.RunSpec` | scripts/generate-from-ssot.mjs:106-125 | check mode changes no file and exits 1 iff an output is missing or different, else 0; a check right after a generation run exits 0 |
| `CrossFeatureImports.FirstIndex` | scripts/check_cross_feature_imports.py:39 | the index is that of the first occurrence of the separator |
| `CrossFeatureImports.Split` | scripts/check_cross_feature_imports.py:39 | `split` gives at least one part and no part contains the separator |
| `CrossFeatureImports.JoinCons` | scripts/check_cross_feature_imports.py:39 | joining a first part onto the rest puts one separator between them |
| `CrossFeatureImports.SplitJoin` | scripts/check_cross_feature_imports.py:39 | joining the parts of a split with the same separator gives the path back |
| `CrossFeatureImports.FeatureName` | scripts/check_cross_feature_imports.py:36-42 | `get_feature_name`; stated by `CrossFeatureImports.FeatureNameSpec` |
| `CrossFeatureImports.FeatureNameSpec` | scripts/check_cross_feature_imports.py:36-42 | a path names a feature iff it has at least two components; the feature is the text before the first separator |
| `CrossFeatureImports.SpaceRunSpec` | scripts/check_cross_feature_imports.py:27 | `\s+` consumes the maximal run of whitespace |
| `CrossFeatureImports.FeatureRunSpec` | scripts/check_cross_feature_imports.py:27 | `[a-z0-9-]+` consumes the maximal run of feature-name characters |
| `CrossFeatureImports.ClosingQuoteSpec` | scripts/check_cross_feature_imports.py:27 | the lazy `(.*?)['"]` stops at the first quote, with no quote and no newline before it |
| `CrossFeatureImports.Search` | scripts/check_cross_feature_imports.py:59 | `IMPORT_PATTERN.search(line)`; stated by `CrossFeatureImports.SearchFromSpec` |
| `CrossFeatureImports.SearchFromSpec` | scripts/check_cross_feature_imports.py:59 | `search` returns the match at the leftmost position that has one, and nothing iff no position matches |
| `CrossFeatureImports.MatchAt` | scripts/check_cross_feature_imports.py:26-28 | the pattern anchored at one position; stated by `CrossFeatureImports.MatchShape` and `CrossFeatureImports.MatchAtParts` |
| `CrossFeatureImports.MatchShape` | scripts/check_cross_feature_imports.py:26-28 | a match names a non-empty feature of `[a-z0-9-]` characters and an internal path without quotes or newlines that is neither the barrel `index` nor `types` nor under `types/` |
| `CrossFeatureImports.QuotedNotBarrel` | scripts/check_cross_feature_imports.py:27 | a quoted path not rejected by the lookahead is neither the barrel nor a types file |
| `CrossFeatureImports.InternalImportFound` | scripts/check_cross_feature_imports.py:26-28 | every line `from '@/features/<x>/<g>'` with a valid feature name and a non-barrel, non-types path is found, with `x` and `g` as the groups |
| `CrossFeatureImports.MatchAtParts` | scripts/check_cross_feature_imports.py:26-28 | a line laid out as an internal import matches at its start with those groups |
| `CrossFeatureImports.MatchAtStart` | scripts/check_cross_feature_imports.py:26-28 | a line whose prefix, feature, slash, path and closing quote have been read off matches at position 0 with those groups |
| `CrossFeatureImports.SearchAtStart` | scripts/check_cross_feature_imports.py:59 | a match at the start of the line is the one `search` returns |
| `CrossFeatureImports.FeatureRunOf` | scripts/check_cross_feature_imports.py:27 | a run of feature characters ended by another character is consumed exactly |
| `CrossFeatureImports.ClosingQuoteOf` | scripts/check_cross_feature_imports.py:27 | a quote after quote-free characters on one line closes the path there |
| `CrossFeatureImports.NotBarrel` | scripts/check_cross_feature_imports.py:27 | the lookahead lets through a quoted path that is neither the barrel nor a types file |
| `CrossFeatureImports.CheckFile` | scripts/check_cross_feature_imports.py:45-71 | the per-line loop computes the file's violations |
| `CrossFeatureImports.LineViolations` | scripts/check_cross_feature_imports.py:58-70 | a line contributes at most one violation, carrying the file, its own line number and a feature other than the file's |
| `CrossFeatureImports.LinesViolationsOrder` | scripts/check_cross_feature_imports.py:58-70 | at most one violation per line, numbered from 1, in strictly increasing line order |
| `CrossFeatureImports.LinesViolationsSound` | scripts/check_cross_feature_imports.py:58-70 | each violation is the first match on its line and names a feature other than the file's own |
| `CrossFeatureImports.LinesViolationsComplete` | scripts/check_cross_feature_imports.py:58-70 | line `k + 1` is reported iff its first match names another feature |
| `CrossFeatureImports.NoFeatureNoViolations` | scripts/check_cross_feature_imports.py:47-56 | a file outside a feature directory or an unreadable file has no violation |
| `CrossFeatureImports.CollectViolations` | scripts/check_cross_feature_imports.py:81-86 | the walk collects the violations of every `.ts`/`.tsx` file, in walk order |
| `CrossFeatureImports.RunCheck` | scripts/check_cross_feature_imports.py:74-95 | the method returns `main`'s exit code and, when `src/features` exists, every violation |
| `CrossFeatureImports.ExitCode` | scripts/check_cross_feature_imports.py:74-95 | `main`'s return value; stated by `CrossFeatureImports.ExitCodeSpec` |
| `CrossFeatureImports.ExitCodeSpec` | scripts/check_cross_feature_imports.py:74-95 | the command exits 0 or 1, and 1 iff `src/features` is missing or a scanned file has a violation |
| `Common.Round` | src/features/battle/hooks/useBattleEngine.ts:39 | `Math.round` gives the integer within half of its argument, rounding halves up |
| `Common.RoundMonotone` | src/features/battle/hooks/useBattleEngine.ts:39 | rounding never reverses the order of two values |
| `Common.RandomIndex` | src/features/battle/hooks/useBattleEngine.ts:76 | `Math.floor(Math.random() * n)` is a valid index into a non-empty list |
| `Sorting.SortSpec` | scripts/validate_docs_consistency.py:119 | `sorted` returns a sorted permutation of its input |
| `Sorting.SortedUnique` | scripts/validate_docs_consistency.py:119 | a sorted permutation is unique, so the model's sort agrees with Python's `sorted` |
| `Sorting.SortedSetSpec` | scripts/validate_docs_consistency.py:102 | `sorted(set(...))` lists each element exactly once, in strictly increasing order |
| `MusicRoute.LE32` | src/app/api/music/generate/route.ts:31 | `writeUInt32LE` stores four bytes |
| `MusicRoute.LE16` | src/app/api/music/generate/route.ts:36 | `writeUInt16LE` stores two bytes |
| `MusicRoute.HeaderBytes` | src/app/api/music/generate/route.ts:19-47 | the header is 44 bytes long |
| `VoiceVisualizer.HexPrefix` | src/features/vfx/components/VoiceVisualizer.tsx:231-233 | `parseInt(…, 16)` reads the longest run of hexadecimal digits |
| `VoiceVisualizer.Slice` | src/features/vfx/components/VoiceVisualizer.tsx:231-233 | `slice` never returns more characters than the range asks for |
| `VoiceVisualizer.ParsedText` | src/features/vfx/components/VoiceVisualizer.tsx:231-234 | each two-digit component of a well-formed colour prints as the decimal of its hexadecimal value |
| `VoiceVisualizer.Rgba` | src/features/vfx/components/VoiceVisualizer.tsx:234 | the text opens with `rgba(` and ends with the alpha and `)` |
| `Text.DecimalRoundTrip` | src/features/vfx/components/VoiceVisualizer.tsx:234 | a number printed in decimal reads back as itself |

## Left out

- The `POST` handlers of every route under `src/app/api`, the Gemini and Lyria calls and the `fetch` calls in the hooks: network and SDK code whose behaviour is not visible here.
- The prompt builders of the commentary and AI-opponent routes: they only produce text for an external model.
- Asynchronous orchestration (the commentary queue, the AI prefetch race, the battle screen timers, `useVoiceCapture`): concurrency and browser media APIs.
- Canvas drawing and animation components, the recorder's waveform loop and the visualizer's bar-drawing loop: only the values they read (bar count, in-bounds indices, colours) are modelled.
- Floating point: damage, percentages, ratios, volumes and bpm are exact reals, so IEEE-754 rounding, `Infinity` and `NaN` from arithmetic are not modelled; `Math.round` is `floor(x + 0.5)` on the exact value.
- BattleEngine.CalculateDamage: requires a non-zero defender `baseDefense` on the non-fallback path, because a division by zero gives `Infinity` or `NaN` in JavaScript, which exact reals cannot express; every preset has a positive defence.
- BattleEngine.CalculateDamage: the intensity is a real, so a `NaN` intensity, which is falsy and takes the fallback, is not representable.
- HpBar.Percentage: requires a non-zero `maxHp`, because `hp / 0` gives `Infinity` or `NaN`; players are always created with `maxHp` 200.
- PinchOverlay.IsPinch: requires a non-zero `maxHp`, for the same reason.
- `Math.random` and `Date.now()` are parameters: the critical roll, the attack-name roll and the confetti draws are given values in [0, 1), and log timestamps are given times.
- VictoryCelebration.Celebration: the confetti motion (position, rotation, sway) is real arithmetic with `Math.sin` given as a function parameter; `requestAnimationFrame` and `setInterval` are modelled as calls to `EmitTick` and `Frame`.
- ValidateUiFlow.V1: the JSON Schema validator is a foreign library, so its error list is an input.
- ValidateUiFlow.V9: requires object-form transitions, because a shorthand string transition makes the Python `.get` raise.
- ValidateUiFlow.V10: requires object-form transitions, for the same reason.
- ValidateUiFlow.AllChecks: requires object-form transitions, because it includes V9 and V10.
- V8 and V12 read the file system; the existing paths and the page text are inputs.
- File-system access in all scripts: listings, `glob`, `exists`, `read_text` and `os.walk` are inputs (sets of existing paths, listings in their given order, file contents); an unreadable file is an absent value.
- JSON loading: documents are given already parsed, with distinct keys in each object; a `references` value that is not an object (where Python would raise) is not modelled.
- ValidateDocs.SpecFilesSpec: a documentation id containing glob metacharacters is matched literally.
- ValidateDocs.D7Spec: related paths are checked by membership in the set of existing project paths, without normalising `..` or absolute paths.
- MusicRoute.BuildMusicPrompt: `elementMap[x] ?? 'epic'` and the phase lookup are modelled for keys that are own properties of the two literal maps and for keys absent from the object altogether; a key naming an inherited `Object.prototype` member (`constructor`, `toString`, `valueOf`, `hasOwnProperty`, `__proto__`, ...) is not nullish in JavaScript and puts that member's string form into the prompt, whereas the model falls back to 'epic', 'battle' or 'epic battle'.
- SsotGenerator.MermaidLines: JavaScript's `Object.keys` and `Object.entries` list keys that look like array indices (such as "0" or "42") first, in ascending numeric order, before the other keys in insertion order; the model keeps document order for every key, so for a state, event, panel, phase or SSE name that is an integer-like string the generated Mermaid lines, SSE entries and matrix rows (`SsotGenerator.SseEntriesText`, `SsotGenerator.MatrixRows`) may be in a different order from the generator's.
- SsotGenerator.SseEntryLine: an SSE mapping without `target_panel` prints `targetPanel: 'undefined'` in the generator, but the model reads the missing field as the empty string (the validator's reading) and prints `targetPanel: ''`.
- ValidateDocs.NumberedName: `^\d{3}-` is matched with ASCII digits only; Python's `\d` on a `str` also accepts other Unicode decimal digits (such as Arabic-Indic or full-width digits), so such directory names are skipped by the model but checked by the script.
- SsotGenerator.ToUpperSnake: `toUpperCase` is modelled for ASCII letters only; other letters are left as they are.
- `generateTypes`, `generateSessionMachine`, the header comment and the parts of `generatePanelRegistry` other than the SSE entries are given texts: they are template emitters without a rule to state beyond their text.
- The relative-path pattern of `scripts/check_cross_feature_imports.py` is compiled but never used, so it has no behaviour to model.
- Console output, Markdown and JSON report formatting, `argparse`, `mkdirSync`, `sys.exit` and `process.exit`: messages are structured details and exits are returned codes.
- The `useGameState` hook itself only wires the reducer to React and is not modelled; the reducer is.
