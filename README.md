# RespawnApp rules engines, modelled in Dafny

RespawnApp turns a player's self-reported day into game state. The day's input is sleep hours, screen time, stress level, water intake and whether the player exercised. From it the app computes:

- four stats (health, energy, focus, resilience, each in [0,100]);
- the status effects those stats trigger;
- a mood with its colour theme;
- a daily quest board and which of its quests the day completes;
- an XP total with the level it reaches on an arithmetic ladder;
- a "boss" that the day's stat trend attacks or heals.

The app has two copies of this engine:

- the web app's `lib/game-engine.ts`;
- the backend's `backend/logic/gameEngine.py`.

Their thresholds, stat amounts and input handling differ. A small third rule, `generate_quests` in `Backend/Logic/character.py`, hands out up to three quests from a stat record.

The project has seven files:

| file | module | contents |
|---|---|---|
| `common.dfy` | `Common` | the records both engines share: stats, effects, quests, XP info, the boss's value view, penalty and calendar event; plus the clamp, the effect-tag helper and the pattern-occurrence predicates the condition keys use |
| `ladder.dfy` | `Ladder` | the XP ladder's threshold function for any base cost and increment; its closed form, monotonicity, and the uniqueness of the level an XP total reaches |
| `quest_policy.dfy` | `QuestPolicy` | the three-pass quest selection, for any pool, weak-stat list and recent-quest list |
| `boss_rules.dfy` | `BossRules` | the boss state machine, as a function on the boss's value view |
| `web_engine.dfy` | `WebEngine` | `lib/game-engine.ts` |
| `backend_engine.dfy` | `BackendEngine` | `backend/logic/gameEngine.py`, with its own constants and its own dictionary-shaped input |
| `character_logic.dfy` | `CharacterLogic` | `generate_quests` of `Backend/Logic/character.py` |

How each kind of source code is modelled:

- The engines' computations without loops are functions over datatypes.
- Code that mutates locals step by step is a method, proved equal to a specification function of its inputs. This covers:
  - the stat arithmetic with its clamp loop;
  - the XP loops;
  - the quest-selection loops;
  - the completion loops;
  - the trend loop.
- The boss record, which `updateBoss` / `update_boss` change in place, is a class per engine. `UpdateBoss` is a method with `modifies`.
- `ProcessDay` updates the caller's carried-over boss in place, as both sources do. Its whole result is stated in terms of its inputs.

## Model

| member | source | states |
|---|---|---|
| Common.Clamp | lib/game-engine.ts:93-95 | the result is `value` inside [lo,hi], `lo` below it and `hi` above it; it always lies in [lo,hi] (`clamp` at backend/logic/gameEngine.py:34-35 is the same) |
| Common.Ids | lib/game-engine.ts:363 | the list of ids has the quests' length, and element i is the id of quest i |
| Common.CalendarBossName | lib/game-engine.ts:344 | the name is the event name followed by exactly " Stress" |
| Ladder.ThresholdClosedForm | lib/game-engine.ts:194-203 | twice the threshold of level L ≥ 1 is (L−1)·(2·base + inc·(L−2)); the induction step, that adding step k+1's cost keeps the closed form, is the helper `ThresholdStepSum` |
| Ladder.ThresholdStrictlyIncreasing | lib/game-engine.ts:194-203 | with base ≥ 1 and inc ≥ 0, the threshold strictly increases from level 1 on |
| Ladder.ThresholdMonotone | lib/game-engine.ts:194-203 | lo ≤ hi implies Threshold(lo) ≤ Threshold(hi) |
| Ladder.LevelMonotone | lib/game-engine.ts:205-207 | a larger XP total never reaches a lower level |
| Ladder.LevelUnique | lib/game-engine.ts:205-207 | an XP total reaches exactly one level |
| Ladder.LevelProgressBounds | lib/game-engine.ts:209-214 | for a non-negative total, the progress in the level is non-negative and below the cost of the next step |
| QuestPolicy.FirstCorrective | lib/game-engine.ts:242-247 | the found quest is in the pool and is an eligible corrective quest for the stat; when none is found, no pool quest qualifies |
| QuestPolicy.FirstPreventive | lib/game-engine.ts:259-264 | the found quest is an eligible preventive quest of the pool; when none is found, no pool quest qualifies |
| QuestPolicy.TakeFour | lib/game-engine.ts:266 | the result is the list's prefix of length min(|s|, 4) |
| QuestPolicy.SelectQuests | lib/game-engine.ts:236-267 | the three loops give exactly `Select(pool, weak, recent)` (python: backend/logic/gameEngine.py:467-512) |
| QuestPolicy.CorrectiveLoop | lib/game-engine.ts:240-248 | the nested loop with early `break` equals `CorrectivePass`: one quest per weak stat, the first that qualifies |
| QuestPolicy.SupportLoop | lib/game-engine.ts:250-256 | the loop equals `SupportPass`: every eligible support quest in pool order, stopping once the selection holds three or more |
| QuestPolicy.PreventiveLoop | lib/game-engine.ts:258-264 | the loop equals `PreventivePass`: the first eligible preventive quest is appended |
| QuestPolicy.GoodAppend | lib/game-engine.ts:243-244 | appending an eligible pool quest keeps the selection good: from the pool, nothing recent, no repeats, every corrective quest aimed at a weak stat |
| QuestPolicy.CorrectivePassGood | lib/game-engine.ts:240-248 | the corrective pass keeps the selection good, adds no preventive quest, and adds at most one quest per weak stat |
| QuestPolicy.SupportPassGood | lib/game-engine.ts:250-256 | the support pass keeps the selection good and preventive-free; it leaves at most three quests, or one more than it got when it got three or more |
| QuestPolicy.PreventivePassGood | lib/game-engine.ts:258-264 | the preventive pass keeps the selection good, leaves at most one preventive quest and adds at most one quest |
| QuestPolicy.PrefixGood | lib/game-engine.ts:266 | cutting a good selection to a prefix keeps it good, with at most one preventive quest |
| QuestPolicy.SelectProperties | lib/game-engine.ts:236-267 | every board has at most four quests, all from the pool, none recent, no repeats, at most one preventive, and each corrective one targets a weak stat |
| QuestPolicy.DefaultBoardOfShape | lib/game-engine.ts:250-266 | in a pool of two corrective, two support and two preventive quests, with no weak stat and no recent quest, the board is the two support quests and then the first preventive quest |
| QuestPolicy.SupportOfShape | lib/game-engine.ts:250-256 | in that pool shape, the support pass picks both support quests and nothing else |
| QuestPolicy.PreventiveOfShape | lib/game-engine.ts:258-264 | in that pool shape, the preventive pass appends the first preventive quest |
| BossRules.Movement | lib/game-engine.ts:310-311 | a stat's movement is −1, 0 or +1 |
| BossRules.TrendOver | lib/game-engine.ts:306-314 | the trend over n stats lies in [−n, n] |
| BossRules.TrendExample | lib/game-engine.ts:306-314 | from (50,50,50) to energy 60, focus 60, resilience 40 the trend is +1 |
| BossRules.BossStep | lib/game-engine.ts:316-333 | one day's step keeps name, type and max hp, and takes one day off. hp becomes clamp(hp + change, 0, max hp), where the change is −30, −10 or +15 for a trend ≥ 1, = 0 or < 0. At 0 hp the boss is defeated and inactive. Otherwise `defeated` is unchanged, and the boss stays active iff it was active and days remain (python: backend/logic/gameEngine.py:633-657) |
| BossRules.BossStepConsistent | lib/game-engine.ts:316-333 | a step keeps an undefeated boss record consistent: hp in [0, max hp], defeated exactly at 0 hp, never both active and defeated |
| BossRules.BossExamples | lib/game-engine.ts:318-330 | 80 hp with a rising trend drops to 50 and stays active; 25 hp with a rising trend is defeated; a boss on its last day with 50 hp escapes, undefeated |
| BossRules.BossFightEnds | lib/game-engine.ts:323-330 | a consistent, undefeated boss given at least max(`daysRemaining`, 1) daily steps ends inactive and consistent: the fight always ends by the deadline |
| WebEngine.ClampInput | lib/game-engine.ts:102-106 | sleep is read in [0,12], screen time in [0,16], stress in [0,5] and water in [0,6]; exercise is unchanged |
| WebEngine.StatsFor | lib/game-engine.ts:99-156 | the day's stats are all in [0,100] |
| WebEngine.StatsForOfSums | lib/game-engine.ts:108-153 | the stats are the clamped sums of the base stats and the six rule groups' amounts |
| WebEngine.CalculateStats | lib/game-engine.ts:99-156 | the method's result equals `StatsFor(input)` and lies in [0,100] |
| WebEngine.ApplyRules | lib/game-engine.ts:108-148 | the sequential `+=`/`-=` updates leave each stat at 50 plus the sum of its six rule groups' amounts |
| WebEngine.StatsIgnoreOutOfRange | lib/game-engine.ts:102-105 | only the clamped readings matter: the stats of an input equal the stats of its clamped input |
| WebEngine.OversleepIsClamped | lib/game-engine.ts:102 | any sleep value of 12 hours or more gives the stats of exactly 12 |
| WebEngine.GoodDayStats | lib/game-engine.ts:108-153 | sleep 8, screen 2, stress 1, water 4 with exercise gives health 65, energy 85, focus 65, resilience 75 |
| Common.Tag | lib/game-engine.ts:163 | a tag list holds the effect exactly when its test holds, once (python: backend/logic/gameEngine.py:156-157) |
| WebEngine.EffectTags | lib/game-engine.ts:163-170 | a stat contributes at most one tag, exactly those of its effects whose test holds |
| WebEngine.DetermineEffects | lib/game-engine.ts:160-173 | an effect is reported iff its threshold holds: fatigue at energy < 40, high energy at ≥ 65, low focus < 40, high focus ≥ 60, burnout risk at health < 40, good health ≥ 60, low resilience < 40, high resilience ≥ 60 |
| WebEngine.EffectsShape | lib/game-engine.ts:160-173 | no effect repeats, at most four are reported, and no stat reports both its low and its high tag |
| WebEngine.DetermineCharacterState | lib/game-engine.ts:177-190 | priority rules: stressed iff low resilience or burnout risk; tired iff not stressed and fatigued; energetic iff neither and both high energy and high focus; otherwise normal. The theme is rain, night, sunny or normal to match |
| WebEngine.MoodOfStats | lib/game-engine.ts:160-190 | the mood read off the stats: stressed iff resilience or health < 40; tired iff not and energy < 40; energetic iff neither and energy ≥ 65 and focus ≥ 60 |
| WebEngine.GoodDayMood | lib/game-engine.ts:160-190 | the good day above reports high energy, high focus, good health and high resilience, in that order, and is energetic and sunny |
| WebEngine.XpRequiredForLevel | lib/game-engine.ts:194-203 | the accumulating loop returns the ladder threshold with base 100 and increment 40 |
| WebEngine.XpThresholdClosedForm | lib/game-engine.ts:194-203 | the XP to reach level L ≥ 1 is 20·(L−1)·(L+3) |
| WebEngine.XpThresholdValues | lib/game-engine.ts:194-203 | levels 1, 2, 3, 4 need 0, 100, 240, 420 XP |
| WebEngine.CalculateLevelFromXp | lib/game-engine.ts:205-215 | the level is the unique one whose threshold is reached and whose successor's is not (level 1 for totals below 100). The info echoes the total, gives the next level's threshold and the progress above the current one |
| WebEngine.LevelExamples | lib/game-engine.ts:205-215 | 0 XP is level 1 with 100 to go; 100 XP is level 2 with 0 progress and 240 for the next |
| WebEngine.DetectWeakStats | lib/game-engine.ts:228-234 | reports exactly the stats among energy, focus and resilience that are below 45, in that order, without repeats |
| WebEngine.GenerateDailyQuests | lib/game-engine.ts:236-267 | the board is `Select` over this engine's six-quest pool with its weak stats and the recent ids |
| WebEngine.QuestBoardProperties | lib/game-engine.ts:236-267 | the web board has at most four quests, all from the pool, none recent, no repeats, at most one preventive, and each corrective one targets a stat below 45 |
| WebEngine.DefaultQuestBoard | lib/game-engine.ts:219-267 | with no stat below 45 and no recent quest, the board is water_3l, breathing_10min, short_walk |
| WebEngine.RemoveFirst | lib/game-engine.ts:283 | removing a pattern never lengthens the string |
| WebEngine.RemoveFirstAbsent | lib/game-engine.ts:283 | a string without the pattern comes back unchanged |
| WebEngine.RemoveFirstAtFirst | lib/game-engine.ts:283 | exactly the leftmost occurrence is cut out: the result is `s[..i] + s[i+|p|..]` for the least match index i |
| WebEngine.DoubleMaxKey | lib/game-engine.ts:283 | "a_max_max" becomes "a_max": only the first "_max" goes |
| WebEngine.RemoveFirstSkip | lib/game-engine.ts:283 | a string that does not start with the pattern keeps its first character |
| WebEngine.RemoveMaxSuffix | lib/game-engine.ts:282-283 | a field name with no 'x' plus "_max" ends with "_max", and removing the first "_max" gives the field name back |
| WebEngine.CompletedQuestsAppend | lib/game-engine.ts:273-295 | the completed quests of a concatenation are the concatenation of the completed quests |
| WebEngine.CompletedSingle | lib/game-engine.ts:274-294 | a one-quest board completes that quest iff it is done |
| WebEngine.CompletedQuestsSpec | lib/game-engine.ts:269-298 | the completed list is an order-preserving subsequence of the board, holding exactly the board's done quests |
| WebEngine.ConditionMet | lib/game-engine.ts:280-289 | the flag stays true iff every condition entry passes: a "_max" entry caps the field and any other is a minimum; an undefined field never fails |
| WebEngine.CheckQuestCompletion | lib/game-engine.ts:269-298 | returns exactly the completed quests of the board and the sum of their XP. A manual quest counts iff its id was marked. An input quest counts iff it has a condition and every entry passes |
| WebEngine.SleepQuestDone | lib/game-engine.ts:220 | sleep_7h is done iff the raw sleep hours are at least 7 |
| WebEngine.ScreenKey | lib/game-engine.ts:282-283 | "screen_time_max" is a cap on "screen_time" |
| WebEngine.ScreenEntry | lib/game-engine.ts:282-284 | the entry screen_time_max 4 passes iff screen time is at most 4 |
| WebEngine.ScreenField | lib/game-engine.ts:283-284 | the "screen_time" lookup reads the input's screen time |
| WebEngine.ScreenQuestDone | lib/game-engine.ts:221 | screen_under_4h is done iff screen time is at most 4 |
| WebEngine.WaterQuestDone | lib/game-engine.ts:222 | water_3l is done iff water intake is at least 3 |
| WebEngine.ManualQuestsDone | lib/game-engine.ts:274-278 | a manual pool quest is done iff its id was marked |
| WebEngine.Boss.constructor | lib/game-engine.ts:302-304 | a new boss has 100 of 100 hp, the given days, and is active and undefeated |
| WebEngine.CalculateStatTrend | lib/game-engine.ts:306-314 | the loop returns the trend over energy, focus and resilience, which lies in [−3,3] |
| WebEngine.UpdateBoss | lib/game-engine.ts:316-333 | changes the given boss in place to `BossStep` of its old view under the day's trend, and returns the same object |
| WebEngine.BossFailurePenalty | lib/game-engine.ts:335-340 | a penalty exists iff the boss is undefeated and out of days, and it is then "demotivated", 5, 5, 1 day |
| WebEngine.PenaltyIffEscaped | lib/game-engine.ts:316-340 | after a day's step of a consistent active boss, a penalty is due iff the boss ended inactive without being defeated |
| WebEngine.CheckCalendarEvent | lib/game-engine.ts:342-347 | a boss appears iff the event is at most 3 days away. It is then fresh, named "<event> Stress", calendar-typed, with 100 hp and the event's days left |
| WebEngine.QuestsOfDay | lib/game-engine.ts:370-374 | the board is the selection for the day's weak stats and recent ids, the completed quests are its done ones, and the XP info is that of the old total plus their XP |
| WebEngine.BossOfDay | lib/game-engine.ts:376-385 | see the boss cases of `ProcessDay` |
| WebEngine.ProcessDay | lib/game-engine.ts:359-396 | stats, effects and mood of the day; the quest step as in `QuestsOfDay`. A carried-over active boss is stepped in place by the trend from the previous stats and judged for the penalty; an inactive one is untouched with no penalty. With no boss carried over, an event at most 3 days away creates a fresh calendar boss, stepped the same day; otherwise there is no boss and no penalty |
| BackendEngine.ReadInput | backend/logic/gameEngine.py:44-56 | each reading is `get(key, 0)` clamped to its range (sleep [0,12], screen [0,16], stress [0,5], water [0,6]); exercise is true iff its value is non-zero |
| BackendEngine.StatsFor | backend/logic/gameEngine.py:38-115 | the day's stats are all in [0,100] |
| BackendEngine.StatsForOfSums | backend/logic/gameEngine.py:58-113 | the stats are the clamped sums of the base stats and this engine's six rule groups |
| BackendEngine.CalculateStats | backend/logic/gameEngine.py:38-115 | the method's result equals `StatsFor(input)` and lies in [0,100] |
| BackendEngine.ApplyRules | backend/logic/gameEngine.py:58-107 | the sequential updates leave each stat at 50 plus its six rule amounts |
| BackendEngine.EmptyInputStats | backend/logic/gameEngine.py:44-113 | an empty dictionary (sleep 0, water 0) gives health 50, energy 30, focus 50, resilience 50 |
| BackendEngine.ExtraKeysIgnored | backend/logic/gameEngine.py:44-56 | a key other than the five inputs never changes the stats |
| BackendEngine.OversleepIsClamped | backend/logic/gameEngine.py:44-45 | a sleep of 12 hours or more gives the stats of exactly 12 |
| BackendEngine.EffectTags | backend/logic/gameEngine.py:155-181 | a stat contributes at most one tag, exactly those whose test holds |
| BackendEngine.DetermineEffects | backend/logic/gameEngine.py:144-183 | an effect is reported iff its threshold holds: below 40 for the four low tags, above 70 for the four high tags |
| BackendEngine.EffectsShape | backend/logic/gameEngine.py:144-183 | no repeats, at most four effects, never both tags of one stat |
| BackendEngine.MidBandNoTag | backend/logic/gameEngine.py:156-181 | a stat in [40,70], 70 included, yields neither of its tags |
| BackendEngine.DetermineCharacterState | backend/logic/gameEngine.py:284-333 | the same priority rules as the web engine: stressed, tired, energetic, else normal, with matching themes. The explicit healthy-normal test and the fallback both give normal |
| BackendEngine.MoodOfStats | backend/logic/gameEngine.py:144-333 | stressed iff resilience or health < 40; tired iff not and energy < 40; energetic iff neither and energy > 70 and focus > 70 |
| BackendEngine.StressedSampleDay | backend/logic/gameEngine.py:123-132 | sleep 6, screen 8, no exercise, stress 4, water 2 gives (45, 50, 30, 50), only low focus, and a normal mood |
| BackendEngine.ActiveSampleDay | backend/logic/gameEngine.py:813-819 | sleep 7, screen 3, exercise, stress 2, water 3 gives (60, 70, 55, 60), no effects, and a normal mood |
| BackendEngine.XpRequiredForLevel | backend/logic/gameEngine.py:219-238 | the loop returns the ladder threshold with base 100 and increment 40 |
| BackendEngine.XpThresholdValues | backend/logic/gameEngine.py:220-229 | levels 1 to 4 need 0, 100, 240, 420 XP, and every level ≤ 1 needs 0 |
| BackendEngine.CalculateLevelFromXp | backend/logic/gameEngine.py:241-259 | the unique level reached by the total, the next level's threshold, and the progress inside the level |
| BackendEngine.DetectWeakStats | backend/logic/gameEngine.py:450-460 | exactly the stats among energy, focus, resilience below 40, in that order, without repeats |
| BackendEngine.OrEmpty | backend/logic/gameEngine.py:473 | `x or []`: None reads as the empty list, a list as itself |
| BackendEngine.GenerateDailyQuests | backend/logic/gameEngine.py:467-512 | the board is `Select` over this engine's pool with its weak stats and the recent ids (none reads as empty); every input quest on it carries a condition |
| BackendEngine.QuestBoardProperties | backend/logic/gameEngine.py:467-512 | at most four quests, all from the pool, none recent, no repeats, at most one preventive, each corrective one aimed at a stat below 40 |
| BackendEngine.DefaultQuestBoard | backend/logic/gameEngine.py:375-512 | with no stat below 40 and no recent list, the board is water_3l, breathing_10min, short_walk |
| BackendEngine.RemoveAll | backend/logic/gameEngine.py:541 | `str.replace(p, "")` never lengthens the string |
| BackendEngine.RemoveAllAbsent | backend/logic/gameEngine.py:541 | a string without the pattern comes back unchanged |
| BackendEngine.RemoveAllAtFirst | backend/logic/gameEngine.py:541 | for the least match index i, the result is `s[..i]` followed by the removal applied again to what follows that occurrence: every non-overlapping occurrence, left to right, goes |
| BackendEngine.DoubleMaxKey | backend/logic/gameEngine.py:541 | "a_max_max" becomes "a": every "_max" goes |
| BackendEngine.RemoveAllSkip | backend/logic/gameEngine.py:541 | a string not starting with the pattern keeps its first character |
| BackendEngine.RemoveMaxSuffix | backend/logic/gameEngine.py:540-541 | a field name with no 'x' plus "_max" ends with "_max", and removing every "_max" gives the field name back |
| BackendEngine.CompletedQuestsAppend | backend/logic/gameEngine.py:529-550 | completion distributes over concatenation |
| BackendEngine.CompletedSingle | backend/logic/gameEngine.py:530-550 | a one-quest board completes that quest iff it is done |
| BackendEngine.CompletedQuestsSpec | backend/logic/gameEngine.py:519-555 | the completed list is an order-preserving subsequence of the board holding exactly its done quests |
| BackendEngine.ConditionMet | backend/logic/gameEngine.py:537-546 | the flag stays true iff every entry passes, a missing key reading as 0: a "_max" entry caps the field, any other is a minimum |
| BackendEngine.CheckQuestCompletion | backend/logic/gameEngine.py:519-555 | on a board whose input quests carry conditions: exactly the completed quests and the sum of their XP, with no completions list read as empty |
| BackendEngine.PoolConditionsPresent | backend/logic/gameEngine.py:375-444 | every input quest of the pool carries a condition |
| BackendEngine.BoardConditionsPresent | backend/logic/gameEngine.py:467-512 | so does every input quest on any board generated from the pool |
| BackendEngine.SleepQuestDone | backend/logic/gameEngine.py:382 | sleep_7h is done iff the raw sleep value is at least 7; never without the key |
| BackendEngine.ScreenKey | backend/logic/gameEngine.py:540-541 | "screen_time_max" is a cap on "screen_time" |
| BackendEngine.ScreenQuestDone | backend/logic/gameEngine.py:394 | screen_under_4h is done iff the screen value is at most 4; always done without the key |
| BackendEngine.WaterQuestDone | backend/logic/gameEngine.py:406 | water_3l is done iff water intake is at least 3; never without the key |
| BackendEngine.ManualQuestsDone | backend/logic/gameEngine.py:530-533 | a manual pool quest is done iff its id was marked |
| BackendEngine.Boss.constructor | backend/logic/gameEngine.py:595-604 | a new boss has 100 of 100 hp, the given days, and is active and undefeated |
| BackendEngine.CalculateStatTrend | backend/logic/gameEngine.py:611-626 | the loop returns the trend over energy, focus, resilience, in [−3,3] |
| BackendEngine.UpdateBoss | backend/logic/gameEngine.py:633-657 | changes the given boss in place to `BossStep` of its old view, and returns the same object |
| BackendEngine.BossFailurePenalty | backend/logic/gameEngine.py:664-672 | a penalty exists iff undefeated and out of days, and it is then "demotivated", 5, 5, 1 |
| BackendEngine.PenaltyIffEscaped | backend/logic/gameEngine.py:633-672 | after a step of a consistent active boss, a penalty is due iff it ended inactive and undefeated |
| BackendEngine.CheckCalendarEvent | backend/logic/gameEngine.py:679-695 | a fresh calendar boss "<event> Stress" with 100 hp and the event's days left appears iff the event is at most 3 days away |
| BackendEngine.StatsOfDay | backend/logic/gameEngine.py:744-750 | the day's stats, their effects and the character state they give |
| BackendEngine.QuestsOfDay | backend/logic/gameEngine.py:755-766 | the board, its completed quests and the XP info of the raised total |
| BackendEngine.BossOfDay | backend/logic/gameEngine.py:771-782 | see the boss cases of `ProcessDay` |
| BackendEngine.ProcessDay | backend/logic/gameEngine.py:725-798 | the whole day, with the same cases as the web engine's `ProcessDay`. Missing previous stats read as the base stats and a missing XP total as 0 |
| CharacterLogic.Reading | Backend/Logic/character.py:30-32 | a reading is `get(key, 100)` clamped to [0,100] |
| CharacterLogic.GenerateQuests | Backend/Logic/character.py:27-49 | never empty, at most three quests. q1 iff clamped energy < 30; q2 iff clamped health < 50; q3 iff clamped focus > 80. q4 iff none of them, and then alone. Otherwise the quests come in the order q1, q2, q3 |
| CharacterLogic.OrderedPicks | Backend/Logic/character.py:37-44 | the three optional appends leave a subsequence of [q1, q2, q3] |
| CharacterLogic.EmptyRecordReadings | Backend/Logic/character.py:30-44 | an empty record reads 100 everywhere, so it calls for no corrective quest but does call for the deep-work sprint |
| CharacterLogic.OutOfRangeClamped | Backend/Logic/character.py:28-32 | negative energy acts as 0 (nap) and focus above 100 as 100 (deep work) |
| CharacterLogic.ThresholdsAreStrict | Backend/Logic/character.py:37-44 | energy 30, health 50 and focus 80 trigger none of the three quests |

## Left out

- The `Boss` classes and `ProcessDay`: in each engine the boss record is a class, since the source changes it in place. What a boss record aliases beyond the one carried-over object is not modelled.
- Floating-point input: all inputs are modelled as integers. Sleep hours, screen time and water intake may be fractional in both sources.
- `BackendEngine`'s input is a dictionary mapping strings to integers. A Python value that is not a number, and Python truthiness beyond "non-zero", are not modelled; `exercise` is true iff its value is non-zero.
- `BackendEngine.CheckQuestCompletion`: requires every input quest on the board to carry a condition. Python raises `KeyError` at `quest["condition"]` otherwise. `BoardConditionsPresent` proves that every board generated from the pool meets this.
- Python's `KeyError` for a previous-stats record missing a tracked stat is not modelled: stats are always full records.
- An empty dictionary or list passed where Python expects `None` is not modelled. `or` would treat it as absent (`x or []`, `calendar_event and ...`, `previous_state.get(...)`). Absence is an `Option`, a `null` boss or an empty list.
- `WebEngine.ProcessDay` and `BackendEngine.ProcessDay` receive the previous XP total as an `Option`. The TypeScript `total_xp || 0` also maps 0 to 0, which changes nothing.
- `BackendEngine.ProcessDay` takes the boss step before the quest step, while the source takes the quest step first. The two steps read and write disjoint data, so the result is the same.
- The web engine's optional parameters (`recentQuests = []`, `manualCompletions = []`, `createBoss`'s defaults) are explicit arguments, except that the boss constructor keeps the defaults.
- The quest `cooldown` field is carried in the records but never read, as in both sources.
- The Python constants `BOSS_TRIGGER_DAYS`, `XP_DAILY_LOG` and `XP_QUEST_COMPLETION` are declared but never read, so they are not modelled. The calendar boss appears at 3 days or fewer, as in both engines' code.
- Python's module-level test block at the end of `backend/logic/gameEngine.py` is not part of this model. It refers to an undefined `_name_`, so it raises when the module is imported. The full-day input it uses appears in `ActiveSampleDay`.
- The other commented-out test runs in that file are not part of this model, apart from the stat sample in `StressedSampleDay`.
- The web app's pages, `lib/store.ts` (local storage), the Flask routes and the database seeding are not part of this model. They are I/O and presentation.
- Object-key order and the JSON shape of results are not modelled. A condition is a sequence of (key, threshold) entries in the record's order; results are datatypes.

## Notes on the code

- Both engines return every generated quest as active and list the completed ones separately.
- For sleep 8, screen 2, stress 1, water 4 with exercise, the web engine's rules give health 65, energy 85, focus 65 and resilience 75 (`WebEngine.GoodDayStats`).
- The two engines differ:

  | rule | web engine | backend engine |
  |---|---|---|
  | high-effect threshold | ≥ 65 for energy, ≥ 60 for the other stats | > 70 |
  | weak-stat bound | 45 | 40 |
  | "_max" removal | first occurrence (JavaScript `replace`; `WebEngine.DoubleMaxKey`) | every occurrence (Python `replace`; `BackendEngine.DoubleMaxKey`) |
  | undefined input field in a condition | never fails (JavaScript compares `undefined` as false) | reads as 0 |

- Their stat amounts differ as well.
- The title of `plan_day` uses an ASCII apostrophe in the web engine and U+2019 in the backend.
- A calendar boss created by `processDay` is active, so it is stepped on the day it appears.
