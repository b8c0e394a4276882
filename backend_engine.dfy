/**
 * The backend's rules engine (backend/logic/gameEngine.py): the same
 * pipeline as the web engine but with its own constants.  The day's input
 * is a dictionary; a missing key reads as 0 (exercise as false).
 */
module BackendEngine {
  import opened Common
  import Ladder
  import QuestPolicy
  import opened BossRules

  /** The day's input dictionary, each value read as an integer (a boolean
      as 0 or 1). */
  type InputDict = map<string, int>

  /** daily_input.get(key, 0). */
  function Get(input: InputDict, key: string): int {
    if key in input then input[key] else 0
  }

  // ---------------------------------------------------------------------
  // Stat calculation
  // ---------------------------------------------------------------------

  /** The five readings the rule bands use, each clamped to its range. */
  datatype Readings = Readings(sleep: int, screen: int, stress: int, water: int, exercise: bool)

  /** Read each key with default 0 and clamp: sleep to [0,12], screen time
      to [0,16], stress to [0,5], water to [0,6]; exercise is the value's
      truth. */
  function ReadInput(input: InputDict): (r: Readings)
    ensures 0 <= r.sleep <= 12 && 0 <= r.screen <= 16 && 0 <= r.stress <= 5 && 0 <= r.water <= 6
    ensures r.exercise <==> Get(input, "exercise") != 0
    ensures 0 <= Get(input, "sleep_hours") <= 12 ==> r.sleep == Get(input, "sleep_hours")
  {
    Readings(
      Clamp(Get(input, "sleep_hours"), 0, 12),
      Clamp(Get(input, "screen_time"), 0, 16),
      Clamp(Get(input, "stress_level"), 0, 5),
      Clamp(Get(input, "water_intake"), 0, 6),
      Get(input, "exercise") != 0)
  }

  /** The amounts one rule group adds to each stat. */
  datatype Delta = Delta(health: int, energy: int, focus: int, resilience: int)

  const NO_CHANGE := Delta(0, 0, 0, 0)

  function SleepRule(sleep: int): Delta {
    if 7 <= sleep <= 9 then Delta(0, 10, 5, 0)
    else if sleep < 5 then Delta(0, -15, -10, 0)
    else if sleep > 10 then Delta(0, -5, 0, 0)
    else NO_CHANGE
  }

  /** Under an hour helps, over four hours hurts, anything between is
      neutral. */
  function ScreenRule(screen: int): Delta {
    if screen < 1 then Delta(0, 0, 10, 0)
    else if screen > 4 then Delta(0, 0, -10, 0)
    else NO_CHANGE
  }

  function ExerciseRule(exercise: bool): Delta {
    if exercise then Delta(10, 5, 0, 0) else NO_CHANGE
  }

  function StressRule(stress: int): Delta {
    if stress >= 4 then Delta(-5, 0, -10, 0) else NO_CHANGE
  }

  /** The two cross rules on resilience. */
  function ResilienceRule(sleep: int, stress: int, exercise: bool): Delta {
    Delta(0, 0, 0,
      (if sleep >= 7 && exercise then 10 else 0) + (if stress >= 4 && sleep < 6 then -10 else 0))
  }

  function WaterRule(water: int): Delta {
    if water < 2 then Delta(0, -5, 0, 0)
    else if water >= 3 then Delta(0, 5, 0, 0)
    else NO_CHANGE
  }

  /** The sum of the six rule groups' contributions for the readings. */
  function RuleTotal(c: Readings): Delta {
    var d1 := SleepRule(c.sleep);
    var d2 := ScreenRule(c.screen);
    var d3 := ExerciseRule(c.exercise);
    var d4 := StressRule(c.stress);
    var d5 := ResilienceRule(c.sleep, c.stress, c.exercise);
    var d6 := WaterRule(c.water);
    Delta(
      d1.health + d2.health + d3.health + d4.health + d5.health + d6.health,
      d1.energy + d2.energy + d3.energy + d4.energy + d5.energy + d6.energy,
      d1.focus + d2.focus + d3.focus + d4.focus + d5.focus + d6.focus,
      d1.resilience + d2.resilience + d3.resilience + d4.resilience + d5.resilience + d6.resilience)
  }

  /** The day's stats: the baseline plus every rule group's contribution on
      the readings, each stat then clamped to [0,100]. */
  function StatsFor(input: InputDict): (s: Stats)
    ensures InStatRange(s)
  {
    var d := RuleTotal(ReadInput(input));
    Stats(
      Clamp(BASE_STATS.health + d.health, STAT_MIN, STAT_MAX),
      Clamp(BASE_STATS.energy + d.energy, STAT_MIN, STAT_MAX),
      Clamp(BASE_STATS.focus + d.focus, STAT_MIN, STAT_MAX),
      Clamp(BASE_STATS.resilience + d.resilience, STAT_MIN, STAT_MAX))
  }

  lemma StatsForOfSums(input: InputDict, health: int, energy: int, focus: int, resilience: int)
    requires var c := ReadInput(input);
      var d1 := SleepRule(c.sleep);
      var d2 := ScreenRule(c.screen);
      var d3 := ExerciseRule(c.exercise);
      var d4 := StressRule(c.stress);
      var d5 := ResilienceRule(c.sleep, c.stress, c.exercise);
      var d6 := WaterRule(c.water);
      && health == BASE_STATS.health + d1.health + d2.health + d3.health + d4.health + d5.health + d6.health
      && energy == BASE_STATS.energy + d1.energy + d2.energy + d3.energy + d4.energy + d5.energy + d6.energy
      && focus == BASE_STATS.focus + d1.focus + d2.focus + d3.focus + d4.focus + d5.focus + d6.focus
      && resilience == BASE_STATS.resilience + d1.resilience + d2.resilience + d3.resilience + d4.resilience + d5.resilience + d6.resilience
    ensures StatsFor(input) == Stats(Clamp(health, STAT_MIN, STAT_MAX), Clamp(energy, STAT_MIN, STAT_MAX),
                                     Clamp(focus, STAT_MIN, STAT_MAX), Clamp(resilience, STAT_MIN, STAT_MAX))
  {
  }

  /** calculate_stats: applies the rule groups to a copy of the baseline,
      then clamps every stat in a loop over the keys. */
  method CalculateStats(dailyInput: InputDict) returns (stats: Stats)
    ensures stats == StatsFor(dailyInput)
    ensures InStatRange(stats)
  {
    var health, energy, focus, resilience := ApplyRules(dailyInput);
    StatsForOfSums(dailyInput, health, energy, focus, resilience);

    // Clamp all stats
    var values := [health, energy, focus, resilience];
    ghost var raw := values;
    for k := 0 to |values|
      invariant |values| == |raw|
      invariant forall j :: 0 <= j < k ==> values[j] == Clamp(raw[j], STAT_MIN, STAT_MAX)
      invariant forall j :: k <= j < |values| ==> values[j] == raw[j]
    {
      values := values[k := Clamp(values[k], STAT_MIN, STAT_MAX)];
    }
    stats := Stats(values[0], values[1], values[2], values[3]);
  }

  /** The rule-by-rule part of calculate_stats, yielding the raw
      (unclamped) stats. */
  method ApplyRules(dailyInput: InputDict) returns (health: int, energy: int, focus: int, resilience: int)
    ensures var c := ReadInput(dailyInput);
      var d1 := SleepRule(c.sleep);
      var d2 := ScreenRule(c.screen);
      var d3 := ExerciseRule(c.exercise);
      var d4 := StressRule(c.stress);
      var d5 := ResilienceRule(c.sleep, c.stress, c.exercise);
      var d6 := WaterRule(c.water);
      && health == BASE_STATS.health + d1.health + d2.health + d3.health + d4.health + d5.health + d6.health
      && energy == BASE_STATS.energy + d1.energy + d2.energy + d3.energy + d4.energy + d5.energy + d6.energy
      && focus == BASE_STATS.focus + d1.focus + d2.focus + d3.focus + d4.focus + d5.focus + d6.focus
      && resilience == BASE_STATS.resilience + d1.resilience + d2.resilience + d3.resilience + d4.resilience + d5.resilience + d6.resilience
  {
    health, energy, focus, resilience := BASE_STATS.health, BASE_STATS.energy, BASE_STATS.focus, BASE_STATS.resilience;

    var sleep := Get(dailyInput, "sleep_hours");
    sleep := Clamp(sleep, 0, 12);
    var screenTime := Get(dailyInput, "screen_time");
    screenTime := Clamp(screenTime, 0, 16);
    var stress := Get(dailyInput, "stress_level");
    stress := Clamp(stress, 0, 5);
    var water := Get(dailyInput, "water_intake");
    water := Clamp(water, 0, 6);
    var exercise := Get(dailyInput, "exercise") != 0;
    ghost var h0, e0, f0, r0 := health, energy, focus, resilience;

    // Sleep
    if 7 <= sleep <= 9 {
      energy := energy + 10;
      focus := focus + 5;
    } else if sleep < 5 {
      energy := energy - 15;
      focus := focus - 10;
    } else if sleep > 10 {
      energy := energy - 5;
    }

    assert health == h0 + SleepRule(sleep).health && energy == e0 + SleepRule(sleep).energy;
    assert focus == f0 + SleepRule(sleep).focus && resilience == r0 + SleepRule(sleep).resilience;
    h0, e0, f0, r0 := health, energy, focus, resilience;

    // Screen time
    if screenTime < 1 {
      focus := focus + 10;
    } else if screenTime > 4 {
      focus := focus - 10;
    }

    assert health == h0 + ScreenRule(screenTime).health && energy == e0 + ScreenRule(screenTime).energy;
    assert focus == f0 + ScreenRule(screenTime).focus && resilience == r0 + ScreenRule(screenTime).resilience;
    h0, e0, f0, r0 := health, energy, focus, resilience;

    // Exercise
    if exercise {
      health := health + 10;
      energy := energy + 5;
    }

    assert health == h0 + ExerciseRule(exercise).health && energy == e0 + ExerciseRule(exercise).energy;
    assert focus == f0 + ExerciseRule(exercise).focus && resilience == r0 + ExerciseRule(exercise).resilience;
    h0, e0, f0, r0 := health, energy, focus, resilience;

    // Stress
    if stress >= 4 {
      focus := focus - 10;
      health := health - 5;
    }

    assert health == h0 + StressRule(stress).health && energy == e0 + StressRule(stress).energy;
    assert focus == f0 + StressRule(stress).focus && resilience == r0 + StressRule(stress).resilience;
    h0, e0, f0, r0 := health, energy, focus, resilience;

    // Resilience
    if sleep >= 7 && exercise {
      resilience := resilience + 10;
    }
    if stress >= 4 && sleep < 6 {
      resilience := resilience - 10;
    }

    assert health == h0 + ResilienceRule(sleep, stress, exercise).health && energy == e0 + ResilienceRule(sleep, stress, exercise).energy;
    assert focus == f0 + ResilienceRule(sleep, stress, exercise).focus && resilience == r0 + ResilienceRule(sleep, stress, exercise).resilience;
    h0, e0, f0, r0 := health, energy, focus, resilience;

    // Water intake
    if water < 2 {
      energy := energy - 5;
    } else if water >= 3 {
      energy := energy + 5;
    }

    assert health == h0 + WaterRule(water).health && energy == e0 + WaterRule(water).energy;
    assert focus == f0 + WaterRule(water).focus && resilience == r0 + WaterRule(water).resilience;
  }

  /** An empty input reads every key as 0: no sleep and no water cost 20
      energy, no screen time makes up for the focus no sleep costs. */
  lemma EmptyInputStats()
    ensures StatsFor(map[]) == Stats(50, 30, 50, 50)
  {
    assert ReadInput(map[]) == Readings(0, 0, 0, 0, false);
  }

  /** Keys other than the five the rules read change nothing. */
  lemma ExtraKeysIgnored(input: InputDict, key: string, value: int)
    requires key !in ["sleep_hours", "screen_time", "stress_level", "water_intake", "exercise"]
    ensures StatsFor(input[key := value]) == StatsFor(input)
  {
    assert ReadInput(input[key := value]) == ReadInput(input);
  }

  /** Out-of-range values are clamped, never rejected: 20 hours of sleep
      count exactly as 12 do. */
  lemma OversleepIsClamped(input: InputDict)
    requires Get(input, "sleep_hours") >= 12
    ensures StatsFor(input) == StatsFor(input["sleep_hours" := 12])
  {
    assert ReadInput(input) == ReadInput(input["sleep_hours" := 12]);
  }

  // ---------------------------------------------------------------------
  // Effects and character state
  // ---------------------------------------------------------------------

  /** Strict thresholds: below 40 is low, above 70 is high. */
  predicate Triggered(stats: Stats, e: Effect) {
    match e
    case Fatigue => stats.energy < 40
    case HighEnergy => stats.energy > 70
    case LowFocus => stats.focus < 40
    case HighFocus => stats.focus > 70
    case BurnoutRisk => stats.health < 40
    case GoodHealth => stats.health > 70
    case LowResilience => stats.resilience < 40
    case HighResilience => stats.resilience > 70
  }

  /** The tags one stat contributes: its low tag, then its high tag. */
  function EffectTags(stats: Stats, n: StatName): (r: seq<Effect>)
    ensures |r| <= 1
    ensures forall e :: e in r <==> StatOf(e) == n && Triggered(stats, e)
  {
    match n
    case Energy => Tag(stats.energy < 40, Fatigue) + Tag(stats.energy > 70, HighEnergy)
    case Focus => Tag(stats.focus < 40, LowFocus) + Tag(stats.focus > 70, HighFocus)
    case Health => Tag(stats.health < 40, BurnoutRisk) + Tag(stats.health > 70, GoodHealth)
    case Resilience => Tag(stats.resilience < 40, LowResilience) + Tag(stats.resilience > 70, HighResilience)
  }

  /** determine_effects: an effect is reported exactly when its threshold
      test holds. */
  function DetermineEffects(stats: Stats): (effects: seq<Effect>)
    ensures forall e :: e in effects <==> Triggered(stats, e)
  {
    EffectTags(stats, Energy) + EffectTags(stats, Focus) + EffectTags(stats, Health) + EffectTags(stats, Resilience)
  }

  /** Each effect is reported at most once, at most one of each stat's
      low/high pair, so at most four in all. */
  lemma EffectsShape(stats: Stats)
    ensures NoDuplicates(DetermineEffects(stats))
    ensures |DetermineEffects(stats)| <= 4
    ensures !(Fatigue in DetermineEffects(stats) && HighEnergy in DetermineEffects(stats))
    ensures !(LowFocus in DetermineEffects(stats) && HighFocus in DetermineEffects(stats))
    ensures !(BurnoutRisk in DetermineEffects(stats) && GoodHealth in DetermineEffects(stats))
    ensures !(LowResilience in DetermineEffects(stats) && HighResilience in DetermineEffects(stats))
  {
    var energy, focus, health, resilience :=
      EffectTags(stats, Energy), EffectTags(stats, Focus), EffectTags(stats, Health), EffectTags(stats, Resilience);
    NoDuplicatesConcat(energy, focus);
    NoDuplicatesConcat(energy + focus, health);
    NoDuplicatesConcat(energy + focus + health, resilience);
  }

  /** A stat anywhere in [40,70], 70 included, yields neither of its tags. */
  lemma MidBandNoTag(stats: Stats, n: StatName)
    requires 40 <= StatValue(stats, n) <= 70
    ensures forall e :: StatOf(e) == n ==> e !in DetermineEffects(stats)
  {
  }

  /** determine_character_state: first match in priority order.  Its last
      explicit test (no effects, or only good_health and high_resilience)
      and its fallback both give "normal". */
  function DetermineCharacterState(stats: Stats, effects: seq<Effect>): (c: CharacterState)
    ensures c.mood == Stressed <==> LowResilience in effects || BurnoutRisk in effects
    ensures c.mood == Tired <==> !(LowResilience in effects || BurnoutRisk in effects) && Fatigue in effects
    ensures c.mood == Energetic <==>
      !(LowResilience in effects || BurnoutRisk in effects) && Fatigue !in effects
      && HighEnergy in effects && HighFocus in effects
    ensures c.theme == match c.mood
      case Stressed => Rain case Tired => Night case Energetic => Sunny case Normal => NormalTheme
  {
    if LowResilience in effects || BurnoutRisk in effects then CharacterState(Stressed, Rain)
    else if Fatigue in effects then CharacterState(Tired, Night)
    else if HighEnergy in effects && HighFocus in effects then CharacterState(Energetic, Sunny)
    else if effects == [] || (forall e :: e in effects ==> e == GoodHealth || e == HighResilience) then
      CharacterState(Normal, NormalTheme)
    else CharacterState(Normal, NormalTheme)
  }

  /** The mood of the day, read straight off the stats. */
  lemma MoodOfStats(stats: Stats)
    ensures var c := DetermineCharacterState(stats, DetermineEffects(stats));
      && (c.mood == Stressed <==> stats.resilience < 40 || stats.health < 40)
      && (c.mood == Tired <==> stats.resilience >= 40 && stats.health >= 40 && stats.energy < 40)
      && (c.mood == Energetic <==> stats.resilience >= 40 && stats.health >= 40 && stats.energy > 70 && stats.focus > 70)
  {
  }

  /** The sample day of sleep 6, screen 8, stress 4 and water 2 without
      exercise is low in focus only. */
  lemma StressedSampleDay()
    ensures var s := StatsFor(map["sleep_hours" := 6, "screen_time" := 8, "exercise" := 0, "stress_level" := 4, "water_intake" := 2]);
      && s == Stats(45, 50, 30, 50)
      && DetermineEffects(s) == [LowFocus]
      && DetermineCharacterState(s, DetermineEffects(s)).mood == Normal
  {
    var a := map["sleep_hours" := 6, "screen_time" := 8, "exercise" := 0, "stress_level" := 4, "water_intake" := 2];
    assert ReadInput(a) == Readings(6, 8, 4, 2, false);
  }

  /** The sample day of sleep 7, screen 3, stress 2 and water 3 with
      exercise reaches exactly 70 energy, which is not high: no effect. */
  lemma ActiveSampleDay()
    ensures var s := StatsFor(map["sleep_hours" := 7, "screen_time" := 3, "exercise" := 1, "stress_level" := 2, "water_intake" := 3]);
      && s == Stats(60, 70, 55, 60)
      && DetermineEffects(s) == []
      && DetermineCharacterState(s, DetermineEffects(s)).mood == Normal
  {
    var b := map["sleep_hours" := 7, "screen_time" := 3, "exercise" := 1, "stress_level" := 2, "water_intake" := 3];
    assert ReadInput(b) == Readings(7, 3, 2, 3, true);
  }

  // ---------------------------------------------------------------------
  // XP and level
  // ---------------------------------------------------------------------

  const BASE_XP := 100
  const XP_INCREMENT := 40

  /** Cumulative XP needed to reach a level on this engine's ladder. */
  function XpThreshold(level: int): int {
    Ladder.Threshold(BASE_XP, XP_INCREMENT, level)
  }

  /** xp_required_for_level: 0 up to level 1, then an accumulating loop
      over levels 2 .. target_level. */
  method XpRequiredForLevel(targetLevel: int) returns (totalXp: int)
    ensures totalXp == XpThreshold(targetLevel)
  {
    if targetLevel <= 1 {
      return 0;
    }
    totalXp := 0;
    var increment := BASE_XP;
    for level := 2 to targetLevel + 1
      invariant totalXp == XpThreshold(level - 1)
      invariant increment == BASE_XP + XP_INCREMENT * (level - 2)
    {
      totalXp := totalXp + increment;
      increment := increment + XP_INCREMENT;
    }
  }

  /** The values the function's documentation lists. */
  lemma XpThresholdValues()
    ensures XpThreshold(1) == 0 && XpThreshold(2) == 100 && XpThreshold(3) == 240 && XpThreshold(4) == 420
    ensures forall level :: level <= 1 ==> XpThreshold(level) == 0
  {
  }

  /** calculate_level_from_xp: scans upward from level 1 while the next
      threshold is reached. */
  method CalculateLevelFromXp(totalXp: int) returns (info: XpInfo)
    ensures Ladder.IsLevelOf(BASE_XP, XP_INCREMENT, totalXp, info.level)
    ensures info.totalXp == totalXp
    ensures info.xpForNextLevel == XpThreshold(info.level + 1)
    ensures info.xpProgressInLevel == totalXp - XpThreshold(info.level)
  {
    var level := 1;
    var next := XpRequiredForLevel(level + 1);
    while totalXp >= next
      invariant level >= 1 && next == XpThreshold(level + 1)
      invariant level == 1 || XpThreshold(level) <= totalXp
      decreases totalXp - XpThreshold(level)
    {
      Ladder.ThresholdStrictlyIncreasing(BASE_XP, XP_INCREMENT, level, level + 1);
      level := level + 1;
      next := XpRequiredForLevel(level + 1);
    }
    var nextLevelXp := XpRequiredForLevel(level + 1);
    var reached := XpRequiredForLevel(level);
    info := XpInfo(level, totalXp, nextLevelXp, totalXp - reached);
  }

  // ---------------------------------------------------------------------
  // Quests
  // ---------------------------------------------------------------------

  const SLEEP_7H := Quest("sleep_7h", "Sleep at least 7 hours", Corrective, ByInput,
    Some([Condition("sleep_hours", 7)]), 25, [Energy, Focus], 1)
  const SCREEN_UNDER_4H := Quest("screen_under_4h", "Keep screen time under 4 hours", Corrective, ByInput,
    Some([Condition("screen_time_max", 4)]), 20, [Focus], 1)
  const WATER_3L := Quest("water_3l", "Drink at least 3L of water", Support, ByInput,
    Some([Condition("water_intake", 3)]), 15, [Energy], 1)
  const BREATHING_10MIN := Quest("breathing_10min", "10-minute breathing exercise", Support, Manual,
    None, 10, [Resilience], 1)
  const SHORT_WALK := Quest("short_walk", "Take a short walk", Preventive, Manual,
    None, 10, [Health, Resilience], 2)
  const PLAN_DAY := Quest("plan_day", "Plan tomorrow\U{2019}s tasks", Preventive, Manual,
    None, 10, [], 2)

  const QUEST_POOL: seq<Quest> := [SLEEP_7H, SCREEN_UNDER_4H, WATER_3L, BREATHING_10MIN, SHORT_WALK, PLAN_DAY]

  const WEAK_BELOW := 40

  /** detect_weak_stats: energy, focus and resilience below 40, in that
      order. */
  function DetectWeakStats(stats: Stats): (weak: seq<StatName>)
    ensures forall n :: n in weak <==> n != Health && StatValue(stats, n) < WEAK_BELOW
    ensures NoDuplicates(weak)
    ensures IsSubsequence(weak, [Energy, Focus, Resilience])
  {
    (if stats.energy < WEAK_BELOW then [Energy] else [])
    + (if stats.focus < WEAK_BELOW then [Focus] else [])
    + (if stats.resilience < WEAK_BELOW then [Resilience] else [])
  }

  /** `xs or []`: a missing list is the empty list. */
  function OrEmpty(xs: Option<seq<string>>): (r: seq<string>)
    ensures xs.None? ==> r == []
    ensures xs.Some? ==> r == xs.value
  {
    match xs case None => [] case Some(v) => v
  }

  /** generate_daily_quests: the three-pass selection over this engine's
      pool; `effects` is not consulted and a missing recent list is empty. */
  method GenerateDailyQuests(stats: Stats, effects: seq<Effect>, recentQuests: Option<seq<string>>) returns (quests: seq<Quest>)
    ensures quests == QuestPolicy.Select(QUEST_POOL, DetectWeakStats(stats), OrEmpty(recentQuests))
    ensures ConditionsPresent(quests)
  {
    var recent := OrEmpty(recentQuests);
    var weakStats := DetectWeakStats(stats);
    quests := QuestPolicy.SelectQuests(QUEST_POOL, weakStats, recent);
    BoardConditionsPresent(stats, recent);
  }

  /** What every quest board of this engine satisfies: at most four pool
      quests, pairwise distinct, none picked yesterday, at most one
      preventive, and a corrective one only for a stat below 40. */
  lemma QuestBoardProperties(stats: Stats, recentQuests: Option<seq<string>>)
    ensures var quests := QuestPolicy.Select(QUEST_POOL, DetectWeakStats(stats), OrEmpty(recentQuests));
      && |quests| <= 4
      && (forall q :: q in quests ==> q in QUEST_POOL && q.id !in OrEmpty(recentQuests))
      && NoDuplicates(quests)
      && QuestPolicy.AtMostOnePreventive(quests)
      && (forall q :: q in quests && q.questType == Corrective ==>
            exists t :: t in q.targets && StatValue(stats, t) < WEAK_BELOW)
  {
    var weak := DetectWeakStats(stats);
    QuestPolicy.SelectProperties(QUEST_POOL, weak, OrEmpty(recentQuests));
  }

  /** With no stat below 40 and no recent list the board is water,
      breathing and a walk. */
  lemma DefaultQuestBoard(stats: Stats)
    requires stats.energy >= WEAK_BELOW && stats.focus >= WEAK_BELOW && stats.resilience >= WEAK_BELOW
    ensures QuestPolicy.Select(QUEST_POOL, DetectWeakStats(stats), OrEmpty(None)) == [WATER_3L, BREATHING_10MIN, SHORT_WALK]
  {
    assert DetectWeakStats(stats) == [];
    QuestPolicy.DefaultBoardOfShape(SLEEP_7H, SCREEN_UNDER_4H, WATER_3L, BREATHING_10MIN, SHORT_WALK, PLAN_DAY);
  }

  // ---- completion ----

  /** str.replace(pattern, ""): removes every non-overlapping occurrence,
      scanning from the left. */
  function RemoveAll(s: string, pattern: string): (r: string)
    ensures |r| <= |s|
    decreases |s|
  {
    if pattern == [] || |s| < |pattern| then s
    else if s[..|pattern|] == pattern then RemoveAll(s[|pattern|..], pattern)
    else [s[0]] + RemoveAll(s[1..], pattern)
  }

  /** A string without the pattern comes back unchanged. */
  lemma {:induction false} RemoveAllAbsent(s: string, pattern: string)
    requires Absent(s, pattern)
    ensures RemoveAll(s, pattern) == s
    decreases |s|
  {
    assert !OccursAt(s, pattern, 0);
    if pattern != [] && |s| >= |pattern| {
      FirstOccurrenceShift(s, pattern);
      RemoveAllAbsent(s[1..], pattern);
    }
  }

  /** The scan keeps everything before the leftmost occurrence, drops that
      occurrence, and goes on removing in the rest of the string. */
  lemma {:induction false} RemoveAllAtFirst(s: string, pattern: string, i: int)
    requires pattern != [] && FirstOccurrence(s, pattern, i)
    ensures RemoveAll(s, pattern) == s[..i] + RemoveAll(s[i + |pattern|..], pattern)
    decreases |s|
  {
    if i == 0 {
      RemoveAllAtStart(s, pattern);
    } else {
      LaterOccurrence(s, pattern, i);
      RemoveAllAtFirst(s[1..], pattern, i - 1);
      RemoveAllKeepHead(s, pattern, i, RemoveAll(s[i + |pattern|..], pattern));
    }
  }

  /** An occurrence at the start is dropped and the scan goes on after it. */
  lemma RemoveAllAtStart(s: string, pattern: string)
    requires pattern != [] && OccursAt(s, pattern, 0)
    ensures RemoveAll(s, pattern) == s[..0] + RemoveAll(s[0 + |pattern|..], pattern)
  {
    assert s[..|pattern|] == pattern;
    assert s[..0] == [];
  }

  /** The induction step: a string that does not start with the pattern
      keeps its first character in front of the removal in s[1..]. */
  lemma RemoveAllKeepHead(s: string, pattern: string, i: int, rest: string)
    requires pattern != [] && 1 <= i && i + |pattern| <= |s| && s[..|pattern|] != pattern
    requires RemoveAll(s[1..], pattern) == s[1..][..i - 1] + rest
    ensures RemoveAll(s, pattern) == s[..i] + rest
  {
    ConsSplice(s, i, rest);
  }

  /** A string that does not start with the pattern keeps its first
      character. */
  lemma RemoveAllSkip(s: string, pattern: string, i: nat)
    requires pattern != [] && |pattern| <= |s|
    requires i < |pattern| && s[i] != pattern[i]
    ensures RemoveAll(s, pattern) == [s[0]] + RemoveAll(s[1..], pattern)
  {
    assert s[..|pattern|][i] != pattern[i];
  }

  /** For a field name without an 'x', the only "_max" in name + "_max" is
      the suffix, so removing every occurrence gives the name back. */
  lemma {:induction false} RemoveMaxSuffix(t: string)
    requires 'x' !in t
    ensures EndsWith(t + "_max", "_max")
    ensures RemoveAll(t + "_max", "_max") == t
    decreases |t|
  {
    var s := t + "_max";
    assert s[|s| - 4..] == "_max";
    if t == [] {
      assert s[..4] == "_max";
      assert s[4..] == [];
    } else {
      assert s[3] != 'x' by {
        if |t| > 3 {
          assert s[3] == t[3];
        }
      }
      RemoveAllSkip(s, "_max", 3);
      assert s[1..] == t[1..] + "_max";
      RemoveMaxSuffix(t[1..]);
      assert [s[0]] + t[1..] == t;
    }
  }

  /** A key with "_max" twice loses both here, where the web engine keeps
      the second (`WebEngine.DoubleMaxKey`). */
  lemma DoubleMaxKey()
    ensures RemoveAll("a_max_max", "_max") == "a"
  {
    var s := "a_max_max";
    assert !OccursAt(s, "_max", 0) by { assert s[0..4][0] != "_max"[0]; }
    assert OccursAt(s, "_max", 1) by { assert s[1..5] == "_max"; }
    RemoveAllAtFirst(s, "_max", 1);
    assert s[5..] == "_max" && s[..1] == "a";
    assert OccursAt("_max", "_max", 0) by { assert "_max"[0..4] == "_max"; }
    RemoveAllAtFirst("_max", "_max", 0);
    assert "_max"[4..] == [];
  }

  /** One condition entry: "<field>_max" caps the field (every "_max" is
      removed to find it), any other key is a minimum; a missing field
      reads as 0. */
  predicate EntryPasses(c: Condition, input: InputDict) {
    if EndsWith(c.key, "_max") then Get(input, RemoveAll(c.key, "_max")) <= c.threshold
    else Get(input, c.key) >= c.threshold
  }

  /** A manual quest is done iff it was marked; an input quest iff every
      entry of its condition passes. */
  predicate QuestDone(q: Quest, input: InputDict, manual: seq<string>) {
    match q.completionType
    case Manual => q.id in manual
    case ByInput =>
      q.condition.Some? && forall i :: 0 <= i < |q.condition.value| ==> EntryPasses(q.condition.value[i], input)
  }

  /** Reading an input quest's condition fails when it has none. */
  ghost predicate ConditionsPresent(quests: seq<Quest>) {
    forall q :: q in quests && q.completionType == ByInput ==> q.condition.Some?
  }

  /** The done quests, in their original order. */
  function CompletedQuests(quests: seq<Quest>, input: InputDict, manual: seq<string>): seq<Quest> {
    if quests == [] then []
    else
      var head := if QuestDone(quests[0], input, manual) then [quests[0]] else [];
      head + CompletedQuests(quests[1..], input, manual)
  }

  lemma {:induction false} CompletedQuestsAppend(a: seq<Quest>, b: seq<Quest>, input: InputDict, manual: seq<string>)
    ensures CompletedQuests(a + b, input, manual) == CompletedQuests(a, input, manual) + CompletedQuests(b, input, manual)
  {
    if a == [] {
      assert a + b == b;
    } else {
      assert (a + b)[0] == a[0] && (a + b)[1..] == a[1..] + b;
      CompletedQuestsAppend(a[1..], b, input, manual);
    }
  }

  lemma CompletedSingle(q: Quest, input: InputDict, manual: seq<string>)
    ensures CompletedQuests([q], input, manual) == if QuestDone(q, input, manual) then [q] else []
  {
    assert [q][1..] == [];
  }

  /** The completed list is an order-preserving subsequence of the board
      holding exactly the done quests. */
  lemma {:induction false} CompletedQuestsSpec(quests: seq<Quest>, input: InputDict, manual: seq<string>)
    ensures IsSubsequence(CompletedQuests(quests, input, manual), quests)
    ensures forall q :: q in CompletedQuests(quests, input, manual) <==> q in quests && QuestDone(q, input, manual)
  {
    if quests != [] {
      CompletedQuestsSpec(quests[1..], input, manual);
      var rest := CompletedQuests(quests[1..], input, manual);
      if QuestDone(quests[0], input, manual) {
        var done := CompletedQuests(quests, input, manual);
        assert done == [quests[0]] + rest;
        assert done[0] == quests[0] && done[1..] == rest;
        assert IsSubsequence(done[1..], quests[1..]);
      } else {
        assert CompletedQuests(quests, input, manual) == rest;
        assert IsSubsequence(rest, quests[1..]);
      }
      assert quests == [quests[0]] + quests[1..];
    }
  }

  /** The inner loop of check_quest_completion: every entry of the
      condition is checked, any failing one clearing the flag. */
  method ConditionMet(condition: seq<Condition>, dailyInput: InputDict) returns (completedFlag: bool)
    ensures completedFlag <==> forall m :: 0 <= m < |condition| ==> EntryPasses(condition[m], dailyInput)
  {
    completedFlag := true;
    for j := 0 to |condition|
      invariant completedFlag <==> forall m :: 0 <= m < j ==> EntryPasses(condition[m], dailyInput)
    {
      var entry := condition[j];
      if EndsWith(entry.key, "_max") {
        var realKey := RemoveAll(entry.key, "_max");
        if Get(dailyInput, realKey) > entry.threshold {
          completedFlag := false;
        }
      } else {
        if Get(dailyInput, entry.key) < entry.threshold {
          completedFlag := false;
        }
      }
    }
  }

  /** check_quest_completion: one pass over the board collecting the done
      quests and their XP; a missing manual list is empty. */
  method CheckQuestCompletion(quests: seq<Quest>, dailyInput: InputDict, manualCompletions: Option<seq<string>>)
    returns (completed: seq<Quest>, xpGained: int)
    requires ConditionsPresent(quests)
    ensures completed == CompletedQuests(quests, dailyInput, OrEmpty(manualCompletions))
    ensures xpGained == SumXp(completed)
  {
    var manual := OrEmpty(manualCompletions);
    completed := [];
    xpGained := 0;
    for i := 0 to |quests|
      invariant completed == CompletedQuests(quests[..i], dailyInput, manual)
      invariant xpGained == SumXp(completed)
    {
      var quest := quests[i];
      assert quests[..i + 1] == quests[..i] + [quest];
      CompletedQuestsAppend(quests[..i], [quest], dailyInput, manual);
      CompletedSingle(quest, dailyInput, manual);
      if quest.completionType == Manual {
        if quest.id in manual {
          SumXpAppend(completed, [quest]);
          completed := completed + [quest];
          xpGained := xpGained + quest.xp;
        }
      } else if quest.completionType == ByInput {
        assert quest in quests;
        var condition := quest.condition.value;
        var completedFlag := ConditionMet(condition, dailyInput);
        if completedFlag {
          SumXpAppend(completed, [quest]);
          completed := completed + [quest];
          xpGained := xpGained + quest.xp;
        }
      }
    }
    assert quests[..|quests|] == quests;
  }

  /** Every board drawn from this pool can be checked. */
  lemma PoolConditionsPresent(quests: seq<Quest>)
    requires forall q :: q in quests ==> q in QUEST_POOL
    ensures ConditionsPresent(quests)
  {
    forall i | 0 <= i < |quests| && quests[i].completionType == ByInput
      ensures quests[i].condition.Some?
    {
      assert quests[i] in QUEST_POOL;
    }
  }

  /** Every board this engine chooses can be checked. */
  lemma BoardConditionsPresent(stats: Stats, recent: seq<string>)
    ensures ConditionsPresent(QuestPolicy.Select(QUEST_POOL, DetectWeakStats(stats), recent))
  {
    QuestPolicy.SelectProperties(QUEST_POOL, DetectWeakStats(stats), recent);
    PoolConditionsPresent(QuestPolicy.Select(QUEST_POOL, DetectWeakStats(stats), recent));
  }

  /** How the pool's input quests are judged (on the raw, unclamped
      values): sleep_7h needs at least 7 hours, a missing entry counting
      as 0. */
  lemma SleepQuestDone(input: InputDict, manual: seq<string>)
    ensures QuestDone(SLEEP_7H, input, manual) <==> Get(input, "sleep_hours") >= 7
    ensures "sleep_hours" !in input ==> !QuestDone(SLEEP_7H, input, manual)
  {
    assert !EndsWith("sleep_hours", "_max") by {
      assert "sleep_hours"[7] != '_';
    }
    var c := Condition("sleep_hours", 7);
    assert EntryPasses(c, input) <==> Get(input, "sleep_hours") >= 7;
    assert SLEEP_7H.condition == Some([c]) && SLEEP_7H.condition.value[0] == c;
    assert QuestDone(SLEEP_7H, input, manual) <==> EntryPasses(c, input);
  }

  /** The screen-time key carries the "_max" suffix and names the
      screen-time field once it is removed. */
  lemma ScreenKey()
    ensures EndsWith("screen_time_max", "_max")
    ensures RemoveAll("screen_time_max", "_max") == "screen_time"
  {
    assert "screen_time_max" == "screen_time" + "_max";
    assert 'x' !in "screen_time";
    RemoveMaxSuffix("screen_time");
  }

  /** screen_under_4h caps screen time at 4 hours; a missing entry counts
      as 0 and so passes. */
  lemma ScreenQuestDone(input: InputDict, manual: seq<string>)
    ensures QuestDone(SCREEN_UNDER_4H, input, manual) <==> Get(input, "screen_time") <= 4
    ensures "screen_time" !in input ==> QuestDone(SCREEN_UNDER_4H, input, manual)
  {
    ScreenKey();
    var c := Condition("screen_time_max", 4);
    assert EntryPasses(c, input) <==> Get(input, "screen_time") <= 4;
    assert SCREEN_UNDER_4H.condition == Some([c]) && SCREEN_UNDER_4H.condition.value[0] == c;
    assert QuestDone(SCREEN_UNDER_4H, input, manual) <==> EntryPasses(c, input);
  }

  /** water_3l needs at least 3 litres. */
  lemma WaterQuestDone(input: InputDict, manual: seq<string>)
    ensures QuestDone(WATER_3L, input, manual) <==> Get(input, "water_intake") >= 3
    ensures "water_intake" !in input ==> !QuestDone(WATER_3L, input, manual)
  {
    assert !EndsWith("water_intake", "_max") by {
      assert "water_intake"[8] != '_';
    }
    var c := Condition("water_intake", 3);
    assert EntryPasses(c, input) <==> Get(input, "water_intake") >= 3;
    assert WATER_3L.condition == Some([c]) && WATER_3L.condition.value[0] == c;
    assert QuestDone(WATER_3L, input, manual) <==> EntryPasses(c, input);
  }

  /** The manual pool quests are done exactly when marked. */
  lemma ManualQuestsDone(input: InputDict, manual: seq<string>)
    ensures forall q :: q in QUEST_POOL && q.completionType == Manual ==> (QuestDone(q, input, manual) <==> q.id in manual)
  {
  }

  // ---------------------------------------------------------------------
  // Boss
  // ---------------------------------------------------------------------

  /** The boss dictionary; process_day hands the caller's own record to
      update_boss, which changes it in place. */
  class Boss {
    var name: string
    var bossType: BossType
    var hp: int
    var maxHp: int
    var daysRemaining: int
    var active: bool
    var defeated: bool

    function View(): BossView
      reads this
    {
      BossView(name, bossType, hp, maxHp, daysRemaining, active, defeated)
    }

    /** create_boss: full health (100 of 100), active, not defeated. */
    constructor (name: string, bossType: BossType := StatBoss, daysRemaining: int := 3)
      ensures View() == BossView(name, bossType, 100, 100, daysRemaining, true, false)
    {
      this.name := name;
      this.bossType := bossType;
      this.hp := 100;
      this.maxHp := 100;
      this.daysRemaining := daysRemaining;
      this.active := true;
      this.defeated := false;
    }
  }

  /** calculate_stat_trend: improvements minus regressions over energy,
      focus and resilience, a score in [-3,3]. */
  method CalculateStatTrend(prevStats: Stats, currStats: Stats) returns (score: int)
    ensures score == TrendOver(prevStats, currStats, TRACKED_STATS)
    ensures -3 <= score <= 3
  {
    score := 0;
    var trackedStats := TRACKED_STATS;
    for k := 0 to |trackedStats|
      invariant score == TrendOver(prevStats, currStats, trackedStats[..k])
    {
      var stat := trackedStats[k];
      assert trackedStats[..k + 1][..k] == trackedStats[..k];
      if StatValue(currStats, stat) > StatValue(prevStats, stat) {
        score := score + 1;
      } else if StatValue(currStats, stat) < StatValue(prevStats, stat) {
        score := score - 1;
      }
    }
    assert trackedStats[..|trackedStats|] == trackedStats;
  }

  /** update_boss: changes the given record in place and returns it. */
  method UpdateBoss(boss: Boss, prevStats: Stats, currStats: Stats) returns (r: Boss)
    modifies boss
    ensures r == boss
    ensures boss.View() == BossStep(old(boss.View()), TrendOver(prevStats, currStats, TRACKED_STATS))
  {
    var trend := CalculateStatTrend(prevStats, currStats);
    if trend >= 1 {
      boss.hp := boss.hp - 30;
    } else if trend == 0 {
      boss.hp := boss.hp - 10;
    } else {
      boss.hp := boss.hp + 15;
    }
    boss.hp := Clamp(boss.hp, 0, boss.maxHp);
    boss.daysRemaining := boss.daysRemaining - 1;
    if boss.hp <= 0 {
      boss.defeated := true;
      boss.active := false;
    } else if boss.daysRemaining <= 0 {
      boss.active := false;
    }
    r := boss;
  }

  /** boss_failure_penalty: the demotivation penalty exactly when the boss
      is undefeated and out of days. */
  function BossFailurePenalty(boss: Boss): (p: Option<Penalty>)
    reads boss
    ensures p.Some? <==> !boss.defeated && boss.daysRemaining <= 0
    ensures p.Some? ==> p.value == DEMOTIVATED
  {
    if !boss.defeated && boss.daysRemaining <= 0 then Some(DEMOTIVATED) else None
  }

  /** After an update of an undefeated boss the penalty is due exactly when
      the boss escaped (ran out of days without being defeated). */
  lemma PenaltyIffEscaped(boss: Boss, before: BossView, trend: int)
    requires Consistent(before) && before.active
    requires boss.View() == BossStep(before, trend)
    ensures BossFailurePenalty(boss).Some? <==> !boss.active && !boss.defeated
  {
  }

  /** check_calendar_event: a calendar boss named "<event> Stress" when the
      event is at most three days away. */
  method CheckCalendarEvent(event: CalendarEvent) returns (boss: Boss?)
    ensures boss != null <==> event.daysLeft <= 3
    ensures boss != null ==> fresh(boss)
    ensures boss != null ==>
      boss.View() == BossView(CalendarBossName(event.name), CalendarBoss, 100, 100, event.daysLeft, true, false)
  {
    if event.daysLeft <= 3 {
      boss := new Boss(CalendarBossName(event.name), CalendarBoss, event.daysLeft);
    } else {
      boss := null;
    }
  }

  // ---------------------------------------------------------------------
  // Daily processor
  // ---------------------------------------------------------------------

  /** The previous-state dictionary; an absent key is None (or null, or the
      empty list). */
  datatype PreviousState = PreviousState(
    stats: Option<Stats>,
    totalXp: Option<int>,
    boss: Boss?,
    activeQuests: seq<Quest>,
    calendarEvent: Option<CalendarEvent>)

  datatype DayResult = DayResult(
    stats: Stats,
    effects: seq<Effect>,
    character: CharacterState,
    activeQuests: seq<Quest>,
    completedQuests: seq<Quest>,
    xp: XpInfo,
    boss: Boss?,
    penalty: Option<Penalty>)

  /** previous_state.get("stats", BASE_STATS). */
  function PreviousStats(prev: PreviousState): Stats {
    match prev.stats case Some(s) => s case None => BASE_STATS
  }

  /** previous_state.get("xp", {}).get("total_xp", 0). */
  function PreviousXp(prev: PreviousState): int {
    match prev.totalXp case Some(x) => x case None => 0
  }

  /** The stat step of process_day: the day's stats, the effects they
      trigger and the character state they give. */
  method StatsOfDay(dailyInput: InputDict) returns (stats: Stats, effects: seq<Effect>, character: CharacterState)
    ensures stats == StatsFor(dailyInput)
    ensures effects == DetermineEffects(stats)
    ensures character == DetermineCharacterState(stats, effects)
  {
    stats := CalculateStats(dailyInput);
    effects := DetermineEffects(stats);
    character := DetermineCharacterState(stats, effects);
  }

  /** What the quest step of a day yields: the board the three-pass
      selection picks from the pool for the day's weak stats and the recent
      quests, the quests on it that are completed, and the XP info of the
      previous total raised by their rewards, on this engine's ladder. */
  ghost predicate QuestOutcome(stats: Stats, dailyInput: InputDict, recentQuests: seq<string>, manual: seq<string>,
                               previousXp: int, activeQuests: seq<Quest>, completed: seq<Quest>, xpInfo: XpInfo) {
    && activeQuests == QuestPolicy.Select(QUEST_POOL, DetectWeakStats(stats), recentQuests)
    && completed == CompletedQuests(activeQuests, dailyInput, manual)
    && xpInfo.totalXp == previousXp + SumXp(completed)
    && Ladder.IsLevelOf(BASE_XP, XP_INCREMENT, xpInfo.totalXp, xpInfo.level)
    && xpInfo.xpForNextLevel == XpThreshold(xpInfo.level + 1)
    && xpInfo.xpProgressInLevel == xpInfo.totalXp - XpThreshold(xpInfo.level)
  }

  /** The quest step of process_day: the board for the day's stats, the quests
      completed on it, and the XP total they raise. */
  method QuestsOfDay(stats: Stats, effects: seq<Effect>, dailyInput: InputDict, recentQuests: seq<string>,
                     manualCompletions: Option<seq<string>>, previousXp: int)
    returns (activeQuests: seq<Quest>, completed: seq<Quest>, xpInfo: XpInfo)
    ensures QuestOutcome(stats, dailyInput, recentQuests, OrEmpty(manualCompletions), previousXp, activeQuests, completed, xpInfo)
  {
    activeQuests := GenerateDailyQuests(stats, effects, Some(recentQuests));
    assert OrEmpty(Some(recentQuests)) == recentQuests;
    var xpFromQuests;
    completed, xpFromQuests := CheckQuestCompletion(activeQuests, dailyInput, manualCompletions);

    var totalXp := previousXp + xpFromQuests;
    xpInfo := CalculateLevelFromXp(totalXp);
  }

  /** The boss step of process_day: with no boss carried over, a calendar event
      may raise one; a boss that is then present and active is updated in
      place and judged for the failure penalty. */
  method BossOfDay(carried: Boss?, calendarEvent: Option<CalendarEvent>, prevStats: Stats, stats: Stats)
    returns (boss: Boss?, penalty: Option<Penalty>)
    modifies carried
    ensures carried != null ==> boss == carried
    ensures carried != null && old(carried.active) ==>
      && carried.View() == BossStep(old(carried.View()), TrendOver(prevStats, stats, TRACKED_STATS))
      && penalty == BossFailurePenalty(carried)
    ensures carried != null && !old(carried.active) ==>
      carried.View() == old(carried.View()) && penalty == None
    ensures carried == null && (calendarEvent.None? || calendarEvent.value.daysLeft > 3) ==>
      boss == null && penalty == None
    ensures carried == null && calendarEvent.Some? && calendarEvent.value.daysLeft <= 3 ==>
      var event := calendarEvent.value;
      && boss != null && fresh(boss)
      && boss.View() == BossStep(BossView(CalendarBossName(event.name), CalendarBoss, 100, 100, event.daysLeft, true, false),
                                 TrendOver(prevStats, stats, TRACKED_STATS))
      && penalty == BossFailurePenalty(boss)
  {
    boss := carried;
    penalty := None;

    if calendarEvent.Some? && boss == null {
      boss := CheckCalendarEvent(calendarEvent.value);
    }

    if boss != null && boss.active {
      boss := UpdateBoss(boss, prevStats, stats);
      penalty := BossFailurePenalty(boss);
    }
  }

  /** process_day: the whole pipeline for one day.  The carried-over boss,
      if active, is updated in place; a calendar boss is only created when
      none is carried over, and is then updated the same day. */
  method ProcessDay(dailyInput: InputDict, previousState: PreviousState, manualCompletions: Option<seq<string>>)
    returns (r: DayResult)
    modifies previousState.boss
    ensures r.stats == StatsFor(dailyInput)
    ensures r.effects == DetermineEffects(r.stats)
    ensures r.character == DetermineCharacterState(r.stats, r.effects)
    ensures QuestOutcome(r.stats, dailyInput, Ids(previousState.activeQuests), OrEmpty(manualCompletions), PreviousXp(previousState),
                         r.activeQuests, r.completedQuests, r.xp)
    // a carried-over boss
    ensures previousState.boss != null ==> r.boss == previousState.boss
    ensures previousState.boss != null && old(previousState.boss.active) ==>
      && previousState.boss.View() == BossStep(old(previousState.boss.View()),
                                               TrendOver(PreviousStats(previousState), r.stats, TRACKED_STATS))
      && r.penalty == BossFailurePenalty(previousState.boss)
    ensures previousState.boss != null && !old(previousState.boss.active) ==>
      previousState.boss.View() == old(previousState.boss.View()) && r.penalty == None
    // no boss carried over
    ensures previousState.boss == null && (previousState.calendarEvent.None? || previousState.calendarEvent.value.daysLeft > 3) ==>
      r.boss == null && r.penalty == None
    ensures previousState.boss == null && previousState.calendarEvent.Some? && previousState.calendarEvent.value.daysLeft <= 3 ==>
      var event := previousState.calendarEvent.value;
      && r.boss != null && fresh(r.boss)
      && r.boss.View() == BossStep(BossView(CalendarBossName(event.name), CalendarBoss, 100, 100, event.daysLeft, true, false),
                                   TrendOver(PreviousStats(previousState), r.stats, TRACKED_STATS))
      && r.penalty == BossFailurePenalty(r.boss)
  {
    var prevStats := PreviousStats(previousState);
    var totalXp := PreviousXp(previousState);
    var activeBoss := previousState.boss;
    var recentQuests := Ids(previousState.activeQuests);
    var calendarEvent := previousState.calendarEvent;

    var stats, effects, character := StatsOfDay(dailyInput);

    // The boss step reads only the stats and the carried-over state, and the
    // quest step never touches the boss, so the two are taken in either order.
    var penalty;
    activeBoss, penalty := BossOfDay(activeBoss, calendarEvent, prevStats, stats);

    var activeQuests, completed, xpInfo := QuestsOfDay(stats, effects, dailyInput, recentQuests, manualCompletions, totalXp);

    r := DayResult(stats, effects, character, activeQuests, completed, xpInfo, activeBoss, penalty);
  }
}
