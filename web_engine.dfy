/**
 * The rules engine the web app runs (lib/game-engine.ts): daily input to
 * stats, effects, mood and theme, the quest board and its completion, the XP
 * ladder, and the boss that the day's stat trend attacks or heals.
 */
module WebEngine {
  import opened Common
  import Ladder
  import QuestPolicy
  import opened BossRules

  /** One day's self-reported input, as the input form produces it. */
  datatype DailyInput = DailyInput(
    sleepHours: int,
    screenTime: int,
    stressLevel: int,
    waterIntake: int,
    exercise: bool)

  // ---------------------------------------------------------------------
  // Stat calculation
  // ---------------------------------------------------------------------

  /** The inputs as the rule bands read them: sleep in [0,12], screen time
      in [0,16], stress in [0,5], water in [0,6]. */
  function ClampInput(input: DailyInput): (c: DailyInput)
    ensures 0 <= c.sleepHours <= 12 && 0 <= c.screenTime <= 16
    ensures 0 <= c.stressLevel <= 5 && 0 <= c.waterIntake <= 6
    ensures c.exercise == input.exercise
  {
    DailyInput(
      Clamp(input.sleepHours, 0, 12),
      Clamp(input.screenTime, 0, 16),
      Clamp(input.stressLevel, 0, 5),
      Clamp(input.waterIntake, 0, 6),
      input.exercise)
  }

  /** The amounts one rule group adds to each stat. */
  datatype Delta = Delta(health: int, energy: int, focus: int, resilience: int)

  const NO_CHANGE := Delta(0, 0, 0, 0)

  function SleepRule(sleep: int): Delta {
    if 7 <= sleep <= 9 then Delta(0, 15, 10, 0)
    else if sleep < 5 then Delta(0, -20, -15, 0)
    else if sleep > 10 then Delta(0, -5, 0, 0)
    else NO_CHANGE
  }

  /** First match: < 2, then <= 4, then > 6, then the (4,6] band. */
  function ScreenRule(screen: int): Delta {
    if screen < 2 then Delta(0, 0, 15, 0)
    else if screen <= 4 then Delta(0, 0, 5, 0)
    else if screen > 6 then Delta(0, 0, -15, 0)
    else Delta(0, 0, -10, 0)
  }

  function ExerciseRule(exercise: bool): Delta {
    if exercise then Delta(15, 10, 0, 5) else NO_CHANGE
  }

  function StressRule(stress: int): Delta {
    if stress >= 4 then Delta(-10, 0, -15, -5)
    else if stress <= 1 then Delta(0, 0, 0, 10)
    else NO_CHANGE
  }

  /** The two cross rules on resilience. */
  function ResilienceRule(sleep: int, stress: int, exercise: bool): Delta {
    Delta(0, 0, 0,
      (if sleep >= 7 && exercise then 10 else 0) + (if stress >= 4 && sleep < 6 then -15 else 0))
  }

  function WaterRule(water: int): Delta {
    if water < 2 then Delta(0, -10, 0, 0)
    else if water >= 4 then Delta(0, 10, 0, 0)
    else if water >= 3 then Delta(0, 5, 0, 0)
    else NO_CHANGE
  }

  /** The sum of the six rule groups' contributions for (clamped) input c. */
  function RuleTotal(c: DailyInput): Delta {
    var d1 := SleepRule(c.sleepHours);
    var d2 := ScreenRule(c.screenTime);
    var d3 := ExerciseRule(c.exercise);
    var d4 := StressRule(c.stressLevel);
    var d5 := ResilienceRule(c.sleepHours, c.stressLevel, c.exercise);
    var d6 := WaterRule(c.waterIntake);
    Delta(
      d1.health + d2.health + d3.health + d4.health + d5.health + d6.health,
      d1.energy + d2.energy + d3.energy + d4.energy + d5.energy + d6.energy,
      d1.focus + d2.focus + d3.focus + d4.focus + d5.focus + d6.focus,
      d1.resilience + d2.resilience + d3.resilience + d4.resilience + d5.resilience + d6.resilience)
  }

  /** The day's stats: the baseline plus every rule group's additive
      contribution on the clamped input, each stat then clamped to [0,100]. */
  function StatsFor(input: DailyInput): (s: Stats)
    ensures InStatRange(s)
  {
    var d := RuleTotal(ClampInput(input));
    Stats(
      Clamp(BASE_STATS.health + d.health, STAT_MIN, STAT_MAX),
      Clamp(BASE_STATS.energy + d.energy, STAT_MIN, STAT_MAX),
      Clamp(BASE_STATS.focus + d.focus, STAT_MIN, STAT_MAX),
      Clamp(BASE_STATS.resilience + d.resilience, STAT_MIN, STAT_MAX))
  }

  lemma StatsForOfSums(input: DailyInput, health: int, energy: int, focus: int, resilience: int)
    requires var c := ClampInput(input);
      var d1 := SleepRule(c.sleepHours);
      var d2 := ScreenRule(c.screenTime);
      var d3 := ExerciseRule(c.exercise);
      var d4 := StressRule(c.stressLevel);
      var d5 := ResilienceRule(c.sleepHours, c.stressLevel, c.exercise);
      var d6 := WaterRule(c.waterIntake);
      && health == BASE_STATS.health + d1.health + d2.health + d3.health + d4.health + d5.health + d6.health
      && energy == BASE_STATS.energy + d1.energy + d2.energy + d3.energy + d4.energy + d5.energy + d6.energy
      && focus == BASE_STATS.focus + d1.focus + d2.focus + d3.focus + d4.focus + d5.focus + d6.focus
      && resilience == BASE_STATS.resilience + d1.resilience + d2.resilience + d3.resilience + d4.resilience + d5.resilience + d6.resilience
    ensures StatsFor(input) == Stats(Clamp(health, STAT_MIN, STAT_MAX), Clamp(energy, STAT_MIN, STAT_MAX),
                                     Clamp(focus, STAT_MIN, STAT_MAX), Clamp(resilience, STAT_MIN, STAT_MAX))
  {
  }

  /** calculateStats: applies the rule groups, then clamps every field in a
      loop. */
  method CalculateStats(input: DailyInput) returns (stats: Stats)
    ensures stats == StatsFor(input)
    ensures InStatRange(stats)
  {
    var health, energy, focus, resilience := ApplyRules(input);
    StatsForOfSums(input, health, energy, focus, resilience);

    // Clamp
    var values := [health, energy, focus, resilience];
    ghost var raw := values;
    for k := 0 to |values|
      invariant |values| == |raw|
      invariant forall j :: 0 <= j < k ==> values[j] == Clamp(raw[j], STAT_MIN, STAT_MAX)
      invariant forall j :: k <= j < |values| ==> values[j] == raw[j]
    {
      values := values[k := Clamp(values[k], STAT_MIN, STAT_MAX)];
    }
    stats := Stats(values[0], values[1], values[2], values[3]);
  }

  /** The rule-by-rule part of calculateStats: a copy of the baseline that
      each rule group updates in turn, yielding the raw (unclamped) stats. */
  method ApplyRules(input: DailyInput) returns (health: int, energy: int, focus: int, resilience: int)
    ensures var c := ClampInput(input);
      var d1 := SleepRule(c.sleepHours);
      var d2 := ScreenRule(c.screenTime);
      var d3 := ExerciseRule(c.exercise);
      var d4 := StressRule(c.stressLevel);
      var d5 := ResilienceRule(c.sleepHours, c.stressLevel, c.exercise);
      var d6 := WaterRule(c.waterIntake);
      && health == BASE_STATS.health + d1.health + d2.health + d3.health + d4.health + d5.health + d6.health
      && energy == BASE_STATS.energy + d1.energy + d2.energy + d3.energy + d4.energy + d5.energy + d6.energy
      && focus == BASE_STATS.focus + d1.focus + d2.focus + d3.focus + d4.focus + d5.focus + d6.focus
      && resilience == BASE_STATS.resilience + d1.resilience + d2.resilience + d3.resilience + d4.resilience + d5.resilience + d6.resilience
  {
    health, energy, focus, resilience := BASE_STATS.health, BASE_STATS.energy, BASE_STATS.focus, BASE_STATS.resilience;

    var sleep := Clamp(input.sleepHours, 0, 12);
    var screen := Clamp(input.screenTime, 0, 16);
    var stress := Clamp(input.stressLevel, 0, 5);
    var water := Clamp(input.waterIntake, 0, 6);
    var exercise := input.exercise;
    ghost var h0, e0, f0, r0 := health, energy, focus, resilience;

    // Sleep
    if sleep >= 7 && sleep <= 9 {
      energy := energy + 15;
      focus := focus + 10;
    } else if sleep < 5 {
      energy := energy - 20;
      focus := focus - 15;
    } else if sleep > 10 {
      energy := energy - 5;
    }

    assert health == h0 + SleepRule(sleep).health && energy == e0 + SleepRule(sleep).energy;
    assert focus == f0 + SleepRule(sleep).focus && resilience == r0 + SleepRule(sleep).resilience;
    h0, e0, f0, r0 := health, energy, focus, resilience;

    // Screen time
    if screen < 2 {
      focus := focus + 15;
    } else if screen <= 4 {
      focus := focus + 5;
    } else if screen > 6 {
      focus := focus - 15;
    } else if screen > 4 {
      focus := focus - 10;
    }

    assert health == h0 + ScreenRule(screen).health && energy == e0 + ScreenRule(screen).energy;
    assert focus == f0 + ScreenRule(screen).focus && resilience == r0 + ScreenRule(screen).resilience;
    h0, e0, f0, r0 := health, energy, focus, resilience;

    // Exercise
    if exercise {
      health := health + 15;
      energy := energy + 10;
      resilience := resilience + 5;
    }

    assert health == h0 + ExerciseRule(exercise).health && energy == e0 + ExerciseRule(exercise).energy;
    assert focus == f0 + ExerciseRule(exercise).focus && resilience == r0 + ExerciseRule(exercise).resilience;
    h0, e0, f0, r0 := health, energy, focus, resilience;

    // Stress
    if stress >= 4 {
      focus := focus - 15;
      health := health - 10;
      resilience := resilience - 5;
    } else if stress <= 1 {
      resilience := resilience + 10;
    }

    assert health == h0 + StressRule(stress).health && energy == e0 + StressRule(stress).energy;
    assert focus == f0 + StressRule(stress).focus && resilience == r0 + StressRule(stress).resilience;
    h0, e0, f0, r0 := health, energy, focus, resilience;

    // Resilience
    if sleep >= 7 && exercise {
      resilience := resilience + 10;
    }
    if stress >= 4 && sleep < 6 {
      resilience := resilience - 15;
    }

    assert health == h0 + ResilienceRule(sleep, stress, exercise).health && energy == e0 + ResilienceRule(sleep, stress, exercise).energy;
    assert focus == f0 + ResilienceRule(sleep, stress, exercise).focus && resilience == r0 + ResilienceRule(sleep, stress, exercise).resilience;
    h0, e0, f0, r0 := health, energy, focus, resilience;

    // Water
    if water < 2 {
      energy := energy - 10;
    } else if water >= 4 {
      energy := energy + 10;
    } else if water >= 3 {
      energy := energy + 5;
    }

    assert health == h0 + WaterRule(water).health && energy == e0 + WaterRule(water).energy;
    assert focus == f0 + WaterRule(water).focus && resilience == r0 + WaterRule(water).resilience;
  }

  /** Out-of-range input is clamped, never rejected: the stats of an input
      are those of its clamped form. */
  lemma StatsIgnoreOutOfRange(input: DailyInput)
    ensures StatsFor(input) == StatsFor(ClampInput(input))
  {
  }

  /** For instance, 20 hours of sleep count exactly as 12 do. */
  lemma OversleepIsClamped(input: DailyInput)
    requires input.sleepHours >= 12
    ensures StatsFor(input) == StatsFor(input.(sleepHours := 12))
  {
  }

  /** A good day: 8 h sleep, 2 h screen, stress 1, 4 l water, exercise. */
  lemma GoodDayStats()
    ensures StatsFor(DailyInput(8, 2, 1, 4, true)) == Stats(65, 85, 65, 75)
  {
  }

  // ---------------------------------------------------------------------
  // Effects and character state
  // ---------------------------------------------------------------------

  /** The threshold test behind each effect. */
  predicate Triggered(stats: Stats, e: Effect) {
    match e
    case Fatigue => stats.energy < 40
    case HighEnergy => stats.energy >= 65
    case LowFocus => stats.focus < 40
    case HighFocus => stats.focus >= 60
    case BurnoutRisk => stats.health < 40
    case GoodHealth => stats.health >= 60
    case LowResilience => stats.resilience < 40
    case HighResilience => stats.resilience >= 60
  }

  /** The tags one stat contributes: its low tag, then its high tag. */
  function EffectTags(stats: Stats, n: StatName): (r: seq<Effect>)
    ensures |r| <= 1
    ensures forall e :: e in r <==> StatOf(e) == n && Triggered(stats, e)
  {
    match n
    case Energy => Tag(stats.energy < 40, Fatigue) + Tag(stats.energy >= 65, HighEnergy)
    case Focus => Tag(stats.focus < 40, LowFocus) + Tag(stats.focus >= 60, HighFocus)
    case Health => Tag(stats.health < 40, BurnoutRisk) + Tag(stats.health >= 60, GoodHealth)
    case Resilience => Tag(stats.resilience < 40, LowResilience) + Tag(stats.resilience >= 60, HighResilience)
  }

  /** determineEffects: an effect is reported exactly when its threshold
      test holds. */
  function DetermineEffects(stats: Stats): (effects: seq<Effect>)
    ensures forall e :: e in effects <==> Triggered(stats, e)
  {
    EffectTags(stats, Energy) + EffectTags(stats, Focus) + EffectTags(stats, Health) + EffectTags(stats, Resilience)
  }

  /** Each effect is reported at most once, at most one of each stat's
      low/high pair, so at most four in all. */
  lemma EffectsShape(stats: Stats)
    ensures NoDuplicates(DetermineEffects(stats))
    ensures |DetermineEffects(stats)| <= 4
    ensures !(Fatigue in DetermineEffects(stats) && HighEnergy in DetermineEffects(stats))
    ensures !(LowFocus in DetermineEffects(stats) && HighFocus in DetermineEffects(stats))
    ensures !(BurnoutRisk in DetermineEffects(stats) && GoodHealth in DetermineEffects(stats))
    ensures !(LowResilience in DetermineEffects(stats) && HighResilience in DetermineEffects(stats))
  {
    var energy, focus, health, resilience :=
      EffectTags(stats, Energy), EffectTags(stats, Focus), EffectTags(stats, Health), EffectTags(stats, Resilience);
    NoDuplicatesConcat(energy, focus);
    NoDuplicatesConcat(energy + focus, health);
    NoDuplicatesConcat(energy + focus + health, resilience);
  }

  /** determineCharacterState: first match in priority order; the stats
      argument takes no part in the decision. */
  function DetermineCharacterState(stats: Stats, effects: seq<Effect>): (c: CharacterState)
    ensures c.mood == Stressed <==> LowResilience in effects || BurnoutRisk in effects
    ensures c.mood == Tired <==> !(LowResilience in effects || BurnoutRisk in effects) && Fatigue in effects
    ensures c.mood == Energetic <==>
      !(LowResilience in effects || BurnoutRisk in effects) && Fatigue !in effects
      && HighEnergy in effects && HighFocus in effects
    ensures c.theme == match c.mood
      case Stressed => Rain case Tired => Night case Energetic => Sunny case Normal => NormalTheme
  {
    if LowResilience in effects || BurnoutRisk in effects then CharacterState(Stressed, Rain)
    else if Fatigue in effects then CharacterState(Tired, Night)
    else if HighEnergy in effects && HighFocus in effects then CharacterState(Energetic, Sunny)
    else CharacterState(Normal, NormalTheme)
  }

  /** The mood of the day, read straight off the stats. */
  lemma MoodOfStats(stats: Stats)
    ensures var c := DetermineCharacterState(stats, DetermineEffects(stats));
      && (c.mood == Stressed <==> stats.resilience < 40 || stats.health < 40)
      && (c.mood == Tired <==> stats.resilience >= 40 && stats.health >= 40 && stats.energy < 40)
      && (c.mood == Energetic <==> stats.resilience >= 40 && stats.health >= 40 && stats.energy >= 65 && stats.focus >= 60)
  {
  }

  lemma GoodDayMood()
    ensures var s := StatsFor(DailyInput(8, 2, 1, 4, true));
      && DetermineEffects(s) == [HighEnergy, HighFocus, GoodHealth, HighResilience]
      && DetermineCharacterState(s, DetermineEffects(s)) == CharacterState(Energetic, Sunny)
  {
    GoodDayStats();
  }

  // ---------------------------------------------------------------------
  // XP and level
  // ---------------------------------------------------------------------

  const BASE_XP := 100
  const XP_INCREMENT := 40

  /** Cumulative XP needed to reach a level on this engine's ladder. */
  function XpThreshold(level: int): int {
    Ladder.Threshold(BASE_XP, XP_INCREMENT, level)
  }

  /** xpRequiredForLevel: 0 up to level 1, then an accumulating loop over
      the per-level costs 100, 140, 180, ... */
  method XpRequiredForLevel(targetLevel: int) returns (total: int)
    ensures total == XpThreshold(targetLevel)
  {
    if targetLevel <= 1 {
      return 0;
    }
    total := 0;
    var increment := BASE_XP;
    for level := 2 to targetLevel + 1
      invariant total == XpThreshold(level - 1)
      invariant increment == BASE_XP + XP_INCREMENT * (level - 2)
    {
      total := total + increment;
      increment := increment + XP_INCREMENT;
    }
  }

  /** The ladder in closed form: 20 * (L - 1) * (L + 3) from level 1 on. */
  lemma XpThresholdClosedForm(level: int)
    requires level >= 1
    ensures XpThreshold(level) == 20 * (level - 1) * (level + 3)
  {
    Ladder.ThresholdClosedForm(BASE_XP, XP_INCREMENT, level);
  }

  lemma XpThresholdValues()
    ensures XpThreshold(1) == 0 && XpThreshold(2) == 100 && XpThreshold(3) == 240 && XpThreshold(4) == 420
  {
  }

  /** calculateLevelFromXp: scans upward from level 1 while the next
      threshold is reached. */
  method CalculateLevelFromXp(totalXp: int) returns (info: XpInfo)
    ensures info.totalXp == totalXp
    ensures Ladder.IsLevelOf(BASE_XP, XP_INCREMENT, totalXp, info.level)
    ensures info.xpForNextLevel == XpThreshold(info.level + 1)
    ensures info.xpProgressInLevel == totalXp - XpThreshold(info.level)
  {
    var level := 1;
    var next := XpRequiredForLevel(level + 1);
    while totalXp >= next
      invariant level >= 1 && next == XpThreshold(level + 1)
      invariant level == 1 || XpThreshold(level) <= totalXp
      decreases totalXp - XpThreshold(level)
    {
      Ladder.ThresholdStrictlyIncreasing(BASE_XP, XP_INCREMENT, level, level + 1);
      level := level + 1;
      next := XpRequiredForLevel(level + 1);
    }
    var forNext := XpRequiredForLevel(level + 1);
    var reached := XpRequiredForLevel(level);
    info := XpInfo(level, totalXp, forNext, totalXp - reached);
  }

  /** 0 XP is level 1 with 100 to go; 100 XP is level 2 with 240 as the next
      threshold. */
  lemma LevelExamples(l0: int, l100: int)
    requires Ladder.IsLevelOf(BASE_XP, XP_INCREMENT, 0, l0)
    requires Ladder.IsLevelOf(BASE_XP, XP_INCREMENT, 100, l100)
    ensures l0 == 1 && XpThreshold(l0 + 1) == 100
    ensures l100 == 2 && XpThreshold(l100 + 1) == 240 && 100 - XpThreshold(l100) == 0
  {
    assert Ladder.IsLevelOf(BASE_XP, XP_INCREMENT, 0, 1);
    Ladder.LevelUnique(BASE_XP, XP_INCREMENT, 0, l0, 1);
    assert Ladder.IsLevelOf(BASE_XP, XP_INCREMENT, 100, 2);
    Ladder.LevelUnique(BASE_XP, XP_INCREMENT, 100, l100, 2);
  }

  // ---------------------------------------------------------------------
  // Quests
  // ---------------------------------------------------------------------

  const SLEEP_7H := Quest("sleep_7h", "Sleep at least 7 hours", Corrective, ByInput,
    Some([Condition("sleep_hours", 7)]), 25, [Energy, Focus], 1)
  const SCREEN_UNDER_4H := Quest("screen_under_4h", "Keep screen time under 4 hours", Corrective, ByInput,
    Some([Condition("screen_time_max", 4)]), 20, [Focus], 1)
  const WATER_3L := Quest("water_3l", "Drink at least 3L of water", Support, ByInput,
    Some([Condition("water_intake", 3)]), 15, [Energy], 1)
  const BREATHING_10MIN := Quest("breathing_10min", "10-minute breathing exercise", Support, Manual,
    None, 10, [Resilience], 1)
  const SHORT_WALK := Quest("short_walk", "Take a short walk", Preventive, Manual,
    None, 10, [Health, Resilience], 2)
  const PLAN_DAY := Quest("plan_day", "Plan tomorrow's tasks", Preventive, Manual,
    None, 10, [], 2)

  const QUEST_POOL: seq<Quest> := [SLEEP_7H, SCREEN_UNDER_4H, WATER_3L, BREATHING_10MIN, SHORT_WALK, PLAN_DAY]

  const WEAK_BELOW := 45

  /** detectWeakStats: energy, focus and resilience below 45, in that order. */
  function DetectWeakStats(stats: Stats): (weak: seq<StatName>)
    ensures forall n :: n in weak <==> n != Health && StatValue(stats, n) < WEAK_BELOW
    ensures NoDuplicates(weak)
    ensures IsSubsequence(weak, [Energy, Focus, Resilience])
  {
    (if stats.energy < WEAK_BELOW then [Energy] else [])
    + (if stats.focus < WEAK_BELOW then [Focus] else [])
    + (if stats.resilience < WEAK_BELOW then [Resilience] else [])
  }

  /** generateDailyQuests: the three-pass selection over this engine's
      pool for the stats' weak list.  `effects` is not consulted. */
  method GenerateDailyQuests(stats: Stats, effects: seq<Effect>, recentQuests: seq<string>) returns (quests: seq<Quest>)
    ensures quests == QuestPolicy.Select(QUEST_POOL, DetectWeakStats(stats), recentQuests)
  {
    var weakStats := DetectWeakStats(stats);
    quests := QuestPolicy.SelectQuests(QUEST_POOL, weakStats, recentQuests);
  }

  /** What every quest board of this engine satisfies: at most four pool
      quests, pairwise distinct, none picked yesterday, at most one
      preventive, and a corrective one only for a stat below 45. */
  lemma QuestBoardProperties(stats: Stats, recentQuests: seq<string>)
    ensures var quests := QuestPolicy.Select(QUEST_POOL, DetectWeakStats(stats), recentQuests);
      && |quests| <= 4
      && (forall q :: q in quests ==> q in QUEST_POOL && q.id !in recentQuests)
      && NoDuplicates(quests)
      && QuestPolicy.AtMostOnePreventive(quests)
      && (forall q :: q in quests && q.questType == Corrective ==>
            exists t :: t in q.targets && StatValue(stats, t) < WEAK_BELOW)
  {
    var weak := DetectWeakStats(stats);
    QuestPolicy.SelectProperties(QUEST_POOL, weak, recentQuests);
  }

  /** With no weak stat and nothing recent the board is water, breathing and
      a walk. */
  lemma DefaultQuestBoard(stats: Stats)
    requires stats.energy >= WEAK_BELOW && stats.focus >= WEAK_BELOW && stats.resilience >= WEAK_BELOW
    ensures QuestPolicy.Select(QUEST_POOL, DetectWeakStats(stats), []) == [WATER_3L, BREATHING_10MIN, SHORT_WALK]
  {
    assert DetectWeakStats(stats) == [];
    QuestPolicy.DefaultBoardOfShape(SLEEP_7H, SCREEN_UNDER_4H, WATER_3L, BREATHING_10MIN, SHORT_WALK, PLAN_DAY);
  }

  // ---- completion ----

  /** The number `dailyInput[key]` yields: the five input fields (a boolean
      compares as 0 or 1); any other key is undefined. */
  function InputField(input: DailyInput, key: string): Option<int> {
    if key == "sleep_hours" then Some(input.sleepHours)
    else if key == "screen_time" then Some(input.screenTime)
    else if key == "stress_level" then Some(input.stressLevel)
    else if key == "water_intake" then Some(input.waterIntake)
    else if key == "exercise" then Some(if input.exercise then 1 else 0)
    else None
  }

  /** String.prototype.replace(pattern, "") with a string pattern: removes
      the first occurrence only. */
  function RemoveFirst(s: string, pattern: string): (r: string)
    ensures |r| <= |s|
    decreases |s|
  {
    if pattern == [] || |s| < |pattern| then s
    else if s[..|pattern|] == pattern then s[|pattern|..]
    else [s[0]] + RemoveFirst(s[1..], pattern)
  }

  /** A string without the pattern comes back unchanged. */
  lemma {:induction false} RemoveFirstAbsent(s: string, pattern: string)
    requires Absent(s, pattern)
    ensures RemoveFirst(s, pattern) == s
    decreases |s|
  {
    assert !OccursAt(s, pattern, 0);
    if pattern != [] && |s| >= |pattern| {
      FirstOccurrenceShift(s, pattern);
      RemoveFirstAbsent(s[1..], pattern);
    }
  }

  /** Exactly the leftmost occurrence is cut out. */
  lemma {:induction false} RemoveFirstAtFirst(s: string, pattern: string, i: int)
    requires FirstOccurrence(s, pattern, i)
    ensures RemoveFirst(s, pattern) == s[..i] + s[i + |pattern|..]
    decreases |s|
  {
    if i == 0 {
      assert s[..i] == [];
      if pattern == [] {
        assert s[i + |pattern|..] == s;
      } else {
        assert s[..|pattern|] == pattern;
      }
    } else {
      LaterOccurrence(s, pattern, i);
      RemoveFirstAtFirst(s[1..], pattern, i - 1);
      ConsSplice(s, i, s[i + |pattern|..]);
    }
  }

  /** A string that does not start with the pattern keeps its first
      character. */
  lemma RemoveFirstSkip(s: string, pattern: string, i: nat)
    requires pattern != [] && |pattern| <= |s|
    requires i < |pattern| && s[i] != pattern[i]
    ensures RemoveFirst(s, pattern) == [s[0]] + RemoveFirst(s[1..], pattern)
  {
    assert s[..|pattern|][i] != pattern[i];
  }

  /** For a field name without an 'x', "_max" first occurs at the end of
      name + "_max" (the fourth character of any earlier window is not
      'x'), so removing it gives the name back. */
  lemma {:induction false} RemoveMaxSuffix(t: string)
    requires 'x' !in t
    ensures EndsWith(t + "_max", "_max")
    ensures RemoveFirst(t + "_max", "_max") == t
    decreases |t|
  {
    var s := t + "_max";
    assert s[|s| - 4..] == "_max";
    if t == [] {
      assert s[..4] == "_max";
    } else {
      assert s[3] != 'x' by {
        if |t| > 3 {
          assert s[3] == t[3];
        }
      }
      RemoveFirstSkip(s, "_max", 3);
      assert s[1..] == t[1..] + "_max";
      RemoveMaxSuffix(t[1..]);
      assert [s[0]] + t[1..] == t;
    }
  }

  /** A key with "_max" twice loses only its first one here, where the
      Python engine drops both (`BackendEngine.DoubleMaxKey`). */
  lemma DoubleMaxKey()
    ensures RemoveFirst("a_max_max", "_max") == "a_max"
  {
    var s := "a_max_max";
    assert !OccursAt(s, "_max", 0) by { assert s[0..4][0] != "_max"[0]; }
    assert OccursAt(s, "_max", 1) by { assert s[1..5] == "_max"; }
    RemoveFirstAtFirst(s, "_max", 1);
    assert s[..1] + s[5..] == "a_max";
  }

  /** One condition entry: "<field>_max" caps the field, any other key is a
      minimum.  A comparison with an undefined field is false in
      JavaScript, so such an entry never fails. */
  predicate EntryPasses(c: Condition, input: DailyInput) {
    if EndsWith(c.key, "_max") then
      match InputField(input, RemoveFirst(c.key, "_max"))
      case None => true
      case Some(v) => v <= c.threshold
    else
      match InputField(input, c.key)
      case None => true
      case Some(v) => v >= c.threshold
  }

  /** A manual quest is done iff it was marked; an input quest iff it has a
      condition and every entry of it passes. */
  predicate QuestDone(q: Quest, input: DailyInput, manual: seq<string>) {
    match q.completionType
    case Manual => q.id in manual
    case ByInput =>
      q.condition.Some? && forall i :: 0 <= i < |q.condition.value| ==> EntryPasses(q.condition.value[i], input)
  }

  /** The done quests, in their original order. */
  function CompletedQuests(quests: seq<Quest>, input: DailyInput, manual: seq<string>): seq<Quest> {
    if quests == [] then []
    else
      var head := if QuestDone(quests[0], input, manual) then [quests[0]] else [];
      head + CompletedQuests(quests[1..], input, manual)
  }

  lemma {:induction false} CompletedQuestsAppend(a: seq<Quest>, b: seq<Quest>, input: DailyInput, manual: seq<string>)
    ensures CompletedQuests(a + b, input, manual) == CompletedQuests(a, input, manual) + CompletedQuests(b, input, manual)
  {
    if a == [] {
      assert a + b == b;
    } else {
      assert (a + b)[0] == a[0] && (a + b)[1..] == a[1..] + b;
      CompletedQuestsAppend(a[1..], b, input, manual);
    }
  }

  lemma CompletedSingle(q: Quest, input: DailyInput, manual: seq<string>)
    ensures CompletedQuests([q], input, manual) == if QuestDone(q, input, manual) then [q] else []
  {
    assert [q][1..] == [];
  }

  /** The completed list is an order-preserving subsequence of the board
      holding exactly the done quests. */
  lemma {:induction false} CompletedQuestsSpec(quests: seq<Quest>, input: DailyInput, manual: seq<string>)
    ensures IsSubsequence(CompletedQuests(quests, input, manual), quests)
    ensures forall q :: q in CompletedQuests(quests, input, manual) <==> q in quests && QuestDone(q, input, manual)
  {
    if quests != [] {
      CompletedQuestsSpec(quests[1..], input, manual);
      var rest := CompletedQuests(quests[1..], input, manual);
      if QuestDone(quests[0], input, manual) {
        var done := CompletedQuests(quests, input, manual);
        assert done == [quests[0]] + rest;
        assert done[0] == quests[0] && done[1..] == rest;
        assert IsSubsequence(done[1..], quests[1..]);
      } else {
        assert CompletedQuests(quests, input, manual) == rest;
        assert IsSubsequence(rest, quests[1..]);
      }
      assert quests == [quests[0]] + quests[1..];
    }
  }

  /** The inner loop of checkQuestCompletion: every entry of an input
      quest's condition is checked, any failing one clearing the flag. */
  method ConditionMet(condition: seq<Condition>, dailyInput: DailyInput) returns (done: bool)
    ensures done <==> forall m :: 0 <= m < |condition| ==> EntryPasses(condition[m], dailyInput)
  {
    done := true;
    for j := 0 to |condition|
      invariant done <==> forall m :: 0 <= m < j ==> EntryPasses(condition[m], dailyInput)
    {
      var entry := condition[j];
      if EndsWith(entry.key, "_max") {
        var realKey := RemoveFirst(entry.key, "_max");
        var field := InputField(dailyInput, realKey);
        if field.Some? && field.value > entry.threshold {
          done := false;
        }
      } else {
        var field := InputField(dailyInput, entry.key);
        if field.Some? && field.value < entry.threshold {
          done := false;
        }
      }
    }
  }

  /** checkQuestCompletion: one pass over the board collecting the done
      quests and their XP. */
  method CheckQuestCompletion(quests: seq<Quest>, dailyInput: DailyInput, manualCompletions: seq<string>)
    returns (completed: seq<Quest>, xpGained: int)
    ensures completed == CompletedQuests(quests, dailyInput, manualCompletions)
    ensures xpGained == SumXp(completed)
  {
    completed := [];
    xpGained := 0;
    for i := 0 to |quests|
      invariant completed == CompletedQuests(quests[..i], dailyInput, manualCompletions)
      invariant xpGained == SumXp(completed)
    {
      var quest := quests[i];
      assert quests[..i + 1] == quests[..i] + [quest];
      CompletedQuestsAppend(quests[..i], [quest], dailyInput, manualCompletions);
      CompletedSingle(quest, dailyInput, manualCompletions);
      if quest.completionType == Manual {
        if quest.id in manualCompletions {
          SumXpAppend(completed, [quest]);
          completed := completed + [quest];
          xpGained := xpGained + quest.xp;
        }
      } else if quest.completionType == ByInput && quest.condition.Some? {
        var done := ConditionMet(quest.condition.value, dailyInput);
        if done {
          SumXpAppend(completed, [quest]);
          completed := completed + [quest];
          xpGained := xpGained + quest.xp;
        }
      }
    }
    assert quests[..|quests|] == quests;
  }

  /** How the pool's input quests are judged (on the raw, unclamped input):
      sleep_7h needs at least 7 hours of sleep. */
  lemma SleepQuestDone(input: DailyInput, manual: seq<string>)
    ensures QuestDone(SLEEP_7H, input, manual) <==> input.sleepHours >= 7
  {
    assert !EndsWith("sleep_hours", "_max") by {
      assert "sleep_hours"[7] != '_';
    }
    assert InputField(input, "sleep_hours") == Some(input.sleepHours);
    var c := Condition("sleep_hours", 7);
    assert EntryPasses(c, input) <==> input.sleepHours >= 7;
    assert SLEEP_7H.condition == Some([c]) && SLEEP_7H.condition.value[0] == c;
    assert QuestDone(SLEEP_7H, input, manual) <==> EntryPasses(c, input);
  }

  /** The screen-time key carries the "_max" suffix and names the
      screen-time field once it is stripped. */
  lemma ScreenKey()
    ensures EndsWith("screen_time_max", "_max")
    ensures RemoveFirst("screen_time_max", "_max") == "screen_time"
  {
    assert "screen_time_max" == "screen_time" + "_max";
    assert 'x' !in "screen_time";
    RemoveMaxSuffix("screen_time");
  }

  /** The screen-time entry caps the screen-time field at 4. */
  lemma ScreenEntry(input: DailyInput)
    ensures EntryPasses(Condition("screen_time_max", 4), input) <==> input.screenTime <= 4
  {
    ScreenKey();
    ScreenField(input);
  }

  lemma ScreenField(input: DailyInput)
    ensures InputField(input, "screen_time") == Some(input.screenTime)
  {
    assert "screen_time" != "sleep_hours" by {
      assert "screen_time"[1] != "sleep_hours"[1];
    }
  }

  /** screen_under_4h caps screen time at 4 hours: the "_max" suffix is
      stripped to find the field. */
  lemma ScreenQuestDone(input: DailyInput, manual: seq<string>)
    ensures QuestDone(SCREEN_UNDER_4H, input, manual) <==> input.screenTime <= 4
  {
    var c := Condition("screen_time_max", 4);
    ScreenEntry(input);
    assert SCREEN_UNDER_4H.condition == Some([c]) && SCREEN_UNDER_4H.condition.value[0] == c;
    assert QuestDone(SCREEN_UNDER_4H, input, manual) <==> EntryPasses(c, input);
  }

  /** water_3l needs at least 3 litres. */
  lemma WaterQuestDone(input: DailyInput, manual: seq<string>)
    ensures QuestDone(WATER_3L, input, manual) <==> input.waterIntake >= 3
  {
    assert !EndsWith("water_intake", "_max") by {
      assert "water_intake"[8] != '_';
    }
    assert "water_intake" != "stress_level" by {
      assert "water_intake"[0] != "stress_level"[0];
    }
    assert InputField(input, "water_intake") == Some(input.waterIntake);
    var c := Condition("water_intake", 3);
    assert EntryPasses(c, input) <==> input.waterIntake >= 3;
    assert WATER_3L.condition == Some([c]) && WATER_3L.condition.value[0] == c;
    assert QuestDone(WATER_3L, input, manual) <==> EntryPasses(c, input);
  }

  /** The manual pool quests are done exactly when marked. */
  lemma ManualQuestsDone(input: DailyInput, manual: seq<string>)
    ensures forall q :: q in QUEST_POOL && q.completionType == Manual ==> (QuestDone(q, input, manual) <==> q.id in manual)
  {
  }

  // ---------------------------------------------------------------------
  // Boss
  // ---------------------------------------------------------------------

  /** The boss record; processDay hands the caller's own record to
      updateBoss, which changes it in place. */
  class Boss {
    var name: string
    var bossType: BossType
    var hp: int
    var maxHp: int
    var daysRemaining: int
    var active: bool
    var defeated: bool

    function View(): BossView
      reads this
    {
      BossView(name, bossType, hp, maxHp, daysRemaining, active, defeated)
    }

    /** createBoss: full health (100 of 100), active, not defeated. */
    constructor (name: string, bossType: BossType := StatBoss, daysRemaining: int := 3)
      ensures View() == BossView(name, bossType, 100, 100, daysRemaining, true, false)
    {
      this.name := name;
      this.bossType := bossType;
      this.hp := 100;
      this.maxHp := 100;
      this.daysRemaining := daysRemaining;
      this.active := true;
      this.defeated := false;
    }
  }

  /** calculateStatTrend: improvements minus regressions over energy, focus
      and resilience, a score in [-3,3]. */
  method CalculateStatTrend(prev: Stats, curr: Stats) returns (score: int)
    ensures score == TrendOver(prev, curr, TRACKED_STATS)
    ensures -3 <= score <= 3
  {
    score := 0;
    var tracked := TRACKED_STATS;
    for k := 0 to |tracked|
      invariant score == TrendOver(prev, curr, tracked[..k])
    {
      var stat := tracked[k];
      assert tracked[..k + 1][..k] == tracked[..k];
      if StatValue(curr, stat) > StatValue(prev, stat) {
        score := score + 1;
      } else if StatValue(curr, stat) < StatValue(prev, stat) {
        score := score - 1;
      }
    }
    assert tracked[..|tracked|] == tracked;
  }

  /** updateBoss: changes the given record in place and returns it. */
  method UpdateBoss(boss: Boss, prev: Stats, curr: Stats) returns (r: Boss)
    modifies boss
    ensures r == boss
    ensures boss.View() == BossStep(old(boss.View()), TrendOver(prev, curr, TRACKED_STATS))
  {
    var trend := CalculateStatTrend(prev, curr);
    if trend >= 1 {
      boss.hp := boss.hp - 30;
    } else if trend == 0 {
      boss.hp := boss.hp - 10;
    } else {
      boss.hp := boss.hp + 15;
    }
    boss.hp := Clamp(boss.hp, 0, boss.maxHp);
    boss.daysRemaining := boss.daysRemaining - 1;
    if boss.hp <= 0 {
      boss.defeated := true;
      boss.active := false;
    } else if boss.daysRemaining <= 0 {
      boss.active := false;
    }
    r := boss;
  }

  /** bossFailurePenalty: the demotivation penalty exactly when the boss is
      undefeated and out of days. */
  function BossFailurePenalty(boss: Boss): (p: Option<Penalty>)
    reads boss
    ensures p.Some? <==> !boss.defeated && boss.daysRemaining <= 0
    ensures p.Some? ==> p.value == DEMOTIVATED
  {
    if !boss.defeated && boss.daysRemaining <= 0 then Some(DEMOTIVATED) else None
  }

  /** After an update of an undefeated boss the penalty is due exactly when
      the boss escaped (ran out of days without being defeated). */
  lemma PenaltyIffEscaped(boss: Boss, before: BossView, trend: int)
    requires Consistent(before) && before.active
    requires boss.View() == BossStep(before, trend)
    ensures BossFailurePenalty(boss).Some? <==> !boss.active && !boss.defeated
  {
  }

  /** checkCalendarEvent: a calendar boss named after the event when it is
      at most three days away. */
  method CheckCalendarEvent(event: CalendarEvent) returns (boss: Boss?)
    ensures boss != null <==> event.daysLeft <= 3
    ensures boss != null ==> fresh(boss)
    ensures boss != null ==>
      boss.View() == BossView(CalendarBossName(event.name), CalendarBoss, 100, 100, event.daysLeft, true, false)
  {
    if event.daysLeft <= 3 {
      boss := new Boss(CalendarBossName(event.name), CalendarBoss, event.daysLeft);
    } else {
      boss := null;
    }
  }

  // ---------------------------------------------------------------------
  // Daily processor
  // ---------------------------------------------------------------------

  /** What the caller carries over from the previous day; an absent slot is
      None (or null, or the empty list). */
  datatype PreviousState = PreviousState(
    stats: Option<Stats>,
    totalXp: Option<int>,
    boss: Boss?,
    activeQuests: seq<Quest>,
    calendarEvent: Option<CalendarEvent>)

  datatype DayResult = DayResult(
    stats: Stats,
    effects: seq<Effect>,
    character: CharacterState,
    activeQuests: seq<Quest>,
    completedQuests: seq<Quest>,
    xp: XpInfo,
    boss: Boss?,
    penalty: Option<Penalty>)

  function PreviousStats(prev: PreviousState): Stats {
    match prev.stats case Some(s) => s case None => BASE_STATS
  }

  function PreviousXp(prev: PreviousState): int {
    match prev.totalXp case Some(x) => x case None => 0
  }

  /** What the quest step of a day yields: the board the three-pass
      selection picks from the pool for the day's weak stats and the recent
      quests, the quests on it that are completed, and the XP info of the
      previous total raised by their rewards, on this engine's ladder. */
  ghost predicate QuestOutcome(stats: Stats, dailyInput: DailyInput, recentQuests: seq<string>, manual: seq<string>,
                               previousXp: int, activeQuests: seq<Quest>, completed: seq<Quest>, xpInfo: XpInfo) {
    && activeQuests == QuestPolicy.Select(QUEST_POOL, DetectWeakStats(stats), recentQuests)
    && completed == CompletedQuests(activeQuests, dailyInput, manual)
    && xpInfo.totalXp == previousXp + SumXp(completed)
    && Ladder.IsLevelOf(BASE_XP, XP_INCREMENT, xpInfo.totalXp, xpInfo.level)
    && xpInfo.xpForNextLevel == XpThreshold(xpInfo.level + 1)
    && xpInfo.xpProgressInLevel == xpInfo.totalXp - XpThreshold(xpInfo.level)
  }

  /** The quest step of processDay: the board for the day's stats, the quests
      completed on it, and the XP total they raise. */
  method QuestsOfDay(stats: Stats, effects: seq<Effect>, dailyInput: DailyInput, recentQuests: seq<string>,
                     manualCompletions: seq<string>, previousXp: int)
    returns (activeQuests: seq<Quest>, completed: seq<Quest>, xpInfo: XpInfo)
    ensures QuestOutcome(stats, dailyInput, recentQuests, manualCompletions, previousXp, activeQuests, completed, xpInfo)
  {
    activeQuests := GenerateDailyQuests(stats, effects, recentQuests);
    var xpGained;
    completed, xpGained := CheckQuestCompletion(activeQuests, dailyInput, manualCompletions);

    var totalXp := previousXp + xpGained;
    xpInfo := CalculateLevelFromXp(totalXp);
  }

  /** The boss step of processDay: with no boss carried over, a calendar event
      may raise one; a boss that is then present and active is updated in
      place and judged for the failure penalty. */
  method BossOfDay(carried: Boss?, calendarEvent: Option<CalendarEvent>, prevStats: Stats, stats: Stats)
    returns (boss: Boss?, penalty: Option<Penalty>)
    modifies carried
    ensures carried != null ==> boss == carried
    ensures carried != null && old(carried.active) ==>
      && carried.View() == BossStep(old(carried.View()), TrendOver(prevStats, stats, TRACKED_STATS))
      && penalty == BossFailurePenalty(carried)
    ensures carried != null && !old(carried.active) ==>
      carried.View() == old(carried.View()) && penalty == None
    ensures carried == null && (calendarEvent.None? || calendarEvent.value.daysLeft > 3) ==>
      boss == null && penalty == None
    ensures carried == null && calendarEvent.Some? && calendarEvent.value.daysLeft <= 3 ==>
      var event := calendarEvent.value;
      && boss != null && fresh(boss)
      && boss.View() == BossStep(BossView(CalendarBossName(event.name), CalendarBoss, 100, 100, event.daysLeft, true, false),
                                 TrendOver(prevStats, stats, TRACKED_STATS))
      && penalty == BossFailurePenalty(boss)
  {
    boss := carried;
    penalty := None;

    if calendarEvent.Some? && boss == null {
      boss := CheckCalendarEvent(calendarEvent.value);
    }

    if boss != null && boss.active {
      boss := UpdateBoss(boss, prevStats, stats);
      penalty := BossFailurePenalty(boss);
    }
  }

  /** processDay: the whole pipeline for one day.  The carried-over boss,
      if active, is updated in place; a calendar boss is only created when
      none is carried over, and is then updated the same day. */
  method ProcessDay(dailyInput: DailyInput, previousState: PreviousState, manualCompletions: seq<string>)
    returns (r: DayResult)
    modifies previousState.boss
    ensures r.stats == StatsFor(dailyInput)
    ensures r.effects == DetermineEffects(r.stats)
    ensures r.character == DetermineCharacterState(r.stats, r.effects)
    ensures QuestOutcome(r.stats, dailyInput, Ids(previousState.activeQuests), manualCompletions, PreviousXp(previousState),
                         r.activeQuests, r.completedQuests, r.xp)
    // a carried-over boss
    ensures previousState.boss != null ==> r.boss == previousState.boss
    ensures previousState.boss != null && old(previousState.boss.active) ==>
      && previousState.boss.View() == BossStep(old(previousState.boss.View()),
                                               TrendOver(PreviousStats(previousState), r.stats, TRACKED_STATS))
      && r.penalty == BossFailurePenalty(previousState.boss)
    ensures previousState.boss != null && !old(previousState.boss.active) ==>
      previousState.boss.View() == old(previousState.boss.View()) && r.penalty == None
    // no boss carried over
    ensures previousState.boss == null && (previousState.calendarEvent.None? || previousState.calendarEvent.value.daysLeft > 3) ==>
      r.boss == null && r.penalty == None
    ensures previousState.boss == null && previousState.calendarEvent.Some? && previousState.calendarEvent.value.daysLeft <= 3 ==>
      var event := previousState.calendarEvent.value;
      && r.boss != null && fresh(r.boss)
      && r.boss.View() == BossStep(BossView(CalendarBossName(event.name), CalendarBoss, 100, 100, event.daysLeft, true, false),
                                   TrendOver(PreviousStats(previousState), r.stats, TRACKED_STATS))
      && r.penalty == BossFailurePenalty(r.boss)
  {
    var prevStats := PreviousStats(previousState);
    var totalXp := PreviousXp(previousState);
    var activeBoss := previousState.boss;
    var recentQuests := Ids(previousState.activeQuests);
    var calendarEvent := previousState.calendarEvent;

    var stats := CalculateStats(dailyInput);
    var effects := DetermineEffects(stats);
    var character := DetermineCharacterState(stats, effects);

    var activeQuests, completed, xpInfo := QuestsOfDay(stats, effects, dailyInput, recentQuests, manualCompletions, totalXp);

    var penalty;
    activeBoss, penalty := BossOfDay(activeBoss, calendarEvent, prevStats, stats);

    r := DayResult(stats, effects, character, activeQuests, completed, xpInfo, activeBoss, penalty);
  }
}
