/**
 * The boss state machine both engines share: the day's stat trend over
 * energy, focus and resilience, the hp change it causes, and one day's
 * step of a boss record (hp clamped to [0, max_hp], one day fewer, defeat
 * at 0 hp, escape when out of days).  Each engine keeps its own mutable
 * boss record and the methods that update it.
 */
module BossRules {
  import opened Common

  const TRACKED_STATS: seq<StatName> := [Energy, Focus, Resilience]

  /** +1 if the stat rose, -1 if it fell, 0 if unchanged. */
  function Movement(prev: Stats, curr: Stats, n: StatName): (m: int)
    ensures -1 <= m <= 1
  {
    if StatValue(curr, n) > StatValue(prev, n) then 1
    else if StatValue(curr, n) < StatValue(prev, n) then -1
    else 0
  }

  /** The summed movement over a list of stats. */
  function TrendOver(prev: Stats, curr: Stats, names: seq<StatName>): (t: int)
    ensures -|names| <= t <= |names|
  {
    if names == [] then 0
    else TrendOver(prev, curr, names[..|names| - 1]) + Movement(prev, curr, names[|names| - 1])
  }

  /** The trend in the example of two stats up and one down. */
  lemma TrendExample()
    ensures TrendOver(Stats(50, 50, 50, 50), Stats(50, 60, 60, 40), TRACKED_STATS) == 1
  {
  }

  /** The hp change for a day's trend: attacked on improvement, worn down on
      a flat day, healed on regression. */
  function HpChange(trend: int): int {
    if trend >= 1 then -30 else if trend == 0 then -10 else 15
  }

  /** One day of the boss state machine. */
  function BossStep(b: BossView, trend: int): (r: BossView)
    ensures r.name == b.name && r.bossType == b.bossType && r.maxHp == b.maxHp
    ensures r.daysRemaining == b.daysRemaining - 1
    ensures r.hp == Clamp(b.hp + HpChange(trend), 0, b.maxHp)
    ensures r.hp == 0 ==> r.defeated && !r.active
    ensures r.hp > 0 ==> r.defeated == b.defeated
    ensures r.hp > 0 ==> (r.active <==> b.active && r.daysRemaining > 0)
  {
    var hp := Clamp(b.hp + HpChange(trend), 0, b.maxHp);
    var days := b.daysRemaining - 1;
    if hp <= 0 then b.(hp := hp, daysRemaining := days, defeated := true, active := false)
    else if days <= 0 then b.(hp := hp, daysRemaining := days, active := false)
    else b.(hp := hp, daysRemaining := days)
  }

  /** A boss record the state machine can be in: hp within [0, max_hp],
      defeated exactly when hp is 0, and never both active and defeated. */
  ghost predicate Consistent(b: BossView) {
    0 <= b.hp <= b.maxHp && (b.defeated <==> b.hp == 0) && !(b.active && b.defeated)
  }

  /** A consistent undefeated boss stays consistent through a day. */
  lemma BossStepConsistent(b: BossView, trend: int)
    requires Consistent(b) && !b.defeated
    ensures Consistent(BossStep(b, trend))
  {
  }

  /** The three worked examples: an improving day costs 30 hp and a day; a
      boss at 25 hp falls to an improving day; a boss on its last day with
      50 hp escapes whatever the trend. */
  lemma BossExamples(b: BossView, trend: int)
    ensures var after := BossStep(b.(hp := 80, maxHp := 100, daysRemaining := 3, active := true, defeated := false), 1);
      after.hp == 50 && after.daysRemaining == 2 && after.active
    ensures var after := BossStep(b.(hp := 25, maxHp := 100, active := true, defeated := false), 1);
      after.hp == 0 && after.defeated && !after.active
    ensures var after := BossStep(b.(hp := 50, maxHp := 100, daysRemaining := 1, active := true, defeated := false), trend);
      after.daysRemaining == 0 && !after.active && !after.defeated
  {
  }

  /** Boss days as the daily processor runs them: a step only while active. */
  function RunDays(b: BossView, trends: seq<int>): BossView
    decreases |trends|
  {
    if trends == [] || !b.active then b
    else RunDays(BossStep(b, trends[0]), trends[1..])
  }

  /** A fight lasts at most `daysRemaining` days and keeps hp within
      [0, max_hp]; afterwards the boss is inactive. */
  lemma {:induction false} BossFightEnds(b: BossView, trends: seq<int>)
    requires Consistent(b) && !b.defeated
    requires |trends| >= b.daysRemaining && |trends| >= 1
    ensures !RunDays(b, trends).active
    ensures Consistent(RunDays(b, trends))
    decreases |trends|
  {
    if b.active {
      var next := BossStep(b, trends[0]);
      if next.active {
        BossFightEnds(next, trends[1..]);
      } else {
        assert RunDays(next, trends[1..]) == next;
      }
    }
  }
}
