/**
 * Value types shared by both rules engines: the stat vector, effect tags,
 * mood and theme, quests and their conditions, XP info, the boss record's
 * value view, calendar events and the failure penalty.  Both engines declare
 * these records with the same fields; the behaviour around them lives in
 * each engine's own module.  Also the helpers that carry no engine-specific
 * constant: the clamp, the conditional effect tag, and where a pattern
 * occurs in a string.
 */
module Common {

  datatype Option<T> = None | Some(value: T)

  /** max(lo, min(value, hi)), as both engines write their clamp helper. */
  function Clamp(value: int, lo: int, hi: int): (r: int)
    ensures lo <= hi ==> lo <= r <= hi
    ensures lo <= value <= hi ==> r == value
    ensures value < lo ==> r == lo
    ensures lo <= hi && hi < value ==> r == hi
  {
    if lo > (if value < hi then value else hi) then lo
    else if value < hi then value else hi
  }

  const STAT_MIN := 0
  const STAT_MAX := 100

  /** The four character stats. */
  datatype Stats = Stats(health: int, energy: int, focus: int, resilience: int)

  const BASE_STATS := Stats(50, 50, 50, 50)

  /** Every stat lies in [0,100]. */
  ghost predicate InStatRange(s: Stats) {
    && STAT_MIN <= s.health <= STAT_MAX
    && STAT_MIN <= s.energy <= STAT_MAX
    && STAT_MIN <= s.focus <= STAT_MAX
    && STAT_MIN <= s.resilience <= STAT_MAX
  }

  /** The stat names that quests target and that weak-stat detection reports. */
  datatype StatName = Health | Energy | Focus | Resilience

  function StatValue(s: Stats, n: StatName): int {
    match n
    case Health => s.health
    case Energy => s.energy
    case Focus => s.focus
    case Resilience => s.resilience
  }

  /** The eight status effects. */
  datatype Effect =
    | Fatigue | HighEnergy | LowFocus | HighFocus
    | BurnoutRisk | GoodHealth | LowResilience | HighResilience

  /** The stat an effect reports on. */
  function StatOf(e: Effect): StatName {
    match e
    case Fatigue | HighEnergy => Energy
    case LowFocus | HighFocus => Focus
    case BurnoutRisk | GoodHealth => Health
    case LowResilience | HighResilience => Resilience
  }

  /** The effect list one conditional push or append contributes. */
  function Tag(c: bool, e: Effect): (r: seq<Effect>)
    ensures forall x :: x in r <==> c && x == e
    ensures NoDuplicates(r)
  {
    if c then [e] else []
  }

  datatype Mood = Stressed | Tired | Energetic | Normal
  datatype Theme = Rain | Night | Sunny | NormalTheme

  datatype CharacterState = CharacterState(mood: Mood, theme: Theme)

  ghost predicate NoDuplicates<T>(s: seq<T>) {
    forall i, j :: 0 <= i < j < |s| ==> s[i] != s[j]
  }

  lemma NoDuplicatesConcat<T>(a: seq<T>, b: seq<T>)
    requires NoDuplicates(a) && NoDuplicates(b)
    requires forall x :: x in a ==> x !in b
    ensures NoDuplicates(a + b)
  {
    var s := a + b;
    forall i, j | 0 <= i < j < |s| ensures s[i] != s[j] {
      if i < |a| && j >= |a| {
        assert s[i] in a && s[j] == b[j - |a|];
      }
    }
  }

  // ---- quests ----

  datatype QuestType = Corrective | Support | Preventive
  datatype CompletionType = ByInput | Manual

  /** One entry of a quest's condition record: an input field name (with an
      optional "_max" suffix) and its threshold. */
  datatype Condition = Condition(key: string, threshold: int)

  datatype Quest = Quest(
    id: string,
    title: string,
    questType: QuestType,
    completionType: CompletionType,
    condition: Option<seq<Condition>>,
    xp: int,
    targets: seq<StatName>,
    cooldown: int)

  function Ids(quests: seq<Quest>): (ids: seq<string>)
    ensures |ids| == |quests|
    ensures forall i :: 0 <= i < |quests| ==> ids[i] == quests[i].id
  {
    if quests == [] then [] else [quests[0].id] + Ids(quests[1..])
  }

  /** The sum of the xp rewards of a list of quests. */
  function SumXp(quests: seq<Quest>): int {
    if quests == [] then 0 else quests[0].xp + SumXp(quests[1..])
  }

  lemma {:induction false} SumXpAppend(a: seq<Quest>, b: seq<Quest>)
    ensures SumXp(a + b) == SumXp(a) + SumXp(b)
  {
    if a == [] {
      assert a + b == b;
    } else {
      assert (a + b)[1..] == a[1..] + b;
      SumXpAppend(a[1..], b);
    }
  }

  /** a is an order-preserving subsequence of b. */
  ghost predicate IsSubsequence<T>(a: seq<T>, b: seq<T>)
    decreases |b|
  {
    || a == []
    || (b != [] && ((a[0] == b[0] && IsSubsequence(a[1..], b[1..])) || IsSubsequence(a, b[1..])))
  }

  // ---- condition keys ----

  predicate EndsWith(s: string, suffix: string) {
    |suffix| <= |s| && s[|s| - |suffix|..] == suffix
  }

  /** pattern occurs in s starting at index i. */
  ghost predicate OccursAt(s: string, pattern: string, i: int) {
    0 <= i && i + |pattern| <= |s| && s[i..i + |pattern|] == pattern
  }

  /** i is the leftmost occurrence of pattern in s. */
  ghost predicate FirstOccurrence(s: string, pattern: string, i: int) {
    OccursAt(s, pattern, i) && forall j :: 0 <= j < i ==> !OccursAt(s, pattern, j)
  }

  /** pattern occurs nowhere in s. */
  ghost predicate Absent(s: string, pattern: string) {
    forall i :: !OccursAt(s, pattern, i)
  }

  /** Dropping the first character moves every occurrence one index down. */
  lemma OccursShift(s: string, pattern: string)
    requires s != []
    ensures forall j :: 0 <= j ==> (OccursAt(s[1..], pattern, j) <==> OccursAt(s, pattern, j + 1))
  {
    forall j | 0 <= j ensures OccursAt(s[1..], pattern, j) <==> OccursAt(s, pattern, j + 1) {
      if j + |pattern| <= |s| - 1 {
        assert s[1..][j..j + |pattern|] == s[j + 1..j + 1 + |pattern|];
      }
    }
  }

  /** Past a position where the pattern does not start, the leftmost
      occurrence of s is one index after that of s[1..]. */
  lemma FirstOccurrenceShift(s: string, pattern: string)
    requires s != [] && !OccursAt(s, pattern, 0)
    ensures forall i :: FirstOccurrence(s, pattern, i) <==> i >= 1 && FirstOccurrence(s[1..], pattern, i - 1)
    ensures Absent(s, pattern) <==> Absent(s[1..], pattern)
  {
    OccursShift(s, pattern);
    forall i ensures FirstOccurrence(s, pattern, i) <==> i >= 1 && FirstOccurrence(s[1..], pattern, i - 1) {
      if FirstOccurrence(s, pattern, i) {
        assert i >= 1;
        forall j | 0 <= j < i - 1 ensures !OccursAt(s[1..], pattern, j) {
          assert !OccursAt(s, pattern, j + 1);
        }
      }
      if i >= 1 && FirstOccurrence(s[1..], pattern, i - 1) {
        forall j | 0 <= j < i ensures !OccursAt(s, pattern, j) {
          if j > 0 {
            assert !OccursAt(s[1..], pattern, j - 1);
          }
        }
      }
    }
    if Absent(s[1..], pattern) {
      forall k ensures !OccursAt(s, pattern, k) {
        if k > 0 {
          assert !OccursAt(s[1..], pattern, k - 1);
        }
      }
    }
    if Absent(s, pattern) {
      forall k ensures !OccursAt(s[1..], pattern, k) {
        if k >= 0 {
          assert !OccursAt(s, pattern, k + 1);
        }
      }
    }
  }

  /** A leftmost occurrence past index 0 is the leftmost one of s[1..],
      one index down; s does not start with the pattern. */
  lemma LaterOccurrence(s: string, pattern: string, i: int)
    requires FirstOccurrence(s, pattern, i) && i >= 1
    ensures FirstOccurrence(s[1..], pattern, i - 1)
    ensures pattern != [] && i + |pattern| <= |s| && s[..|pattern|] != pattern
    ensures s[1..][i - 1 + |pattern|..] == s[i + |pattern|..]
  {
    assert !OccursAt(s, pattern, 0);
    FirstOccurrenceShift(s, pattern);
    DropShift(s, i + |pattern|);
  }

  /** How the slices of s[1..] sit inside s. */
  lemma DropShift<T>(s: seq<T>, k: int)
    requires 1 <= k <= |s|
    ensures s[1..][k - 1..] == s[k..]
  {
  }

  lemma ConsSplice<T>(s: seq<T>, i: int, rest: seq<T>)
    requires 1 <= i <= |s|
    ensures [s[0]] + (s[1..][..i - 1] + rest) == s[..i] + rest
  {
    assert [s[0]] + s[1..][..i - 1] == s[..i];
  }

  // ---- XP ----

  datatype XpInfo = XpInfo(level: int, totalXp: int, xpForNextLevel: int, xpProgressInLevel: int)

  // ---- boss ----

  datatype BossType = StatBoss | CalendarBoss

  /** The value of a boss record's fields at one moment. */
  datatype BossView = BossView(
    name: string,
    bossType: BossType,
    hp: int,
    maxHp: int,
    daysRemaining: int,
    active: bool,
    defeated: bool)

  datatype Penalty = Penalty(effect: string, energyPenalty: int, focusPenalty: int, durationDays: int)

  /** The fixed penalty a boss that escaped undefeated hands out. */
  const DEMOTIVATED := Penalty("demotivated", 5, 5, 1)

  datatype CalendarEvent = CalendarEvent(name: string, daysLeft: int)

  /** The name a calendar boss is given: the event's name followed by " Stress". */
  function CalendarBossName(eventName: string): (name: string)
    ensures |name| == |eventName| + 7
    ensures name[..|eventName|] == eventName
    ensures name[|eventName|..] == " Stress"
  {
    eventName + " Stress"
  }
}
