/**
 * The quest rule of the character service: three stats read from a record
 * (missing ones count as 100), each clamped to [0,100], decide which of three
 * quests are handed out, in a fixed order; when none applies the player gets
 * the daily quest instead.
 */
module CharacterLogic {
  import opened Common

  /** The stat record as the service receives it. */
  type StatRecord = map<string, int>

  datatype Kind = CorrectiveKind | BossChallenge | Daily

  datatype CharQuest = CharQuest(id: string, task: string, kind: Kind)

  const POWER_NAP := CharQuest("q1", "20-minute Power Nap", CorrectiveKind)
  const DRINK_WATER := CharQuest("q2", "Drink 500ml Water", CorrectiveKind)
  const DEEP_WORK := CharQuest("q3", "1-hour Deep Work Sprint", BossChallenge)
  const POSITIVE_HABIT := CharQuest("q4", "Log one positive habit", Daily)

  /** stats.get(key, 100), clamped to [0,100]. */
  function Reading(stats: StatRecord, key: string): (v: int)
    ensures 0 <= v <= 100
    ensures key !in stats ==> v == 100
    ensures key in stats && 0 <= stats[key] <= 100 ==> v == stats[key]
  {
    Clamp(if key in stats then stats[key] else 100, 0, 100)
  }

  ghost predicate NeedsNap(stats: StatRecord) { Reading(stats, "energy") < 30 }
  ghost predicate NeedsWater(stats: StatRecord) { Reading(stats, "health") < 50 }
  ghost predicate ReadyForDeepWork(stats: StatRecord) { Reading(stats, "focus") > 80 }

  /** generate_quests: the conditional appends, in the order the service
      makes them.  The result is never empty; each of q1, q2, q3 is present
      exactly when its clamped test holds, in that order; q4 is present, and
      then alone, exactly when none of them is. */
  method GenerateQuests(stats: StatRecord) returns (quests: seq<CharQuest>)
    ensures quests != []
    ensures |quests| <= 3
    ensures POWER_NAP in quests <==> NeedsNap(stats)
    ensures DRINK_WATER in quests <==> NeedsWater(stats)
    ensures DEEP_WORK in quests <==> ReadyForDeepWork(stats)
    ensures POSITIVE_HABIT in quests <==> !NeedsNap(stats) && !NeedsWater(stats) && !ReadyForDeepWork(stats)
    ensures POSITIVE_HABIT in quests ==> quests == [POSITIVE_HABIT]
    ensures POSITIVE_HABIT !in quests ==> IsSubsequence(quests, [POWER_NAP, DRINK_WATER, DEEP_WORK])
  {
    var energy := Reading(stats, "energy");
    var health := Reading(stats, "health");
    var focus := Reading(stats, "focus");

    quests := [];
    if energy < 30 {
      quests := quests + [POWER_NAP];
    }
    ghost var afterNap := quests;
    if health < 50 {
      quests := quests + [DRINK_WATER];
    }
    ghost var afterWater := quests;
    if focus > 80 {
      quests := quests + [DEEP_WORK];
    }
    OrderedPicks(afterNap, afterWater, quests);
    if quests == [] {
      quests := quests + [POSITIVE_HABIT];
    }
  }

  /** The three optional appends leave a subsequence of [q1, q2, q3]. */
  lemma OrderedPicks(afterNap: seq<CharQuest>, afterWater: seq<CharQuest>, quests: seq<CharQuest>)
    requires afterNap == [] || afterNap == [POWER_NAP]
    requires afterWater == afterNap || afterWater == afterNap + [DRINK_WATER]
    requires quests == afterWater || quests == afterWater + [DEEP_WORK]
    ensures IsSubsequence(quests, [POWER_NAP, DRINK_WATER, DEEP_WORK])
  {
    var order := [POWER_NAP, DRINK_WATER, DEEP_WORK];
    assert order[1..] == [DRINK_WATER, DEEP_WORK];
    assert order[1..][1..] == [DEEP_WORK];
    assert order[1..][1..][1..] == [];
    var tail := if quests == afterWater then [] else [DEEP_WORK];
    assert IsSubsequence(tail, [DEEP_WORK]) by {
      if tail != [] {
        assert tail[1..] == [];
      }
    }
    var mid := (if afterWater == afterNap then [] else [DRINK_WATER]) + tail;
    assert IsSubsequence(mid, order[1..]) by {
      if afterWater != afterNap {
        assert mid[0] == DRINK_WATER && mid[1..] == tail;
      } else {
        assert mid == tail;
        assert IsSubsequence(tail, order[1..][1..]);
      }
    }
    assert quests == afterNap + mid;
    if afterNap != [] {
      assert quests[0] == POWER_NAP && quests[1..] == mid;
    }
  }

  /** An empty record reads 100 for every stat: no corrective quest, but the
      deep-work challenge, since 100 is above 80. */
  lemma EmptyRecordReadings()
    ensures !NeedsNap(map[]) && !NeedsWater(map[]) && ReadyForDeepWork(map[])
  {
  }

  /** Out-of-range values act as the nearest bound: any negative energy
      calls for the nap and any focus above 100 for the deep-work sprint. */
  lemma OutOfRangeClamped(stats: StatRecord)
    requires "energy" in stats && stats["energy"] < 0
    requires "focus" in stats && stats["focus"] > 100
    ensures Reading(stats, "energy") == 0 && NeedsNap(stats)
    ensures Reading(stats, "focus") == 100 && ReadyForDeepWork(stats)
  {
  }

  /** The boundaries: energy 30, health 50 and focus 80 trigger nothing. */
  lemma ThresholdsAreStrict(stats: StatRecord)
    requires "energy" in stats && stats["energy"] == 30
    requires "health" in stats && stats["health"] == 50
    requires "focus" in stats && stats["focus"] == 80
    ensures !NeedsNap(stats) && !NeedsWater(stats) && !ReadyForDeepWork(stats)
  {
  }
}
