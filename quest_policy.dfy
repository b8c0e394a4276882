/**
 * The greedy three-pass daily quest selection both engines implement, stated
 * for any quest pool, any list of weak stats and any list of recent quest ids:
 *   1. for each weak stat in order, the first unselected, non-recent
 *      corrective quest of the pool that targets it;
 *   2. the non-recent, unselected support quests of the pool in order, the
 *      scan stopping as soon as the selection holds at least three quests;
 *   3. the first non-recent, unselected preventive quest;
 * and the result cut to its first four quests.  Each engine supplies its
 * own pool and its own weak-stat rule.
 */
module QuestPolicy {
  import opened Common

  /** Not picked yesterday and not already picked today. */
  predicate Eligible(q: Quest, recent: seq<string>, selected: seq<Quest>) {
    q.id !in recent && q !in selected
  }

  predicate CorrectiveFor(q: Quest, stat: StatName, recent: seq<string>, selected: seq<Quest>) {
    stat in q.targets && Eligible(q, recent, selected) && q.questType == Corrective
  }

  predicate SupportPick(q: Quest, recent: seq<string>, selected: seq<Quest>) {
    q.questType == Support && Eligible(q, recent, selected)
  }

  predicate PreventivePick(q: Quest, recent: seq<string>, selected: seq<Quest>) {
    q.questType == Preventive && Eligible(q, recent, selected)
  }

  /** The first quest of `pool` that is a corrective pick for `stat`. */
  function FirstCorrective(pool: seq<Quest>, stat: StatName, recent: seq<string>, selected: seq<Quest>): (r: Option<Quest>)
    ensures r.Some? ==> r.value in pool && CorrectiveFor(r.value, stat, recent, selected)
    ensures r.None? ==> forall q :: q in pool ==> !CorrectiveFor(q, stat, recent, selected)
  {
    if pool == [] then None
    else if CorrectiveFor(pool[0], stat, recent, selected) then Some(pool[0])
    else FirstCorrective(pool[1..], stat, recent, selected)
  }

  /** Pass 1 over the weak stats still to be handled. */
  function CorrectivePass(pool: seq<Quest>, weak: seq<StatName>, recent: seq<string>, selected: seq<Quest>): seq<Quest>
    decreases |weak|
  {
    if weak == [] then selected
    else
      var next := match FirstCorrective(pool, weak[0], recent, selected)
        case None => selected
        case Some(q) => selected + [q];
      CorrectivePass(pool, weak[1..], recent, next)
  }

  /** Pass 2 over the remaining part `rest` of the pool: pick the support
      quest in front if it is eligible, then stop once three are selected. */
  function SupportPass(rest: seq<Quest>, recent: seq<string>, selected: seq<Quest>): seq<Quest>
    decreases |rest|
  {
    if rest == [] then selected
    else
      var next := if SupportPick(rest[0], recent, selected) then selected + [rest[0]] else selected;
      if |next| >= 3 then next else SupportPass(rest[1..], recent, next)
  }

  /** The first quest of `pool` that is a preventive pick. */
  function FirstPreventive(pool: seq<Quest>, recent: seq<string>, selected: seq<Quest>): (r: Option<Quest>)
    ensures r.Some? ==> r.value in pool && PreventivePick(r.value, recent, selected)
    ensures r.None? ==> forall q :: q in pool ==> !PreventivePick(q, recent, selected)
  {
    if pool == [] then None
    else if PreventivePick(pool[0], recent, selected) then Some(pool[0])
    else FirstPreventive(pool[1..], recent, selected)
  }

  /** Pass 3: at most one preventive quest. */
  function PreventivePass(pool: seq<Quest>, recent: seq<string>, selected: seq<Quest>): seq<Quest> {
    match FirstPreventive(pool, recent, selected)
    case None => selected
    case Some(q) => selected + [q]
  }

  /** The first (at most) four quests of `s`. */
  function TakeFour(s: seq<Quest>): (r: seq<Quest>)
    ensures |r| == if |s| <= 4 then |s| else 4
    ensures r == s[..|r|]
    ensures |s| <= 4 ==> r == s
  {
    if |s| <= 4 then s else s[..4]
  }

  /** The day's quest board chosen from `pool`. */
  function Select(pool: seq<Quest>, weak: seq<StatName>, recent: seq<string>): seq<Quest> {
    TakeFour(PreventivePass(pool, recent, SupportPass(pool, recent, CorrectivePass(pool, weak, recent, []))))
  }

  /** The selection as both engines write it: three loops over the pool with
      early exits, one per pass, then the first four. */
  method SelectQuests(pool: seq<Quest>, weakStats: seq<StatName>, recentQuests: seq<string>) returns (quests: seq<Quest>)
    ensures quests == Select(pool, weakStats, recentQuests)
  {
    var selected := CorrectiveLoop(pool, weakStats, recentQuests);
    selected := SupportLoop(pool, recentQuests, selected);
    selected := PreventiveLoop(pool, recentQuests, selected);
    quests := if |selected| <= 4 then selected else selected[..4];
  }

  /** Corrective quests for weak stats: for each weak stat, the first
      matching pool quest, the inner scan stopping at it. */
  method CorrectiveLoop(pool: seq<Quest>, weakStats: seq<StatName>, recentQuests: seq<string>) returns (selected: seq<Quest>)
    ensures selected == CorrectivePass(pool, weakStats, recentQuests, [])
  {
    selected := [];
    for i := 0 to |weakStats|
      invariant CorrectivePass(pool, weakStats[i..], recentQuests, selected)
             == CorrectivePass(pool, weakStats, recentQuests, [])
    {
      var stat := weakStats[i];
      ghost var before := selected;
      ghost var pick := FirstCorrective(pool, stat, recentQuests, before);
      for k := 0 to |pool|
        invariant selected == before
        invariant FirstCorrective(pool[k..], stat, recentQuests, before) == pick
      {
        var quest := pool[k];
        assert pool[k..][0] == quest && pool[k..][1..] == pool[k + 1..];
        if stat in quest.targets && quest.id !in recentQuests && quest !in selected && quest.questType == Corrective {
          selected := selected + [quest];
          break;
        }
      }
      assert selected == match pick case None => before case Some(q) => before + [q];
      assert weakStats[i..][0] == stat && weakStats[i..][1..] == weakStats[i + 1..];
    }
  }

  /** Support quests, the scan stopping once three quests are selected. */
  method SupportLoop(pool: seq<Quest>, recentQuests: seq<string>, start: seq<Quest>) returns (selected: seq<Quest>)
    ensures selected == SupportPass(pool, recentQuests, start)
  {
    selected := start;
    for k := 0 to |pool|
      invariant SupportPass(pool[k..], recentQuests, selected) == SupportPass(pool, recentQuests, start)
    {
      var quest := pool[k];
      assert pool[k..][0] == quest && pool[k..][1..] == pool[k + 1..];
      if quest.questType == Support && quest.id !in recentQuests && quest !in selected {
        selected := selected + [quest];
      }
      if |selected| >= 3 {
        break;
      }
    }
  }

  /** One preventive quest, the first eligible one. */
  method PreventiveLoop(pool: seq<Quest>, recentQuests: seq<string>, start: seq<Quest>) returns (selected: seq<Quest>)
    ensures selected == PreventivePass(pool, recentQuests, start)
  {
    selected := start;
    ghost var pick := FirstPreventive(pool, recentQuests, start);
    for k := 0 to |pool|
      invariant selected == start
      invariant FirstPreventive(pool[k..], recentQuests, start) == pick
    {
      var quest := pool[k];
      assert pool[k..][0] == quest && pool[k..][1..] == pool[k + 1..];
      if quest.questType == Preventive && quest.id !in recentQuests && quest !in selected {
        selected := selected + [quest];
        break;
      }
    }
  }

  // ---- what every selection satisfies ----

  /** The invariants the passes keep: drawn from the pool, pairwise
      distinct, nothing recent, and a corrective quest only when it targets
      one of the weak stats. */
  ghost predicate Good(pool: seq<Quest>, weak: seq<StatName>, recent: seq<string>, s: seq<Quest>) {
    && (forall q :: q in s ==> q in pool)
    && NoDuplicates(s)
    && (forall q :: q in s ==> q.id !in recent)
    && (forall q :: q in s && q.questType == Corrective ==> exists t :: t in weak && t in q.targets)
  }

  ghost predicate NoPreventive(s: seq<Quest>) {
    forall q :: q in s ==> q.questType != Preventive
  }

  ghost predicate AtMostOnePreventive(s: seq<Quest>) {
    forall i, j :: 0 <= i < |s| && 0 <= j < |s| && s[i].questType == Preventive && s[j].questType == Preventive ==> i == j
  }

  lemma GoodAppend(pool: seq<Quest>, weak: seq<StatName>, recent: seq<string>, s: seq<Quest>, q: Quest)
    requires Good(pool, weak, recent, s)
    requires q in pool && Eligible(q, recent, s)
    requires q.questType == Corrective ==> exists t :: t in weak && t in q.targets
    ensures Good(pool, weak, recent, s + [q])
  {
    var s' := s + [q];
    forall i, j | 0 <= i < j < |s'| ensures s'[i] != s'[j] {
      if j == |s| {
        assert s'[i] == s[i];
      }
    }
  }

  lemma {:induction false} CorrectivePassGood(pool: seq<Quest>, weak: seq<StatName>, rest: seq<StatName>, recent: seq<string>, s: seq<Quest>)
    requires forall t :: t in rest ==> t in weak
    requires Good(pool, weak, recent, s) && NoPreventive(s)
    ensures Good(pool, weak, recent, CorrectivePass(pool, rest, recent, s))
    ensures NoPreventive(CorrectivePass(pool, rest, recent, s))
    ensures |CorrectivePass(pool, rest, recent, s)| <= |s| + |rest|
    decreases |rest|
  {
    if rest != [] {
      match FirstCorrective(pool, rest[0], recent, s)
      case None =>
        CorrectivePassGood(pool, weak, rest[1..], recent, s);
      case Some(q) =>
        GoodAppend(pool, weak, recent, s, q);
        CorrectivePassGood(pool, weak, rest[1..], recent, s + [q]);
    }
  }

  lemma {:induction false} SupportPassGood(pool: seq<Quest>, weak: seq<StatName>, rest: seq<Quest>, recent: seq<string>, s: seq<Quest>)
    requires forall q :: q in rest ==> q in pool
    requires Good(pool, weak, recent, s) && NoPreventive(s)
    ensures Good(pool, weak, recent, SupportPass(rest, recent, s))
    ensures NoPreventive(SupportPass(rest, recent, s))
    ensures |SupportPass(rest, recent, s)| <= if |s| >= 3 then |s| + 1 else 3
    decreases |rest|
  {
    if rest != [] {
      var next := if SupportPick(rest[0], recent, s) then s + [rest[0]] else s;
      if SupportPick(rest[0], recent, s) {
        GoodAppend(pool, weak, recent, s, rest[0]);
      }
      if |next| < 3 {
        SupportPassGood(pool, weak, rest[1..], recent, next);
      }
    }
  }

  lemma PreventivePassGood(pool: seq<Quest>, weak: seq<StatName>, recent: seq<string>, s: seq<Quest>)
    requires Good(pool, weak, recent, s) && NoPreventive(s)
    ensures Good(pool, weak, recent, PreventivePass(pool, recent, s))
    ensures AtMostOnePreventive(PreventivePass(pool, recent, s))
    ensures |PreventivePass(pool, recent, s)| <= |s| + 1
  {
    match FirstPreventive(pool, recent, s)
    case None =>
    case Some(q) =>
      GoodAppend(pool, weak, recent, s, q);
      var s' := s + [q];
      assert forall k :: 0 <= k < |s| ==> s'[k] == s[k];
  }

  lemma PrefixGood(pool: seq<Quest>, weak: seq<StatName>, recent: seq<string>, s: seq<Quest>, n: nat)
    requires n <= |s|
    requires Good(pool, weak, recent, s) && AtMostOnePreventive(s)
    ensures Good(pool, weak, recent, s[..n]) && AtMostOnePreventive(s[..n])
  {
    forall q | q in s[..n] ensures q in s {
      var k :| 0 <= k < n && s[..n][k] == q;
      assert s[k] == q;
    }
  }

  /** Every daily selection holds at most four quests, all from the pool,
      pairwise distinct, none of them recent, at most one of them preventive,
      and a corrective one only if it targets a weak stat. */
  lemma SelectProperties(pool: seq<Quest>, weak: seq<StatName>, recent: seq<string>)
    ensures var r := Select(pool, weak, recent);
      && |r| <= 4
      && Good(pool, weak, recent, r)
      && AtMostOnePreventive(r)
  {
    CorrectivePassGood(pool, weak, weak, recent, []);
    var s1 := CorrectivePass(pool, weak, recent, []);
    SupportPassGood(pool, weak, pool, recent, s1);
    var s2 := SupportPass(pool, recent, s1);
    PreventivePassGood(pool, weak, recent, s2);
    var s3 := PreventivePass(pool, recent, s2);
    PrefixGood(pool, weak, recent, s3, |TakeFour(s3)|);
  }

  // ---- the board of a two-two-two pool ----

  /** The selection with no weak stat and nothing recent over a pool of two
      corrective, two distinct support and two preventive quests. */
  lemma DefaultBoardOfShape(c1: Quest, c2: Quest, s1: Quest, s2: Quest, p1: Quest, p2: Quest)
    requires c1.questType == Corrective && c2.questType == Corrective
    requires s1.questType == Support && s2.questType == Support && s1 != s2
    requires p1.questType == Preventive && p2.questType == Preventive
    ensures Select([c1, c2, s1, s2, p1, p2], [], []) == [s1, s2, p1]
  {
    var p := [c1, c2, s1, s2, p1, p2];
    assert CorrectivePass(p, [], [], []) == [];
    SupportOfShape(c1, c2, s1, s2, p1, p2);
    PreventiveOfShape(c1, c2, s1, s2, p1, p2);
  }

  lemma SupportOfShape(c1: Quest, c2: Quest, s1: Quest, s2: Quest, p1: Quest, p2: Quest)
    requires c1.questType == Corrective && c2.questType == Corrective
    requires s1.questType == Support && s2.questType == Support && s1 != s2
    requires p1.questType == Preventive && p2.questType == Preventive
    ensures SupportPass([c1, c2, s1, s2, p1, p2], [], []) == [s1, s2]
  {
    var p := [c1, c2, s1, s2, p1, p2];
    var wb := [s1, s2];
    var tail2 := [p1, p2];
    assert tail2[1..] == [p2] && [p2][1..] == [];
    assert SupportPass([p2], [], wb) == wb;
    assert SupportPass(tail2, [], wb) == wb;
    var tail3 := [s2, p1, p2];
    assert tail3[0] == s2 && tail3[1..] == tail2;
    assert [s1] + [s2] == wb;
    assert SupportPass(tail3, [], [s1]) == wb;
    var tail4 := [s1, s2, p1, p2];
    assert tail4[0] == s1 && tail4[1..] == tail3 && [] + [s1] == [s1];
    assert SupportPass(tail4, [], []) == wb;
    assert p[1..] == [c2] + tail4 && p[1..][1..] == tail4;
    assert SupportPass(p[1..], [], []) == wb;
  }

  lemma PreventiveOfShape(c1: Quest, c2: Quest, s1: Quest, s2: Quest, p1: Quest, p2: Quest)
    requires c1.questType == Corrective && c2.questType == Corrective
    requires s1.questType == Support && s2.questType == Support
    requires p1.questType == Preventive && p2.questType == Preventive
    ensures PreventivePass([c1, c2, s1, s2, p1, p2], [], [s1, s2]) == [s1, s2, p1]
  {
    var p := [c1, c2, s1, s2, p1, p2];
    var wb := [s1, s2];
    var tail2 := [p1, p2];
    var tail3 := [s2, p1, p2];
    var tail4 := [s1, s2, p1, p2];
    assert tail3[1..] == tail2 && tail4[1..] == tail3 && p[1..][1..] == tail4;
    assert FirstPreventive(tail2, [], wb) == Some(p1);
    assert FirstPreventive(tail3, [], wb) == Some(p1);
    assert FirstPreventive(tail4, [], wb) == Some(p1);
    assert FirstPreventive(p[1..], [], wb) == Some(p1);
  }
}
