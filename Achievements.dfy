/** The achievement catalogue of scripts/progress-dashboard.js (`AchievementSystem`)
    and the per-achievement tables the dashboard reads: points, rarity, targets, hints. */
module Achievements {
  import opened Wrappers
  import opened ProgressRecord
  import opened Sequences

  /** The threshold each catalogue entry's `condition` closure tests. */
  datatype Rule =
    | TotalAtLeast(n: nat)                  // userData.totalChallenges >= n
    | StreakAtLeast(n: nat)                 // userData.streakData.current >= n
    | SkillAtLeast(skill: string, n: nat)   // userData.skillProgress[skill] >= n

  datatype Achievement = Achievement(id: string, name: string, description: string, icon: string, rule: Rule)

  /** Whether a rule's condition is true of a record. An absent skill key compares as `undefined`,
      which is never `>= n`. No rule looks at the achievements already held. */
  predicate Holds(rule: Rule, r: ProgressRecord) {
    match rule
    case TotalAtLeast(n) => r.totalChallenges >= n
    case StreakAtLeast(n) => r.streakData.current >= n
    case SkillAtLeast(k, n) => SkillCount(r.skillProgress, k).Some? && SkillCount(r.skillProgress, k).value >= n
  }

  /** The fixed seven-entry catalogue, in the order `checkAndUnlock` walks it. */
  const Catalogue: seq<Achievement> := [
    Achievement("first_challenge", "First Steps", "Complete your first challenge", "\U{1F3AF}", TotalAtLeast(1)),
    Achievement("streak_3", "Getting Started", "Maintain a 3-day coding streak", "\U{1F525}", StreakAtLeast(3)),
    Achievement("streak_7", "Week Warrior", "Maintain a 7-day coding streak", "\U{1F4C5}", StreakAtLeast(7)),
    Achievement("challenge_10", "Problem Solver", "Complete 10 challenges", "\U{1F9E9}", TotalAtLeast(10)),
    Achievement("challenge_25", "Code Master", "Complete 25 challenges", "\U{1F451}", TotalAtLeast(25)),
    Achievement("array_expert", "Array Expert", "Complete 5 array challenges", "\U{1F4CA}", SkillAtLeast("arrays", 5)),
    Achievement("algorithm_wizard", "Algorithm Wizard", "Complete 5 algorithm challenges", "\U{1F9D9}\U{200D}\U{2642}\U{FE0F}", SkillAtLeast("algorithms", 5))
  ]

  function Ids(cat: seq<Achievement>): (ids: seq<string>)
    ensures |ids| == |cat| && forall i :: 0 <= i < |cat| ==> ids[i] == cat[i].id
  {
    Map((a: Achievement) => a.id, cat)
  }

  const CatalogueIds: seq<string> :=
    ["first_challenge", "streak_3", "streak_7", "challenge_10", "challenge_25", "array_expert", "algorithm_wizard"]

  lemma CatalogueIdsDistinct()
    ensures Ids(Catalogue) == CatalogueIds && NoDuplicates(CatalogueIds)
  {
  }

  /** The entries a single pass over `cat` should unlock: those whose id is not held yet and
      whose rule holds, in catalogue order. */
  function Eligible(cat: seq<Achievement>, r: ProgressRecord, owned: seq<string>): seq<Achievement>
  {
    if cat == [] then []
    else (if cat[0].id !in owned && Holds(cat[0].rule, r) then [cat[0]] else []) + Eligible(cat[1..], r, owned)
  }

  /** One pass of `checkAndUnlock` over `cat`, starting from the held ids `owned`: the ids held
      afterwards and the entries newly unlocked, in the order they were appended. */
  function Unlock(cat: seq<Achievement>, r: ProgressRecord, owned: seq<string>): (res: (seq<string>, seq<Achievement>))
    ensures res.0 == owned + Ids(res.1)
    decreases |cat|
  {
    if cat == [] then (owned, [])
    else
      var a := cat[0];
      if a.id !in owned && Holds(a.rule, r) then
        var t := Unlock(cat[1..], r, owned + [a.id]);
        assert Ids([a] + t.1) == [a.id] + Ids(t.1);
        (t.0, [a] + t.1)
      else
        Unlock(cat[1..], r, owned)
  }

  /** Every entry a pass unlocks comes from the catalogue, was not held before and has its rule true. */
  lemma {:induction false} UnlockSound(cat: seq<Achievement>, r: ProgressRecord, owned: seq<string>, a: Achievement)
    requires a in Unlock(cat, r, owned).1
    ensures a in cat && a.id !in owned && Holds(a.rule, r)
    decreases |cat|
  {
    var b := cat[0];
    if b.id !in owned && Holds(b.rule, r) {
      if a != b {
        UnlockSound(cat[1..], r, owned + [b.id], a);
      }
    } else {
      UnlockSound(cat[1..], r, owned, a);
    }
  }

  /** After a pass, every catalogue entry whose rule holds is held. */
  lemma {:induction false} UnlockComplete(cat: seq<Achievement>, r: ProgressRecord, owned: seq<string>, a: Achievement)
    requires a in cat && Holds(a.rule, r)
    ensures a.id in Unlock(cat, r, owned).0
    decreases |cat|
  {
    var b := cat[0];
    var owned' := if b.id !in owned && Holds(b.rule, r) then owned + [b.id] else owned;
    assert Unlock(cat, r, owned) == (if b.id !in owned && Holds(b.rule, r) then
      var t := Unlock(cat[1..], r, owned'); (t.0, [b] + t.1) else Unlock(cat[1..], r, owned'));
    assert Unlock(cat, r, owned).0 == Unlock(cat[1..], r, owned').0;
    if a == b {
      assert a.id in owned';
      assert owned' <= Unlock(cat[1..], r, owned').0;
    } else {
      UnlockComplete(cat[1..], r, owned', a);
    }
  }

  lemma {:induction false} NoDuplicatesAppend(s: seq<string>, x: string)
    requires NoDuplicates(s) && x !in s
    ensures NoDuplicates(s + [x])
  {
    assert forall i :: 0 <= i < |s| ==> (s + [x])[i] == s[i];
  }

  /** A pass never appends an id twice: a held list without repeats stays without repeats. */
  lemma {:induction false} UnlockKeepsDistinct(cat: seq<Achievement>, r: ProgressRecord, owned: seq<string>)
    requires NoDuplicates(owned)
    ensures NoDuplicates(Unlock(cat, r, owned).0)
    decreases |cat|
  {
    if cat != [] {
      var a := cat[0];
      if a.id !in owned && Holds(a.rule, r) {
        NoDuplicatesAppend(owned, a.id);
        UnlockKeepsDistinct(cat[1..], r, owned + [a.id]);
      } else {
        UnlockKeepsDistinct(cat[1..], r, owned);
      }
    }
  }

  /** With distinct catalogue ids, what one pass unlocks is exactly the eligible entries, in
      catalogue order: ids appended earlier in the pass never shadow a later entry. */
  lemma {:induction false} UnlockIsEligible(cat: seq<Achievement>, r: ProgressRecord, owned: seq<string>)
    requires NoDuplicates(Ids(cat))
    ensures Unlock(cat, r, owned).1 == Eligible(cat, r, owned)
    decreases |cat|
  {
    if cat != [] {
      var a := cat[0];
      assert Ids(cat[1..]) == Ids(cat)[1..];
      assert NoDuplicates(Ids(cat[1..]));
      if a.id !in owned && Holds(a.rule, r) {
        UnlockIsEligible(cat[1..], r, owned + [a.id]);
        EligibleIgnoresForeignIds(cat[1..], r, owned, a.id);
      } else {
        UnlockIsEligible(cat[1..], r, owned);
      }
    }
  }

  lemma {:induction false} EligibleIgnoresForeignIds(cat: seq<Achievement>, r: ProgressRecord, owned: seq<string>, x: string)
    requires x !in Ids(cat)
    ensures Eligible(cat, r, owned + [x]) == Eligible(cat, r, owned)
    decreases |cat|
  {
    if cat != [] {
      assert cat[0].id == Ids(cat)[0];
      assert Ids(cat[1..]) == Ids(cat)[1..];
      EligibleIgnoresForeignIds(cat[1..], r, owned, x);
    }
  }

  lemma {:induction false} EligibleEmpty(cat: seq<Achievement>, r: ProgressRecord, owned: seq<string>)
    requires forall a :: a in cat && Holds(a.rule, r) ==> a.id in owned
    ensures Eligible(cat, r, owned) == []
    decreases |cat|
  {
    if cat != [] {
      EligibleEmpty(cat[1..], r, owned);
    }
  }

  /** Running the check twice on the same record unlocks nothing the second time. */
  lemma UnlockIdempotent(cat: seq<Achievement>, r: ProgressRecord, owned: seq<string>)
    requires NoDuplicates(Ids(cat))
    ensures var once := Unlock(cat, r, owned).0; Unlock(cat, r, once) == (once, [])
  {
    var once := Unlock(cat, r, owned).0;
    forall a | a in cat && Holds(a.rule, r) ensures a.id in once {
      UnlockComplete(cat, r, owned, a);
    }
    UnlockIsEligible(cat, r, once);
    EligibleEmpty(cat, r, once);
  }

  /** The `AchievementSystem` object: the catalogue is fixed, `newlyUnlocked` is replaced on every check. */
  class AchievementSystem {
    var newlyUnlocked: seq<Achievement>

    constructor ()
      ensures newlyUnlocked == []
    {
      newlyUnlocked := [];
    }

    /** `getAllAchievements`: the seven catalogue entries, with distinct ids. */
    function GetAllAchievements(): (all: seq<Achievement>)
      ensures Ids(all) == CatalogueIds && NoDuplicates(Ids(all))
    {
      CatalogueIdsDistinct();
      Catalogue
    }

    /** `getNewAchievements`: the entries the latest `checkAndUnlock` unlocked. */
    function GetNewAchievements(): (news: seq<Achievement>)
      reads this
      ensures news == newlyUnlocked
    {
      newlyUnlocked
    }

    /** `checkAndUnlock(userData)`: appends the id of every entry not yet held whose condition holds,
        and returns (and keeps in `newlyUnlocked`) the entries unlocked by this call only. */
    method CheckAndUnlock(userData: ProgressRecord) returns (updated: ProgressRecord, unlocked: seq<Achievement>)
      modifies this
      ensures (updated.achievements, unlocked) == Unlock(Catalogue, userData, userData.achievements)
      ensures updated == userData.(achievements := updated.achievements)
      ensures newlyUnlocked == unlocked
    {
      updated, unlocked := UnlockPass(Catalogue, userData);
      newlyUnlocked := unlocked;
    }
  }

  /** The `forEach` of `checkAndUnlock` over a catalogue: the record is updated in place as the
      walk goes, so each condition sees the ids appended before it. */
  method UnlockPass(cat: seq<Achievement>, userData: ProgressRecord) returns (updated: ProgressRecord, unlocked: seq<Achievement>)
    ensures (updated.achievements, unlocked) == Unlock(cat, userData, userData.achievements)
    ensures updated == userData.(achievements := updated.achievements)
  {
    unlocked := [];
    updated := userData;
    ghost var goal := Unlock(cat, userData, userData.achievements);
    assert cat[0..] == cat;
    var i := 0;
    while i < |cat|
      invariant 0 <= i <= |cat|
      invariant updated == userData.(achievements := updated.achievements)
      invariant Unlock(cat[i..], userData, updated.achievements).0 == goal.0
      invariant unlocked + Unlock(cat[i..], userData, updated.achievements).1 == goal.1
    {
      var achievement := cat[i];
      assert cat[i..][0] == achievement && cat[i..][1..] == cat[i + 1..];
      assert Holds(achievement.rule, updated) == Holds(achievement.rule, userData);
      if achievement.id !in updated.achievements && Holds(achievement.rule, updated) {
        ghost var t := Unlock(cat[i + 1..], userData, updated.achievements + [achievement.id]);
        assert unlocked + ([achievement] + t.1) == (unlocked + [achievement]) + t.1;
        updated := updated.(achievements := updated.achievements + [achievement.id]);
        unlocked := unlocked + [achievement];
      }
      i := i + 1;
    }
    assert cat[i..] == [];
    assert Unlock(cat[i..], userData, updated.achievements) == (updated.achievements, []);
    assert unlocked + [] == unlocked;
  }

  /** `getAchievementPoints`: the XP table, 50 for an id it does not list. */
  function GetAchievementPoints(id: string): (p: nat)
    ensures 50 <= p <= 1000
    ensures id !in CatalogueIds ==> p == 50
  {
    match id
    case "first_challenge" => 50
    case "streak_3" => 100
    case "streak_7" => 250
    case "challenge_10" => 300
    case "challenge_25" => 750
    case "array_expert" => 500
    case "algorithm_wizard" => 1000
    case _ => 50
  }

  /** `calculateTotalXP`: the points of the held ids, summed left to right. */
  function TotalXP(ids: seq<string>): (xp: nat)
    ensures 50 * |ids| <= xp <= 1000 * |ids|
  {
    if ids == [] then 0 else TotalXP(ids[..|ids| - 1]) + GetAchievementPoints(ids[|ids| - 1])
  }

  /** XP is additive over appended ids, so unlocking never lowers it. */
  lemma {:induction false} TotalXPAppend(a: seq<string>, b: seq<string>)
    ensures TotalXP(a + b) == TotalXP(a) + TotalXP(b)
    decreases |b|
  {
    if b == [] {
      assert a + b == a;
    } else {
      assert (a + b)[..|a + b| - 1] == a + b[..|b| - 1];
      TotalXPAppend(a, b[..|b| - 1]);
    }
  }

  /** `getAchievementRarity`: the rarity class, `common` for an id it does not list. */
  function GetAchievementRarity(id: string): (rarity: string)
    ensures rarity in {"common", "uncommon", "rare", "epic"}
    ensures id !in CatalogueIds ==> rarity == "common"
  {
    match id
    case "streak_7" => "uncommon"
    case "challenge_10" => "uncommon"
    case "challenge_25" => "rare"
    case "array_expert" => "rare"
    case "algorithm_wizard" => "epic"
    case _ => "common"
  }

  /** `getAchievementTarget`: the threshold shown in a progress bar; `first_challenge` has none. */
  function GetAchievementTarget(id: string): (target: Option<nat>)
    ensures target.Some? <==> id in CatalogueIds && id != "first_challenge"
    ensures target.Some? ==> target.value >= 3
  {
    match id
    case "challenge_10" => Some(10)
    case "challenge_25" => Some(25)
    case "streak_3" => Some(3)
    case "streak_7" => Some(7)
    case "array_expert" => Some(5)
    case "algorithm_wizard" => Some(5)
    case _ => None
  }

  /** `getUserProgressForAchievement`: the figure a target is measured against, or `null`. */
  function GetUserProgressForAchievement(id: string, r: ProgressRecord): (progress: Option<int>)
    ensures progress.Some? ==> GetAchievementTarget(id).Some?
    ensures progress.None? && GetAchievementTarget(id).Some? ==>
      || (id == "array_expert" && SkillCount(r.skillProgress, "arrays").None?)
      || (id == "algorithm_wizard" && SkillCount(r.skillProgress, "algorithms").None?)
  {
    match id
    case "challenge_10" => Some(r.totalChallenges)
    case "challenge_25" => Some(r.totalChallenges)
    case "streak_3" => Some(r.streakData.current)
    case "streak_7" => Some(r.streakData.current)
    case "array_expert" => SkillCount(r.skillProgress, "arrays")
    case "algorithm_wizard" => SkillCount(r.skillProgress, "algorithms")
    case _ => None
  }

  /** The progress bar of a locked achievement measures exactly what its rule tests: the rule
      holds iff the figure shown has reached the target. */
  lemma TargetsMatchRules(r: ProgressRecord)
    ensures forall a :: a in Catalogue && GetAchievementTarget(a.id).Some? ==>
      (Holds(a.rule, r) <==>
        (GetUserProgressForAchievement(a.id, r).Some? &&
         GetUserProgressForAchievement(a.id, r).value >= GetAchievementTarget(a.id).value))
  {
  }

  const GenericHint := "Keep coding to unlock this achievement!"

  /** `getAchievementHint`: a hint per catalogue entry, and a generic one for any other id. */
  function GetAchievementHint(id: string): (hint: string)
    ensures id !in CatalogueIds ==> hint == GenericHint
  {
    match id
    case "first_challenge" => "Complete any coding challenge to get started!"
    case "streak_3" => "Code for 3 consecutive days"
    case "streak_7" => "Maintain your coding streak for a full week"
    case "challenge_10" => "Solve more coding challenges"
    case "challenge_25" => "Keep solving challenges to reach this milestone"
    case "array_expert" => "Focus on array-based coding problems"
    case "algorithm_wizard" => "Master algorithmic problem solving"
    case _ => GenericHint
  }

  /** What `getAchievementProgressInfo` shows under an achievement card. */
  datatype ProgressInfo = Completed | ProgressBar(current: int, target: nat) | HintText(hint: string)

  /** `getAchievementProgressInfo`: a bar only when both figures are truthy (a progress of 0 shows
      the hint instead), the completion mark once unlocked. */
  function GetAchievementProgressInfo(id: string, unlocked: bool, r: ProgressRecord): (info: ProgressInfo)
    ensures unlocked <==> info.Completed?
    ensures info.ProgressBar? ==>
      && info.current != 0 && info.target > 0
      && GetUserProgressForAchievement(id, r) == Some(info.current) && GetAchievementTarget(id) == Some(info.target)
    ensures info.HintText? ==>
      && info.hint == GetAchievementHint(id)
      && (GetUserProgressForAchievement(id, r) in {None, Some(0)} || GetAchievementTarget(id) in {None, Some(0)})
  {
    if unlocked then Completed
    else
      var current := GetUserProgressForAchievement(id, r);
      var target := GetAchievementTarget(id);
      if current.Some? && current.value != 0 && target.Some? && target.value != 0 then
        ProgressBar(current.value, target.value)
      else
        HintText(GetAchievementHint(id))
  }
}
