/** The `ProgressDashboard` of scripts/progress-dashboard.js: loading and saving the
    progress record, recording a completed challenge, the streak rule and the small
    figures the dashboard derives from the record. Clock readings are parameters. */
module Progress {
  import opened Wrappers
  import opened Text
  import opened ProgressRecord
  import opened Achievements

  // ---------------------------------------------------------------------------
  // The stored form of the record and `loadProgressData` / `saveProgressData`
  // ---------------------------------------------------------------------------

  /** A `difficulties`/`categories` value as parsed back from storage: a proper array, or the
      `{}` that a serialised `Set` turns into. */
  datatype StoredList = Items(items: seq<string>) | SetObject

  datatype StoredBucket = StoredBucket(challenges: int, timeSpent: int, difficulties: StoredList, categories: StoredList)

  /** A parsed record: every top-level field may be missing. */
  datatype StoredRecord = StoredRecord(
    startDate: Option<Timestamp>,
    totalChallenges: Option<int>,
    completedChallenges: Option<seq<string>>,
    dailyActivity: Option<map<Day, StoredBucket>>,
    skillProgress: Option<seq<Skill>>,
    streakData: Option<StreakData>,
    achievements: Option<seq<string>>,
    timeSpent: Option<int>,
    lastUpdated: Option<Timestamp>)

  /** The `codeclip_progress_data` entry of local storage: nothing (or an empty string), text that
      `JSON.parse` rejects, or a parsed record. */
  datatype Slot = Empty | Unparseable | Parsed(data: StoredRecord)

  /** The legacy repair: an object that is not an array becomes `[]`; an array is kept. */
  function RepairList(l: StoredList): seq<string>
  {
    match l
    case Items(items) => items
    case SetObject => []
  }

  function RepairBucket(b: StoredBucket): Bucket
  {
    Bucket(b.challenges, b.timeSpent, RepairList(b.difficulties), RepairList(b.categories))
  }

  /** `{ ...defaultData, ...parsedData }` after the repair: each field present in the parsed
      record wins, every missing one keeps its default. */
  function Merge(defaults: ProgressRecord, p: StoredRecord): ProgressRecord
  {
    ProgressRecord(
      p.startDate.GetOr(defaults.startDate),
      p.totalChallenges.GetOr(defaults.totalChallenges),
      p.completedChallenges.GetOr(defaults.completedChallenges),
      if p.dailyActivity.Some? then map d | d in p.dailyActivity.value :: RepairBucket(p.dailyActivity.value[d])
      else defaults.dailyActivity,
      p.skillProgress.GetOr(defaults.skillProgress),
      p.streakData.GetOr(defaults.streakData),
      p.achievements.GetOr(defaults.achievements),
      p.timeSpent.GetOr(defaults.timeSpent),
      p.lastUpdated.GetOr(defaults.lastUpdated))
  }

  /** `loadProgressData`, which never throws: an empty or unreadable slot gives the default record;
      otherwise every stored field is taken as stored (the day lists repaired) and every missing
      one gets its default value. */
  function Load(slot: Slot, now: Timestamp): (r: ProgressRecord)
    ensures !slot.Parsed? ==> r == DefaultRecord(now)
    ensures slot.Parsed? ==>
      && r.startDate == slot.data.startDate.GetOr(now)
      && r.totalChallenges == slot.data.totalChallenges.GetOr(0)
      && r.completedChallenges == slot.data.completedChallenges.GetOr([])
      && r.streakData == slot.data.streakData.GetOr(StreakData(0, 0, None))
      && r.achievements == slot.data.achievements.GetOr([])
      && r.timeSpent == slot.data.timeSpent.GetOr(0)
      && r.lastUpdated == slot.data.lastUpdated.GetOr(now)
    ensures slot.Parsed? && slot.data.skillProgress.Some? ==> r.skillProgress == slot.data.skillProgress.value
    ensures slot.Parsed? && slot.data.skillProgress.None? ==>
      forall n :: n in SkillNames ==> SkillCount(r.skillProgress, n) == Some(0)
    ensures slot.Parsed? && slot.data.dailyActivity.None? ==> r.dailyActivity == map[]
    ensures slot.Parsed? && slot.data.dailyActivity.Some? ==>
      && r.dailyActivity.Keys == slot.data.dailyActivity.value.Keys
      && forall d :: d in r.dailyActivity ==>
           var b := slot.data.dailyActivity.value[d];
           && r.dailyActivity[d].challenges == b.challenges
           && r.dailyActivity[d].timeSpent == b.timeSpent
           && r.dailyActivity[d].difficulties == (if b.difficulties.Items? then b.difficulties.items else [])
           && r.dailyActivity[d].categories == (if b.categories.Items? then b.categories.items else [])
  {
    match slot
    case Parsed(p) => Merge(DefaultRecord(now), p)
    case _ => DefaultRecord(now)
  }

  /** What `JSON.stringify` then `JSON.parse` give back for a record: every field present,
      every day list a proper array. */
  function ToStored(r: ProgressRecord): StoredRecord
  {
    StoredRecord(Some(r.startDate), Some(r.totalChallenges), Some(r.completedChallenges),
      Some(map d | d in r.dailyActivity :: StoredBucket(r.dailyActivity[d].challenges, r.dailyActivity[d].timeSpent,
        Items(r.dailyActivity[d].difficulties), Items(r.dailyActivity[d].categories))),
      Some(r.skillProgress), Some(r.streakData), Some(r.achievements), Some(r.timeSpent), Some(r.lastUpdated))
  }

  /** Saving a record and loading it back gives the same record, whatever the clock says. */
  lemma LoadAfterSave(r: ProgressRecord, now: Timestamp)
    ensures Load(Parsed(ToStored(r)), now) == r
  {
    var loaded := Load(Parsed(ToStored(r)), now);
    assert loaded.dailyActivity.Keys == r.dailyActivity.Keys;
    forall d | d in r.dailyActivity ensures loaded.dailyActivity[d] == r.dailyActivity[d] {
      var b := r.dailyActivity[d];
      assert loaded.dailyActivity[d] == RepairBucket(StoredBucket(b.challenges, b.timeSpent, Items(b.difficulties), Items(b.categories)));
    }
    assert loaded.dailyActivity == r.dailyActivity;
  }

  /** `loadProgressData` as the source runs it: the parsed days are repaired in place before
      the spread merges the result over the defaults. */
  method LoadProgressData(slot: Slot, now: Timestamp) returns (r: ProgressRecord)
    ensures r == Load(slot, now)
  {
    var defaults := DefaultRecord(now);
    if !slot.Parsed? {
      return defaults;
    }
    var parsed := slot.data;
    if parsed.dailyActivity.Some? {
      var days := parsed.dailyActivity.value;
      var repaired := RepairDays(days);
      parsed := parsed.(dailyActivity := Some(repaired));
      ghost var m1 := map d | d in repaired :: RepairBucket(repaired[d]);
      ghost var m2 := map d | d in days :: RepairBucket(days[d]);
      assert m1.Keys == m2.Keys;
      assert forall d :: d in m1 ==> m1[d] == m2[d];
      assert m1 == m2;
    }
    r := Merge(defaults, parsed);
  }

  /** The repair loop: each day whose lists are not arrays gets empty arrays instead. */
  method RepairDays(days: map<Day, StoredBucket>) returns (repaired: map<Day, StoredBucket>)
    ensures repaired.Keys == days.Keys
    ensures forall d :: d in days ==> RepairBucket(repaired[d]) == RepairBucket(days[d])
    ensures forall d :: d in days ==> repaired[d].difficulties.Items? && repaired[d].categories.Items?
  {
    repaired := days;
    var todo := days.Keys;
    while todo != {}
      invariant todo <= days.Keys && repaired.Keys == days.Keys
      invariant forall d :: d in todo ==> repaired[d] == days[d]
      invariant forall d :: d in days && d !in todo ==> RepairBucket(repaired[d]) == RepairBucket(days[d])
      invariant forall d :: d in days && d !in todo ==> repaired[d].difficulties.Items? && repaired[d].categories.Items?
      decreases todo
    {
      NonEmptyHasElement(todo);
      var d :| d in todo;
      var activity := repaired[d];
      if activity.difficulties.SetObject? {
        activity := activity.(difficulties := Items([]));
      }
      if activity.categories.SetObject? {
        activity := activity.(categories := Items([]));
      }
      repaired := repaired[d := activity];
      todo := todo - {d};
    }
  }

  // ---------------------------------------------------------------------------
  // The streak rule and the completion tracker
  // ---------------------------------------------------------------------------

  /** `updateStreak` with `yesterday` being the day before `today`. */
  function StreakAfter(s: StreakData, today: Day): (t: StreakData)
    ensures s.lastActiveDate == Some(today - 1) ==> t.current == s.current + 1
    ensures s.lastActiveDate == Some(today) ==> t.current == s.current
    ensures s.lastActiveDate != Some(today - 1) && s.lastActiveDate != Some(today) ==> t.current == 1
    ensures t.longest >= t.current && t.longest >= s.longest
    ensures t.longest == s.longest || t.longest == t.current
    ensures t.lastActiveDate == Some(today)
  {
    var current :=
      if s.lastActiveDate == Some(today - 1) then s.current + 1
      else if s.lastActiveDate != Some(today) then 1
      else s.current;
    StreakData(current, if current > s.longest then current else s.longest, Some(today))
  }

  datatype ChallengeData = ChallengeData(title: string, difficulty: string, category: string)

  /** The key completions are deduplicated on. */
  function ChallengeId(c: ChallengeData): string {
    c.title + "_" + c.difficulty
  }

  /** `if (!list.includes(x)) list.push(x)`. */
  function AddIfAbsent(s: seq<string>, x: string): (t: seq<string>)
    ensures x in t && multiset(s) <= multiset(t)
    ensures x in s ==> t == s
    ensures x !in s ==> t == s + [x]
    ensures NoDuplicates(s) ==> NoDuplicates(t)
  {
    if x in s then s else
      assert forall i :: 0 <= i < |s| ==> (s + [x])[i] == s[i];
      s + [x]
  }

  function ChallengesOn(days: map<Day, Bucket>, d: Day): int {
    if d in days then days[d].challenges else 0
  }

  /** The in-place updates of `trackChallengeCompletion` before the streak and the achievements:
      append the id, count it, fill today's bucket (created empty if missing) and tally the skill. */
  function AddCompletion(r: ProgressRecord, c: ChallengeData, today: Day): (t: ProgressRecord)
    ensures t.completedChallenges == r.completedChallenges + [ChallengeId(c)]
    ensures t.totalChallenges == r.totalChallenges + 1
    ensures t.dailyActivity == r.dailyActivity[today := AddToBucket(BucketOn(r.dailyActivity, today), c)]
    ensures t.skillProgress == IncrementSkill(r.skillProgress, c.category)
    ensures t.streakData == r.streakData && t.achievements == r.achievements
    ensures t.startDate == r.startDate && t.timeSpent == r.timeSpent && t.lastUpdated == r.lastUpdated
  {
    r.(completedChallenges := r.completedChallenges + [ChallengeId(c)],
       totalChallenges := r.totalChallenges + 1,
       dailyActivity := r.dailyActivity[today := AddToBucket(BucketOn(r.dailyActivity, today), c)],
       skillProgress := IncrementSkill(r.skillProgress, c.category))
  }

  /** `dailyActivity[today]`, created empty when the day has no entry yet. */
  function BucketOn(days: map<Day, Bucket>, d: Day): (b: Bucket)
    ensures b.challenges == ChallengesOn(days, d)
    ensures d !in days ==> b == EmptyBucket
  {
    if d in days then days[d] else EmptyBucket
  }

  /** One more challenge in a day's entry, with its difficulty and category noted once. */
  function AddToBucket(b: Bucket, c: ChallengeData): (b': Bucket)
    ensures b'.challenges == b.challenges + 1 && b'.timeSpent == b.timeSpent
    ensures c.difficulty in b'.difficulties && c.category in b'.categories
    ensures multiset(b.difficulties) <= multiset(b'.difficulties) && multiset(b.categories) <= multiset(b'.categories)
    ensures NoDuplicates(b.difficulties) ==> NoDuplicates(b'.difficulties)
    ensures NoDuplicates(b.categories) ==> NoDuplicates(b'.categories)
  {
    Bucket(b.challenges + 1, b.timeSpent, AddIfAbsent(b.difficulties, c.difficulty), AddIfAbsent(b.categories, c.category))
  }

  /** The in-place update of one day's entry: count the challenge and note its difficulty and
      category unless already there. */
  method FillBucket(b: Bucket, c: ChallengeData) returns (bucket: Bucket)
    ensures bucket == AddToBucket(b, c)
  {
    bucket := b;
    bucket := bucket.(challenges := bucket.challenges + 1);
    if c.difficulty !in bucket.difficulties {
      bucket := bucket.(difficulties := bucket.difficulties + [c.difficulty]);
    }
    if c.category !in bucket.categories {
      bucket := bucket.(categories := bucket.categories + [c.category]);
    }
  }

  /** The record after the streak update, on which the achievement conditions are evaluated. */
  function Streaked(r: ProgressRecord, c: ChallengeData, today: Day): ProgressRecord {
    var added := AddCompletion(r, c, today);
    added.(streakData := StreakAfter(added.streakData, today))
  }

  /** The whole effect of `trackChallengeCompletion` on the record (the save aside). */
  function Track(r: ProgressRecord, c: ChallengeData, today: Day): (t: ProgressRecord)
    ensures ChallengeId(c) in r.completedChallenges ==> t == r
    ensures ChallengeId(c) !in r.completedChallenges ==>
      var s := Streaked(r, c, today);
      && t == s.(achievements := t.achievements)
      && t.streakData == StreakAfter(r.streakData, today)
      && |t.achievements| >= |r.achievements| && t.achievements[..|r.achievements|] == r.achievements
  {
    if ChallengeId(c) in r.completedChallenges then r
    else WithAchievements(Catalogue, Streaked(r, c, today))
  }

  /** `checkAndUnlock` applied to the record: only the achievement list changes, by appending. */
  function WithAchievements(cat: seq<Achievement>, s: ProgressRecord): (t: ProgressRecord)
    ensures t == s.(achievements := t.achievements)
    ensures t.achievements == s.achievements + Ids(Unlock(cat, s, s.achievements).1)
    ensures t.achievements[..|s.achievements|] == s.achievements
  {
    s.(achievements := Unlock(cat, s, s.achievements).0)
  }

  /** The invariants of the record survive every completion. */
  lemma TrackPreservesValid(r: ProgressRecord, c: ChallengeData, today: Day)
    requires Valid(r)
    ensures Valid(Track(r, c, today))
  {
    var id := ChallengeId(c);
    if id !in r.completedChallenges {
      var t := Track(r, c, today);
      NoDuplicatesAppend(r.completedChallenges, id);
      var s := Streaked(r, c, today);
      UnlockKeepsDistinct(Catalogue, s, s.achievements);
    }
  }

  /** Recording a list of completions one after another, each on its own day. */
  function TrackAll(r: ProgressRecord, events: seq<(ChallengeData, Day)>): ProgressRecord
    decreases |events|
  {
    if events == [] then r else TrackAll(Track(r, events[0].0, events[0].1), events[1..])
  }

  /** After any sequence of completions, `totalChallenges` is the number of distinct ids recorded,
      no day list repeats a value and `longest >= current`. */
  lemma {:induction false} TrackAllPreservesValid(r: ProgressRecord, events: seq<(ChallengeData, Day)>)
    requires Valid(r)
    ensures Valid(TrackAll(r, events))
    decreases |events|
  {
    if events != [] {
      TrackPreservesValid(r, events[0].0, events[0].1);
      TrackAllPreservesValid(Track(r, events[0].0, events[0].1), events[1..]);
    }
  }

  /** Recording the same title and difficulty twice counts it once, whatever the days. */
  lemma TrackTwiceCountsOnce(r: ProgressRecord, c: ChallengeData, c': ChallengeData, d1: Day, d2: Day)
    requires ChallengeId(c) == ChallengeId(c')
    ensures Track(Track(r, c, d1), c', d2) == Track(r, c, d1)
    ensures Track(Track(r, c, d1), c', d2).totalChallenges <= r.totalChallenges + 1
  {
  }

  /** Achievements are only ever added, so the XP total never drops. */
  lemma TrackNeverLowersXP(r: ProgressRecord, c: ChallengeData, today: Day)
    ensures TotalXP(Track(r, c, today).achievements) >= TotalXP(r.achievements)
  {
    var t := Track(r, c, today);
    assert t.achievements == r.achievements + t.achievements[|r.achievements|..];
    TotalXPAppend(r.achievements, t.achievements[|r.achievements|..]);
  }

  /** Crossing 10 completions unlocks `challenge_10`. */
  lemma TrackUnlocksChallenge10(r: ProgressRecord, c: ChallengeData, today: Day)
    requires ChallengeId(c) !in r.completedChallenges && r.totalChallenges + 1 >= 10
    ensures "challenge_10" in Track(r, c, today).achievements
  {
    var s := Streaked(r, c, today);
    assert s.totalChallenges >= 10;
    assert Catalogue[3] in Catalogue && Holds(Catalogue[3].rule, s);
    UnlockComplete(Catalogue, s, s.achievements, Catalogue[3]);
    assert Track(r, c, today).achievements == Unlock(Catalogue, s, s.achievements).0;
  }

  /** While the count stays under 25, `challenge_25` is not unlocked. */
  lemma TrackWithholdsChallenge25(r: ProgressRecord, c: ChallengeData, today: Day)
    requires ChallengeId(c) !in r.completedChallenges && r.totalChallenges + 1 < 25
    requires "challenge_25" !in r.achievements
    ensures "challenge_25" !in Track(r, c, today).achievements
  {
    var s := Streaked(r, c, today);
    var res := Unlock(Catalogue, s, s.achievements);
    assert Track(r, c, today).achievements == res.0 == s.achievements + Ids(res.1);
    if "challenge_25" in Ids(res.1) {
      var k :| 0 <= k < |Ids(res.1)| && Ids(res.1)[k] == "challenge_25";
      UnlockSound(Catalogue, s, s.achievements, res.1[k]);
      assert false;
    }
  }

  // ---------------------------------------------------------------------------
  // The concrete scenarios the design describes
  // ---------------------------------------------------------------------------

  /** From the default record, "Two Sum" (easy, arrays) on one day. */
  lemma FirstCompletionScenario(now: Timestamp, day: Day)
    ensures var t := Track(DefaultRecord(now), ChallengeData("Two Sum", "easy", "arrays"), day);
      && t.totalChallenges == 1 && t.completedChallenges == ["Two Sum_easy"]
      && SkillCount(t.skillProgress, "arrays") == Some(1)
      && t.dailyActivity[day].challenges == 1
      && t.streakData.current == 1
      && "first_challenge" in t.achievements
  {
    var r := DefaultRecord(now);
    var c := ChallengeData("Two Sum", "easy", "arrays");
    assert ChallengeId(c) == "Two Sum_easy";
    var s := Streaked(r, c, day);
    assert s.totalChallenges == 1 && s.completedChallenges == ["Two Sum_easy"];
    IncrementSkillCount(r.skillProgress, "arrays", "arrays");
    assert SkillCount(s.skillProgress, "arrays") == Some(1);
    assert s.dailyActivity[day].challenges == 1 && s.streakData.current == 1;
    assert Catalogue[0] in Catalogue && Holds(Catalogue[0].rule, s);
    UnlockComplete(Catalogue, s, s.achievements, Catalogue[0]);
    var t := Track(r, c, day);
    assert t == s.(achievements := Unlock(Catalogue, s, s.achievements).0);
  }

  /** Distinct completions on three consecutive days give a streak of 3. */
  lemma ConsecutiveDaysScenario(r: ProgressRecord, c1: ChallengeData, c2: ChallengeData, c3: ChallengeData, d: Day)
    requires r.streakData.lastActiveDate == None
    requires |{ChallengeId(c1), ChallengeId(c2), ChallengeId(c3)}| == 3
    requires ChallengeId(c1) !in r.completedChallenges && ChallengeId(c2) !in r.completedChallenges
    requires ChallengeId(c3) !in r.completedChallenges
    ensures var t := Track(Track(Track(r, c1, d), c2, d + 1), c3, d + 2);
      t.streakData.current == 3 && t.streakData.longest >= 3
  {
  }

  /** A day without completions in between restarts the streak at 1. */
  lemma GapScenario(r: ProgressRecord, c1: ChallengeData, c2: ChallengeData, d: Day)
    requires ChallengeId(c1) != ChallengeId(c2)
    requires ChallengeId(c1) !in r.completedChallenges && ChallengeId(c2) !in r.completedChallenges
    ensures Track(Track(r, c1, d), c2, d + 2).streakData.current == 1
  {
  }

  /** A second completion on the same day leaves the streak where the first put it. */
  lemma SameDayScenario(r: ProgressRecord, c1: ChallengeData, c2: ChallengeData, d: Day)
    requires ChallengeId(c1) !in r.completedChallenges
    ensures Track(Track(r, c1, d), c2, d).streakData.current == Track(r, c1, d).streakData.current
  {
  }

  /** Repeating the same challenge on the following days does not extend the streak: the
      duplicate check returns before `updateStreak` runs. */
  lemma RepeatedChallengeKeepsStreak(now: Timestamp, c: ChallengeData, d: Day)
    ensures var t := Track(Track(Track(DefaultRecord(now), c, d), c, d + 1), c, d + 2);
      t.streakData.current == 1 && t.totalChallenges == 1
  {
  }

  // ---------------------------------------------------------------------------
  // Figures the dashboard shows
  // ---------------------------------------------------------------------------

  /** The sum of the `challenges` of the `n` days ending with `today`. */
  function DaysTotal(days: map<Day, Bucket>, today: Day, n: nat): int
  {
    if n == 0 then 0 else DaysTotal(days, today, n - 1) + ChallengesOn(days, today - (n - 1))
  }

  /** Changing one day's entry changes the total of a window ending that day by the difference. */
  lemma {:induction false} WindowAfterUpdate(days: map<Day, Bucket>, today: Day, n: nat, b: Bucket)
    requires n >= 1
    ensures DaysTotal(days[today := b], today, n) == DaysTotal(days, today, n) - ChallengesOn(days, today) + b.challenges
  {
    if n > 1 {
      WindowAfterUpdate(days, today, n - 1, b);
      assert ChallengesOn(days[today := b], today - (n - 1)) == ChallengesOn(days, today - (n - 1));
    }
  }

  /** A completion falls on today, so it adds exactly one to the total of any window ending today. */
  lemma TrackAddsOneToWindow(r: ProgressRecord, c: ChallengeData, today: Day, n: nat)
    requires ChallengeId(c) !in r.completedChallenges && n >= 1
    ensures DaysTotal(Track(r, c, today).dailyActivity, today, n) == DaysTotal(r.dailyActivity, today, n) + 1
  {
    var b := AddToBucket(BucketOn(r.dailyActivity, today), c);
    assert Track(r, c, today).dailyActivity == r.dailyActivity[today := b];
    WindowAfterUpdate(r.dailyActivity, today, n, b);
  }

  /** With no negative counts, the weekly total is at least today's count. */
  lemma {:induction false} WindowCoversToday(days: map<Day, Bucket>, today: Day, n: nat)
    requires n >= 1
    requires forall d :: d in days ==> days[d].challenges >= 0
    ensures DaysTotal(days, today, n) >= ChallengesOn(days, today)
  {
    if n > 1 {
      WindowCoversToday(days, today, n - 1);
    }
  }

  datatype Activity = Activity(title: string, description: string, time: string)

  const Welcome := Activity("Welcome to CodeClip!", "Start completing challenges to see your activity here", "Just now")

  /** `id.split('_')[0]`: the text before the first underscore. */
  function BeforeUnderscore(id: string): (r: string)
    ensures r <= id && '_' !in r
    ensures |r| < |id| ==> id[|r|] == '_'
  {
    if id == [] || id[0] == '_' then [] else [id[0]] + BeforeUnderscore(id[1..])
  }

  /** The name of the catalogue entry with the given id, or "Problem Solver" when none has it. */
  function AchievementName(cat: seq<Achievement>, id: string): (name: string)
    ensures (exists a :: a in cat && a.id == id) ==> exists a :: a in cat && a.id == id && a.name == name
    ensures (forall a :: a in cat ==> a.id != id) ==> name == "Problem Solver"
  {
    if cat == [] then "Problem Solver"
    else if cat[0].id == id then cat[0].name
    else AchievementName(cat[1..], id)
  }

  /** `Object.entries(skills).reduce((a, b) => a[1] > b[1] ? a : b, acc)`: the running best is kept
      only while it is strictly ahead, so among equal counts the later key wins. */
  function TopSkill(acc: Skill, skills: seq<Skill>): (top: Skill)
    ensures top.count >= acc.count
    ensures forall i :: 0 <= i < |skills| ==> skills[i].count <= top.count
    ensures || (top == acc && forall k :: 0 <= k < |skills| ==> skills[k].count < acc.count)
            || exists j :: 0 <= j < |skills| && skills[j] == top && forall k :: j < k < |skills| ==> skills[k].count < top.count
    decreases |skills|
  {
    if skills == [] then acc
    else
      var top := TopSkill(if acc.count > skills[0].count then acc else skills[0], skills[1..]);
      assert forall k :: 0 < k < |skills| ==> skills[k] == skills[1..][k - 1];
      top
  }

  /** The entry for the last completion, named by the part of its id before `_`. */
  function CompletionActivity(last: string): Activity {
    Activity("Completed \"" + BeforeUnderscore(last) + "\" Challenge", "Successfully solved with optimal approach", "2 hours ago")
  }

  /** The entry for the last achievement, with the number held so far. */
  function AchievementActivity(last: string, held: nat): Activity {
    Activity("Achievement Unlocked: " + AchievementName(Catalogue, last),
      "Earned " + NatToString(held) + " achievements total", "1 day ago")
  }

  /** The entry for a current streak of `days`. */
  function StreakActivity(days: nat): Activity {
    Activity("Streak Extended to " + NatToString(days) + " Days", "Keep up the consistent practice!",
      NatToString(days) + " days ago")
  }

  /** The entry for the skill with the most completions. */
  function SkillActivity(top: Skill): Activity
    requires top.count >= 0
  {
    Activity(Capitalize(top.name) + " Progress",
      "Improved skills with " + NatToString(top.count) + " completed challenges", "3 days ago")
  }

  /** The entries `getRecentActivities` builds before padding, each present only when its figure
      is: the last completion, the last achievement, the streak and the top skill, in that order. */
  function ActivityItems(r: ProgressRecord): (items: seq<Activity>)
    ensures var a := if r.completedChallenges == [] then 0 else 1;
      var s := a + if r.achievements == [] then 0 else 1;
      var k := s + if r.streakData.current <= 0 then 0 else 1;
      var top := TopSkill(Skill("", 0), r.skillProgress);
      && |items| == k + (if top.count <= 0 then 0 else 1) <= 4
      && (r.completedChallenges != [] ==>
            items[0] == CompletionActivity(r.completedChallenges[|r.completedChallenges| - 1]))
      && (r.achievements != [] ==>
            items[a] == AchievementActivity(r.achievements[|r.achievements| - 1], |r.achievements|))
      && (r.streakData.current > 0 ==> items[s] == StreakActivity(r.streakData.current))
      && (top.count > 0 ==> items[k] == SkillActivity(top))
  {
    var completion := if r.completedChallenges == [] then [] else
      [CompletionActivity(r.completedChallenges[|r.completedChallenges| - 1])];
    var achievement := if r.achievements == [] then [] else
      [AchievementActivity(r.achievements[|r.achievements| - 1], |r.achievements|)];
    var streak := if r.streakData.current <= 0 then [] else [StreakActivity(r.streakData.current)];
    var top := TopSkill(Skill("", 0), r.skillProgress);
    var skill := if top.count <= 0 then [] else [SkillActivity(top)];
    OptionalPartsAt(completion, achievement, streak, skill);
    completion + achievement + streak + skill
  }

  /** Where the parts of a concatenation of at most one element each land. */
  lemma OptionalPartsAt<T>(p0: seq<T>, p1: seq<T>, p2: seq<T>, p3: seq<T>)
    requires |p0| <= 1 && |p1| <= 1 && |p2| <= 1 && |p3| <= 1
    ensures var x := p0 + p1 + p2 + p3;
      && |x| == |p0| + |p1| + |p2| + |p3|
      && (|p0| == 1 ==> x[0] == p0[0])
      && (|p1| == 1 ==> x[|p0|] == p1[0])
      && (|p2| == 1 ==> x[|p0| + |p1|] == p2[0])
      && (|p3| == 1 ==> x[|p0| + |p1| + |p2|] == p3[0])
  {
  }

  // ---------------------------------------------------------------------------
  // `addSampleData`, run by the constructor on the profile page for an empty record
  // ---------------------------------------------------------------------------

  /** The demonstration entry of one day; `roll` holds the two `Math.random()` values drawn for
      it, for the challenge count and for the time spent. */
  function SampleBucket(roll: (real, real)): Bucket {
    Bucket((roll.0 * 3.0).Floor + 1, (roll.1 * 60.0).Floor + 30, ["Easy", "Medium"], ["arrays", "algorithms"])
  }

  /** With draws in `[0, 1)`, a demonstration day has 1 to 3 challenges and 30 to 89 minutes. */
  lemma SampleBucketBounds(roll: (real, real))
    requires 0.0 <= roll.0 < 1.0 && 0.0 <= roll.1 < 1.0
    ensures 1 <= SampleBucket(roll).challenges <= 3
    ensures 30 <= SampleBucket(roll).timeSpent <= 89
  {
  }

  /** The days after the first `|rolls|` turns of the loop: turn `i` writes day `today - i`. */
  function SampleDays(days: map<Day, Bucket>, today: Day, rolls: seq<(real, real)>): map<Day, Bucket>
    decreases |rolls|
  {
    if rolls == [] then days
    else SampleDays(days, today, rolls[..|rolls| - 1])[today - (|rolls| - 1) := SampleBucket(rolls[|rolls| - 1])]
  }

  /** The loop writes the `|rolls|` days ending today and leaves every earlier day as it was. */
  lemma {:induction false} SampleDaysSpec(days: map<Day, Bucket>, today: Day, rolls: seq<(real, real)>)
    ensures forall i :: 0 <= i < |rolls| ==>
      today - i in SampleDays(days, today, rolls) && SampleDays(days, today, rolls)[today - i] == SampleBucket(rolls[i])
    ensures forall d :: d in SampleDays(days, today, rolls) <==> d in days || today - |rolls| < d <= today
    ensures forall d :: d in days && !(today - |rolls| < d <= today) ==> SampleDays(days, today, rolls)[d] == days[d]
    decreases |rolls|
  {
    if rolls != [] {
      var n := |rolls| - 1;
      SampleDaysSpec(days, today, rolls[..n]);
      forall i | 0 <= i < n ensures rolls[..n][i] == rolls[i] {}
    }
  }

  /** The four demonstration completions. */
  const SampleCompletions: seq<string> := ["Two Sum_Easy", "Valid Parentheses_Easy", "Binary Search_Medium", "Array Sorting_Easy"]

  /** The demonstration skill counts, in the order the object literal lists them. */
  const SampleSkills: seq<Skill> := [Skill("arrays", 2), Skill("strings", 1), Skill("algorithms", 1),
    Skill("data-structures", 1), Skill("frontend", 0), Skill("backend", 0), Skill("fullstack", 0)]

  /** `addSampleData` before its save: the completions, counts, streak and achievements are replaced
      by the demonstration values, and the seven days ending today get demonstration entries. */
  function SampleData(r: ProgressRecord, today: Day, rolls: seq<(real, real)>): ProgressRecord {
    r.(completedChallenges := SampleCompletions,
       totalChallenges := 4,
       skillProgress := SampleSkills,
       streakData := StreakData(5, 7, Some(today)),
       achievements := ["first_challenge", "streak_3"],
       dailyActivity := SampleDays(r.dailyActivity, today, rolls))
  }

  /** The demonstration record keeps the tracker's invariant when the days it started from did. */
  lemma SampleDataValid(r: ProgressRecord, today: Day, rolls: seq<(real, real)>)
    requires |rolls| == 7
    requires forall d :: d in r.dailyActivity ==>
      NoDuplicates(r.dailyActivity[d].difficulties) && NoDuplicates(r.dailyActivity[d].categories)
    ensures Valid(SampleData(r, today, rolls))
  {
    var t := SampleData(r, today, rolls);
    var days := t.dailyActivity;
    SampleDaysSpec(r.dailyActivity, today, rolls);
    forall d | d in days
      ensures NoDuplicates(days[d].difficulties) && NoDuplicates(days[d].categories)
    {
      if today - 7 < d <= today {
        assert days[d] == SampleBucket(rolls[today - d]);
      }
    }
    assert NoDuplicates(SampleCompletions) by {
      assert SampleCompletions[0][0] == 'T' && SampleCompletions[1][0] == 'V';
      assert SampleCompletions[2][0] == 'B' && SampleCompletions[3][0] == 'A';
    }
    assert NoDuplicates(t.achievements) by {
      assert t.achievements[0][0] == 'f' && t.achievements[1][0] == 's';
    }
  }

  /** With draws in `[0, 1)`, the demonstration week totals between 7 and 21 challenges. */
  lemma SampleWeeklyTotal(r: ProgressRecord, today: Day, rolls: seq<(real, real)>)
    requires |rolls| == 7 && forall i :: 0 <= i < 7 ==> 0.0 <= rolls[i].0 < 1.0 && 0.0 <= rolls[i].1 < 1.0
    ensures 7 <= DaysTotal(SampleData(r, today, rolls).dailyActivity, today, 7) <= 21
  {
    var days := SampleData(r, today, rolls).dailyActivity;
    SampleDaysSpec(r.dailyActivity, today, rolls);
    forall d | today - 7 < d <= today ensures 1 <= ChallengesOn(days, d) <= 3 {
      assert days[d] == SampleBucket(rolls[today - d]);
      SampleBucketBounds(rolls[today - d]);
    }
    SampleWindowBounds(days, today, 7);
  }

  /** A window of `n` days, each with 1 to 3 challenges, totals between `n` and `3 n`. */
  lemma {:induction false} SampleWindowBounds(days: map<Day, Bucket>, today: Day, n: nat)
    requires forall d :: today - n < d <= today ==> 1 <= ChallengesOn(days, d) <= 3
    ensures n <= DaysTotal(days, today, n) <= 3 * n
  {
    if n > 0 {
      assert 1 <= ChallengesOn(days, today - (n - 1)) <= 3;
      SampleWindowBounds(days, today, n - 1);
    }
  }

  // ---------------------------------------------------------------------------
  // The dashboard object
  // ---------------------------------------------------------------------------

  class ProgressDashboard {
    var userData: ProgressRecord
    /** The `codeclip_progress_data` entry of local storage. */
    var slot: Slot
    const achievements: AchievementSystem

    /** The constructor loads the record. On the profile page an empty record (no completions
        counted) is then replaced by the demonstration data, which is saved; `rolls` are the
        fourteen `Math.random()` draws that takes, and `writable` whether the save succeeds. */
    constructor (stored: Slot, now: Timestamp, onProfilePage: bool, today: Day, rolls: seq<(real, real)>,
      writable: bool)
      requires |rolls| == 7
      ensures var loaded := Load(stored, now);
        if onProfilePage && loaded.totalChallenges == 0 then
          && userData == SampleData(loaded, today, rolls).(lastUpdated := now)
          && slot == (if writable then Parsed(ToStored(userData)) else stored)
        else
          userData == loaded && slot == stored
      ensures fresh(achievements) && achievements.newlyUnlocked == []
    {
      var loaded := LoadProgressData(stored, now);
      userData := loaded;
      slot := stored;
      achievements := new AchievementSystem();
      new;
      if onProfilePage && userData.totalChallenges == 0 {
        AddSampleData(today, rolls, now, writable);
      }
    }

    /** `addSampleData`: the demonstration values replace the record's counts, then the seven
        days ending today are filled in, and the record is saved. */
    method AddSampleData(today: Day, rolls: seq<(real, real)>, now: Timestamp, writable: bool)
      requires |rolls| == 7
      modifies this
      ensures userData == SampleData(old(userData), today, rolls).(lastUpdated := now)
      ensures slot == if writable then Parsed(ToStored(userData)) else old(slot)
    {
      ghost var before := userData;
      userData := userData.(completedChallenges := SampleCompletions, totalChallenges := 4);
      userData := userData.(skillProgress := SampleSkills);
      userData := userData.(streakData := StreakData(5, 7, Some(today)));
      userData := userData.(achievements := ["first_challenge", "streak_3"]);
      for i := 0 to 7
        invariant userData == SampleData(before, today, rolls[..i]) && slot == old(slot)
      {
        assert rolls[..i + 1][..i] == rolls[..i];
        userData := userData.(dailyActivity := userData.dailyActivity[today - i := SampleBucket(rolls[i])]);
      }
      assert rolls[..7] == rolls;
      var saved := SaveProgressData(now, writable);
    }

    /** `saveProgressData`: stamps `lastUpdated` (even when the write then fails) and reports
        whether the write went through. */
    method SaveProgressData(now: Timestamp, writable: bool) returns (ok: bool)
      modifies this
      ensures userData == old(userData).(lastUpdated := now)
      ensures ok == writable
      ensures slot == if writable then Parsed(ToStored(userData)) else old(slot)
    {
      userData := userData.(lastUpdated := now);
      if writable {
        slot := Parsed(ToStored(userData));
      }
      ok := writable;
    }

    /** `updateStreak`, in place. */
    method UpdateStreak(today: Day)
      modifies this
      ensures userData == old(userData).(streakData := StreakAfter(old(userData).streakData, today))
      ensures userData.streakData.longest >= userData.streakData.current
      ensures userData.streakData.lastActiveDate == Some(today)
      ensures slot == old(slot)
    {
      var streak := userData.streakData;
      if streak.lastActiveDate == Some(today - 1) {
        streak := streak.(current := streak.current + 1);
      } else if streak.lastActiveDate != Some(today) {
        streak := streak.(current := 1);
      }
      if streak.current > streak.longest {
        streak := streak.(longest := streak.current);
      }
      streak := streak.(lastActiveDate := Some(today));
      userData := userData.(streakData := streak);
    }

    /** The in-place part of `trackChallengeCompletion` for a new id: append and count it, fill
        today's entry and tally the skill if it is one of the record's keys. */
    method RecordCompletion(challenge: ChallengeData, today: Day)
      modifies this
      ensures userData == AddCompletion(old(userData), challenge, today)
      ensures slot == old(slot)
    {
      var challengeId := ChallengeId(challenge);
      ghost var before := userData;
      userData := userData.(completedChallenges := userData.completedChallenges + [challengeId]);
      userData := userData.(totalChallenges := userData.totalChallenges + 1);
      if today !in userData.dailyActivity {
        userData := userData.(dailyActivity := userData.dailyActivity[today := EmptyBucket]);
      }
      assert userData.dailyActivity[today] == BucketOn(before.dailyActivity, today);
      var bucket := FillBucket(userData.dailyActivity[today], challenge);
      userData := userData.(dailyActivity := userData.dailyActivity[today := bucket]);
      assert userData.dailyActivity == before.dailyActivity[today := bucket];
      if SkillCount(userData.skillProgress, challenge.category).Some? {
        userData := userData.(skillProgress := IncrementSkill(userData.skillProgress, challenge.category));
      } else {
        IncrementSkillAbsent(userData.skillProgress, challenge.category);
      }
      assert userData.skillProgress == IncrementSkill(before.skillProgress, challenge.category);
    }

    /** `trackChallengeCompletion`: a duplicate id changes nothing; otherwise the record is updated,
        the achievements are checked and the record is saved. */
    method TrackChallengeCompletion(challenge: ChallengeData, today: Day, now: Timestamp, writable: bool)
      modifies this, achievements
      ensures ChallengeId(challenge) in old(userData).completedChallenges ==>
        userData == old(userData) && slot == old(slot) && achievements.newlyUnlocked == old(achievements.newlyUnlocked)
      ensures ChallengeId(challenge) !in old(userData).completedChallenges ==>
        && userData == Track(old(userData), challenge, today).(lastUpdated := now)
        && slot == (if writable then Parsed(ToStored(userData)) else old(slot))
        && achievements.newlyUnlocked == Unlock(Catalogue, Streaked(old(userData), challenge, today),
             old(userData).achievements).1
    {
      var challengeId := ChallengeId(challenge);
      if challengeId in userData.completedChallenges {
        return;
      }
      ghost var before := userData;
      RecordCompletion(challenge, today);
      assert userData == AddCompletion(before, challenge, today);
      UpdateStreak(today);
      assert userData == Streaked(before, challenge, today);
      var unlocked;
      userData, unlocked := achievements.CheckAndUnlock(userData);
      assert userData == Track(before, challenge, today);
      var saved := SaveProgressData(now, writable);
    }

    /** `calculateWeeklyTotal`: today's count and those of the six days before it. */
    method CalculateWeeklyTotal(today: Day) returns (weeklyTotal: int)
      ensures weeklyTotal == DaysTotal(userData.dailyActivity, today, 7)
    {
      weeklyTotal := 0;
      var i := 0;
      while i < 7
        invariant 0 <= i <= 7
        invariant weeklyTotal == DaysTotal(userData.dailyActivity, today, i)
      {
        var date := today - i;
        if date in userData.dailyActivity {
          weeklyTotal := weeklyTotal + userData.dailyActivity[date].challenges;
        }
        i := i + 1;
      }
    }

    /** `calculateTotalXP`. */
    function CalculateTotalXP(): (xp: nat)
      reads this
      ensures 50 * |userData.achievements| <= xp <= 1000 * |userData.achievements|
    {
      TotalXP(userData.achievements)
    }

    /** `getRecentActivities`: the derived entries, then "Welcome" entries until there are three. */
    method GetRecentActivities() returns (activities: seq<Activity>)
      ensures var items := ActivityItems(userData);
        && |activities| == (if |items| < 3 then 3 else |items|)
        && activities[..|items|] == items
        && forall k :: |items| <= k < |activities| ==> activities[k] == Welcome
    {
      activities := ActivityItems(userData);
      ghost var items := activities;
      while |activities| < 3
        invariant |items| <= |activities| <= (if |items| < 3 then 3 else |items|)
        invariant activities[..|items|] == items
        invariant forall k :: |items| <= k < |activities| ==> activities[k] == Welcome
        decreases 3 - |activities|
      {
        activities := activities + [Welcome];
      }
    }
  }
}
