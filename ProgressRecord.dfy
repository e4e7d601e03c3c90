/** The user-progress record the dashboard keeps (scripts/progress-dashboard.js),
    its default value and the invariants the completion tracker maintains. */
module ProgressRecord {
  import opened Wrappers
  import opened Sequences

  /** A calendar day, counted in days since 1970-01-01 (UTC). The source keys days by
      their `YYYY-MM-DD` text, which is one-to-one with this number and sorts the same way. */
  type Day = int

  /** A non-empty set of days has a member to pick. */
  lemma NonEmptyHasElement(s: set<Day>)
    requires s != {}
    ensures exists d :: d in s
  {
    if forall d :: d !in s {
      assert false;
    }
  }

  /** An ISO timestamp as produced by `new Date().toISOString()`; the clock is a parameter. */
  type Timestamp = string

  /** One day's entry of `dailyActivity`. The two lists are kept free of repeats. */
  datatype Bucket = Bucket(challenges: int, timeSpent: int, difficulties: seq<string>, categories: seq<string>)

  /** One key of `skillProgress`, in the object's insertion order. */
  datatype Skill = Skill(name: string, count: int)

  datatype StreakData = StreakData(current: int, longest: int, lastActiveDate: Option<Day>)

  datatype ProgressRecord = ProgressRecord(
    startDate: Timestamp,
    totalChallenges: int,
    completedChallenges: seq<string>,
    dailyActivity: map<Day, Bucket>,
    skillProgress: seq<Skill>,
    streakData: StreakData,
    achievements: seq<string>,
    timeSpent: int,
    lastUpdated: Timestamp)

  /** The seven skill categories, in the order the default record lists them. */
  const SkillNames: seq<string> :=
    ["arrays", "strings", "algorithms", "data-structures", "frontend", "backend", "fullstack"]

  const EmptyBucket := Bucket(0, 0, [], [])

  predicate NoDuplicates<T(==)>(s: seq<T>) {
    forall i, j :: 0 <= i < j < |s| ==> s[i] != s[j]
  }

  /** The value of `skillProgress[name]`: the entry with that key, or `undefined`. */
  function SkillCount(skills: seq<Skill>, name: string): Option<int> {
    if skills == [] then None
    else if skills[0].name == name then Some(skills[0].count)
    else SkillCount(skills[1..], name)
  }

  /** The count is missing exactly when no entry has the key, and otherwise belongs to an entry
      with that key. */
  lemma {:induction false} SkillCountSpec(skills: seq<Skill>, name: string)
    ensures SkillCount(skills, name).None? <==> forall i :: 0 <= i < |skills| ==> skills[i].name != name
    ensures SkillCount(skills, name).Some? ==>
      exists i :: 0 <= i < |skills| && skills[i] == Skill(name, SkillCount(skills, name).value)
    decreases |skills|
  {
    if skills != [] && skills[0].name != name {
      SkillCountSpec(skills[1..], name);
      var r := SkillCount(skills, name);
      if r.Some? {
        var i :| 0 <= i < |skills[1..]| && skills[1..][i] == Skill(name, r.value);
        assert skills[i + 1] == Skill(name, r.value);
      }
      forall i | 1 <= i < |skills| && r.None? ensures skills[i].name != name {
        assert skills[i] == skills[1..][i - 1];
      }
    }
  }

  /** `skillProgress[name]++` on a key that is present; keys and their order are untouched. */
  function IncrementSkill(skills: seq<Skill>, name: string): (r: seq<Skill>)
    ensures |r| == |skills|
    ensures forall i :: 0 <= i < |r| ==> r[i].name == skills[i].name
  {
    if skills == [] then []
    else if skills[0].name == name then [skills[0].(count := skills[0].count + 1)] + skills[1..]
    else [skills[0]] + IncrementSkill(skills[1..], name)
  }

  /** The increment adds one to the count of `name` when it is a key and leaves every other
      count alone. */
  lemma {:induction false} IncrementSkillCount(skills: seq<Skill>, name: string, n: string)
    ensures SkillCount(IncrementSkill(skills, name), n) ==
      if n == name && SkillCount(skills, name).Some? then Some(SkillCount(skills, name).value + 1)
      else SkillCount(skills, n)
    decreases |skills|
  {
    if skills != [] {
      var r := IncrementSkill(skills, name);
      if skills[0].name == name {
        assert r[0] == skills[0].(count := skills[0].count + 1) && r[1..] == skills[1..];
      } else {
        assert r[0] == skills[0] && r[1..] == IncrementSkill(skills[1..], name);
        IncrementSkillCount(skills[1..], name, n);
      }
    }
  }

  /** When `name` is not a key the increment changes nothing. */
  lemma {:induction false} IncrementSkillAbsent(skills: seq<Skill>, name: string)
    requires SkillCount(skills, name).None?
    ensures IncrementSkill(skills, name) == skills
    decreases |skills|
  {
    if skills != [] {
      IncrementSkillAbsent(skills[1..], name);
    }
  }

  /** The record `loadProgressData` starts from: zero counters, every skill at zero, no streak. */
  function DefaultRecord(now: Timestamp): (r: ProgressRecord)
    ensures r.totalChallenges == 0 && r.completedChallenges == [] && r.dailyActivity == map[]
    ensures forall n :: n in SkillNames ==> SkillCount(r.skillProgress, n) == Some(0)
    ensures forall n :: n !in SkillNames ==> SkillCount(r.skillProgress, n) == None
    ensures r.streakData == StreakData(0, 0, None) && r.achievements == [] && r.timeSpent == 0
    ensures r.startDate == now && r.lastUpdated == now
    ensures Valid(r)
  {
    var skills := seq(|SkillNames|, i requires 0 <= i < |SkillNames| => Skill(SkillNames[i], 0));
    assert forall n :: n in SkillNames ==> SkillCount(skills, n) == Some(0) by {
      forall n | n in SkillNames ensures SkillCount(skills, n) == Some(0) {
        var i :| 0 <= i < |SkillNames| && SkillNames[i] == n;
        assert skills[i].name == n;
        SkillCountSpec(skills, n);
      }
    }
    assert forall n :: n !in SkillNames ==> SkillCount(skills, n) == None by {
      forall n | n !in SkillNames ensures SkillCount(skills, n) == None {
        SkillCountSpec(skills, n);
        assert forall i :: 0 <= i < |skills| ==> skills[i].name == SkillNames[i];
      }
    }
    ProgressRecord(now, 0, [], map[], skills, StreakData(0, 0, None), [], 0, now)
  }

  /** The keys of `skillProgress`, in order. */
  function SkillKeys(skills: seq<Skill>): seq<string> {
    Map((k: Skill) => k.name, skills)
  }

  /** What the completion tracker keeps true of a record it has built; like the keys of an object,
      the skill names are distinct. */
  predicate Valid(r: ProgressRecord) {
    && NoDuplicates(SkillKeys(r.skillProgress))
    && r.totalChallenges == |r.completedChallenges|
    && NoDuplicates(r.completedChallenges)
    && (forall d :: d in r.dailyActivity ==>
          NoDuplicates(r.dailyActivity[d].difficulties) && NoDuplicates(r.dailyActivity[d].categories))
    && r.streakData.longest >= r.streakData.current
    && NoDuplicates(r.achievements)
  }
}
