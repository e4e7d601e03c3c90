/** The `GoalManager` of scripts/streak-goal-manager.js: two goal lists (weekly and monthly),
    loaded from local storage or built from defaults, with goals added and deleted in place. */
module Goals {
  import opened Wrappers
  import opened Text
  import opened ProgressRecord
  import opened Sequences

  /** A goal. `goalType` is missing on the default goals; `target` is `None` where `parseInt`
      gives `NaN`. */
  datatype Goal = Goal(
    id: string,
    title: string,
    description: string,
    goalType: Option<string>,
    deadline: string,
    target: Option<int>,
    category: string,
    current: int,
    status: string)

  datatype GoalLists = GoalLists(weekly: seq<Goal>, monthly: seq<Goal>)

  /** The `codeclip_goals` entry: nothing (or an empty string), text `JSON.parse` rejects, or
      the parsed lists. */
  datatype GoalSlot = NoGoals | Unparseable | Stored(lists: GoalLists)

  /** The four dates the defaults are due on, computed from the clock by the caller. */
  datatype Deadlines = Deadlines(lastWeek: string, nextWeek: string, twoWeeksFromNow: string, nextMonth: string)

  /** The values read from the goal-creation form. */
  datatype GoalInput = GoalInput(title: string, description: string, goalType: string, deadline: string,
    target: Option<int>, category: string)

  /** `goals.filter(g => g.status === 'completed').length`. */
  function CompletedCount(goals: seq<Goal>): (n: nat)
    ensures n <= |goals|
    ensures n == 0 <==> forall i :: 0 <= i < |goals| ==> goals[i].status != "completed"
  {
    if goals == [] then 0
    else
      var rest := CompletedCount(goals[1..]);
      assert forall i :: 1 <= i < |goals| ==> goals[i] == goals[1..][i - 1];
      (if goals[0].status == "completed" then 1 else 0) + rest
  }

  lemma {:induction false} CompletedCountAppend(goals: seq<Goal>, g: Goal)
    ensures CompletedCount(goals + [g]) == CompletedCount(goals) + (if g.status == "completed" then 1 else 0)
    decreases |goals|
  {
    if goals == [] {
      assert goals + [g] == [g];
    } else {
      CompletedCountAppend(goals[1..], g);
      assert (goals + [g])[1..] == goals[1..] + [g];
    }
  }

  /** The goals `loadGoals` returns when nothing is stored. */
  function DefaultGoals(dl: Deadlines): (g: GoalLists)
    ensures |g.weekly| == 3 && |g.monthly| == 2
    ensures NoDuplicates(Map((x: Goal) => x.id, g.weekly + g.monthly))
    ensures CompletedCount(g.weekly) == 1 && CompletedCount(g.monthly) == 1
    ensures forall i :: 0 <= i < |g.weekly + g.monthly| ==> (g.weekly + g.monthly)[i].goalType == None
  {
    var weekly := [
      Goal("w1", "Complete 5 Array Challenges", "Focus on fundamental array operations", None,
        dl.lastWeek, Some(5), "challenges", 5, "completed"),
      Goal("w2", "Maintain 7-Day Streak", "Code every day for a week straight", None,
        dl.nextWeek, Some(7), "streak", 5, "in-progress"),
      Goal("w3", "Learn React Hooks", "Complete 3 React hook challenges", None,
        dl.twoWeeksFromNow, Some(3), "skills", 1, "pending")];
    var monthly := [
      Goal("m1", "Complete 25 Challenges", "Solve challenges across all difficulty levels", None,
        dl.lastWeek, Some(25), "challenges", 25, "completed"),
      Goal("m2", "Master Data Structures", "Complete 10 advanced data structure problems", None,
        dl.nextMonth, Some(10), "skills", 6, "in-progress")];
    var ids := Map((x: Goal) => x.id, weekly + monthly);
    assert ids == ["w1", "w2", "w3", "m1", "m2"];
    assert CompletedCount(weekly[2..]) == 0;
    assert CompletedCount(monthly[1..]) == 0;
    GoalLists(weekly, monthly)
  }

  /** `loadGoals`: the stored lists when there are any, the defaults when the entry is empty;
      text that does not parse makes `JSON.parse` throw, which nothing catches. */
  function LoadGoals(slot: GoalSlot, dl: Deadlines): (r: Result<GoalLists, string>)
    ensures r.Failure? <==> slot.Unparseable?
    ensures slot.NoGoals? ==> r == Success(DefaultGoals(dl))
    ensures slot.Stored? ==> r == Success(slot.lists)
  {
    match slot
    case NoGoals => Success(DefaultGoals(dl))
    case Unparseable => Failure("SyntaxError: JSON.parse")
    case Stored(lists) => Success(lists)
  }

  /** Storing the lists and loading them again gives them back, whatever the dates. */
  lemma LoadAfterSave(g: GoalLists, dl: Deadlines)
    ensures LoadGoals(Stored(g), dl) == Success(g)
  {
  }

  /** The goal `createGoal` builds from the form at time `now` (milliseconds). */
  function NewGoal(input: GoalInput, now: nat): (g: Goal)
    ensures g.id == "goal_" + NatToString(now)
    ensures g.current == 0 && g.status == "pending"
    ensures g.goalType == Some(input.goalType) && g.target == input.target
  {
    Goal("goal_" + NatToString(now), input.title, input.description, Some(input.goalType),
      input.deadline, input.target, input.category, 0, "pending")
  }

  /** Goals created at different times get different ids. */
  lemma NewGoalIdsDiffer(a: GoalInput, b: GoalInput, t1: nat, t2: nat)
    requires t1 != t2
    ensures NewGoal(a, t1).id != NewGoal(b, t2).id
  {
    var p := "goal_";
    if NewGoal(a, t1).id == NewGoal(b, t2).id {
      assert (p + NatToString(t1))[|p|..] == NatToString(t1);
      assert (p + NatToString(t2))[|p|..] == NatToString(t2);
      NatToStringInjective(t1, t2);
    }
  }

  /** `goals.filter(g => g.id !== goalId)`. */
  function WithoutId(goals: seq<Goal>, goalId: string): (r: seq<Goal>)
    ensures forall g :: g in r <==> g in goals && g.id != goalId
    ensures forall g :: multiset(r)[g] == if g.id == goalId then 0 else multiset(goals)[g]
    ensures SubsequenceOf(r, goals)
    ensures (forall g :: g in goals ==> g.id != goalId) ==> r == goals
  {
    if goals == [] then []
    else
      assert goals == [goals[0]] + goals[1..];
      if goals[0].id == goalId then WithoutId(goals[1..], goalId)
      else [goals[0]] + WithoutId(goals[1..], goalId)
  }

  /** Deleting an id twice is deleting it once. */
  lemma WithoutIdIdempotent(goals: seq<Goal>, goalId: string)
    ensures WithoutId(WithoutId(goals, goalId), goalId) == WithoutId(goals, goalId)
  {
  }

  /** Deleting never changes how many goals with other ids are completed. */
  lemma {:induction false} WithoutIdCompleted(goals: seq<Goal>, goalId: string)
    ensures CompletedCount(WithoutId(goals, goalId)) <= CompletedCount(goals)
    decreases |goals|
  {
    if goals != [] {
      WithoutIdCompleted(goals[1..], goalId);
    }
  }

  /** `createGoal`'s placement: `type === 'weekly'` goes on the weekly list, anything else on
      the monthly one. */
  function AddGoal(lists: GoalLists, g: Goal): (r: GoalLists)
    ensures g.goalType == Some("weekly") ==> r == lists.(weekly := lists.weekly + [g])
    ensures g.goalType != Some("weekly") ==> r == lists.(monthly := lists.monthly + [g])
  {
    if g.goalType == Some("weekly") then lists.(weekly := lists.weekly + [g])
    else lists.(monthly := lists.monthly + [g])
  }

  /** A new goal is pending, so the completed counts the progress rings show do not move. */
  lemma AddGoalKeepsCompleted(lists: GoalLists, input: GoalInput, now: nat)
    ensures var r := AddGoal(lists, NewGoal(input, now));
      CompletedCount(r.weekly) == CompletedCount(lists.weekly)
      && CompletedCount(r.monthly) == CompletedCount(lists.monthly)
  {
    var g := NewGoal(input, now);
    CompletedCountAppend(lists.weekly, g);
    CompletedCountAppend(lists.monthly, g);
  }

  class GoalManager {
    var goals: GoalLists
    /** The `codeclip_goals` entry of local storage. */
    var slot: GoalSlot

    constructor (stored: GoalSlot, dl: Deadlines)
      requires LoadGoals(stored, dl).Success?
      ensures goals == LoadGoals(stored, dl).value && slot == stored
    {
      goals := LoadGoals(stored, dl).value;
      slot := stored;
    }

    /** `saveGoals`: the lists are written to local storage. Nothing catches a refused write, so
        `ok` is false exactly when the write throws, and the slot then keeps its old value. */
    method SaveGoals(writable: bool) returns (ok: bool)
      modifies this
      ensures goals == old(goals)
      ensures ok == writable
      ensures slot == if writable then Stored(goals) else old(slot)
    {
      if writable {
        slot := Stored(goals);
      }
      ok := writable;
    }

    /** `createGoal`: nothing without the form; otherwise the new goal is appended to one list
        and the lists are saved. A refused write throws out of the method after the list has
        grown (`ok` false, slot unchanged). */
    method CreateGoal(formPresent: bool, input: GoalInput, now: nat, writable: bool) returns (ok: bool)
      modifies this
      ensures !formPresent ==> goals == old(goals) && slot == old(slot) && ok
      ensures formPresent ==>
        && goals == AddGoal(old(goals), NewGoal(input, now))
        && ok == writable
        && slot == (if writable then Stored(goals) else old(slot))
    {
      if !formPresent {
        return true;
      }
      var goalData := NewGoal(input, now);
      if goalData.goalType == Some("weekly") {
        goals := goals.(weekly := goals.weekly + [goalData]);
      } else {
        goals := goals.(monthly := goals.monthly + [goalData]);
      }
      ok := SaveGoals(writable);
    }

    /** `deleteGoal`: nothing unless confirmed; otherwise the id is filtered out of both lists
        and the lists are saved. A refused write throws after the lists were filtered (`ok` false,
        slot unchanged). */
    method DeleteGoal(confirmed: bool, goalId: string, writable: bool) returns (ok: bool)
      modifies this
      ensures !confirmed ==> goals == old(goals) && slot == old(slot) && ok
      ensures confirmed ==>
        && goals == GoalLists(WithoutId(old(goals).weekly, goalId), WithoutId(old(goals).monthly, goalId))
        && ok == writable
        && slot == (if writable then Stored(goals) else old(slot))
    {
      if !confirmed {
        return true;
      }
      goals := goals.(weekly := WithoutId(goals.weekly, goalId));
      goals := goals.(monthly := WithoutId(goals.monthly, goalId));
      ok := SaveGoals(writable);
    }

    /** The "x of y completed" figures of `updateProgressRings`. */
    function ProgressCounts(): (counts: (nat, nat, nat, nat))
      reads this
      ensures counts.0 <= counts.1 && counts.2 <= counts.3
      ensures counts.1 == |goals.weekly| && counts.3 == |goals.monthly|
    {
      (CompletedCount(goals.weekly), |goals.weekly|, CompletedCount(goals.monthly), |goals.monthly|)
    }
  }
}
