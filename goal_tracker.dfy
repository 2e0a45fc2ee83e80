/** `components/GoalTracker.tsx`: the list of SMART goals, with add, progress
    update and removal, and the draft of the goal being added. */
module GoalTracker {
  import opened Types

  /** The `newGoal` draft: the fields the user types in. */
  datatype Draft = Draft(title: string, metric: string, target: string, deadline: string)

  const EmptyDraft := Draft("", "", "", "")

  /** A goal's progress is a percentage and it is completed exactly at 100. */
  predicate GoalValid(g: SMARTGoal) {
    0 <= g.progress <= 100 && g.completed == (g.progress == 100)
  }

  predicate AllValid(goals: seq<SMARTGoal>) {
    forall i :: 0 <= i < |goals| ==> GoalValid(goals[i])
  }

  predicate HasId(goals: seq<SMARTGoal>, id: string) {
    exists i :: 0 <= i < |goals| && goals[i].id == id
  }

  /** `{ id, ...newGoal, progress: 0, completed: false }` */
  function NewGoal(id: string, d: Draft): (g: SMARTGoal)
    ensures GoalValid(g) && g.progress == 0 && !g.completed
    ensures g.id == id && g.title == d.title && g.metric == d.metric
    ensures g.target == d.target && g.deadline == d.deadline
  {
    SMARTGoal(id, d.title, d.metric, d.target, d.deadline, 0, false)
  }

  /** `Math.min(100, Math.max(0, x))` */
  function Clamp(x: int): (r: int)
    ensures 0 <= r <= 100
    ensures 0 <= x <= 100 ==> r == x
    ensures x < 0 ==> r == 0
    ensures x > 100 ==> r == 100
  {
    if x < 0 then 0 else if x > 100 then 100 else x
  }

  /** The goal after `amount` is added to its progress: clamped, and completed
      exactly when it reaches 100; nothing else about it changes. */
  function Advanced(g: SMARTGoal, amount: int): (r: SMARTGoal)
    ensures GoalValid(r)
    ensures r.progress == Clamp(g.progress + amount)
    ensures r.id == g.id && r.title == g.title && r.metric == g.metric
    ensures r.target == g.target && r.deadline == g.deadline
  {
    var p := Clamp(g.progress + amount);
    g.(progress := p, completed := p == 100)
  }

  /** `goals.map(...)` in `updateProgress`: every goal with the id advances, every
      other goal stays, and the length and order are kept. */
  function ProgressUpdated(goals: seq<SMARTGoal>, id: string, amount: int): (r: seq<SMARTGoal>)
    ensures |r| == |goals|
    ensures forall i :: 0 <= i < |goals| && goals[i].id != id ==> r[i] == goals[i]
    ensures forall i :: 0 <= i < |goals| && goals[i].id == id ==> r[i] == Advanced(goals[i], amount)
  {
    seq(|goals|, i requires 0 <= i < |goals| =>
      if goals[i].id == id then Advanced(goals[i], amount) else goals[i])
  }

  /** Updating a goal keeps every goal well formed. */
  lemma ProgressUpdatedKeepsValid(goals: seq<SMARTGoal>, id: string, amount: int)
    requires AllValid(goals)
    ensures AllValid(ProgressUpdated(goals, id, amount))
  {
  }

  /** An id that no goal has changes nothing. */
  lemma ProgressUpdatedUnknownId(goals: seq<SMARTGoal>, id: string, amount: int)
    requires !HasId(goals, id)
    ensures ProgressUpdated(goals, id, amount) == goals
  {
  }

  /** `goals.filter(g => g.id !== id)` */
  function WithoutGoal(goals: seq<SMARTGoal>, id: string): (r: seq<SMARTGoal>)
    ensures |r| <= |goals|
    ensures forall g :: g in r ==> g in goals && g.id != id
    ensures forall g :: g in goals && g.id != id ==> g in r
  {
    if goals == [] then []
    else if goals[0].id != id then [goals[0]] + WithoutGoal(goals[1..], id)
    else WithoutGoal(goals[1..], id)
  }

  /** Filtering works piece by piece, so the goals that stay keep their order. */
  lemma {:induction false} WithoutGoalAppend(a: seq<SMARTGoal>, b: seq<SMARTGoal>, id: string)
    ensures WithoutGoal(a + b, id) == WithoutGoal(a, id) + WithoutGoal(b, id)
    decreases |a|
  {
    if a == [] {
      assert a + b == b;
    } else {
      assert (a + b)[1..] == a[1..] + b;
      WithoutGoalAppend(a[1..], b, id);
    }
  }

  /** Removing twice is removing once. */
  lemma {:induction false} WithoutGoalIdempotent(goals: seq<SMARTGoal>, id: string)
    ensures WithoutGoal(WithoutGoal(goals, id), id) == WithoutGoal(goals, id)
    decreases |goals|
  {
    if goals != [] {
      WithoutGoalIdempotent(goals[1..], id);
      if goals[0].id != id {
        var rest := WithoutGoal(goals[1..], id);
        assert ([goals[0]] + rest)[1..] == rest;
      }
    }
  }

  /** An id that no goal has removes nothing. */
  lemma {:induction false} WithoutGoalUnknownId(goals: seq<SMARTGoal>, id: string)
    requires !HasId(goals, id)
    ensures WithoutGoal(goals, id) == goals
    decreases |goals|
  {
    if goals != [] {
      assert !HasId(goals[1..], id) by {
        forall i | 0 <= i < |goals[1..]| ensures goals[1..][i].id != id {
          assert goals[1..][i] == goals[i + 1];
        }
      }
      WithoutGoalUnknownId(goals[1..], id);
      assert goals[0].id != id;
      assert goals == [goals[0]] + goals[1..];
    }
  }

  /** Removal keeps every remaining goal well formed. */
  lemma WithoutGoalKeepsValid(goals: seq<SMARTGoal>, id: string)
    requires AllValid(goals)
    ensures AllValid(WithoutGoal(goals, id))
  {
    var r := WithoutGoal(goals, id);
    forall i | 0 <= i < |r| ensures GoalValid(r[i]) {
      assert r[i] in goals;
    }
  }

  class TrackerState {
    var goals: seq<SMARTGoal>
    var showAdd: bool
    var newGoal: Draft

    ghost predicate Valid()
      reads this
    {
      AllValid(goals)
    }

    constructor ()
      ensures Valid() && goals == [] && !showAdd && newGoal == EmptyDraft
    {
      goals := [];
      showAdd := false;
      newGoal := EmptyDraft;
    }

    /** The "Add Goal" / "Cancel" button. */
    method ToggleAdd()
      requires Valid()
      modifies this`showAdd
      ensures Valid() && showAdd == !old(showAdd)
    {
      showAdd := !showAdd;
    }

    /** The draft inputs' `onChange`. */
    method EditDraft(d: Draft)
      requires Valid()
      modifies this`newGoal
      ensures Valid() && newGoal == d
    {
      newGoal := d;
    }

    /** `addGoal`: nothing without a title; otherwise the new goal goes at the end,
        the draft is cleared and the panel closes. */
    method AddGoal(id: string)
      requires Valid()
      modifies this
      ensures Valid()
      ensures old(newGoal.title) == [] ==>
        goals == old(goals) && newGoal == old(newGoal) && showAdd == old(showAdd)
      ensures old(newGoal.title) != [] ==>
        goals == old(goals) + [NewGoal(id, old(newGoal))] && newGoal == EmptyDraft && !showAdd
    {
      if newGoal.title == [] {
        return;
      }
      var goal := NewGoal(id, newGoal);
      goals := goals + [goal];
      newGoal := EmptyDraft;
      showAdd := false;
    }

    /** `updateProgress` */
    method UpdateProgress(id: string, amount: int)
      requires Valid()
      modifies this`goals
      ensures Valid()
      ensures goals == ProgressUpdated(old(goals), id, amount)
    {
      ProgressUpdatedKeepsValid(goals, id, amount);
      goals := ProgressUpdated(goals, id, amount);
    }

    /** `removeGoal` */
    method RemoveGoal(id: string)
      requires Valid()
      modifies this`goals
      ensures Valid()
      ensures goals == WithoutGoal(old(goals), id)
    {
      WithoutGoalKeepsValid(goals, id);
      goals := WithoutGoal(goals, id);
    }
  }
}
