/**
 * `GoalPlanner` (jarvis_planner.py): the table of active plans, the
 * pattern library, and the operations that create, decompose, execute,
 * evaluate, promote and reuse plans.
 *
 * Ids that Python draws from `uuid4` are supplied as a sequence `ids` of
 * distinct ids that are not yet in the plan; the recursions over a plan's
 * goals take a ghost `rank` that makes the goal graph well-founded.
 */
module Planner {
  import opened Common
  import opened OrderedDicts
  import opened PlannerTypes
  import opened PlanTree
  import opened Plans
  import opened Patterns
  import opened PatternCopy
  import opened PlanCosts

  /** The outcome the placeholder execution of a ready goal reports. */
  const SimulatedOutcome: Outcome :=
    Outcome(true, Some(map["message" := "Executed successfully"]), None, 0.95, [], [])

  /**
   * What `execute_goal` does to a goal it finds: a blocked goal stays
   * blocked and fails, any other goal completes with the simulated outcome.
   */
  function PlannerLeaf(g: Goal): (l: LeafResult)
    ensures l.ok <==> IsReady(g)
    ensures l.ok ==> l.status == Completed && l.outcome == Some(SimulatedOutcome)
    ensures !l.ok ==> l.status == Blocked && l.outcome == None
  {
    if !IsReady(g) then LeafResult(false, Blocked, None)
    else LeafResult(true, Completed, Some(SimulatedOutcome))
  }

  /** The three placeholder steps of a linear decomposition. */
  const StepNames: seq<string> := ["Step 1", "Step 2", "Step 3"]

  /** The `i`-th step goal `decompose_goal` creates under `parent`. */
  function StepGoal(id: GoalId, i: nat, parent: GoalId, planId: string): (g: Goal)
    requires i < 3
    ensures g.id == id && g.goalType == OneShot && g.parentId == Some(parent) && g.planId == Some(planId)
    ensures g.children == [] && g.status == Pending && g.description == StepNames[i]
  {
    NewGoal(id, StepNames[i], OneShot).(parentId := Some(parent), planId := Some(planId))
  }

  /**
   * The accumulation loop of `analyze_costs` for one dictionary: every
   * amount of `d` is added into `acc` under its key.
   */
  method Accumulate(acc: CostDict, d: CostDict) returns (r: CostDict)
    ensures r == AddAll(acc, d)
  {
    r := acc;
    var j := 0;
    assert d.keys[..0] == [];
    while j < |d.keys|
      invariant 0 <= j <= |d.keys|
      invariant r == AddKeys(acc, d, d.keys[..j])
    {
      var k := d.keys[j];
      AddKeysStep(acc, d, j, r);
      r := AddOne(r, k, GetOr(d, k, 0.0));
      j := j + 1;
    }
    assert d.keys[..j] == d.keys;
  }

  /**
   * The loop of `analyze_costs` over the goals: each goal's estimated and
   * actual dictionaries are added into the running totals and its risks
   * appended.
   */
  method SumCosts(gs: seq<Goal>) returns (total: CostAnalysis)
    ensures total == Aggregate(gs)
  {
    total := EmptyCosts();
    var i := 0;
    while i < |gs|
      invariant 0 <= i <= |gs|
      invariant total == Aggregate(gs[..i])
    {
      var c := gs[i].costAnalysis;
      AggregateStep(gs, i, total);
      var est := Accumulate(total.estimatedCosts, c.estimatedCosts);
      var act := Accumulate(total.actualCosts, c.actualCosts);
      total := total.(estimatedCosts := est, actualCosts := act, risks := total.risks + c.risks);
      i := i + 1;
    }
    assert gs[..i] == gs;
  }

  /** `m` after the goals `cs` were stored under the first `|cs|` ids. */
  ghost function StepsAdded(m: Arena, ids: seq<GoalId>, cs: seq<Goal>): Arena
    requires |cs| <= |ids|
  {
    if |cs| == 0 then m
    else StepsAdded(m, ids, cs[..|cs| - 1])[ids[|cs| - 1] := cs[|cs| - 1]]
  }

  lemma StepsAddedSnoc(m: Arena, ids: seq<GoalId>, cs: seq<Goal>, c: Goal)
    requires |cs| < |ids|
    ensures StepsAdded(m, ids, cs + [c]) == StepsAdded(m, ids, cs)[ids[|cs|] := c]
  {
    assert (cs + [c])[..|cs|] == cs;
  }

  /** Replacing a goal whose id none of the added steps has commutes with adding them. */
  lemma {:induction false} StepsAddedUpdate(m: Arena, k: GoalId, g: Goal, g2: Goal, ids: seq<GoalId>, cs: seq<Goal>)
    requires |cs| <= |ids| && forall j :: 0 <= j < |cs| ==> ids[j] != k
    ensures StepsAdded(m[k := g2], ids, cs) == StepsAdded(m[k := g], ids, cs)[k := g2]
  {
    if |cs| > 0 {
      StepsAddedUpdate(m, k, g, g2, ids, cs[..|cs| - 1]);
    }
  }

  /**
   * The "linear" branch of `decompose_goal` for a childless goal: three
   * step goals under fresh ids become its children, in order, and the goal
   * becomes Linear.
   */
  method DecomposeLinear(plan: Plan, goalId: GoalId, goal: Goal, ids: seq<GoalId>) returns (children: seq<Goal>)
    requires plan.Valid() && goalId in plan.goals.m && plan.goals.m[goalId] == goal && goal.children == []
    requires |ids| >= 3 && Distinct(ids) && forall j :: 0 <= j < |ids| ==> ids[j] !in plan.goals.m
    modifies plan
    ensures plan.Valid() && plan.Header() == old(plan.Header())
    ensures children == [StepGoal(ids[0], 0, goalId, plan.id), StepGoal(ids[1], 1, goalId, plan.id),
                         StepGoal(ids[2], 2, goalId, plan.id)]
    ensures plan.goals.keys == old(plan.goals.keys) + ids[..3]
    ensures plan.goals.m == old(plan.goals.m)[goalId := goal.(children := ids[..3], goalType := Linear)]
                                             [ids[0] := children[0]][ids[1] := children[1]][ids[2] := children[2]]
  {
    var goals;
    children, goals := AddSteps(plan.goals, plan.id, goalId, goal, ids);
    var g := goal.(children := ids[..3], goalType := Linear);
    plan.goals := Put(goals, goalId, g);
    LinearDone(old(plan.goals.m), goals.m, goalId, goal.(children := ids[..3]), g, ids, children);
  }

  /**
   * The loop of the "linear" branch on the goal table `goals` of plan
   * `planId`: step `i` gets id `ids[i]`, is appended to the parent's
   * children and is added to the table.
   */
  method AddSteps(goals: ODict<GoalId, Goal>, planId: string, goalId: GoalId, goal: Goal, ids: seq<GoalId>)
    returns (children: seq<Goal>, r: ODict<GoalId, Goal>)
    requires goalId in goals.m && goals.m[goalId] == goal && goal.id == goalId && goal.children == []
    requires |ids| >= 3 && forall a, b :: 0 <= a < b < 3 ==> ids[a] != ids[b]
    requires forall j :: 0 <= j < 3 ==> ids[j] !in goals.m
    ensures children == [StepGoal(ids[0], 0, goalId, planId), StepGoal(ids[1], 1, goalId, planId),
                         StepGoal(ids[2], 2, goalId, planId)]
    ensures r.keys == goals.keys + ids[..3]
    ensures goalId in r.m
    ensures r.m == StepsAdded(goals.m[goalId := goal.(children := ids[..3])], ids, children)
  {
    var g := goal;
    children := [];
    r := goals;
    var i := 0;
    while i < 3
      invariant 0 <= i <= 3
      invariant g == goal.(children := ids[..i])
      invariant r.keys == goals.keys + ids[..i]
      invariant |children| == i
      invariant forall j :: 0 <= j < i ==> children[j] == StepGoal(ids[j], j, goalId, planId)
      invariant r.m == StepsAdded(goals.m[goalId := g], ids, children)
      invariant goalId in r.m && r.m[goalId] == g
      invariant forall j :: i <= j < 3 ==> ids[j] !in r.m
    {
      var before := r;
      var pair := AddChild(g, NewGoal(ids[i], StepNames[i], OneShot).(parentId := Some(goalId), planId := Some(planId)));
      r := Put(r, goalId, pair.0);
      var child := pair.1.(planId := Some(planId));
      r := Put(r, ids[i], child);
      ChildrenGrow(goal, g, ids, i);
      KeysGrow(goals.keys, ids, i, before.keys, r.keys);
      ContentsGrow(goals.m, goalId, g, pair.0, ids, children, child, before.m, r.m);
      StillUnused(before.m, r.m, goalId, pair.0, child, ids, i);
      StepsGrow(children, child, ids, i, goalId, planId);
      g := pair.0;
      children := children + [child];
      i := i + 1;
    }
  }

  /** The ids of the later steps are still unused after step `n` was added. */
  lemma StillUnused(m1: Arena, m2: Arena, k: GoalId, next: Goal, child: Goal, ids: seq<GoalId>, n: nat)
    requires n < 3 <= |ids| && forall a, b :: 0 <= a < b < 3 ==> ids[a] != ids[b]
    requires k in m1 && (forall j :: n <= j < 3 ==> ids[j] !in m1) && m2 == m1[k := next][ids[n] := child]
    ensures forall j :: n + 1 <= j < 3 ==> ids[j] !in m2
  {
  }

  /** The step list after one more step. */
  lemma StepsGrow(cs: seq<Goal>, child: Goal, ids: seq<GoalId>, n: nat, parent: GoalId, planId: string)
    requires n < 3 <= |ids| && |cs| == n && child == StepGoal(ids[n], n, parent, planId)
    requires forall j :: 0 <= j < n ==> cs[j] == StepGoal(ids[j], j, parent, planId)
    ensures forall j :: 0 <= j < n + 1 ==> (cs + [child])[j] == StepGoal(ids[j], j, parent, planId)
  {
  }

  /** The parent's children after one more step. */
  lemma ChildrenGrow(goal: Goal, g: Goal, ids: seq<GoalId>, n: nat)
    requires n < |ids| && g == goal.(children := ids[..n])
    ensures g.(children := g.children + [ids[n]]) == goal.(children := ids[..n + 1])
  {
    assert ids[..n + 1] == ids[..n] + [ids[n]];
  }

  /** The table's keys after one more step. */
  lemma KeysGrow(k0: seq<GoalId>, ids: seq<GoalId>, n: nat, k1: seq<GoalId>, k2: seq<GoalId>)
    requires n < |ids| && k1 == k0 + ids[..n] && k2 == k1 + [ids[n]]
    ensures k2 == k0 + ids[..n + 1]
  {
    assert ids[..n + 1] == ids[..n] + [ids[n]];
  }

  /** The table's contents after one more step. */
  lemma ContentsGrow(m0: Arena, k: GoalId, g: Goal, next: Goal, ids: seq<GoalId>, cs: seq<Goal>, child: Goal,
                     m1: Arena, m2: Arena)
    requires |cs| < |ids| && forall j :: 0 <= j < |cs| ==> ids[j] != k
    requires m1 == StepsAdded(m0[k := g], ids, cs) && m2 == m1[k := next][ids[|cs|] := child]
    ensures m2 == StepsAdded(m0[k := next], ids, cs + [child])
  {
    StepsAddedUpdate(m0, k, g, next, ids, cs);
    StepsAddedSnoc(m0[k := next], ids, cs, child);
  }

  /** Marking the parent Linear after its three steps were added. */
  lemma LinearDone(m0: Arena, m1: Arena, k: GoalId, g: Goal, g2: Goal, ids: seq<GoalId>, cs: seq<Goal>)
    requires |cs| == 3 && |ids| >= 3 && ids[0] != k && ids[1] != k && ids[2] != k
    requires m1 == StepsAdded(m0[k := g], ids, cs)
    ensures m1[k := g2] == m0[k := g2][ids[0] := cs[0]][ids[1] := cs[1]][ids[2] := cs[2]]
  {
    StepsAddedUpdate(m0, k, g, g2, ids, cs);
    StepsAddedThree(m0[k := g2], ids, cs);
  }

  lemma StepsAddedThree(m: Arena, ids: seq<GoalId>, cs: seq<Goal>)
    requires |cs| == 3 && |ids| >= 3
    ensures StepsAdded(m, ids, cs) == m[ids[0] := cs[0]][ids[1] := cs[1]][ids[2] := cs[2]]
  {
    var c1, c2 := cs[..1], cs[..2];
    assert c1[..0] == [] && c2[..1] == c1 && cs[..2] == c2;
    assert StepsAdded(m, ids, c1) == m[ids[0] := cs[0]];
    assert StepsAdded(m, ids, c2) == StepsAdded(m, ids, c1)[ids[1] := cs[1]];
  }

  /** The copy of a whole pattern tree from its root, as `apply_pattern` starts it. */
  method CopyPattern(goals: ODict<GoalId, Goal>, planId: string, src: Arena, root: GoalId,
                     ids: seq<GoalId>, ghost rank: map<GoalId, nat>)
    returns (newRoot: Option<GoalId>, r: ODict<GoalId, Goal>, ghost origin: map<GoalId, GoalId>)
    requires Keyed(goals.m) && Ranked(src, rank) && Distinct(ids)
    requires forall j :: 0 <= j < |ids| ==> ids[j] !in goals.m
    requires TreeSize(src, root, rank) <= |ids|
    ensures Keyed(r.m)
    ensures var n := TreeSize(src, root, rank);
      r.keys == goals.keys + ids[..n] &&
      (forall k :: k in goals.m ==> k in r.m && r.m[k] == goals.m[k]) &&
      CopiedRange(r.m, src, rank, ids, origin, planId, 0, n)
    ensures newRoot.Some? <==> root in src
    ensures root !in src ==> r == goals
    ensures forall k :: k in origin ==> k in r.m && k !in goals.m
    ensures root in src ==> newRoot == Some(ids[0]) && ids[0] in origin && origin[ids[0]] == root &&
                            ids[0] in r.m && r.m[ids[0]].parentId == None
  {
    var next;
    newRoot, next, r, origin := CopyInto(goals, planId, src, root, None, ids, 0, rank);
    assert ids[0..next] == ids[..next];
  }

  class GoalPlanner {
    var activePlans: map<string, Plan>
    var patternLibrary: ODict<string, Plan>

    /** A planner with no active plans and an empty pattern library. */
    constructor ()
      ensures activePlans == map[] && patternLibrary == Empty()
    {
      activePlans := map[];
      patternLibrary := Empty();
    }

    /** `create_plan`: a new plan holding only its root goal, registered as active. */
    method CreatePlan(description: string, rootGoal: Goal, planId: string) returns (plan: Plan)
      modifies this
      ensures fresh(plan) && plan.Valid()
      ensures plan.id == planId && plan.rootGoalId == rootGoal.id && plan.description == description
      ensures plan.goals == Put(Empty(), rootGoal.id, rootGoal.(planId := Some(planId)))
      ensures plan.status == Pending && !plan.success && plan.patternSignature == None && plan.evaluationScore == None
      ensures activePlans == old(activePlans)[planId := plan] && patternLibrary == old(patternLibrary)
    {
      plan := new Plan(planId, rootGoal.id, description);
      var _ := plan.AddGoal(rootGoal);
      activePlans := activePlans[planId := plan];
    }

    /**
     * `decompose_goal`: nothing for a missing goal; the present children of
     * an already decomposed goal; three OneShot steps under a childless goal
     * for the "linear" strategy (the goal becoming Linear); nothing for any
     * other strategy.
     */
    method DecomposeGoal(plan: Plan, goalId: GoalId, strategy: string, ids: seq<GoalId>) returns (children: seq<Goal>)
      requires plan.Valid()
      requires |ids| >= 3 && Distinct(ids) && forall j :: 0 <= j < |ids| ==> ids[j] !in plan.goals.m
      modifies plan
      ensures plan.Valid() && plan.Header() == old(plan.Header())
      ensures goalId !in old(plan.goals.m) ==> children == [] && plan.goals == old(plan.goals)
      ensures goalId in old(plan.goals.m) && |old(plan.goals.m[goalId].children)| > 0 ==>
                children == old(plan.GetChildren(goalId)) && plan.goals == old(plan.goals)
      ensures goalId in old(plan.goals.m) && |old(plan.goals.m[goalId].children)| == 0 && strategy != "linear" ==>
                children == [] && plan.goals == old(plan.goals)
      ensures goalId in old(plan.goals.m) && |old(plan.goals.m[goalId].children)| == 0 && strategy == "linear" ==>
                children == [StepGoal(ids[0], 0, goalId, plan.id), StepGoal(ids[1], 1, goalId, plan.id),
                             StepGoal(ids[2], 2, goalId, plan.id)] &&
                plan.goals.keys == old(plan.goals.keys) + ids[..3] &&
                plan.goals.m == old(plan.goals.m)[goalId := old(plan.goals.m[goalId]).(children := ids[..3], goalType := Linear)]
                                                 [ids[0] := children[0]][ids[1] := children[1]][ids[2] := children[2]]
    {
      var found := plan.GetGoal(goalId);
      if found.None? {
        return [];
      }
      var goal := found.value;
      if |goal.children| > 0 {
        return plan.GetChildren(goalId);
      }
      children := [];
      if strategy == "linear" {
        children := DecomposeLinear(plan, goalId, goal, ids);
      }
    }

    /**
     * `execute_goal`: a missing goal fails without changes; otherwise the
     * goal is updated as `PlannerLeaf` says and the outcome reports its
     * success.
     */
    method ExecuteGoal(plan: Plan, goalId: GoalId) returns (outcome: Outcome)
      requires plan.Valid()
      modifies plan
      ensures plan.Valid() && plan.Header() == old(plan.Header())
      ensures goalId !in old(plan.goals.m) ==> outcome == FailedOutcome("Goal not found") && plan.goals == old(plan.goals)
      ensures goalId in old(plan.goals.m) ==>
        var g := old(plan.goals.m[goalId]);
        outcome.success == PlannerLeaf(g).ok &&
        outcome == (if IsReady(g) then SimulatedOutcome else FailedOutcome("Prerequisites not met")) &&
        plan.goals == Put(old(plan.goals), goalId, ApplyLeaf(g, PlannerLeaf(g)))
    {
      var found := plan.GetGoal(goalId);
      if found.None? {
        return FailedOutcome("Goal not found");
      }
      var goal := found.value;
      if !IsReady(goal) {
        plan.goals := Put(plan.goals, goalId, goal.(status := Blocked));
        return FailedOutcome("Prerequisites not met");
      }
      outcome := SimulatedOutcome;
      plan.goals := Put(plan.goals, goalId,
                        goal.(status := if outcome.success then Completed else Failed, actualOutcome := Some(outcome)));
    }

    /**
     * `_execute_goal_tree`: the result and the goal table after the call are
     * those of `Walk` with `PlannerLeaf` at the leaves, so the composition
     * rules proved about `Walk` and `Siblings` hold of this method.
     */
    method ExecuteGoalTree(plan: Plan, goalId: GoalId, ghost rank: map<GoalId, nat>) returns (ok: bool)
      requires plan.Valid() && Ranked(plan.goals.m, rank)
      modifies plan
      ensures plan.Valid() && plan.Header() == old(plan.Header()) && plan.goals.keys == old(plan.goals.keys)
      ensures Ranked(plan.goals.m, rank)
      ensures ok == Walk(old(plan.goals.m), goalId, PlannerLeaf, rank).ok
      ensures plan.goals.m == Walk(old(plan.goals.m), goalId, PlannerLeaf, rank).goals
      decreases Height(rank, goalId), 2
    {
      ghost var w := Walk(plan.goals.m, goalId, PlannerLeaf, rank);
      SameTreeRanked(plan.goals.m, w.goals, rank);
      var found := plan.GetGoal(goalId);
      if found.None? {
        return false;
      }
      var goal := found.value;
      if goal.goalType == Stop {
        return true;
      }
      if goal.goalType == Abort {
        return false;
      }
      if goal.goalType == OneShot {
        var outcome := ExecuteGoal(plan, goalId);
        return outcome.success;
      }
      ghost var s := Siblings(plan.goals.m, goal.children, goal.goalType, PlannerLeaf, rank, rank[goalId]);
      assert w == WalkResult(s.ok, s.goals);
      if goal.goalType == Linear {
        ok := RunLinear(plan, goal.children, rank, rank[goalId]);
      } else if goal.goalType == Branching {
        ok := RunBranching(plan, goal.children, rank, rank[goalId]);
      } else {
        ok := RunParallel(plan, goal.children, rank, rank[goalId]);
      }
    }

    /** The Linear loop of `_execute_goal_tree`: children in order, stopping at the first failure. */
    method RunLinear(plan: Plan, cs: seq<GoalId>, ghost rank: map<GoalId, nat>, ghost bound: nat) returns (ok: bool)
      requires plan.Valid() && Ranked(plan.goals.m, rank) && Below(cs, rank, bound)
      modifies plan
      ensures plan.Valid() && plan.Header() == old(plan.Header()) && plan.goals.keys == old(plan.goals.keys)
      ensures Ranked(plan.goals.m, rank)
      ensures ok == Siblings(old(plan.goals.m), cs, Linear, PlannerLeaf, rank, bound).ok
      ensures plan.goals.m == Siblings(old(plan.goals.m), cs, Linear, PlannerLeaf, rank, bound).goals
      decreases bound, 1
    {
      ghost var s := Siblings(plan.goals.m, cs, Linear, PlannerLeaf, rank, bound);
      SiblingsRestStart(plan.goals.m, cs, Linear, PlannerLeaf, rank, bound);
      ok := true;
      var i := 0;
      while ok && i < |cs|
        invariant 0 <= i <= |cs|
        invariant plan.Valid() && plan.Header() == old(plan.Header()) && plan.goals.keys == old(plan.goals.keys)
        invariant Ranked(plan.goals.m, rank)
        invariant ok ==> SiblingsRest(plan.goals.m, cs, i, Linear, PlannerLeaf, rank, bound, true, s)
        invariant !ok ==> !s.ok && s.goals == plan.goals.m
      {
        LinearRestStep(plan.goals.m, cs, i, PlannerLeaf, rank, bound, s);
        ok := ExecuteGoalTree(plan, cs[i], rank);
        i := i + 1;
      }
      if ok {
        SiblingsRestDone(plan.goals.m, cs, Linear, PlannerLeaf, rank, bound, true, s);
      }
    }

    /** The Branching loop of `_execute_goal_tree`: children in order, stopping at the first success. */
    method RunBranching(plan: Plan, cs: seq<GoalId>, ghost rank: map<GoalId, nat>, ghost bound: nat) returns (ok: bool)
      requires plan.Valid() && Ranked(plan.goals.m, rank) && Below(cs, rank, bound)
      modifies plan
      ensures plan.Valid() && plan.Header() == old(plan.Header()) && plan.goals.keys == old(plan.goals.keys)
      ensures Ranked(plan.goals.m, rank)
      ensures ok == Siblings(old(plan.goals.m), cs, Branching, PlannerLeaf, rank, bound).ok
      ensures plan.goals.m == Siblings(old(plan.goals.m), cs, Branching, PlannerLeaf, rank, bound).goals
      decreases bound, 1
    {
      ghost var s := Siblings(plan.goals.m, cs, Branching, PlannerLeaf, rank, bound);
      SiblingsRestStart(plan.goals.m, cs, Branching, PlannerLeaf, rank, bound);
      var i := 0;
      while i < |cs|
        invariant 0 <= i <= |cs|
        invariant plan.Valid() && plan.Header() == old(plan.Header()) && plan.goals.keys == old(plan.goals.keys)
        invariant Ranked(plan.goals.m, rank)
        invariant SiblingsRest(plan.goals.m, cs, i, Branching, PlannerLeaf, rank, bound, true, s)
      {
        var r := BranchingChild(plan, cs, i, rank, bound, s);
        if r {
          return true;
        }
        i := i + 1;
      }
      SiblingsRestDone(plan.goals.m, cs, Branching, PlannerLeaf, rank, bound, true, s);
      return false;
    }

    /** One round of the Branching loop: run child `i`; a success ends the walk of the siblings. */
    method BranchingChild(plan: Plan, cs: seq<GoalId>, i: nat, ghost rank: map<GoalId, nat>, ghost bound: nat,
                          ghost s: SiblingsResult) returns (r: bool)
      requires plan.Valid() && Ranked(plan.goals.m, rank) && i < |cs|
      requires SiblingsRest(plan.goals.m, cs, i, Branching, PlannerLeaf, rank, bound, true, s)
      modifies plan
      ensures plan.Valid() && plan.Header() == old(plan.Header()) && plan.goals.keys == old(plan.goals.keys)
      ensures Ranked(plan.goals.m, rank)
      ensures !r ==> SiblingsRest(plan.goals.m, cs, i + 1, Branching, PlannerLeaf, rank, bound, true, s)
      ensures r ==> s.ok && s.goals == plan.goals.m
      decreases bound, 0
    {
      BranchingRestStep(plan.goals.m, cs, i, PlannerLeaf, rank, bound, s);
      r := ExecuteGoalTree(plan, cs[i], rank);
    }

    /** The Parallel loop of `_execute_goal_tree`: every child, then `all` of the results (kept as a running conjunction). */
    method RunParallel(plan: Plan, cs: seq<GoalId>, ghost rank: map<GoalId, nat>, ghost bound: nat) returns (ok: bool)
      requires plan.Valid() && Ranked(plan.goals.m, rank) && Below(cs, rank, bound)
      modifies plan
      ensures plan.Valid() && plan.Header() == old(plan.Header()) && plan.goals.keys == old(plan.goals.keys)
      ensures Ranked(plan.goals.m, rank)
      ensures ok == Siblings(old(plan.goals.m), cs, Parallel, PlannerLeaf, rank, bound).ok
      ensures plan.goals.m == Siblings(old(plan.goals.m), cs, Parallel, PlannerLeaf, rank, bound).goals
      decreases bound, 1
    {
      ghost var s := Siblings(plan.goals.m, cs, Parallel, PlannerLeaf, rank, bound);
      SiblingsRestStart(plan.goals.m, cs, Parallel, PlannerLeaf, rank, bound);
      ok := true;
      var i := 0;
      while i < |cs|
        invariant 0 <= i <= |cs|
        invariant plan.Valid() && plan.Header() == old(plan.Header()) && plan.goals.keys == old(plan.goals.keys)
        invariant Ranked(plan.goals.m, rank)
        invariant SiblingsRest(plan.goals.m, cs, i, Parallel, PlannerLeaf, rank, bound, ok, s)
      {
        ok := ParallelChild(plan, cs, i, rank, bound, ok, s);
        i := i + 1;
      }
      SiblingsRestDone(plan.goals.m, cs, Parallel, PlannerLeaf, rank, bound, ok, s);
    }

    /** One round of the Parallel loop: run child `i` and fold its result into the running conjunction. */
    method ParallelChild(plan: Plan, cs: seq<GoalId>, i: nat, ghost rank: map<GoalId, nat>, ghost bound: nat,
                         acc: bool, ghost s: SiblingsResult) returns (acc': bool)
      requires plan.Valid() && Ranked(plan.goals.m, rank) && i < |cs|
      requires SiblingsRest(plan.goals.m, cs, i, Parallel, PlannerLeaf, rank, bound, acc, s)
      modifies plan
      ensures plan.Valid() && plan.Header() == old(plan.Header()) && plan.goals.keys == old(plan.goals.keys)
      ensures Ranked(plan.goals.m, rank)
      ensures SiblingsRest(plan.goals.m, cs, i + 1, Parallel, PlannerLeaf, rank, bound, acc', s)
      decreases bound, 0
    {
      ParallelRestStep(plan.goals.m, cs, i, PlannerLeaf, rank, bound, acc, s);
      var r := ExecuteGoalTree(plan, cs[i], rank);
      acc' := acc && r;
    }

    /**
     * `execute_plan`: walks the tree from the root, records the result as
     * the plan's status and success, evaluates it, and promotes a
     * successful plan scoring at least 0.7 to the pattern library under its
     * signature. (Every successful plan scores at least 0.7; see
     * `SuccessAlwaysPromoted`.)
     */
    method ExecutePlan(plan: Plan, ghost rank: map<GoalId, nat>) returns (success: bool)
      requires plan.Valid() && Ranked(plan.goals.m, rank)
      modifies this, plan
      ensures plan.Valid()
      ensures var w := Walk(old(plan.goals.m), old(plan.rootGoalId), PlannerLeaf, rank);
        success == w.ok && plan.goals.m == w.goals && plan.goals.keys == old(plan.goals.keys)
      ensures plan.status == (if success then Completed else Failed) && plan.success == success
      ensures !success ==> plan.evaluationScore == old(plan.evaluationScore) && patternLibrary == old(patternLibrary)
      ensures !success ==> plan.patternSignature == old(plan.patternSignature) && plan.tags == old(plan.tags)
      ensures success ==>
        plan.evaluationScore == Some(Score(true, CostScore(EstimatedTotal(plan.totalCost), ActualTotal(plan.totalCost)),
                                           SideEffectCount(Values(plan.goals)))) &&
        patternLibrary == Put(old(patternLibrary), Serialize(ShapeOf(old(plan.goals.m), old(plan.rootGoalId), rank)), plan) &&
        plan.patternSignature == Some(Serialize(ShapeOf(old(plan.goals.m), old(plan.rootGoalId), rank))) &&
        plan.tags == []
      ensures activePlans == old(activePlans)
      ensures plan.id == old(plan.id) && plan.rootGoalId == old(plan.rootGoalId) && plan.totalCost == old(plan.totalCost)
      ensures plan.description == old(plan.description)
    {
      ghost var g0 := plan.goals.m;
      plan.status := InProgress;
      success := ExecuteGoalTree(plan, plan.rootGoalId, rank);
      WalkKeepsShape(g0, plan.rootGoalId, plan.rootGoalId, PlannerLeaf, rank);
      plan.status := if success then Completed else Failed;
      plan.success := success;
      var score := plan.EvaluatePerformance();
      if success {
        SuccessAlwaysPromoted(EstimatedTotal(plan.totalCost), ActualTotal(plan.totalCost), SideEffectCount(Values(plan.goals)));
      }
      if success && score >= 0.7 {
        var _ := SaveAsPattern(plan, None, rank);
      }
    }

    /**
     * `save_as_pattern`: refused (nothing changes) unless the plan succeeded
     * and has an evaluation score of at least 0.7; otherwise the signature is
     * computed, the tags set, and the plan stored under its signature.
     */
    method SaveAsPattern(plan: Plan, tags: Option<seq<string>>, ghost rank: map<GoalId, nat>) returns (saved: bool)
      requires plan.Valid() && Ranked(plan.goals.m, rank)
      modifies this, plan
      ensures plan.Valid()
      ensures plan.id == old(plan.id) && plan.rootGoalId == old(plan.rootGoalId) && plan.description == old(plan.description)
      ensures plan.goals == old(plan.goals) && plan.status == old(plan.status) && plan.success == old(plan.success)
      ensures plan.totalCost == old(plan.totalCost) && plan.evaluationScore == old(plan.evaluationScore)
      ensures activePlans == old(activePlans)
      ensures saved <==> old(plan.success) && old(plan.evaluationScore).Some? && old(plan.evaluationScore).value >= 0.7
      ensures !saved ==> patternLibrary == old(patternLibrary) && plan.patternSignature == old(plan.patternSignature) && plan.tags == old(plan.tags)
      ensures saved ==>
        var sig := Serialize(ShapeOf(plan.goals.m, plan.rootGoalId, rank));
        plan.patternSignature == Some(sig) && plan.tags == (if tags.Some? then tags.value else []) &&
        patternLibrary == Put(old(patternLibrary), sig, plan)
    {
      if !plan.success || plan.evaluationScore.None? || plan.evaluationScore.value == 0.0 {
        return false;
      }
      if plan.evaluationScore.value < 0.7 {
        return false;
      }
      var sig := plan.ComputeSignature(rank);
      plan.tags := if tags.Some? then tags.value else [];
      var planId := plan.id;
      var patternId := if sig != "" then sig else planId;
      patternLibrary := Put(patternLibrary, patternId, plan);
      return true;
    }

    /**
     * `find_similar_patterns`: computes the plan's signature, then returns
     * the library entries stored with that signature, stably sorted by
     * non-increasing score. `minScore` is accepted and ignored, as in the
     * source.
     */
    method FindSimilarPatterns(plan: Plan, minScore: real, ghost rank: map<GoalId, nat>) returns (matches: seq<Match>)
      requires plan.Valid() && Ranked(plan.goals.m, rank)
      modifies plan
      ensures plan.Valid()
      ensures plan.goals == old(plan.goals) && plan.rootGoalId == old(plan.rootGoalId)
      ensures plan.patternSignature == Some(Serialize(ShapeOf(plan.goals.m, plan.rootGoalId, rank)))
      ensures plan.id == old(plan.id) && plan.description == old(plan.description) && plan.status == old(plan.status)
      ensures plan.success == old(plan.success) && plan.tags == old(plan.tags)
      ensures plan.totalCost == old(plan.totalCost) && plan.evaluationScore == old(plan.evaluationScore)
      ensures patternLibrary == old(patternLibrary) && activePlans == old(activePlans)
      ensures matches == SortDesc(Candidates(patternLibrary.keys, patternLibrary.m,
                                             Serialize(ShapeOf(plan.goals.m, plan.rootGoalId, rank))))
    {
      var sig := plan.ComputeSignature(rank);
      var found: seq<Match> := [];
      var i := 0;
      while i < |patternLibrary.keys|
        invariant 0 <= i <= |patternLibrary.keys|
        invariant found == Candidates(patternLibrary.keys[..i], patternLibrary.m, sig)
      {
        var pid := patternLibrary.keys[i];
        var pattern := patternLibrary.m[pid];
        assert patternLibrary.keys[..i + 1][..i] == patternLibrary.keys[..i];
        if pattern.patternSignature == Some(sig) {
          found := found + [Match(pid, pattern, 1.0, ScoreOrZero(pattern.evaluationScore))];
        }
        i := i + 1;
      }
      assert patternLibrary.keys[..i] == patternLibrary.keys;
      matches := SortDesc(found);
    }

    /**
     * `apply_pattern`: copies the pattern's tree into `plan` with fresh ids
     * (`Copied` describes each copy) and, when the pattern's root exists,
     * makes its copy the plan's root and adopts the pattern's signature.
     * Without a root nothing changes and the result is false.
     */
    method ApplyPattern(plan: Plan, pattern: Plan, ids: seq<GoalId>, ghost rank: map<GoalId, nat>)
      returns (ok: bool, ghost origin: map<GoalId, GoalId>)
      requires plan.Valid() && Ranked(pattern.goals.m, rank) && Distinct(ids)
      requires forall j :: 0 <= j < |ids| ==> ids[j] !in plan.goals.m
      requires TreeSize(pattern.goals.m, pattern.rootGoalId, rank) <= |ids|
      modifies plan
      ensures plan.Valid()
      ensures ok <==> old(pattern.rootGoalId) in old(pattern.goals.m)
      ensures var n := TreeSize(old(pattern.goals.m), old(pattern.rootGoalId), rank);
        plan.goals.keys == old(plan.goals.keys) + ids[..n] &&
        (forall k :: k in old(plan.goals.m) ==> k in plan.goals.m && plan.goals.m[k] == old(plan.goals.m[k])) &&
        CopiedRange(plan.goals.m, old(pattern.goals.m), rank, ids, origin, plan.id, 0, n)
      ensures forall k :: k in origin ==> k in plan.goals.m && k !in old(plan.goals.m)
      ensures ok ==> plan.rootGoalId == ids[0] && ids[0] in origin && origin[ids[0]] == old(pattern.rootGoalId) &&
                     ids[0] in plan.goals.m && plan.goals.m[ids[0]].parentId == None &&
                     plan.patternSignature == old(pattern.patternSignature)
      ensures !ok ==> plan.goals == old(plan.goals) && plan.rootGoalId == old(plan.rootGoalId) &&
                      plan.patternSignature == old(plan.patternSignature)
      ensures plan.id == old(plan.id) && plan.description == old(plan.description) && plan.status == old(plan.status)
      ensures plan.success == old(plan.success) && plan.tags == old(plan.tags) && plan.totalCost == old(plan.totalCost)
      ensures plan.evaluationScore == old(plan.evaluationScore)
    {
      var src := pattern.goals.m;
      var root := pattern.rootGoalId;
      var signature := pattern.patternSignature;
      var newRoot, goals, o := CopyPattern(plan.goals, plan.id, src, root, ids, rank);
      origin := o;
      plan.goals := goals;
      ok := newRoot.Some?;
      if ok {
        plan.rootGoalId := newRoot.value;
        plan.patternSignature := signature;
      }
    }

    /**
     * `analyze_costs`: the per-key sums and concatenated risks over the
     * plan's goals (see `Aggregate` and its lemmas), stored as the plan's
     * total cost.
     */
    method AnalyzeCosts(plan: Plan) returns (total: CostAnalysis)
      modifies plan
      ensures total == Aggregate(Values(old(plan.goals)))
      ensures plan.totalCost == total
      ensures plan.goals == old(plan.goals) && plan.id == old(plan.id) && plan.rootGoalId == old(plan.rootGoalId)
      ensures plan.status == old(plan.status) && plan.success == old(plan.success)
      ensures plan.patternSignature == old(plan.patternSignature) && plan.evaluationScore == old(plan.evaluationScore)
      ensures plan.description == old(plan.description) && plan.tags == old(plan.tags)
      ensures patternLibrary == old(patternLibrary) && activePlans == old(activePlans)
    {
      total := SumCosts(Values(plan.goals));
      plan.totalCost := total;
    }
  }

  /**
   * Success contributes 0.6 and speed 0.1 and no component is negative, so
   * every successful completed plan scores at least 0.7: the promotion
   * threshold of `execute_plan` and `save_as_pattern` never turns a
   * successful plan away.
   */
  lemma SuccessAlwaysPromoted(est: real, act: real, sideEffects: nat)
    requires est != 0.0
    ensures Score(true, CostScore(est, act), sideEffects) >= 0.7
  {
    SuccessScoresAtLeastThreshold(CostScore(est, act), sideEffects);
  }
}
