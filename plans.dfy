/**
 * `Plan` (jarvis_planner.py): a goal table in insertion order plus the
 * plan-level execution and learning fields. The plan's own methods are
 * `add_goal`, `get_children`, `compute_signature`, `to_visualizer_json`
 * and `evaluate_performance`.
 */
module Plans {
  import opened Common
  import opened OrderedDicts
  import opened PlannerTypes
  import opened PlanTree
  import opened Json

  // ============================================================ evaluation

  /** `sum(estimated_costs.values()) or 1.0`: a zero total counts as 1.0. */
  function EstimatedTotal(c: CostAnalysis): (r: real)
    ensures r != 0.0
    ensures SumValues(c.estimatedCosts) != 0.0 ==> r == SumValues(c.estimatedCosts)
  {
    var s := SumValues(c.estimatedCosts);
    if s == 0.0 then 1.0 else s
  }

  /** `sum(actual_costs.values()) or 0.0`. */
  function ActualTotal(c: CostAnalysis): real
  {
    SumValues(c.actualCosts)
  }

  /** The cost component: full marks unless more than 50% over the estimate. */
  function CostScore(est: real, act: real): real
    requires est != 0.0
  {
    if act > est * 1.5 then Max(0.0, 1.0 - (act - est) / est) else 1.0
  }

  /** Side effects reported by the outcomes recorded on the goals. */
  function SideEffectCount(gs: seq<Goal>): nat
  {
    if |gs| == 0 then 0
    else (if gs[0].actualOutcome.Some? then |gs[0].actualOutcome.value.sideEffects| else 0)
         + SideEffectCount(gs[1..])
  }

  function SideEffectScore(n: nat): real
  {
    Max(0.0, 1.0 - n as real * 0.1)
  }

  /**
   * The weighted evaluation score of a completed plan: 60% success,
   * 20% cost, 10% speed (always full marks) and 10% side effects, clamped
   * to [0, 1].
   */
  function Score(success: bool, cost: real, sideEffects: nat): (r: real)
    ensures 0.0 <= r <= 1.0
  {
    var s := (if success then 1.0 else 0.0) * 0.6 + cost * 0.2 + 1.0 * 0.1 + SideEffectScore(sideEffects) * 0.1;
    Max(0.0, Min(1.0, s))
  }

  /**
   * With a positive estimated total the cost component lies in [0, 1], and
   * it is below 0.5 exactly when the actual total exceeds 1.5 times the
   * estimate.
   */
  lemma CostScoreBounds(est: real, act: real)
    requires est > 0.0
    ensures 0.0 <= CostScore(est, act) <= 1.0
    ensures CostScore(est, act) < 0.5 <==> act > est * 1.5
  {
    if act > est * 1.5 {
      assert (act - est) / est > 0.5 by {
        assert act - est > est * 0.5;
        DivGreater(act - est, est, 0.5);
      }
    }
  }

  lemma DivGreater(x: real, y: real, c: real)
    requires y > 0.0 && x > y * c
    ensures x / y > c
  {
    assert x / y * y == x;
  }

  /** A negative estimated total can push the cost component above 1. */
  lemma NegativeEstimateOverflow()
    ensures CostScore(-2.0, -1.0) == 1.5
  {
  }

  /**
   * Every other component is non-negative, so a successful completed plan
   * scores at least 0.6 + 0.1 = 0.7: the promotion threshold of 0.7 never
   * rejects a successful plan with a non-negative cost component.
   */
  lemma SuccessScoresAtLeastThreshold(cost: real, sideEffects: nat)
    requires cost >= 0.0
    ensures Score(true, cost, sideEffects) >= 0.7
  {
  }

  /** Without success the score is at most 0.2 + 0.1 + 0.1 when the cost component is at most 1. */
  lemma FailureScoresBelowThreshold(cost: real, sideEffects: nat)
    requires cost <= 1.0
    ensures Score(false, cost, sideEffects) <= 0.4
  {
  }

  // ========================================================== fingerprint

  function Intent(d: string): real
  {
    if ContainsAny(d, ["what", "how", "why", "explain"]) then 0.3
    else if ContainsAny(d, ["help", "assist", "suggest", "recommend"]) then 0.5
    else 0.8
  }

  function Domain(d: string): real
  {
    if ContainsAny(d, ["code", "implement", "function", "api", "debug"]) then 0.1
    else if ContainsAny(d, ["analyze", "compare", "evaluate", "research"]) then 0.4
    else if ContainsAny(d, ["write", "draft", "compose", "create text"]) then 0.7
    else if ContainsAny(d, ["plan", "organize", "schedule", "prepare"]) then 1.0
    else 0.5
  }

  function Complexity(g: Goal): real
  {
    var n := |g.children|;
    var t := GetOr(g.costAnalysis.estimatedCosts, "time", 0.0);
    if n == 0 && t < 5.0 then 0.2
    else if n <= 2 && t < 15.0 then 0.5
    else 0.8
  }

  function OutputType(d: string): real
  {
    if ContainsAny(d, ["code", "script", "program", "function"]) then 0.1
    else if ContainsAny(d, ["data", "list", "table", "results"]) then 0.4
    else if ContainsAny(d, ["document", "report", "summary", "text"]) then 0.7
    else if ContainsAny(d, ["decide", "choose", "recommend", "determine"]) then 1.0
    else 0.5
  }

  const ConcreteWords: seq<string> := ["email", "contact", "calendar", "file", "document"]

  function Specificity(d: string): (r: real)
    ensures 0.3 <= r <= 0.9
  {
    if ContainsAny(d, ["specific", "exact", "precisely", "detailed", "particular"]) then 0.9
    else if ContainsAny(d, ["some", "maybe", "possibly", "general", "rough"]) then 0.3
    else Min(0.9, 0.4 + Count(ConcreteWords, w => Contains(d, w)) as real * 0.15)
  }

  function TimeHorizon(d: string): real
  {
    if ContainsAny(d, ["immediate", "now", "right now", "instant"]) then 0.1
    else if ContainsAny(d, ["today", "soon", "quickly", "shortly"]) then 0.3
    else if ContainsAny(d, ["tomorrow", "this week", "next week"]) then 0.6
    else if ContainsAny(d, ["plan", "prepare", "schedule", "future"]) then 0.9
    else 0.5
  }

  function Interactivity(g: Goal, d: string): real
  {
    if g.goalType == OneShot then 0.2
    else if g.goalType == Branching then 0.7
    else if ContainsAny(d, ["clarify", "confirm", "check", "verify"]) then 0.8
    else 0.4
  }

  const Dimensions: seq<string> :=
    ["intent", "domain", "complexity", "outputType", "specificity", "timeHorizon", "interactivity"]

  /**
   * `compute_fingerprint`: seven keyword-driven scores of the lower-cased
   * description. The values are already two-decimal constants, so
   * `round(x, 2)` leaves them unchanged. Every value lies in [0, 1].
   */
  function Fingerprint(g: Goal): (r: map<string, real>)
    ensures forall k :: k in r <==> k in Dimensions
    ensures forall k :: k in r ==> 0.0 <= r[k] <= 1.0
  {
    var d := LowerStr(g.description);
    map["intent" := Intent(d), "domain" := Domain(d), "complexity" := Complexity(g),
        "outputType" := OutputType(d), "specificity" := Specificity(d),
        "timeHorizon" := TimeHorizon(d), "interactivity" := Interactivity(g, d)]
  }

  /** `determine_type`: the step kind the visualizer expects for a child count. */
  function StepType(n: nat): string
  {
    if n == 0 then "one-shot" else if n == 1 then "linear" else "branching"
  }

  function FingerprintJson(g: Goal): Json
  {
    var f := Fingerprint(g);
    JObj(map k | k in f :: JNum(f[k]))
  }

  /** One entry of the exported `steps` array. */
  function StepJson(key: GoalId, g: Goal): Json
  {
    JObj(map["id" := JStr(key), "prompt" := JStr(g.description),
             "type" := JStr(StepType(|g.children|)), "children" := StrArray(g.children),
             "fingerprint" := FingerprintJson(g)])
  }

  function StepsJson(goals: ODict<GoalId, Goal>): (r: seq<Json>)
    ensures |r| == |goals.keys|
  {
    seq(|goals.keys|, i requires 0 <= i < |goals.keys| => StepJson(goals.keys[i], goals.m[goals.keys[i]]))
  }

  // ================================================================ plan

  class Plan {
    var id: string
    var rootGoalId: GoalId
    var description: string
    var goals: ODict<GoalId, Goal>
    var status: GoalStatus
    var success: bool
    var patternSignature: Option<string>
    var tags: seq<string>
    var totalCost: CostAnalysis
    var evaluationScore: Option<real>

    /** Every field except the goal table. */
    ghost function Header(): (string, GoalId, string, GoalStatus, bool, Option<string>, seq<string>, CostAnalysis, Option<real>)
      reads this
    {
      (id, rootGoalId, description, status, success, patternSignature, tags, totalCost, evaluationScore)
    }

    /** Every goal is stored under its own id. */
    ghost predicate Valid()
      reads this
    {
      forall k :: k in goals.m ==> goals.m[k].id == k
    }

    constructor (id: string, rootGoalId: GoalId, description: string)
      ensures Valid()
      ensures this.id == id && this.rootGoalId == rootGoalId && this.description == description
      ensures goals == Empty() && status == Pending && !success && patternSignature == None
      ensures tags == [] && totalCost == EmptyCosts() && evaluationScore == None
    {
      this.id := id;
      this.rootGoalId := rootGoalId;
      this.description := description;
      goals := Empty();
      status := Pending;
      success := false;
      patternSignature := None;
      tags := [];
      totalCost := EmptyCosts();
      evaluationScore := None;
    }

    /** `add_goal`: the goal joins this plan and is stored (or replaced) under its id. */
    method AddGoal(goal: Goal) returns (gid: GoalId)
      requires Valid()
      modifies this
      ensures Valid()
      ensures gid == goal.id
      ensures goals == Put(old(goals), goal.id, goal.(planId := Some(id)))
      ensures id == old(id) && rootGoalId == old(rootGoalId) && description == old(description)
      ensures status == old(status) && success == old(success) && patternSignature == old(patternSignature)
      ensures tags == old(tags) && totalCost == old(totalCost) && evaluationScore == old(evaluationScore)
    {
      goals := Put(goals, goal.id, goal.(planId := Some(id)));
      gid := goal.id;
    }

    function GetGoal(gid: GoalId): Option<Goal>
      reads this
    {
      Get(goals, gid)
    }

    /** `get_children`: the children of a goal that are present in the table, in child-list order. */
    function GetChildren(gid: GoalId): (r: seq<Goal>)
      reads this
    {
      if gid !in goals.m then [] else ChildGoals(goals.m, goals.m[gid].children)
    }

    /** `build_tree`, computed. */
    method BuildTree(gid: GoalId, ghost rank: map<GoalId, nat>) returns (s: Shape)
      requires Ranked(goals.m, rank)
      ensures s == ShapeOf(goals.m, gid, rank)
      decreases Height(rank, gid)
    {
      if gid !in goals.m {
        return Missing;
      }
      var cs := goals.m[gid].children;
      var kids: seq<Shape> := [];
      var i := 0;
      while i < |cs|
        invariant 0 <= i <= |cs|
        invariant |kids| == i
        invariant forall j :: 0 <= j < i ==> kids[j] == ShapeOf(goals.m, cs[j], rank)
      {
        var k := BuildTree(cs[i], rank);
        kids := kids + [k];
        i := i + 1;
      }
      s := Node(goals.m[gid].goalType, kids);
    }

    /**
     * `compute_signature`: the serialised shape of the tree under the root,
     * which is also stored as the plan's pattern signature. The SHA-256
     * digest of this text is left out.
     */
    method ComputeSignature(ghost rank: map<GoalId, nat>) returns (sig: string)
      requires Valid() && Ranked(goals.m, rank)
      modifies this
      ensures Valid()
      ensures goals == old(goals) && status == old(status) && success == old(success)
      ensures id == old(id) && rootGoalId == old(rootGoalId) && description == old(description)
      ensures sig == Serialize(ShapeOf(goals.m, rootGoalId, rank))
      ensures patternSignature == Some(sig)
      ensures tags == old(tags) && totalCost == old(totalCost) && evaluationScore == old(evaluationScore)
    {
      var tree := BuildTree(rootGoalId, rank);
      sig := Serialize(tree);
      patternSignature := Some(sig);
    }

    /**
     * `to_visualizer_json`: one step per goal in insertion order, each with
     * its id, description, child-count kind, child ids and fingerprint.
     */
    method ToVisualizerJson() returns (r: Json)
      ensures r == JObj(map["steps" := JArr(StepsJson(goals))])
    {
      var steps: seq<Json> := [];
      var i := 0;
      while i < |goals.keys|
        invariant 0 <= i <= |goals.keys|
        invariant steps == StepsJson(goals)[..i]
      {
        var gid := goals.keys[i];
        steps := steps + [StepJson(gid, goals.m[gid])];
        i := i + 1;
      }
      assert steps == StepsJson(goals);
      r := JObj(map["steps" := JArr(steps)]);
    }

    /**
     * `evaluate_performance`: 0.0 for a plan that is not completed (nothing
     * is stored); otherwise the weighted score, which is also stored.
     */
    method EvaluatePerformance() returns (score: real)
      modifies this
      ensures old(status) != Completed ==> score == 0.0 && evaluationScore == old(evaluationScore)
      ensures old(status) == Completed ==>
        score == Score(success, CostScore(EstimatedTotal(totalCost), ActualTotal(totalCost)),
                       SideEffectCount(Values(goals))) &&
        evaluationScore == Some(score)
      ensures 0.0 <= score <= 1.0
      ensures id == old(id) && rootGoalId == old(rootGoalId) && description == old(description)
      ensures goals == old(goals) && status == old(status) && success == old(success)
      ensures tags == old(tags) && totalCost == old(totalCost) && patternSignature == old(patternSignature)
    {
      if status != Completed {
        return 0.0;
      }
      var cost := CostScore(EstimatedTotal(totalCost), ActualTotal(totalCost));
      var count := CountSideEffects(Values(goals));
      score := Score(success, cost, count);
      evaluationScore := Some(score);
    }
  }

  /** The side-effect tally of `evaluate_performance`, one goal at a time. */
  method CountSideEffects(vs: seq<Goal>) returns (count: nat)
    ensures count == SideEffectCount(vs)
  {
    count := 0;
    var i := 0;
    while i < |vs|
      invariant 0 <= i <= |vs|
      invariant count + SideEffectCount(vs[i..]) == SideEffectCount(vs)
    {
      assert vs[i..][1..] == vs[i + 1..];
      if vs[i].actualOutcome.Some? {
        count := count + |vs[i].actualOutcome.value.sideEffects|;
      }
      i := i + 1;
    }
  }

  /** The present children of a goal, in order: the list `get_children` returns. */
  function ChildGoals(goals: Arena, cs: seq<GoalId>): (r: seq<Goal>)
    ensures |r| <= |cs|
    ensures forall i :: 0 <= i < |cs| && cs[i] in goals ==> goals[cs[i]] in r
    ensures forall g :: g in r ==> exists i :: 0 <= i < |cs| && cs[i] in goals && goals[cs[i]] == g
  {
    if |cs| == 0 then []
    else
      var rest := ChildGoals(goals, cs[1..]);
      assert forall i :: 1 <= i < |cs| ==> cs[i] == cs[1..][i - 1];
      if cs[0] in goals then [goals[cs[0]]] + rest else rest
  }

  /**
   * The listing keeps the order of `children`: listing a concatenation lists
   * each part in turn, and a single id lists its goal when present and
   * nothing otherwise, which fixes the result position by position.
   */
  lemma {:induction false} ChildGoalsInOrder(goals: Arena, a: seq<GoalId>, b: seq<GoalId>)
    ensures ChildGoals(goals, a + b) == ChildGoals(goals, a) + ChildGoals(goals, b)
    ensures forall c :: ChildGoals(goals, [c]) == if c in goals then [goals[c]] else []
  {
    ChildGoalsConcat(goals, a, b);
    forall c ensures ChildGoals(goals, [c]) == if c in goals then [goals[c]] else [] {
      assert [c][1..] == [];
    }
  }

  lemma {:induction false} ChildGoalsConcat(goals: Arena, a: seq<GoalId>, b: seq<GoalId>)
    ensures ChildGoals(goals, a + b) == ChildGoals(goals, a) + ChildGoals(goals, b)
    decreases |a|
  {
    if |a| == 0 {
      assert a + b == b;
    } else {
      assert (a + b)[1..] == a[1..] + b;
      ChildGoalsConcat(goals, a[1..], b);
    }
  }

}
