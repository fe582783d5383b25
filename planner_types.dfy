/**
 * Value types of the goal planner (jarvis_planner.py): goal kinds and
 * statuses, prerequisites, outcomes, cost-benefit records and goals.
 *
 * A goal is stored by value in its plan's goal table; the Python methods
 * that mutate a goal object (`add_child`, `estimate_cost`, `record_cost`)
 * become functions returning the updated goal.
 */
module PlannerTypes {
  import opened Common
  import opened OrderedDicts

  type GoalId = string

  datatype GoalType = OneShot | Linear | Branching | Parallel | Stop | Abort

  /** The enum's `.value` string. */
  function TypeValue(t: GoalType): string
  {
    match t
    case OneShot => "one_shot"
    case Linear => "linear"
    case Branching => "branching"
    case Parallel => "parallel"
    case Stop => "stop"
    case Abort => "abort"
  }

  /** `GoalType(s)`: the member with that value, if any. */
  function ParseType(s: string): (r: Option<GoalType>)
    ensures r.Some? ==> TypeValue(r.value) == s
  {
    if s == "one_shot" then Some(OneShot)
    else if s == "linear" then Some(Linear)
    else if s == "branching" then Some(Branching)
    else if s == "parallel" then Some(Parallel)
    else if s == "stop" then Some(Stop)
    else if s == "abort" then Some(Abort)
    else None
  }

  lemma ParseTypeValue(t: GoalType)
    ensures ParseType(TypeValue(t)) == Some(t)
  {
  }

  datatype GoalStatus = Pending | InProgress | Completed | Failed | Aborted | Blocked

  datatype CostType = Time | Tokens | ApiCalls | Money | Risk

  function CostKey(c: CostType): string
  {
    match c
    case Time => "time"
    case Tokens => "tokens"
    case ApiCalls => "api_calls"
    case Money => "money"
    case Risk => "risk"
  }

  datatype Prerequisite = Prerequisite(
    id: string,
    description: string,
    checkType: string,
    checkFunction: Option<string>,
    blocking: bool)

  datatype Outcome = Outcome(
    success: bool,
    resultData: Option<map<string, string>>,
    error: Option<string>,
    confidence: real,
    sideEffects: seq<string>,
    observations: seq<string>)

  /** `Outcome(success=s, error=e)` with the dataclass defaults. */
  function FailedOutcome(error: string): Outcome
  {
    Outcome(false, None, Some(error), 1.0, [], [])
  }

  type CostDict = ODict<string, real>

  datatype CostAnalysis = CostAnalysis(
    estimatedCosts: CostDict,
    actualCosts: CostDict,
    estimatedBenefits: CostDict,
    actualBenefits: CostDict,
    risks: seq<string>,
    riskMitigation: seq<string>)

  function EmptyCosts(): CostAnalysis
  {
    CostAnalysis(Empty(), Empty(), Empty(), Empty(), [], [])
  }

  /** `net_benefit_estimated`: estimated benefits minus estimated costs. */
  function NetBenefitEstimated(c: CostAnalysis): real
  {
    SumValues(c.estimatedBenefits) - SumValues(c.estimatedCosts)
  }

  /** `net_benefit_actual`: actual benefits minus actual costs. */
  function NetBenefitActual(c: CostAnalysis): real
  {
    SumValues(c.actualBenefits) - SumValues(c.actualCosts)
  }

  datatype Goal = Goal(
    id: GoalId,
    parentId: Option<GoalId>,
    planId: Option<string>,
    description: string,
    goalType: GoalType,
    promptTemplate: Option<string>,
    children: seq<GoalId>,
    prerequisites: seq<Prerequisite>,
    status: GoalStatus,
    targetOutcome: Option<string>,
    actualOutcome: Option<Outcome>,
    costAnalysis: CostAnalysis)

  /** `Goal(id=..., description=..., goal_type=...)` with the dataclass defaults. */
  function NewGoal(id: GoalId, description: string, t: GoalType): (g: Goal)
    ensures g.id == id && g.description == description && g.goalType == t
    ensures g.children == [] && g.status == Pending && g.actualOutcome == None
  {
    Goal(id, None, None, description, t, None, [], [], Pending, None, None, EmptyCosts())
  }

  /** `is_ready`: only a blocked goal is not ready; prerequisites are never evaluated. */
  predicate IsReady(g: Goal)
  {
    g.status != Blocked
  }

  /** `is_terminal`. */
  function IsTerminal(g: Goal): (r: bool)
    ensures r <==> g.goalType == Stop || g.goalType == Abort
  {
    g.goalType in {Stop, Abort}
  }

  /**
   * `add_child`: the child is re-parented and moved to the parent's plan,
   * and its id is appended to the parent's child list. Returns both goals.
   */
  function AddChild(parent: Goal, child: Goal): (r: (Goal, Goal))
    ensures r.0 == parent.(children := parent.children + [child.id])
    ensures r.1 == child.(parentId := Some(parent.id), planId := parent.planId)
  {
    (parent.(children := parent.children + [child.id]),
     child.(parentId := Some(parent.id), planId := parent.planId))
  }

  /** `estimate_cost`: set the estimated cost of one kind (replacing any previous value). */
  function EstimateCost(g: Goal, c: CostType, amount: real): (r: Goal)
    ensures r.costAnalysis.estimatedCosts.m == g.costAnalysis.estimatedCosts.m[CostKey(c) := amount]
    ensures r == g.(costAnalysis := r.costAnalysis)
    ensures r.costAnalysis == g.costAnalysis.(estimatedCosts := r.costAnalysis.estimatedCosts)
  {
    g.(costAnalysis := g.costAnalysis.(estimatedCosts := Put(g.costAnalysis.estimatedCosts, CostKey(c), amount)))
  }

  /** `record_cost`: set the actual cost of one kind. */
  function RecordCost(g: Goal, c: CostType, amount: real): (r: Goal)
    ensures r.costAnalysis.actualCosts.m == g.costAnalysis.actualCosts.m[CostKey(c) := amount]
    ensures r == g.(costAnalysis := r.costAnalysis)
    ensures r.costAnalysis == g.costAnalysis.(actualCosts := r.costAnalysis.actualCosts)
  {
    g.(costAnalysis := g.costAnalysis.(actualCosts := Put(g.costAnalysis.actualCosts, CostKey(c), amount)))
  }

  // ------------------------------------------------- sums over cost dicts

  /**
   * Setting a key in a cost dictionary changes the sum of its values by the
   * difference between the new and the old amount (a missing key counts 0).
   */
  lemma {:induction false} SumAfterPut(d: CostDict, k: string, v: real)
    ensures SumValues(Put(d, k, v)) == SumValues(d) - GetOr(d, k, 0.0) + v
  {
    if k in d.m {
      var i := IndexOf(d.keys, k);
      SumReplaceAt(Values(d), i, v);
      assert Values(Put(d, k, v)) == Values(d)[i := v] by {
        var a := Values(Put(d, k, v));
        var b := Values(d)[i := v];
        forall j | 0 <= j < |a| ensures a[j] == b[j] {
          if j != i { assert d.keys[j] != k; }
        }
      }
    } else {
      assert Values(Put(d, k, v)) == Values(d) + [v];
      SumRealsAppend(Values(d), [v]);
    }
  }

  function IndexOf(s: seq<string>, k: string): (i: nat)
    requires k in s
    ensures i < |s| && s[i] == k
    ensures forall j :: 0 <= j < i ==> s[j] != k
  {
    if s[0] == k then 0 else 1 + IndexOf(s[1..], k)
  }

  lemma {:induction false} SumReplaceAt(s: seq<real>, i: nat, v: real)
    requires i < |s|
    ensures SumReals(s[i := v]) == SumReals(s) - s[i] + v
  {
    if i == 0 {
      assert s[i := v][1..] == s[1..];
    } else {
      assert s[i := v][1..] == s[1..][i - 1 := v];
      SumReplaceAt(s[1..], i - 1, v);
    }
  }

  /**
   * Estimating a cost of a kind not yet estimated lowers the estimated net
   * benefit by exactly that amount; re-estimating a kind replaces its old
   * contribution.
   */
  lemma EstimateCostNetBenefit(g: Goal, c: CostType, amount: real)
    ensures NetBenefitEstimated(EstimateCost(g, c, amount).costAnalysis)
         == NetBenefitEstimated(g.costAnalysis) + GetOr(g.costAnalysis.estimatedCosts, CostKey(c), 0.0) - amount
  {
    SumAfterPut(g.costAnalysis.estimatedCosts, CostKey(c), amount);
  }

  /** Recording an actual cost moves the actual net benefit the same way. */
  lemma RecordCostNetBenefit(g: Goal, c: CostType, amount: real)
    ensures NetBenefitActual(RecordCost(g, c, amount).costAnalysis)
         == NetBenefitActual(g.costAnalysis) + GetOr(g.costAnalysis.actualCosts, CostKey(c), 0.0) - amount
  {
    SumAfterPut(g.costAnalysis.actualCosts, CostKey(c), amount);
  }
}
