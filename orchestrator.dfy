/**
 * `PlanningOrchestrator` (planning_orchestrator.py): deciding whether a
 * request needs a plan, building the plan (from a proven pattern or from
 * the decomposer's answer), gating risky plans behind an approval, and
 * executing plans whose OneShot goals are delegated to an executor.
 *
 * The language model behind the decomposer and the executor is not
 * modelled: the decomposer's parsed answer and the executor's outcome for
 * each goal are parameters. Fresh ids (`uuid4()[:8]`) come from a
 * parameter sequence of distinct ids.
 */
module PlanningOrchestration {
  import opened Common
  import opened OrderedDicts
  import opened PlannerTypes
  import opened PlanTree
  import opened Plans
  import opened Patterns
  import opened PatternCopy
  import opened Planner

  // ------------------------------------------------------- should_plan

  const PlanningKeywords: seq<string> :=
    ["plan", "organize", "prepare", "schedule", "help me", "how should i", "how do i", "how can i",
     "what's the best way", "but how", "how to", "figure out", "work out", "find a way to"]

  const ResearchIndicators: seq<string> :=
    ["find the best", "what's the best", "best", "compare", "recommend", "recommendation", "vs", "versus",
     "should i buy", "should i get", "find a", "find good", "find some"]

  /** Words that mark a question about the user's own stored data. */
  const StoredDataWords: seq<string> := ["my", "bob", "sarah", "contact", "calendar", "note"]

  /** Intents for which " and " alone does not call for a plan. */
  const SingleStepIntents: set<string> := {"conversation", "crud_read", "query"}

  /**
   * `should_plan`: a planning keyword; else a research indicator in a
   * request that does not mention stored data; else " and " in a request
   * whose intent is not conversation, crud_read or query.
   */
  predicate ShouldPlan(intent: string, userInput: string)
  {
    var l := LowerStr(userInput);
    ContainsAny(l, PlanningKeywords) ||
    (ContainsAny(l, ResearchIndicators) && !ContainsAny(l, StoredDataWords)) ||
    (Contains(l, " and ") && intent !in SingleStepIntents)
  }

  lemma LowerIdempotent(s: string)
    ensures LowerStr(LowerStr(s)) == LowerStr(s)
  {
    assert forall i :: 0 <= i < |s| ==> Lower(Lower(s[i])) == Lower(s[i]);
  }

  /** The decision does not depend on letter case. */
  lemma ShouldPlanIgnoresCase(intent: string, s: string)
    ensures ShouldPlan(intent, s) == ShouldPlan(intent, LowerStr(s))
  {
    LowerIdempotent(s);
  }

  /** The intent only matters for the " and " rule: two intents disagree only on such requests. */
  lemma IntentOnlyMattersForConjunctions(intent1: string, intent2: string, s: string)
    requires ShouldPlan(intent1, s) != ShouldPlan(intent2, s)
    ensures Contains(LowerStr(s), " and ") && !ContainsAny(LowerStr(s), PlanningKeywords)
    ensures (intent1 in SingleStepIntents) != (intent2 in SingleStepIntents)
  {
  }

  /** A planning keyword wins over everything else, including a mention of the user's own data. */
  lemma PlanMyWeek(intent: string)
    ensures ShouldPlan(intent, "Plan my week")
  {
    var l := LowerStr("Plan my week");
    assert l[..4] == "plan";
    assert PlanningKeywords[0] == "plan";
  }

  // ------------------------------------------------ _estimate_plan_costs

  /** The dictionary `_estimate_plan_costs` returns. */
  datatype CostSummary = CostSummary(estimatedApiCalls: nat, estimatedTokens: nat, steps: nat, highRisk: bool,
                                     summary: string)

  /** How many of the goals are OneShot goals. */
  function OneShotCount(goals: seq<Goal>): (n: nat)
    ensures n <= |goals|
  {
    if |goals| == 0 then 0 else OneShotCount(goals[..|goals| - 1]) + (if goals[|goals| - 1].goalType == OneShot then 1 else 0)
  }

  /**
   * `_estimate_plan_costs`: one API call of 500 tokens per OneShot goal;
   * risky beyond five steps or 5000 tokens, which comes to the same thing.
   */
  function EstimatePlanCosts(goals: seq<Goal>): (c: CostSummary)
    ensures c.steps == c.estimatedApiCalls == OneShotCount(goals) && c.estimatedTokens == 500 * c.steps
    ensures c.highRisk <==> c.steps > 5
    ensures c.summary == NatToString(c.steps) + " steps, ~" + NatToString(c.steps) + " API calls"
  {
    var n := OneShotCount(goals);
    var tokens := n * 500;
    CostSummary(n, tokens, n, n > 5 || tokens > 5000,
                NatToString(n) + " steps, ~" + NatToString(n) + " API calls")
  }

  /** Goals of other kinds never make a plan risky. */
  lemma {:induction false} OnlyOneShotsCount(goals: seq<Goal>, g: Goal)
    requires g.goalType != OneShot
    ensures EstimatePlanCosts(goals + [g]) == EstimatePlanCosts(goals)
  {
    assert (goals + [g])[..|goals|] == goals;
  }

  /** A plan made only of OneShot goals costs one step per goal. */
  lemma {:induction false} AllOneShots(goals: seq<Goal>)
    requires forall i :: 0 <= i < |goals| ==> goals[i].goalType == OneShot
    ensures OneShotCount(goals) == |goals|
  {
    if |goals| > 0 {
      AllOneShots(goals[..|goals| - 1]);
    }
  }

  /** Six OneShot goals make a plan risky; five do not. */
  lemma RiskBoundary(six: seq<Goal>)
    requires |six| == 6 && forall i :: 0 <= i < 6 ==> six[i].goalType == OneShot
    ensures EstimatePlanCosts(six).highRisk
    ensures !EstimatePlanCosts(six[..5]).highRisk
  {
    AllOneShots(six);
    AllOneShots(six[..5]);
  }

  // ------------------------------------------------ _format_plan_summary

  /** The ids of `cs` present in the table. */
  function Present(goals: Arena, cs: seq<GoalId>): (r: seq<GoalId>)
    ensures |r| <= |cs|
  {
    if |cs| == 0 then [] else (if cs[0] in goals then [cs[0]] else []) + Present(goals, cs[1..])
  }

  /** One summary line: the child's 1-based position in the child list and its description. */
  function SummaryLine(pos: nat, description: string): (r: string)
    ensures |r| > 2 && '0' <= r[2] <= '9'
  {
    var n := NatToString(pos);
    assert ("  " + n + ". " + description)[2] == n[0];
    "  " + n + ". " + description
  }

  /**
   * The lines for the children `cs`, the first of which sits at position
   * `from`: one per present child, numbered by its position in the whole
   * child list, so a missing child leaves a gap in the numbering.
   */
  function SummaryLines(goals: Arena, cs: seq<GoalId>, from: nat): (r: seq<string>)
    ensures |r| == |Present(goals, cs)|
    ensures forall i :: 0 <= i < |cs| && cs[i] in goals ==> SummaryLine(from + i, goals[cs[i]].description) in r
    ensures forall j :: 0 <= j < |r| ==> |r[j]| > 2 && '0' <= r[j][2] <= '9'
  {
    if |cs| == 0 then []
    else
      var rest := SummaryLines(goals, cs[1..], from + 1);
      assert forall i :: 1 <= i < |cs| ==> cs[i] == cs[1..][i - 1];
      var head := if cs[0] in goals then [SummaryLine(from, goals[cs[0]].description)] else [];
      head + rest
  }

  /**
   * The summary lines follow the child list in order: the lines for `a + b`
   * are those for `a` followed by those for `b` numbered on from `from + |a|`,
   * and a single child gives its own line when present and none otherwise.
   */
  lemma {:induction false} SummaryLinesInOrder(goals: Arena, a: seq<GoalId>, b: seq<GoalId>, from: nat)
    ensures SummaryLines(goals, a + b, from) == SummaryLines(goals, a, from) + SummaryLines(goals, b, from + |a|)
    ensures forall c, n: nat :: SummaryLines(goals, [c], n) == if c in goals then [SummaryLine(n, goals[c].description)] else []
  {
    SummaryLinesConcat(goals, a, b, from);
    forall c, n: nat ensures SummaryLines(goals, [c], n) == if c in goals then [SummaryLine(n, goals[c].description)] else [] {
      assert [c][1..] == [];
    }
  }

  lemma {:induction false} SummaryLinesConcat(goals: Arena, a: seq<GoalId>, b: seq<GoalId>, from: nat)
    ensures SummaryLines(goals, a + b, from) == SummaryLines(goals, a, from) + SummaryLines(goals, b, from + |a|)
    decreases |a|
  {
    if |a| == 0 {
      assert a + b == b;
    } else {
      assert (a + b)[1..] == a[1..] + b;
      SummaryLinesConcat(goals, a[1..], b, from + 1);
    }
  }

  const NoSteps: string := "  (No steps defined)"

  /** `_format_plan_summary`: the root's present children as numbered lines, or a placeholder. */
  function FormatPlanSummary(goals: Arena, rootId: GoalId): (r: string)
    ensures r == NoSteps <==> rootId !in goals || |Present(goals, goals[rootId].children)| == 0
    ensures rootId in goals && |Present(goals, goals[rootId].children)| > 0 ==>
      r == Join(SummaryLines(goals, goals[rootId].children, 1), "\n")
  {
    var lines := if rootId in goals then SummaryLines(goals, goals[rootId].children, 1) else [];
    if |lines| == 0 then NoSteps
    else
      JoinStartsWithFirst(lines, "\n");
      assert Join(lines, "\n")[2] == lines[0][2] != NoSteps[2];
      Join(lines, "\n")
  }

  lemma JoinStartsWithFirst(parts: seq<string>, sep: string)
    requires |parts| > 0
    ensures |Join(parts, sep)| >= |parts[0]| && Join(parts, sep)[..|parts[0]|] == parts[0]
  {
  }

  // ----------------------------------------------- _extract_search_query

  /** The action words `_extract_search_query` strips, in the order it tries them. */
  const ActionWords: seq<string> :=
    ["research", "find", "search for", "look up", "investigate", "compare", "get information about",
     "discover", "explore", "research and compare", "identify"]

  /** The same words with every phrase ahead of the shorter words it begins with. */
  const ActionWordsLongestFirst: seq<string> :=
    ["research and compare", "research", "find", "search for", "look up", "investigate", "compare",
     "get information about", "discover", "explore", "identify"]

  /** What the final `strip(" .,!?")` removes. */
  const QueryPunctuation: set<char> := {' ', '.', ',', '!', '?'}

  /** The index of the first word `q` starts with, or `|words|` when there is none. */
  function FirstMatch(q: string, words: seq<string>): (k: nat)
    ensures k <= |words|
    ensures k < |words| ==> StartsWith(q, words[k])
    ensures forall j :: 0 <= j < k ==> !StartsWith(q, words[j])
  {
    if |words| == 0 then 0
    else if StartsWith(q, words[0]) then 0
    else 1 + FirstMatch(q, words[1..])
  }

  /** The text after the first matching action word, stripped; `q` itself when none matches. */
  function StripAction(q: string, words: seq<string>): string
  {
    var k := FirstMatch(q, words);
    if k < |words| then Strip(q[|words[k]|..]) else q
  }

  function DropTrailingAnd(q: string): string
  {
    if EndsWith(q, " and") then q[..|q| - 4] else q
  }

  /**
   * The search query for a goal description, with the action words tried
   * in the order `words` gives: the lower-cased text is a slice of the
   * description, so every step below only cuts characters off its ends.
   */
  function QueryWith(description: string, words: seq<string>): (r: string)
    ensures |r| > 0 ==> r[0] !in QueryPunctuation && r[|r| - 1] !in QueryPunctuation
  {
    StripChars(DropTrailingAnd(StripAction(LowerStr(description), words)), QueryPunctuation)
  }

  /** `_extract_search_query` as written. */
  function SearchQuery(description: string): string
  {
    QueryWith(description, ActionWords)
  }

  /** `_extract_search_query` with "research and compare" tried before "research". */
  function SearchQueryCorrected(description: string): string
  {
    QueryWith(description, ActionWordsLongestFirst)
  }

  /** `_extract_search_query`'s loop: the first action word the lower-cased text starts with is cut off. */
  method ExtractSearchQuery(description: string, words: seq<string>) returns (query: string)
    ensures query == QueryWith(description, words)
  {
    var lowered := LowerStr(description);
    var i := 0;
    while i < |words| && !StartsWith(lowered, words[i])
      invariant 0 <= i <= |words|
      invariant forall j :: 0 <= j < i ==> !StartsWith(lowered, words[j])
    {
      i := i + 1;
    }
    assert i == FirstMatch(lowered, words);
    query := if i < |words| then Strip(lowered[|words[i]|..]) else lowered;
    assert query == StripAction(lowered, words);
    if EndsWith(query, " and") {
      query := query[..|query| - 4];
    }
    query := StripChars(query, QueryPunctuation);
  }

  /** A slice of a slice is a slice. */
  predicate IsSliceOf(r: string, s: string)
  {
    exists i, j :: 0 <= i <= j <= |s| && r == s[i..j]
  }

  lemma SliceOfSlice(r: string, t: string, s: string, a: nat, b: nat)
    requires a <= b <= |t| && r == t[a..b]
    requires IsSliceOf(t, s)
    ensures IsSliceOf(r, s)
  {
    var i, j :| 0 <= i <= j <= |s| && t == s[i..j];
    assert forall k :: 0 <= k < |r| ==> r[k] == s[i + a..i + b][k];
    assert r == s[i + a..i + b];
  }

  lemma StripCharsIsSlice(t: string, cs: set<char>, s: string)
    requires IsSliceOf(t, s)
    ensures IsSliceOf(StripChars(t, cs), s)
  {
    TrimLeftIsSlice(t, cs, s);
    TrimRightIsSlice(TrimLeft(t, cs), cs, s);
  }

  lemma TrimLeftIsSlice(t: string, cs: set<char>, s: string)
    requires IsSliceOf(t, s)
    ensures IsSliceOf(TrimLeft(t, cs), s)
  {
    var l := TrimLeft(t, cs);
    SliceOfSlice(l, t, s, |t| - |l|, |t|);
  }

  lemma TrimRightIsSlice(t: string, cs: set<char>, s: string)
    requires IsSliceOf(t, s)
    ensures IsSliceOf(TrimRight(t, cs), s)
  {
    var r := TrimRight(t, cs);
    SliceOfSlice(r, t, s, 0, |r|);
  }

  lemma StripActionIsSlice(l: string, words: seq<string>)
    ensures IsSliceOf(StripAction(l, words), l)
  {
    assert l == l[0..|l|];
    var k := FirstMatch(l, words);
    if k < |words| {
      var rest := l[|words[k]|..];
      SliceOfSlice(rest, l, l, |words[k]|, |l|);
      StripCharsIsSlice(rest, Whitespace, l);
    }
  }

  /** The query is a piece of the lower-cased description: nothing is added or rewritten. */
  lemma QueryIsSlice(description: string, words: seq<string>)
    ensures IsSliceOf(QueryWith(description, words), LowerStr(description))
  {
    var l := LowerStr(description);
    var a := StripAction(l, words);
    StripActionIsSlice(l, words);
    var d := DropTrailingAnd(a);
    SliceOfSlice(d, a, l, 0, |d|);
    StripCharsIsSlice(d, QueryPunctuation, l);
  }

  /**
   * In a list where no word begins with an earlier one, the word cut off
   * is the longest action word the text starts with.
   */
  lemma {:induction false} LongestMatchWins(q: string, words: seq<string>, k: nat)
    requires forall i, j :: 0 <= i < j < |words| ==> !StartsWith(words[j], words[i])
    requires k < |words| && StartsWith(q, words[k])
    ensures FirstMatch(q, words) < |words| && |words[FirstMatch(q, words)]| >= |words[k]|
  {
    var m := FirstMatch(q, words);
    if m != k {
      assert m < k;
      var a, b := words[m], words[k];
      if |a| < |b| {
        assert b[..|a|] == q[..|a|] == a;
        assert StartsWith(b, a);
      }
    }
  }

  /** As written, "research" shadows "research and compare", which can never be cut off. */
  lemma PhraseShadowed()
    ensures ActionWords[0] == "research" && ActionWords[9] == "research and compare"
    ensures StartsWith(ActionWords[9], ActionWords[0])
  {
  }

  /** The corrected order has no word that begins with an earlier one. */
  lemma CorrectedOrderUnshadowed()
    ensures forall i, j :: 0 <= i < j < |ActionWordsLongestFirst| ==>
              !StartsWith(ActionWordsLongestFirst[j], ActionWordsLongestFirst[i])
  {
    var w := ActionWordsLongestFirst;
    assert forall k :: 0 <= k < |w| ==> |w[k]| >= 2;
    forall i, j | 0 <= i < j < |w| ensures !StartsWith(w[j], w[i]) {
      var a, b := w[i], w[j];
      assert |a| > |b| || a[0] != b[0];
    }
  }

  /** With the corrected order the longest action word is always the one cut off. */
  lemma CorrectedStripsLongest(description: string, k: nat)
    requires k < |ActionWordsLongestFirst| && StartsWith(LowerStr(description), ActionWordsLongestFirst[k])
    ensures var m := FirstMatch(LowerStr(description), ActionWordsLongestFirst);
      m < |ActionWordsLongestFirst| && |ActionWordsLongestFirst[m]| >= |ActionWordsLongestFirst[k]|
  {
    CorrectedOrderUnshadowed();
    LongestMatchWins(LowerStr(description), ActionWordsLongestFirst, k);
  }

  const Phrase: string := "research and compare"

  lemma PhraseFacts()
    ensures |Phrase| == 20 && Phrase[..8] == ActionWords[0] && Phrase == ActionWordsLongestFirst[0]
    ensures Phrase[8] == ' ' && Phrase[9] == 'a' && Phrase[19] == 'e' && Phrase[9..] == "and compare"
  {
  }

  /**
   * As written, a text that starts with "research and compare" only loses
   * "research": its query still starts with "and compare". The corrected
   * order cuts off the whole phrase.
   */
  lemma ResearchAndCompareKept(l: string)
    requires StartsWith(l, Phrase)
    ensures StartsWith(StripAction(l, ActionWords), "and compare")
  {
    PhraseFacts();
    assert l[..8] == Phrase[..8];
    assert FirstMatch(l, ActionWords) == 0;
    var t := l[8..];
    assert t[0] == ' ' && t[1] == 'a';
    var left := t[1..];
    assert left[0] == 'a' && 'a' !in Whitespace;
    TrimLeftSkips(t, Whitespace);
    assert left[10] == l[19] == Phrase[19];
    TrimRightKeeps(left, Whitespace, 10);
    assert left[..11] == l[9..20] == Phrase[9..];
    assert StripAction(l, ActionWords) == TrimRight(left, Whitespace);
  }

  /** One leading trimmed character followed by a kept one: trimming drops exactly that character. */
  lemma TrimLeftSkips(t: string, cs: set<char>)
    requires |t| > 1 && t[0] in cs && t[1] !in cs
    ensures TrimLeft(t, cs) == t[1..]
  {
    assert t[1..][0] == t[1];
  }

  /** Trimming the right end keeps every character up to a non-trimmed one. */
  lemma TrimRightKeeps(s: string, cs: set<char>, k: nat)
    requires k < |s| && s[k] !in cs
    ensures |TrimRight(s, cs)| > k && TrimRight(s, cs)[..k + 1] == s[..k + 1]
  {
  }

  /** With the corrected order the same text loses the whole phrase. */
  lemma ResearchAndCompareStripped(l: string)
    requires StartsWith(l, Phrase)
    ensures StripAction(l, ActionWordsLongestFirst) == Strip(l[|Phrase|..])
  {
    PhraseFacts();
    assert FirstMatch(l, ActionWordsLongestFirst) == 0;
  }

  // ---------------------------------------------------------- execution

  /** What `_execute_single_goal` records for the executor's outcome. */
  function ExecutorLeaf(o: Outcome): (l: LeafResult)
    ensures l.ok == o.success && l.outcome == Some(o)
    ensures l.status == (if o.success then Completed else Failed)
  {
    LeafResult(o.success, if o.success then Completed else Failed, Some(o))
  }

  /** The leaf behaviour of the orchestrator's walk: OneShot goals go to the executor `run`. */
  function Delegated(run: Goal -> Outcome): Goal -> LeafResult
  {
    g => ExecutorLeaf(run(g))
  }

  /** The execution counters of `PlanningOrchestrator.stats` with the two derived rates. */
  datatype Stats = Stats(plansCreated: nat, plansExecuted: nat, plansSucceeded: nat, plansFailed: nat,
                         patternsApplied: nat, approvalsRequested: nat, successRate: real, patternReuseRate: real)

  class PlanningOrchestrator {
    const planner: GoalPlanner
    var plansCreated: nat
    var plansExecuted: nat
    var plansSucceeded: nat
    var plansFailed: nat
    var patternsApplied: nat
    var approvalsRequested: nat

    /** Every executed plan either succeeded or failed; a pattern is applied at most once per plan created. */
    predicate Valid()
      reads this
    {
      plansSucceeded + plansFailed == plansExecuted && patternsApplied <= plansCreated
    }

    constructor (planner: GoalPlanner)
      ensures Valid() && this.planner == planner
      ensures plansCreated == plansExecuted == plansSucceeded == plansFailed == patternsApplied == approvalsRequested == 0
    {
      this.planner := planner;
      plansCreated := 0;
      plansExecuted := 0;
      plansSucceeded := 0;
      plansFailed := 0;
      patternsApplied := 0;
      approvalsRequested := 0;
    }

    /** `get_stats`: the counters, the success rate and the pattern reuse rate (0 when undefined). */
    method GetStats() returns (s: Stats)
      requires Valid()
      ensures s.plansCreated == plansCreated && s.plansExecuted == plansExecuted
      ensures s.plansSucceeded == plansSucceeded && s.plansFailed == plansFailed
      ensures s.patternsApplied == patternsApplied && s.approvalsRequested == approvalsRequested
      ensures 0.0 <= s.successRate <= 1.0 && 0.0 <= s.patternReuseRate <= 1.0
      ensures plansExecuted > 0 ==> s.successRate * plansExecuted as real == plansSucceeded as real
      ensures plansExecuted == 0 ==> s.successRate == 0.0
      ensures plansCreated > 0 ==> s.patternReuseRate * plansCreated as real == patternsApplied as real
      ensures plansCreated == 0 ==> s.patternReuseRate == 0.0
    {
      var success := if plansExecuted > 0 then plansSucceeded as real / plansExecuted as real else 0.0;
      var reuse := if plansCreated > 0 then patternsApplied as real / plansCreated as real else 0.0;
      s := Stats(plansCreated, plansExecuted, plansSucceeded, plansFailed, patternsApplied, approvalsRequested,
                 success, reuse);
    }

    /**
     * `_execute_single_goal`: a missing goal fails with "Goal not found";
     * otherwise the executor's outcome is recorded on the goal, which
     * becomes Completed or Failed with it.
     */
    method ExecuteSingleGoal(plan: Plan, goalId: GoalId, run: Goal -> Outcome) returns (outcome: Outcome)
      requires plan.Valid()
      modifies plan
      ensures plan.Valid() && plan.Header() == old(plan.Header())
      ensures goalId !in old(plan.goals.m) ==> outcome == FailedOutcome("Goal not found") && plan.goals == old(plan.goals)
      ensures goalId in old(plan.goals.m) ==>
        var g := old(plan.goals.m[goalId]);
        outcome == run(g) && plan.goals == Put(old(plan.goals), goalId, ApplyLeaf(g, Delegated(run)(g)))
    {
      var found := plan.GetGoal(goalId);
      if found.None? {
        return FailedOutcome("Goal not found");
      }
      var goal := found.value;
      // The InProgress status the goal holds while the executor runs is overwritten below.
      outcome := run(goal);
      plan.goals := Put(plan.goals, goalId,
                        goal.(status := if outcome.success then Completed else Failed, actualOutcome := Some(outcome)));
    }

    /**
     * `_execute_goal_tree` with OneShot goals delegated to the executor:
     * the result and the goal table afterwards are those of `Walk` with
     * `Delegated(run)` at the leaves.
     */
    method ExecuteGoalTree(plan: Plan, goalId: GoalId, run: Goal -> Outcome, ghost rank: map<GoalId, nat>) returns (ok: bool)
      requires plan.Valid() && Ranked(plan.goals.m, rank)
      modifies plan
      ensures plan.Valid() && plan.Header() == old(plan.Header()) && plan.goals.keys == old(plan.goals.keys)
      ensures Ranked(plan.goals.m, rank)
      ensures ok == Walk(old(plan.goals.m), goalId, Delegated(run), rank).ok
      ensures plan.goals.m == Walk(old(plan.goals.m), goalId, Delegated(run), rank).goals
      decreases Height(rank, goalId), 2
    {
      ghost var w := Walk(plan.goals.m, goalId, Delegated(run), rank);
      SameTreeRanked(plan.goals.m, w.goals, rank);
      var found := plan.GetGoal(goalId);
      if found.None? {
        return false;
      }
      var goal := found.value;
      if goal.goalType == Stop {
        return true;
      }
      if goal.goalType == Abort {
        return false;
      }
      if goal.goalType == OneShot {
        var outcome := ExecuteSingleGoal(plan, goalId, run);
        return outcome.success;
      }
      ghost var s := Siblings(plan.goals.m, goal.children, goal.goalType, Delegated(run), rank, rank[goalId]);
      assert w == WalkResult(s.ok, s.goals);
      if goal.goalType == Linear {
        ok := RunLinear(plan, goal.children, run, rank, rank[goalId]);
      } else if goal.goalType == Branching {
        ok := RunBranching(plan, goal.children, run, rank, rank[goalId]);
      } else {
        ok := RunParallel(plan, goal.children, run, rank, rank[goalId]);
      }
    }

    /** The Linear loop: children in order, stopping at the first failure. */
    method RunLinear(plan: Plan, cs: seq<GoalId>, run: Goal -> Outcome, ghost rank: map<GoalId, nat>, ghost bound: nat)
      returns (ok: bool)
      requires plan.Valid() && Ranked(plan.goals.m, rank) && Below(cs, rank, bound)
      modifies plan
      ensures plan.Valid() && plan.Header() == old(plan.Header()) && plan.goals.keys == old(plan.goals.keys)
      ensures Ranked(plan.goals.m, rank)
      ensures ok == Siblings(old(plan.goals.m), cs, Linear, Delegated(run), rank, bound).ok
      ensures plan.goals.m == Siblings(old(plan.goals.m), cs, Linear, Delegated(run), rank, bound).goals
      decreases bound, 1
    {
      ghost var s := Siblings(plan.goals.m, cs, Linear, Delegated(run), rank, bound);
      SiblingsRestStart(plan.goals.m, cs, Linear, Delegated(run), rank, bound);
      ok := true;
      var i := 0;
      while ok && i < |cs|
        invariant 0 <= i <= |cs|
        invariant plan.Valid() && plan.Header() == old(plan.Header()) && plan.goals.keys == old(plan.goals.keys)
        invariant Ranked(plan.goals.m, rank)
        invariant ok ==> SiblingsRest(plan.goals.m, cs, i, Linear, Delegated(run), rank, bound, true, s)
        invariant !ok ==> !s.ok && s.goals == plan.goals.m
      {
        LinearRestStep(plan.goals.m, cs, i, Delegated(run), rank, bound, s);
        ok := ExecuteGoalTree(plan, cs[i], run, rank);
        i := i + 1;
      }
      if ok {
        SiblingsRestDone(plan.goals.m, cs, Linear, Delegated(run), rank, bound, true, s);
      }
    }

    /** The Branching loop: children in order, stopping at the first success. */
    method RunBranching(plan: Plan, cs: seq<GoalId>, run: Goal -> Outcome, ghost rank: map<GoalId, nat>, ghost bound: nat)
      returns (ok: bool)
      requires plan.Valid() && Ranked(plan.goals.m, rank) && Below(cs, rank, bound)
      modifies plan
      ensures plan.Valid() && plan.Header() == old(plan.Header()) && plan.goals.keys == old(plan.goals.keys)
      ensures Ranked(plan.goals.m, rank)
      ensures ok == Siblings(old(plan.goals.m), cs, Branching, Delegated(run), rank, bound).ok
      ensures plan.goals.m == Siblings(old(plan.goals.m), cs, Branching, Delegated(run), rank, bound).goals
      decreases bound, 1
    {
      ghost var s := Siblings(plan.goals.m, cs, Branching, Delegated(run), rank, bound);
      SiblingsRestStart(plan.goals.m, cs, Branching, Delegated(run), rank, bound);
      var i := 0;
      while i < |cs|
        invariant 0 <= i <= |cs|
        invariant plan.Valid() && plan.Header() == old(plan.Header()) && plan.goals.keys == old(plan.goals.keys)
        invariant Ranked(plan.goals.m, rank)
        invariant SiblingsRest(plan.goals.m, cs, i, Branching, Delegated(run), rank, bound, true, s)
      {
        var r := BranchingChild(plan, cs, i, run, rank, bound, s);
        if r {
          return true;
        }
        i := i + 1;
      }
      SiblingsRestDone(plan.goals.m, cs, Branching, Delegated(run), rank, bound, true, s);
      return false;
    }

    /** One round of the Branching loop. */
    method BranchingChild(plan: Plan, cs: seq<GoalId>, i: nat, run: Goal -> Outcome, ghost rank: map<GoalId, nat>,
                          ghost bound: nat, ghost s: SiblingsResult) returns (r: bool)
      requires plan.Valid() && Ranked(plan.goals.m, rank) && i < |cs|
      requires SiblingsRest(plan.goals.m, cs, i, Branching, Delegated(run), rank, bound, true, s)
      modifies plan
      ensures plan.Valid() && plan.Header() == old(plan.Header()) && plan.goals.keys == old(plan.goals.keys)
      ensures Ranked(plan.goals.m, rank)
      ensures !r ==> SiblingsRest(plan.goals.m, cs, i + 1, Branching, Delegated(run), rank, bound, true, s)
      ensures r ==> s.ok && s.goals == plan.goals.m
      decreases bound, 0
    {
      BranchingRestStep(plan.goals.m, cs, i, Delegated(run), rank, bound, s);
      r := ExecuteGoalTree(plan, cs[i], run, rank);
    }

    /** The Parallel loop: every child, then `all` of the results as a running conjunction. */
    method RunParallel(plan: Plan, cs: seq<GoalId>, run: Goal -> Outcome, ghost rank: map<GoalId, nat>, ghost bound: nat)
      returns (ok: bool)
      requires plan.Valid() && Ranked(plan.goals.m, rank) && Below(cs, rank, bound)
      modifies plan
      ensures plan.Valid() && plan.Header() == old(plan.Header()) && plan.goals.keys == old(plan.goals.keys)
      ensures Ranked(plan.goals.m, rank)
      ensures ok == Siblings(old(plan.goals.m), cs, Parallel, Delegated(run), rank, bound).ok
      ensures plan.goals.m == Siblings(old(plan.goals.m), cs, Parallel, Delegated(run), rank, bound).goals
      decreases bound, 1
    {
      ghost var s := Siblings(plan.goals.m, cs, Parallel, Delegated(run), rank, bound);
      SiblingsRestStart(plan.goals.m, cs, Parallel, Delegated(run), rank, bound);
      ok := true;
      var i := 0;
      while i < |cs|
        invariant 0 <= i <= |cs|
        invariant plan.Valid() && plan.Header() == old(plan.Header()) && plan.goals.keys == old(plan.goals.keys)
        invariant Ranked(plan.goals.m, rank)
        invariant SiblingsRest(plan.goals.m, cs, i, Parallel, Delegated(run), rank, bound, ok, s)
      {
        ok := ParallelChild(plan, cs, i, run, rank, bound, ok, s);
        i := i + 1;
      }
      SiblingsRestDone(plan.goals.m, cs, Parallel, Delegated(run), rank, bound, ok, s);
    }

    /** One round of the Parallel loop. */
    method ParallelChild(plan: Plan, cs: seq<GoalId>, i: nat, run: Goal -> Outcome, ghost rank: map<GoalId, nat>,
                         ghost bound: nat, acc: bool, ghost s: SiblingsResult) returns (acc': bool)
      requires plan.Valid() && Ranked(plan.goals.m, rank) && i < |cs|
      requires SiblingsRest(plan.goals.m, cs, i, Parallel, Delegated(run), rank, bound, acc, s)
      modifies plan
      ensures plan.Valid() && plan.Header() == old(plan.Header()) && plan.goals.keys == old(plan.goals.keys)
      ensures Ranked(plan.goals.m, rank)
      ensures SiblingsRest(plan.goals.m, cs, i + 1, Parallel, Delegated(run), rank, bound, acc', s)
      decreases bound, 0
    {
      ParallelRestStep(plan.goals.m, cs, i, Delegated(run), rank, bound, acc, s);
      var r := ExecuteGoalTree(plan, cs[i], run, rank);
      acc' := acc && r;
    }

    /**
     * `execute_plan`: counts the execution, runs the plan (see `RunPlan`)
     * and counts its success or failure.
     */
    method ExecutePlan(plan: Plan, run: Goal -> Outcome, ghost rank: map<GoalId, nat>) returns (success: bool)
      requires Valid() && plan.Valid() && Ranked(plan.goals.m, rank)
      modifies this, planner, plan
      ensures Valid() && plan.Valid()
      ensures Ran(planner, plan, old(plan.goals.m), old(plan.rootGoalId), Delegated(run), rank, success,
                  old(planner.patternLibrary), old(plan.evaluationScore))
      ensures plan.goals.keys == old(plan.goals.keys) && planner.activePlans == old(planner.activePlans)
      ensures plan.id == old(plan.id) && plan.rootGoalId == old(plan.rootGoalId) && plan.description == old(plan.description)
      ensures plansExecuted == old(plansExecuted) + 1
      ensures plansSucceeded == old(plansSucceeded) + (if success then 1 else 0)
      ensures plansFailed == old(plansFailed) + (if success then 0 else 1)
      ensures plansCreated == old(plansCreated) && patternsApplied == old(patternsApplied)
      ensures approvalsRequested == old(approvalsRequested)
    {
      success := RunPlan(this, plan, run, rank);
      plansExecuted, plansSucceeded, plansFailed :=
        plansExecuted + 1, plansSucceeded + (if success then 1 else 0), plansFailed + (if success then 0 else 1);
    }

    /**
     * `_create_plan_from_scratch` given the decomposer's parsed answer
     * (None when the call failed or returned no JSON): without an answer,
     * a one-goal plan whose OneShot root prompts with the request; with
     * one, a root of the answer's kind over one goal per step, in order,
     * or the exception the answer raises. The plan is registered as active
     * once its root kind is known, exceptions after that point included.
     */
    method CreatePlanFromScratch(content: string, answer: Option<Decomposition>, planId: string, ids: seq<GoalId>)
      returns (r: Creation, ghost rank: map<GoalId, nat>)
      requires Distinct(ids) && |ids| > (if answer.Some? then |answer.value.steps| else 0)
      modifies planner
      ensures planner.patternLibrary == old(planner.patternLibrary)
      ensures r.Created? ==> fresh(r.plan) && r.plan.Valid() && Ranked(r.plan.goals.m, rank) &&
                             r.plan.id == planId && r.plan.description == content &&
                             planner.activePlans == old(planner.activePlans)[planId := r.plan]
      ensures answer.None? ==> r.Created? && r.plan.id == planId && r.plan.rootGoalId == ids[0] &&
                               r.plan.goals == Put(Empty(), ids[0], FallbackRoot(content, ids[0], planId))
      ensures answer.Some? && BuildProblem(answer.value).None? ==>
                r.Created? && FromScratch(r.plan, content, answer.value, planId, ids)
      ensures answer.Some? && BuildProblem(answer.value).Some? ==> r == Rejected(BuildProblem(answer.value).value)
      ensures r.Rejected? ==> planner.activePlans.Keys <= old(planner.activePlans).Keys + {planId}
    {
      if answer.None? {
        var root := NewGoal(ids[0], content, OneShot).(promptTemplate := Some(content));
        var plan := planner.CreatePlan(content, root, planId);
        rank := map[ids[0] := 0];
        return Created(plan), rank;
      }
      var d := answer.value;
      var kind := ParseType(RootKindText(d));
      if kind.None? {
        return Rejected(UnknownGoalType(RootKindText(d))), map[];
      }
      var root := NewGoal(ids[0], content, kind.value).(targetOutcome := Some("Task completed successfully"));
      var plan := planner.CreatePlan(content, root, planId);
      assert ids[1..1] == [] && ids[..1] == [ids[0]];
      var err := AddScratchSteps(plan, content, d, kind.value, planId, ids);
      if err.Some? {
        return Rejected(err.value), map[];
      }
      CompleteRoot(plan, content, d, planId, ids);
      rank := TwoLevels(plan.goals.m, ids[0]);
      FromScratchRanked(plan, content, d, planId, ids);
      r := Created(plan);
    }
    /**
     * `_create_plan_structure` followed by `find_similar_patterns`: the
     * lookup skeleton is a single childless Linear root (registered as an
     * active plan like any other), so the matches are the library entries
     * whose signature is that of the skeleton, best score first.
     */
    method LookupPatterns(content: string, tempId: string) returns (temp: Plan, matches: seq<Match>)
      modifies planner
      ensures fresh(temp) && planner.activePlans == old(planner.activePlans)[tempId := temp]
      ensures planner.patternLibrary == old(planner.patternLibrary)
      ensures matches == old(Lookup(planner.patternLibrary))
      ensures forall p :: p in planner.patternLibrary.m.Values ==> unchanged(p)
    {
      ghost var lib := planner.patternLibrary;
      var skeleton := NewGoal("root", content, Linear);
      temp := planner.CreatePlan(content, skeleton, tempId);
      ghost var rank := map["root" := 0];
      assert ShapeOf(temp.goals.m, temp.rootGoalId, rank) == Node(Linear, []);
      matches := planner.FindSimilarPatterns(temp, 0.7, rank);
      assert forall p :: p in lib.m.Values ==> unchanged(p);
      LookupFrame(lib);
    }

    /**
     * The pattern branch of `handle_with_planning`: a new plan whose Linear
     * root `ids[0]` takes the request as description, then `apply_pattern`
     * copies the pattern under the fresh ids `ids[1..]`. The copy's root
     * becomes the plan's root and the first root stays in the table with
     * no children.
     */
    method PlanFromPattern(pattern: Plan, content: string, planId: string, ids: seq<GoalId>, ghost prank: map<GoalId, nat>)
      returns (plan: Plan, ghost rank: map<GoalId, nat>, ghost origin: map<GoalId, GoalId>, ghost n: nat)
      requires Distinct(ids) && |ids| >= 1
      requires Ranked(pattern.goals.m, prank) && TreeSize(pattern.goals.m, pattern.rootGoalId, prank) < |ids|
      modifies planner
      ensures fresh(plan) && plan.Valid() && Ranked(plan.goals.m, rank)
      ensures planner.activePlans == old(planner.activePlans)[planId := plan]
      ensures planner.patternLibrary == old(planner.patternLibrary)
      ensures plan.id == planId && plan.description == content && plan.status == Pending && !plan.success
      ensures n == TreeSize(pattern.goals.m, pattern.rootGoalId, prank)
      ensures n < |ids| && plan.goals.keys == [ids[0]] + ids[1..n + 1]
      ensures ids[0] in plan.goals.m && plan.goals.m[ids[0]] == NewGoal(ids[0], content, Linear).(planId := Some(planId))
      ensures CopiedRange(plan.goals.m, pattern.goals.m, prank, ids[1..], origin, planId, 0, n)
      ensures pattern.rootGoalId in pattern.goals.m ==>
                plan.rootGoalId == ids[1] && plan.patternSignature == pattern.patternSignature
      ensures pattern.rootGoalId !in pattern.goals.m ==> plan.rootGoalId == ids[0] && plan.patternSignature == None
      ensures pattern.rootGoalId in pattern.goals.m && NoDangling(pattern.goals.m) ==>
                ShapeOf(plan.goals.m, plan.rootGoalId, rank) == ShapeOf(pattern.goals.m, pattern.rootGoalId, prank)
      ensures BestCopied(plan, pattern, planId, ids, prank, origin, n)
    {
      n := TreeSize(pattern.goals.m, pattern.rootGoalId, prank);
      var root := NewGoal(ids[0], content, Linear);
      plan := planner.CreatePlan(content, root, planId);
      var spare := ids[1..];
      forall j | 0 <= j < |spare| ensures spare[j] !in plan.goals.m {
        assert spare[j] == ids[j + 1];
      }
      var ok;
      ok, origin := planner.ApplyPattern(plan, pattern, spare, prank);
      SpareKeys(ids, n);
      rank := InheritedRank(plan.goals.m, origin, prank);
      OrphanRootRanked(plan.goals, pattern.goals.m, prank, ids[0], spare, origin, planId, n);
      if ok && NoDangling(pattern.goals.m) {
        CopiedRootShape(plan.goals, ids[0], spare, origin, n, pattern.goals.m, prank, planId, rank);
      }
    }

    /**
     * The approval gate of `handle_with_planning`: a high-risk plan is
     * parked under its id with its task, terminal and estimate, and nothing
     * runs; any other plan is recorded as that task's active plan and
     * executed.
     */
    method ApproveOrExecute(plan: Plan, fromPattern: bool, taskId: string, terminal: nat, run: Goal -> Outcome,
                            state: ApprovalState, ghost rank: map<GoalId, nat>) returns (reply: Reply)
      requires Valid() && plan.Valid() && Ranked(plan.goals.m, rank)
      modifies this, planner, plan, state
      ensures Valid()
      ensures !reply.Raised? && reply.plan == plan && reply.cost == EstimatePlanCosts(Values(old(plan.goals)))
      ensures reply.AwaitingApproval? <==> reply.cost.highRisk
      ensures plansCreated == old(plansCreated) && patternsApplied == old(patternsApplied)
      ensures planner.activePlans == old(planner.activePlans)
      ensures plan.id == old(plan.id) && plan.description == old(plan.description)
      ensures old(KeyedByPlan(state.pendingApprovals)) ==> KeyedByPlan(state.pendingApprovals)
      ensures reply.AwaitingApproval? ==>
        reply.fromPattern == fromPattern && reply.steps == FormatPlanSummary(plan.goals.m, plan.rootGoalId) &&
        state.pendingApprovals == Put(old(state.pendingApprovals), plan.id, PendingApproval(plan, taskId, terminal, reply.cost)) &&
        state.activePlans == old(state.activePlans) && plan.goals == old(plan.goals) && plan.status == old(plan.status) &&
        planner.patternLibrary == old(planner.patternLibrary) && approvalsRequested == old(approvalsRequested) + 1 &&
        plansExecuted == old(plansExecuted) && plansSucceeded == old(plansSucceeded) && plansFailed == old(plansFailed)
      ensures reply.Executed? ==>
        state.activePlans == old(state.activePlans)[taskId := plan.id] &&
        state.pendingApprovals == old(state.pendingApprovals) &&
        Ran(planner, plan, old(plan.goals.m), old(plan.rootGoalId), Delegated(run), rank, reply.success,
            old(planner.patternLibrary), old(plan.evaluationScore)) &&
        approvalsRequested == old(approvalsRequested) && plansExecuted == old(plansExecuted) + 1 &&
        plansSucceeded == old(plansSucceeded) + (if reply.success then 1 else 0) &&
        plansFailed == old(plansFailed) + (if reply.success then 0 else 1)
    {
      var cost := EstimatePlanCosts(Values(plan.goals));
      if cost.highRisk {
        state.pendingApprovals := Put(state.pendingApprovals, plan.id, PendingApproval(plan, taskId, terminal, cost));
        approvalsRequested := approvalsRequested + 1;
        return AwaitingApproval(plan, fromPattern, FormatPlanSummary(plan.goals.m, plan.rootGoalId), cost);
      }
      state.activePlans := state.activePlans[taskId := plan.id];
      var success := ExecutePlan(plan, run, rank);
      reply := Executed(plan, success, cost);
    }

    /**
     * The pattern branch for the best of the lookup's matches,
     * `similar_patterns[0]`, which is a library entry that fits `ids`: that
     * pattern's tree is what gets copied.
     */
    method PlanFromBestMatch(matches: seq<Match>, content: string, planId: string, ids: seq<GoalId>)
      returns (plan: Plan, ghost rank: map<GoalId, nat>, ghost prank: map<GoalId, nat>,
               ghost origin: map<GoalId, GoalId>, ghost n: nat)
      requires matches == Lookup(planner.patternLibrary)
      requires |matches| > 0 && Distinct(ids) && |ids| > 1 && LibraryFits(planner.patternLibrary, |ids| - 1)
      modifies planner
      ensures fresh(plan) && plan.Valid() && Ranked(plan.goals.m, rank) && plan.id == planId && plan.description == content
      ensures planner.activePlans == old(planner.activePlans)[planId := plan]
      ensures planner.patternLibrary == old(planner.patternLibrary)
      ensures BestCopied(plan, matches[0].pattern, planId, ids, prank, origin, n)
    {
      MatchInLibrary(planner.patternLibrary, 0);
      var pattern := matches[0].pattern;
      prank :| Ranked(pattern.goals.m, prank) && TreeSize(pattern.goals.m, pattern.rootGoalId, prank) <= |ids| - 1;
      plan, rank, origin, n := PlanFromPattern(pattern, content, planId, ids, prank);
    }

    /**
     * The plan-building half of `handle_with_planning`: the best match of
     * the lookup when there is one, else a plan from scratch, which is
     * where the decomposer's answer may raise.
     */
    method CreatePlanFor(content: string, answer: Option<Decomposition>, tempId: string, planId: string, ids: seq<GoalId>)
      returns (created: Creation, fromPattern: bool, ghost rank: map<GoalId, nat>, ghost prank: map<GoalId, nat>,
               ghost origin: map<GoalId, GoalId>, ghost n: nat)
      requires Distinct(ids) && |ids| > 1 + (if answer.Some? then |answer.value.steps| else 0)
      requires LibraryFits(planner.patternLibrary, |ids| - 1)
      modifies planner
      ensures fromPattern <==> old(Lookup(planner.patternLibrary)) != []
      ensures created.Rejected? <==> !fromPattern && answer.Some? && BuildProblem(answer.value).Some?
      ensures created.Rejected? ==> created.error == BuildProblem(answer.value).value
      ensures created.Created? ==>
        fresh(created.plan) && created.plan.Valid() && Ranked(created.plan.goals.m, rank) &&
        created.plan.id == planId && created.plan.description == content
      ensures fromPattern ==>
        created.Created? && BestCopied(created.plan, old(Lookup(planner.patternLibrary))[0].pattern, planId, ids, prank, origin, n)
    {
      var temp, matches := LookupPatterns(content, tempId);
      fromPattern := |matches| > 0;
      if fromPattern {
        var plan;
        plan, rank, prank, origin, n := PlanFromBestMatch(matches, content, planId, ids);
        created := Created(plan);
      } else {
        prank, origin, n := map[], map[], 0;
        created, rank := CreatePlanFromScratch(content, answer, planId, ids);
      }
    }

    /**
     * `handle_with_planning`: count the plan, build it (see
     * `CreatePlanFor`) and pass it through the approval gate (see
     * `ApproveOrExecute`). The reply keeps the outcome but not the wording
     * of the text.
     */
    method HandleWithPlanning(content: string, taskId: string, terminal: nat, answer: Option<Decomposition>,
                              run: Goal -> Outcome, tempId: string, planId: string, ids: seq<GoalId>,
                              state: ApprovalState) returns (reply: Reply)
      requires Valid() && Distinct(ids) && |ids| > 1 + (if answer.Some? then |answer.value.steps| else 0)
      requires LibraryFits(planner.patternLibrary, |ids| - 1)
      modifies this, planner, state
      ensures Valid()
      ensures var found := old(Lookup(planner.patternLibrary));
        plansCreated == old(plansCreated) + 1 &&
        patternsApplied == old(patternsApplied) + (if found != [] then 1 else 0) &&
        (reply.Raised? <==> found == [] && answer.Some? && BuildProblem(answer.value).Some?) &&
        (reply.Raised? ==> reply.error == BuildProblem(answer.value).value) &&
        (reply.AwaitingApproval? ==> reply.fromPattern == (found != []))
      ensures !reply.Raised? ==> fresh(reply.plan) && reply.plan.id == planId && reply.plan.description == content
      ensures reply.Raised? ==> state.pendingApprovals == old(state.pendingApprovals) && state.activePlans == old(state.activePlans)
      ensures old(KeyedByPlan(state.pendingApprovals)) ==> KeyedByPlan(state.pendingApprovals)
      ensures reply.AwaitingApproval? ==>
        reply.cost.highRisk &&
        state.pendingApprovals == Put(old(state.pendingApprovals), planId, PendingApproval(reply.plan, taskId, terminal, reply.cost)) &&
        state.activePlans == old(state.activePlans) && approvalsRequested == old(approvalsRequested) + 1 &&
        plansExecuted == old(plansExecuted)
      ensures reply.Executed? ==>
        !reply.cost.highRisk && reply.plan.status == (if reply.success then Completed else Failed) &&
        state.activePlans == old(state.activePlans)[taskId := planId] &&
        state.pendingApprovals == old(state.pendingApprovals) && approvalsRequested == old(approvalsRequested) &&
        plansExecuted == old(plansExecuted) + 1
    {
      ghost var keyed := KeyedByPlan(state.pendingApprovals);
      var created, fromPattern, rank, prank, origin, n := CreatePlanFor(content, answer, tempId, planId, ids);
      assert keyed ==> KeyedByPlan(state.pendingApprovals);
      plansCreated, patternsApplied := plansCreated + 1, patternsApplied + (if fromPattern then 1 else 0);
      if created.Rejected? {
        return Raised(created.error);
      }
      reply := ApproveOrExecute(created.plan, fromPattern, taskId, terminal, run, state, rank);
    }
  }

  /**
   * `plan` is the copy of `pattern` that the reuse branch builds: a Linear
   * root for the request under `ids[0]`, then the pattern's tree copied in
   * preorder under the next `n` ids, adopting the pattern's root and
   * signature when the pattern has a root.
   */
  ghost predicate BestCopied(plan: Plan, pattern: Plan, planId: string, ids: seq<GoalId>,
                             prank: map<GoalId, nat>, origin: map<GoalId, GoalId>, n: nat)
    reads plan, pattern
  {
    && 1 <= |ids|
    && Ranked(pattern.goals.m, prank)
    && n == TreeSize(pattern.goals.m, pattern.rootGoalId, prank)
    && n < |ids| && plan.goals.keys == [ids[0]] + ids[1..n + 1]
    && CopiedRange(plan.goals.m, pattern.goals.m, prank, ids[1..], origin, planId, 0, n)
    && (pattern.rootGoalId in pattern.goals.m ==>
          plan.rootGoalId == ids[1] && plan.patternSignature == pattern.patternSignature)
    && (pattern.rootGoalId !in pattern.goals.m ==> plan.rootGoalId == ids[0] && plan.patternSignature == None)
  }

  /** The keys a pattern copy adds after the skeleton root are the first `n` spare ids. */
  lemma SpareKeys(ids: seq<GoalId>, n: nat)
    requires n < |ids|
    ensures [ids[0]] + ids[1..][..n] == [ids[0]] + ids[1..n + 1]
  {
    assert ids[1..][..n] == ids[1..n + 1];
  }

  /**
   * The state `execute_plan` leaves behind: the walk's result and goal
   * table, Completed or Failed, and for a success the evaluation score
   * and the plan saved in the library under its signature; a failure
   * leaves the score and the library alone.
   */
  ghost predicate Ran(planner: GoalPlanner, plan: Plan, g0: Arena, root: GoalId, leaf: Goal -> LeafResult,
                      rank: map<GoalId, nat>, success: bool, lib0: ODict<string, Plan>, score0: Option<real>)
    requires Ranked(g0, rank)
    reads planner, plan
  {
    var w := Walk(g0, root, leaf, rank);
    success == w.ok && plan.goals.m == w.goals &&
    plan.status == (if success then Completed else Failed) && plan.success == success &&
    (!success ==> plan.evaluationScore == score0 && planner.patternLibrary == lib0) &&
    (success ==>
      plan.evaluationScore == Some(Score(true, CostScore(EstimatedTotal(plan.totalCost), ActualTotal(plan.totalCost)),
                                         SideEffectCount(Values(plan.goals)))) &&
      planner.patternLibrary == Put(lib0, Serialize(ShapeOf(g0, root, rank)), plan))
  }

  /** The body of `execute_plan` between the counters. */
  method RunPlan(o: PlanningOrchestrator, plan: Plan, run: Goal -> Outcome, ghost rank: map<GoalId, nat>) returns (success: bool)
    requires plan.Valid() && Ranked(plan.goals.m, rank)
    modifies o.planner, plan
    ensures plan.Valid()
    ensures Ran(o.planner, plan, old(plan.goals.m), old(plan.rootGoalId), Delegated(run), rank, success,
                old(o.planner.patternLibrary), old(plan.evaluationScore))
    ensures plan.goals.keys == old(plan.goals.keys) && o.planner.activePlans == old(o.planner.activePlans)
    ensures plan.id == old(plan.id) && plan.rootGoalId == old(plan.rootGoalId) && plan.description == old(plan.description)
  {
    var planner := o.planner;
    ghost var g0 := plan.goals.m;
    plan.status := InProgress;
    success := o.ExecuteGoalTree(plan, plan.rootGoalId, run, rank);
    WalkKeepsShape(g0, plan.rootGoalId, plan.rootGoalId, Delegated(run), rank);
    plan.status := if success then Completed else Failed;
    plan.success := success;
    var score := plan.EvaluatePerformance();
    if success {
      SuccessAlwaysPromoted(EstimatedTotal(plan.totalCost), ActualTotal(plan.totalCost), SideEffectCount(Values(plan.goals)));
    }
    if success && score >= 0.7 {
      var _ := planner.SaveAsPattern(plan, None, rank);
    }
  }

  // ------------------------------------------ _create_plan_from_scratch

  /** One entry of the decomposer's "steps" list; absent keys are None. */
  datatype StepSpec = StepSpec(description: Option<string>, stepType: Option<string>,
                               estimatedTimeSeconds: Option<real>)

  /** The decomposer's parsed answer; absent keys are None and a missing "steps" is the empty list. */
  datatype Decomposition = Decomposition(goalType: Option<string>, steps: seq<StepSpec>,
                                         overallEstimatedTime: Option<real>, risks: Option<seq<string>>)

  /** The exceptions building a plan can raise: a step without "description" (KeyError) or an unknown kind (ValueError). */
  datatype BuildError = MissingDescription | UnknownGoalType(value: string)

  /** The result of building a plan. */
  datatype Creation = Created(plan: Plan) | Rejected(error: BuildError)

  function OrElse(o: Option<string>, default: string): string
  {
    if o.Some? then o.value else default
  }

  /** The root kind the answer asks for, "linear" by default. */
  function RootKindText(d: Decomposition): string { OrElse(d.goalType, "linear") }

  /** A step's kind, "one_shot" by default. */
  function StepKindText(s: StepSpec): string { OrElse(s.stepType, "one_shot") }

  predicate StepOk(s: StepSpec)
  {
    s.description.Some? && ParseType(StepKindText(s)).Some?
  }

  /** The first exception the steps raise, in the order the loop meets them. */
  function StepsProblem(steps: seq<StepSpec>): (e: Option<BuildError>)
    ensures e.None? <==> forall i :: 0 <= i < |steps| ==> StepOk(steps[i])
  {
    if |steps| == 0 then None
    else if steps[0].description.None? then Some(MissingDescription)
    else if ParseType(StepKindText(steps[0])).None? then Some(UnknownGoalType(StepKindText(steps[0])))
    else
      assert forall i :: 1 <= i < |steps| ==> steps[i] == steps[1..][i - 1];
      StepsProblem(steps[1..])
  }

  /** The first exception building from `d` raises: the root's kind is checked before any step. */
  function BuildProblem(d: Decomposition): Option<BuildError>
  {
    if ParseType(RootKindText(d)).None? then Some(UnknownGoalType(RootKindText(d))) else StepsProblem(d.steps)
  }

  /** The one-goal plan's root when decomposition fails: a OneShot goal prompting with the request itself. */
  function FallbackRoot(content: string, id: GoalId, planId: string): Goal
  {
    NewGoal(id, content, OneShot).(promptTemplate := Some(content), planId := Some(planId))
  }

  /** The root of a decomposed plan before its children and overall estimates are added. */
  function ScratchRootBase(content: string, t: GoalType, id: GoalId, planId: string): Goal
  {
    NewGoal(id, content, t).(targetOutcome := Some("Task completed successfully"), planId := Some(planId))
  }

  /** The overall time estimate and the risks of the answer, added to the root when present. */
  function WithOverall(root: Goal, d: Decomposition): Goal
  {
    var r := if d.overallEstimatedTime.Some? then EstimateCost(root, Time, d.overallEstimatedTime.value) else root;
    if d.risks.Some? then r.(costAnalysis := r.costAnalysis.(risks := d.risks.value)) else r
  }

  /** The goal made for one step: under the root, prompting with its description, timed when the step says so. */
  function ScratchStep(s: StepSpec, id: GoalId, rootId: GoalId, planId: string): (g: Goal)
    requires StepOk(s)
    ensures g.id == id && g.children == [] && g.parentId == Some(rootId) && g.goalType == ParseType(StepKindText(s)).value
  {
    var desc := s.description.value;
    var g := NewGoal(id, desc, ParseType(StepKindText(s)).value)
               .(parentId := Some(rootId), planId := Some(planId), promptTemplate := Some(desc));
    if s.estimatedTimeSeconds.Some? then EstimateCost(g, Time, s.estimatedTimeSeconds.value) else g
  }

  /**
   * The first `i` steps of `d` have been added to `plan`: the ids used are
   * `ids[..i + 1]`, the root (at `ids[0]`) lists the steps' goals as its
   * children in order, and each step's goal is `ScratchStep` of it.
   */
  ghost predicate Building(plan: Plan, content: string, d: Decomposition, t: GoalType, planId: string,
                           ids: seq<GoalId>, i: nat)
    reads plan
  {
    StepsTable(plan.goals, content, d, t, planId, ids, i) &&
    plan.Valid() && plan.id == planId && plan.description == content && plan.rootGoalId == ids[0]
  }

  /** The goals of the first `i` steps are in `m`, each built from its step. */
  ghost predicate StepsStored(m: Arena, d: Decomposition, planId: string, ids: seq<GoalId>, i: nat)
  {
    i <= |d.steps| && i < |ids| &&
    forall j :: 0 <= j < i ==>
      StepOk(d.steps[j]) && ids[j + 1] in m && m[ids[j + 1]] == ScratchStep(d.steps[j], ids[j + 1], ids[0], planId)
  }

  ghost predicate StepsTable(g: ODict<GoalId, Goal>, content: string, d: Decomposition, t: GoalType, planId: string,
                             ids: seq<GoalId>, i: nat)
  {
    i <= |d.steps| < |ids| && g.keys == ids[..i + 1] &&
    ids[0] in g.m && g.m[ids[0]] == ScratchRootBase(content, t, ids[0], planId).(children := ids[1..i + 1]) &&
    StepsStored(g.m, d, planId, ids, i)
  }

  /** The plan `_create_plan_from_scratch` builds from a usable answer `d`. */
  ghost predicate FromScratch(plan: Plan, content: string, d: Decomposition, planId: string, ids: seq<GoalId>)
    reads plan
  {
    |d.steps| < |ids| && ParseType(RootKindText(d)).Some? && plan.Valid() &&
    plan.id == planId && plan.description == content && plan.rootGoalId == ids[0] &&
    ScratchTable(plan.goals, content, d, planId, ids)
  }

  /**
   * The goal table of that plan: the ids `ids[..n + 1]` for `n` steps, the
   * root (at `ids[0]`) of the answer's kind listing the steps' goals as its
   * children in order and carrying the overall estimates, and each step's
   * goal `ScratchStep` of it.
   */
  ghost predicate ScratchTable(g: ODict<GoalId, Goal>, content: string, d: Decomposition, planId: string, ids: seq<GoalId>)
  {
    var n := |d.steps|;
    n < |ids| && ParseType(RootKindText(d)).Some? &&
    g.keys == ids[..n + 1] &&
    ids[0] in g.m &&
    g.m[ids[0]] ==
      WithOverall(ScratchRootBase(content, ParseType(RootKindText(d)).value, ids[0], planId).(children := ids[1..n + 1]), d) &&
    StepsStored(g.m, d, planId, ids, n)
  }

  /** Adding the overall estimates to the root once every step is in completes the table. */
  lemma Finished(g0: ODict<GoalId, Goal>, g1: ODict<GoalId, Goal>, content: string, d: Decomposition, planId: string,
                 ids: seq<GoalId>)
    requires ParseType(RootKindText(d)).Some? && Distinct(ids)
    requires StepsTable(g0, content, d, ParseType(RootKindText(d)).value, planId, ids, |d.steps|)
    requires g1 == Put(g0, ids[0], WithOverall(g0.m[ids[0]], d))
    ensures ScratchTable(g1, content, d, planId, ids)
  {
    var n := |d.steps|;
    forall k | 1 <= k <= n ensures ids[k] in g1.m && g1.m[ids[k]] == g0.m[ids[k]] {
      assert ids[k] != ids[0];
    }
  }

  /** The rank of a two-level plan: 1 for the root, 0 for everything else. */
  ghost function TwoLevels(m: Arena, root: GoalId): map<GoalId, nat>
  {
    map k | k in m :: if k == root then 1 else 0
  }

  /** A plan built from scratch is a root over childless steps, hence acyclic. */
  lemma FromScratchRanked(plan: Plan, content: string, d: Decomposition, planId: string, ids: seq<GoalId>)
    requires FromScratch(plan, content, d, planId, ids) && Distinct(ids)
    ensures Ranked(plan.goals.m, TwoLevels(plan.goals.m, ids[0]))
  {
    var m := plan.goals.m;
    var n := |d.steps|;
    var rank := TwoLevels(m, ids[0]);
    forall k | k in m ensures k in rank && Below(m[k].children, rank, rank[k]) {
      InKeys(plan.goals, k);
      var p :| 0 <= p < n + 1 && ids[..n + 1][p] == k;
      if p > 0 {
        var j := p - 1;
        assert ids[j + 1] == k;
        assert m[k] == ScratchStep(d.steps[j], ids[j + 1], ids[0], planId);
      } else {
        assert m[k].children == ids[1..n + 1];
        forall c | 0 <= c < |m[k].children| ensures m[k].children[c] in rank && rank[m[k].children[c]] < rank[k] {
          assert m[k].children[c] == ids[c + 1];
        }
      }
    }
  }

  /** The step loop of `_create_plan_from_scratch`: every step's goal added in order, or the first step's exception. */
  method AddScratchSteps(plan: Plan, content: string, d: Decomposition, t: GoalType, planId: string, ids: seq<GoalId>)
    returns (err: Option<BuildError>)
    requires Building(plan, content, d, t, planId, ids, 0) && Distinct(ids)
    modifies plan
    ensures err == StepsProblem(d.steps)
    ensures err.None? ==> Building(plan, content, d, t, planId, ids, |d.steps|)
  {
    var i := 0;
    while i < |d.steps|
      invariant Building(plan, content, d, t, planId, ids, i)
      invariant StepsProblem(d.steps) == StepsProblem(d.steps[i..])
    {
      var s := d.steps[i];
      assert d.steps[i..][1..] == d.steps[i + 1..];
      if s.description.None? {
        return Some(MissingDescription);
      }
      if ParseType(StepKindText(s)).None? {
        return Some(UnknownGoalType(StepKindText(s)));
      }
      AddStep(plan, content, d, t, planId, ids, i);
      i := i + 1;
    }
    assert d.steps[i..] == [];
    err := None;
  }

  /** The root's overall time estimate and risks, written once every step is in. */
  method CompleteRoot(plan: Plan, content: string, d: Decomposition, planId: string, ids: seq<GoalId>)
    requires ParseType(RootKindText(d)).Some? && Distinct(ids)
    requires Building(plan, content, d, ParseType(RootKindText(d)).value, planId, ids, |d.steps|)
    modifies plan
    ensures FromScratch(plan, content, d, planId, ids)
  {
    ghost var g0 := plan.goals;
    var top := plan.goals.m[ids[0]];
    if d.overallEstimatedTime.Some? {
      top := EstimateCost(top, Time, d.overallEstimatedTime.value);
    }
    if d.risks.Some? {
      top := top.(costAnalysis := top.costAnalysis.(risks := d.risks.value));
    }
    assert top == WithOverall(g0.m[ids[0]], d);
    plan.goals := Put(plan.goals, ids[0], top);
    Finished(g0, plan.goals, content, d, planId, ids);
  }

  /** One pass of the step loop: the goal of step `i` is added to the plan and listed under the root. */
  method AddStep(plan: Plan, content: string, d: Decomposition, t: GoalType, planId: string, ids: seq<GoalId>, i: nat)
    requires Building(plan, content, d, t, planId, ids, i) && i < |d.steps| && StepOk(d.steps[i]) && Distinct(ids)
    modifies plan
    ensures Building(plan, content, d, t, planId, ids, i + 1)
  {
    var s := d.steps[i];
    var desc := s.description.value;
    var child := NewGoal(ids[i + 1], desc, ParseType(StepKindText(s)).value)
                   .(parentId := Some(ids[0]), planId := Some(plan.id), promptTemplate := Some(desc));
    if s.estimatedTimeSeconds.Some? {
      child := EstimateCost(child, Time, s.estimatedTimeSeconds.value);
    }
    var root := plan.goals.m[ids[0]];
    var linked := AddChild(root, child);
    assert linked.1.(planId := Some(planId)) == ScratchStep(s, ids[i + 1], ids[0], planId);
    assert ids[i + 1] !in plan.goals.m by {
      InKeys(plan.goals, ids[i + 1]);
    }
    ghost var m0 := plan.goals.m;
    // The root is shared with the plan's table, so listing the child updates the stored root.
    plan.goals := Put(plan.goals, ids[0], linked.0);
    var _ := plan.AddGoal(linked.1);
    Extended(plan, m0, content, d, t, planId, ids, i);
  }

  /** After step `i` is added, `Building` holds for `i + 1`. */
  lemma Extended(plan: Plan, m0: Arena, content: string, d: Decomposition, t: GoalType, planId: string,
                 ids: seq<GoalId>, i: nat)
    requires i < |d.steps| < |ids| && Distinct(ids) && StepOk(d.steps[i])
    requires StepsStored(m0, d, planId, ids, i)
    requires plan.goals.m == m0[ids[0] := ScratchRootBase(content, t, ids[0], planId).(children := ids[1..i + 1] + [ids[i + 1]])]
                              [ids[i + 1] := ScratchStep(d.steps[i], ids[i + 1], ids[0], planId)]
    requires plan.goals.keys == ids[..i + 1] + [ids[i + 1]]
    requires plan.Valid() && plan.id == planId && plan.description == content && plan.rootGoalId == ids[0]
    ensures Building(plan, content, d, t, planId, ids, i + 1)
  {
    assert ids[..i + 2] == ids[..i + 1] + [ids[i + 1]];
    StepsExtended(plan.goals.m, m0, content, d, t, planId, ids, i);
  }

  lemma StepsExtended(m: Arena, m0: Arena, content: string, d: Decomposition, t: GoalType, planId: string,
                      ids: seq<GoalId>, i: nat)
    requires i < |d.steps| < |ids| && Distinct(ids) && StepOk(d.steps[i])
    requires StepsStored(m0, d, planId, ids, i)
    requires m == m0[ids[0] := ScratchRootBase(content, t, ids[0], planId).(children := ids[1..i + 1] + [ids[i + 1]])]
                    [ids[i + 1] := ScratchStep(d.steps[i], ids[i + 1], ids[0], planId)]
    ensures StepsStored(m, d, planId, ids, i + 1)
    ensures ids[0] in m && m[ids[0]] == ScratchRootBase(content, t, ids[0], planId).(children := ids[1..i + 2])
  {
    assert ids[1..i + 2] == ids[1..i + 1] + [ids[i + 1]];
    forall j | 0 <= j < i + 1
      ensures ids[j + 1] in m && m[ids[j + 1]] == ScratchStep(d.steps[j], ids[j + 1], ids[0], planId)
    {
      assert ids[j + 1] != ids[0];
      if j < i {
        assert ids[j + 1] != ids[i + 1];
        assert StepOk(d.steps[j]) && m0[ids[j + 1]] == ScratchStep(d.steps[j], ids[j + 1], ids[0], planId);
      }
    }
  }

  // ---------------------------------------------- handle_with_planning

  /** What `pending_approvals` holds for a plan awaiting the user's yes or no. */
  datatype PendingApproval = PendingApproval(plan: Plan, taskId: string, terminalId: nat, cost: CostSummary)

  /**
   * The outcome of `handle_with_planning`: a plan parked for approval (with
   * the numbered step list and the estimate the reply shows), a plan that
   * ran, or the exception building it raised.
   */
  datatype Reply =
    | AwaitingApproval(plan: Plan, fromPattern: bool, steps: string, cost: CostSummary)
    | Executed(plan: Plan, success: bool, cost: CostSummary)
    | Raised(error: BuildError)

  /** The two tables of the scheduler that the orchestrator writes to. */
  /** Every pending approval is filed under its own plan's id, as `handle_with_planning` files them. */
  ghost predicate KeyedByPlan(d: ODict<string, PendingApproval>)
    reads set k | k in d.m :: d.m[k].plan
  {
    forall k :: k in d.m ==> d.m[k].plan.id == k
  }

  class ApprovalState {
    var pendingApprovals: ODict<string, PendingApproval>
    var activePlans: map<string, string>

    constructor ()
      ensures pendingApprovals == Empty() && activePlans == map[]
      ensures KeyedByPlan(pendingApprovals)
    {
      pendingApprovals := Empty();
      activePlans := map[];
    }
  }

  /** The signature of the lookup skeleton, a childless Linear root. */
  const SkeletonSignature: string := Serialize(Node(Linear, []))

  /** The matches of the lookup skeleton in library `lib`, best score first. */
  function Lookup(lib: ODict<string, Plan>): seq<Match>
    reads lib.m.Values
  {
    SortDesc(Candidates(lib.keys, lib.m, SkeletonSignature))
  }

  /** The lookup only reads the library's plans, so it survives any change that leaves them alone. */
  twostate lemma LookupFrame(lib: ODict<string, Plan>)
    requires forall p :: p in lib.m.Values ==> unchanged(p)
    ensures Lookup(lib) == old(Lookup(lib))
  {
  }

  /** `p` can be copied with `n` fresh ids: its goals are acyclic under some rank and its tree has at most `n` goals. */
  ghost predicate PatternFits(p: Plan, n: nat)
    reads p
  {
    exists r :: Ranked(p.goals.m, r) && TreeSize(p.goals.m, p.rootGoalId, r) <= n
  }

  /** Every pattern in the library fits in `n` fresh ids. */
  ghost predicate LibraryFits(lib: ODict<string, Plan>, n: nat)
    reads lib.m.Values
  {
    forall k :: k in lib.m ==> PatternFits(lib.m[k], n)
  }

  /**
   * Every match of the lookup is a library entry whose stored signature is
   * the skeleton's: only patterns saved from a childless Linear root can
   * ever be reused.
   */
  lemma MatchInLibrary(lib: ODict<string, Plan>, j: nat)
    requires j < |SortDesc(Candidates(lib.keys, lib.m, SkeletonSignature))|
    ensures var mt := SortDesc(Candidates(lib.keys, lib.m, SkeletonSignature))[j];
      mt.patternId in lib.m && mt.pattern == lib.m[mt.patternId] &&
      mt.pattern.patternSignature == Some(SkeletonSignature)
  {
    var c := Candidates(lib.keys, lib.m, SkeletonSignature);
    var i := SortedFrom(c, j);
  }

  /** Sorting only reorders: every sorted entry sits somewhere in the input. */
  lemma SortedFrom(c: seq<Match>, j: nat) returns (i: nat)
    requires j < |SortDesc(c)|
    ensures i < |c| && c[i] == SortDesc(c)[j]
  {
    SortDescCorrect(c);
    assert SortDesc(c)[j] in multiset(SortDesc(c));
    i :| 0 <= i < |c| && c[i] == SortDesc(c)[j];
  }

  /** The copies are exactly the goals added after the first root. */
  lemma CopiesFromSpare(g: ODict<GoalId, Goal>, root: GoalId, spare: seq<GoalId>, origin: map<GoalId, GoalId>, n: nat)
    requires n <= |spare| && g.keys == [root] + spare[..n]
    requires forall k :: k in origin ==> k in g.m && k != root
    ensures CopiesClosed(spare, origin, n)
  {
    forall k | k in origin ensures exists j :: 0 <= j < n && j < |spare| && spare[j] == k {
      InKeys(g, k);
      var p :| 0 <= p < |g.keys| && g.keys[p] == k;
      assert spare[p - 1] == k;
    }
  }

  /** The copy of the pattern's root has the pattern's shape. */
  lemma CopiedRootShape(g: ODict<GoalId, Goal>, root: GoalId, spare: seq<GoalId>, origin: map<GoalId, GoalId>, n: nat,
                        src: Arena, prank: map<GoalId, nat>, planId: string, rank: map<GoalId, nat>)
    requires n <= |spare| && g.keys == [root] + spare[..n]
    requires forall k :: k in origin ==> k in g.m && k != root
    requires CopiedRange(g.m, src, prank, spare, origin, planId, 0, n)
    requires NoDangling(src) && Ranked(src, prank) && Ranked(g.m, rank)
    requires |spare| > 0 && spare[0] in origin
    ensures ShapeOf(g.m, spare[0], rank) == ShapeOf(src, origin[spare[0]], prank)
  {
    CopiesFromSpare(g, root, spare, origin, n);
    CopyShape(g.m, src, prank, spare, origin, planId, n, rank, spare[0]);
  }

  /** The pattern copy plus the childless first root is acyclic under the rank inherited from the pattern. */
  lemma OrphanRootRanked(g: ODict<GoalId, Goal>, src: Arena, prank: map<GoalId, nat>, root: GoalId,
                         spare: seq<GoalId>, origin: map<GoalId, GoalId>, planId: string, n: nat)
    requires n <= |spare| && g.keys == [root] + spare[..n]
    requires root in g.m && g.m[root].children == []
    requires CopiedRange(g.m, src, prank, spare, origin, planId, 0, n)
    ensures Ranked(g.m, InheritedRank(g.m, origin, prank))
  {
    forall k | k in g.m ensures g.m[k].children == [] || exists j :: 0 <= j < n && spare[j] == k {
      InKeys(g, k);
      if k != root {
        var p :| 0 <= p < |g.keys| && g.keys[p] == k;
        assert spare[p - 1] == k;
      }
    }
    CopyRanked(g.m, src, prank, spare, origin, planId, n);
  }
}
