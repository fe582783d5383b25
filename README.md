# Jarvis planning core in Dafny

This project models the core of Jarvis, a terminal assistant that plans and
runs multi-step work. The core is built around the **hierarchical goal
planner** (`jarvis_planner.py`):

- A `Plan` owns a table of `Goal`s keyed by id. Each goal's kind
  (OneShot, Linear, Branching, Parallel, Stop, Abort) decides how its children
  are executed.
- A plan's *signature* is the shape of its goal tree.
- A *pattern library* keeps successful plans under their signature so that
  later requests can reuse them.

Around the planner the project models:

- the **planning orchestrator** (`planning_orchestrator.py`):
  - deciding whether to plan;
  - building a plan from the decomposer's answer or from a pattern;
  - estimating risk;
  - parking high-risk plans for approval;
  - running goals through an executor;
  - extracting web-search queries.
- the **scheduler core** (`jarvis_core.py`):
  - the priority task queue;
  - task records and their dictionary round trip;
  - terminals;
  - self-generated tasks;
  - bounded histories;
  - the yes/no answer to a pending approval;
  - natural-language date parsing.
- the web back end's **interaction classifier** and **interaction handler**:
  - risk classification of questions put to the user;
  - the execution-mode gate;
  - timeouts and defaults.
- the **intent classifier** and the **intent handlers** (routing, CRUD
  create/read, contact lookup).
- the **prompt analyzer**: versioned prompts, performance tracking and the
  application of improvements.
- the **event broadcaster**: subscriptions filtered by authorisation level.
- the **search provider**: its TTL cache and result formatting.
- the **auth manager**'s user table.
- the **visualizer export validator**.

Stateful objects (`Plan`, `GoalPlanner`, `PlanningOrchestrator`,
`JarvisCore`, `InteractionHandler`, `EventBroadcaster`, `SearchProvider`,
`AuthManager`, `PromptAnalyzer`, …) are Dafny classes whose methods state
their whole new state. Pure helpers are functions, and the promises the
source makes across calls are lemmas. Python dictionaries whose insertion
order matters are modelled by `OrderedDicts.ODict`, a key sequence plus a
map.

Plan trees are arenas: a map from goal id to goal, with children listed by
id. Recursion over a tree is justified by a ghost `rank` that decreases
from parent to child (`PlanTree.Ranked`).

The tree walk of `_execute_goal_tree` is specified once, by the ghost
functions `PlanTree.Walk` and `PlanTree.Siblings`. Both the planner's and
the orchestrator's imperative walks are proved equal to it. They differ
only in what runs a OneShot leaf: the planner's canned outcome, or an
executor passed in as a function.

Everything the source obtains from outside is a parameter of the model:

- the language model's answers;
- the executor's outcomes;
- uuid values (a sequence of distinct fresh ids);
- the clock;
- password hashes;
- fetched pages.

## Model

| member | source | states |
|---|---|---|
| Plans.EstimatedTotal | jarvis_planner.py:476 | the estimated total is never zero: the sum of the estimates, or 1.0 when that sum is zero |
| Plans.Score | jarvis_planner.py:473-508 | the weighted score (60% success, 20% cost, 10% speed, 10% side effects) always lies in [0, 1] |
| Plans.CostScoreBounds | jarvis_planner.py:476-483 | with a positive estimate the cost component lies in [0, 1], and it is below 0.5 exactly when the actual total exceeds 1.5 times the estimate |
| Plans.NegativeEstimateOverflow | jarvis_planner.py:476-483 | as written, a negative estimated total (-2.0, actual -1.0) gives a cost component of 1.5, outside [0, 1] |
| Plans.SuccessScoresAtLeastThreshold | jarvis_planner.py:473-508 | a successful completed plan with a non-negative cost component scores at least 0.7, the promotion threshold |
| Plans.FailureScoresBelowThreshold | jarvis_planner.py:473-508 | an unsuccessful plan scores at most 0.4 when its cost component is at most 1, so it is never promoted |
| Plans.Specificity | jarvis_planner.py:386-397 | the specificity dimension of the fingerprint lies in [0.3, 0.9] |
| Plans.Fingerprint | jarvis_planner.py:327-429 | the fingerprint has exactly the seven visualizer dimensions, each in [0, 1] |
| Plans.StepsJson | jarvis_planner.py:319-326 | the export has one step per goal of the plan |
| Plans.Plan.constructor | jarvis_planner.py:225-251 | a new plan is pending, unsuccessful, unsigned, without goals, tags, costs or score |
| Plans.Plan.AddGoal | jarvis_planner.py:275-279 | the goal is stored (or replaced) under its id, stamped with this plan's id; nothing else changes |
| Plans.Plan.BuildTree | jarvis_planner.py:302-310 | the nested dictionary built from a goal is the shape `PlanTree.ShapeOf` of its subtree |
| Plans.Plan.ComputeSignature | jarvis_planner.py:296-317 | the signature is the serialised shape of the tree under the root, and it is stored as the plan's pattern signature; the goals are untouched |
| Plans.Plan.ToVisualizerJson | jarvis_planner.py:319-454 | the export is an object holding only "steps", one per goal in insertion order; its partner is `VisualizerCheck.ExportValidates` |
| Plans.Plan.EvaluatePerformance | jarvis_planner.py:463-509 | a plan that is not completed scores 0.0 and its stored score is left alone; a completed plan gets the weighted score in [0, 1], which is also stored; nothing else changes |
| Plans.CountSideEffects | jarvis_planner.py:490-494 | the loop's count equals the total number of side effects recorded in the goals' outcomes |
| Plans.ChildGoals | jarvis_planner.py:289-294 | the children returned are exactly the listed child ids that are present in the plan, never more than are listed |
| Plans.ChildGoalsInOrder | jarvis_planner.py:289-294 | the children come back in the order of the goal's child list: a listed id gives its goal when present and nothing otherwise, and listing a concatenation lists each part in turn |
| PlannerTypes.ParseType | jarvis_planner.py:30-38 | a parsed goal kind has exactly the given text as its value |
| PlannerTypes.ParseTypeValue | jarvis_planner.py:30-38 | parsing a kind's value gives that kind back (round trip) |
| PlannerTypes.NewGoal | jarvis_planner.py:126-162 | a new goal has the given id, description and kind, no children, pending status and no outcome |
| PlannerTypes.AddChild | jarvis_planner.py:208-213 | the child id is appended to the parent's list, and the child takes the parent as its parent and the parent's plan |
| PlannerTypes.EstimateCost | jarvis_planner.py:215-217 | only the estimate for that kind of cost changes, to the given amount |
| PlannerTypes.RecordCost | jarvis_planner.py:219-221 | only the actual cost of that kind changes, to the given amount |
| PlannerTypes.SumAfterPut | jarvis_planner.py:105-115 | setting a cost changes the sum of the costs by the new amount minus the old one (0 when absent) |
| PlannerTypes.EstimateCostNetBenefit | jarvis_planner.py:105-109 | estimating a cost lowers the estimated net benefit by the amount, after giving back the previous estimate of that kind |
| PlannerTypes.RecordCostNetBenefit | jarvis_planner.py:111-115 | recording a cost moves the actual net benefit in the same way |
| PlanTree.SelfChildUnranked | jarvis_planner.py:793-831 | a goal that lists itself as a child admits no rank: such a plan is outside the acyclic plans the model walks |
| PlanTree.SameTreeRanked | jarvis_planner.py:793-831 | a walk that changes only goal records keeps every rank valid |
| PlanTree.Walk | jarvis_planner.py:793-831 | walking keeps the tree structure; a missing goal fails, Stop succeeds and Abort fails, in each case without changing anything, so a terminal goal (`is_terminal`, jarvis_planner.py:204-206) ends the walk with the goal table unchanged and succeeds exactly when it is a Stop |
| PlanTree.Siblings | jarvis_planner.py:808-827 | the children loop keeps the tree, records at most one outcome per child, and at least one when there are children |
| PlanTree.LinearStopsAtFailure | jarvis_planner.py:808-813 | a Linear goal runs its children in order while they succeed and stops right after the first failure |
| PlanTree.LinearSucceedsIffAll | jarvis_planner.py:808-813 | a Linear goal succeeds iff every child was run and succeeded |
| PlanTree.BranchingSiblings | jarvis_planner.py:815-820 | a Branching goal tries its children in order up to and including the first success, and succeeds iff one of them did |
| PlanTree.ParallelSiblings | jarvis_planner.py:822-827 | a Parallel goal runs every child and succeeds iff all of them succeeded |
| PlanTree.ShapeOf | jarvis_planner.py:302-310 | a missing id has the empty shape; a present goal's shape has its kind and one entry per listed child |
| PlanTree.SerializePrefixFree | jarvis_planner.py:296-317 | no serialised shape is a proper prefix of another, and equal texts come from equal shapes |
| PlanTree.SerializeInjective | jarvis_planner.py:296-317 | different shapes have different signatures |
| PlanTree.RootChangeChangesSignature | jarvis_planner.py:296-317 | changing the root's kind or its number of children changes the signature |
| PlanTree.ShapeIgnoresLabels | jarvis_planner.py:302-310 | descriptions, statuses, outcomes and costs do not affect the shape |
| PlanTree.ShapeRenaming | jarvis_planner.py:302-310 | renaming goal ids consistently leaves the shape unchanged |
| PlanTree.WalkKeepsShape | jarvis_planner.py:763-831 | executing a plan never changes its shape, and so never changes its signature |
| PlanCosts.AddOne | jarvis_planner.py:849-851 | one accumulation step adds the amount to the key's running total (0 when absent) and appends a new key at the end |
| PlanCosts.AddAllPointwise | jarvis_planner.py:849-855 | after accumulating a dictionary, every key holds its old total plus the added amount, and the keys are the union of both key sets |
| PlanCosts.AddAllSum | jarvis_planner.py:849-855 | accumulating a dictionary adds its total to the running total |
| PlanCosts.Aggregate | jarvis_planner.py:841-861 | the roll-up records no benefits and no risk mitigation |
| PlanCosts.AggregatePerKey | jarvis_planner.py:847-855 | every key's aggregated amount is that key's sum over all goals, estimated and actual separately |
| PlanCosts.AggregateKeys | jarvis_planner.py:847-855 | a key appears in the roll-up iff some goal carries it |
| PlanCosts.AggregateTotal | jarvis_planner.py:847-855 | the aggregated total is the sum of the goals' totals |
| PlanCosts.AggregateNetBenefit | jarvis_planner.py:105-115 | the roll-up's net benefits are minus the summed goal totals, estimated and actual |
| PlanCosts.AggregateRisks | jarvis_planner.py:857-858 | the aggregated risks are the goals' risks concatenated in goal order |
| Patterns.Candidates | jarvis_planner.py:619-627 | the candidates are exactly the library entries whose stored signature equals the plan's, in library order, each with similarity 1.0 and its score (None counting 0.0) |
| Patterns.SortDescSorted | jarvis_planner.py:630 | the sorted matches have non-increasing scores |
| Patterns.SortDescPerm | jarvis_planner.py:630 | sorting keeps exactly the same matches (a permutation) |
| Patterns.SortDescStable | jarvis_planner.py:630 | matches with equal scores keep their library order |
| Patterns.SortDescCorrect | jarvis_planner.py:629-630 | the sort is sorted, a permutation and stable |
| PatternCopy.TreeSize | jarvis_planner.py:642-674 | `copy_tree` creates at least one goal exactly when the source goal exists |
| PatternCopy.PresentChildren | jarvis_planner.py:669-672 | only children present in the pattern are copied and linked |
| PatternCopy.CopyGoal | jarvis_planner.py:648-664 | a copy keeps description, kind, prompt template, target outcome and prerequisites, takes the pattern's actual costs as its estimates, and starts pending with no outcome under the new parent and plan |
| PatternCopy.CopyInto | jarvis_planner.py:642-674 | `copy_tree` uses exactly one fresh id per copied goal, in preorder, leaves every old goal unchanged, returns None for a missing goal, and each new goal is a faithful copy of its origin with its copied children linked in order |
| PatternCopy.CopyChild | jarvis_planner.py:669-672 | one pass of the children loop copies child `i` and links it under the new goal, keeping the loop invariant |
| PatternCopy.CopyRanked | jarvis_planner.py:642-683 | a plan holding copies of a pattern (plus childless goals) is as acyclic as the pattern |
| PatternCopy.CopyShape | jarvis_planner.py:642-683 | when no child id of the pattern dangles, every copy has the shape of its origin, so the copied plan has the pattern's signature |
| Planner.PlannerLeaf | jarvis_planner.py:728-761 | a leaf succeeds iff its prerequisites are met; it then completes with the simulated outcome, and otherwise it is blocked with no outcome |
| Planner.StepGoal | jarvis_planner.py:589-596 | step `i` of a linear decomposition is a pending childless OneShot goal named "Step i+1" under the parent and plan |
| Planner.Accumulate | jarvis_planner.py:849-855 | the loop over one cost dictionary computes `PlanCosts.AddAll` |
| Planner.SumCosts | jarvis_planner.py:845-858 | the loop over the goals computes the roll-up `PlanCosts.Aggregate` |
| Planner.DecomposeLinear | jarvis_planner.py:585-606 | three step goals under fresh ids are added in order and become the goal's children, and the goal becomes Linear |
| Planner.AddSteps | jarvis_planner.py:589-600 | the loop adds step `i` under `ids[i]` and appends it to the parent's children, for the three steps |
| Planner.CopyPattern | jarvis_planner.py:676-677 | the copy from the pattern's root uses exactly `TreeSize` fresh ids, and exists iff the root exists |
| Planner.GoalPlanner.constructor | jarvis_planner.py:515-529 | a planner starts with no active plans and an empty pattern library |
| Planner.GoalPlanner.CreatePlan | jarvis_planner.py:537-554 | the new plan holds only its root goal (stamped with the plan id) and is registered as active; the library is unchanged |
| Planner.GoalPlanner.DecomposeGoal | jarvis_planner.py:556-606 | nothing for a missing goal; the present children of an already decomposed goal; three OneShot steps under a childless goal for "linear", which becomes Linear; nothing for other strategies |
| Planner.GoalPlanner.ExecuteGoal | jarvis_planner.py:728-761 | a missing goal fails with "Goal not found" and nothing changes; otherwise the goal is updated as `PlannerLeaf` says and the outcome reports that |
| Planner.GoalPlanner.ExecuteGoalTree | jarvis_planner.py:793-831 | the result and the goal table are those of `PlanTree.Walk` with `PlannerLeaf`, so the Linear, Branching and Parallel lemmas hold of it |
| Planner.GoalPlanner.RunLinear | jarvis_planner.py:808-813 | the Linear loop computes `Siblings` in Linear mode |
| Planner.GoalPlanner.RunBranching | jarvis_planner.py:815-820 | the Branching loop computes `Siblings` in Branching mode |
| Planner.GoalPlanner.BranchingChild | jarvis_planner.py:816-819 | one round of the Branching loop either ends it with a success or keeps the loop invariant |
| Planner.GoalPlanner.RunParallel | jarvis_planner.py:822-827 | the Parallel loop computes `Siblings` in Parallel mode |
| Planner.GoalPlanner.ParallelChild | jarvis_planner.py:823-826 | one round of the Parallel loop keeps the loop invariant |
| Planner.GoalPlanner.ExecutePlan | jarvis_planner.py:763-791 | the plan ends Completed or Failed as the walk says, keeping its id, root, description and totals; a failure leaves the score, signature, tags and the library alone; a success stores the score and saves the plan in the library under its signature |
| Planner.GoalPlanner.SaveAsPattern | jarvis_planner.py:685-710 | saving succeeds iff the plan succeeded with a score of at least 0.7; a refusal changes nothing; a save stores the signature and tags and puts the plan in the library under its signature |
| Planner.GoalPlanner.FindSimilarPatterns | jarvis_planner.py:610-632 | the plan's signature is computed and stored, every other field of the plan and the planner's library and active plans are kept, and the result is the stably sorted candidates with that signature |
| Planner.GoalPlanner.ApplyPattern | jarvis_planner.py:634-683 | the result is true iff the pattern's root exists; then the copied tree is added under fresh ids, its root becomes the plan's root and the plan adopts the pattern's signature; otherwise nothing changes |
| Planner.GoalPlanner.AnalyzeCosts | jarvis_planner.py:841-861 | the result is the roll-up of the plan's goals in table order, it is stored as the plan's total cost, and every other field of the plan and the planner's library and active plans are kept |
| Planner.SuccessAlwaysPromoted | jarvis_planner.py:763-791 | every successful completed plan scores at least 0.7, so `execute_plan` always offers it to the library |
| PlanningOrchestration.ShouldPlanIgnoresCase | planning_orchestrator.py:61-109 | the planning decision does not depend on letter case |
| PlanningOrchestration.IntentOnlyMattersForConjunctions | planning_orchestrator.py:84-107 | two intents can disagree only on a request containing " and " without a planning keyword, and only when exactly one of them is conversation, crud_read or query |
| PlanningOrchestration.PlanMyWeek | planning_orchestrator.py:77-86 | a planning keyword wins even when the request mentions the user's own data ("Plan my week") |
| PlanningOrchestration.OneShotCount | planning_orchestrator.py:711-712 | the number of OneShot goals never exceeds the number of goals |
| PlanningOrchestration.EstimatePlanCosts | planning_orchestrator.py:702-730 | steps and API calls are the OneShot count, tokens are 500 per step, the plan is high risk iff there are more than five steps, and the summary reads "N steps, ~N API calls" |
| PlanningOrchestration.OnlyOneShotsCount | planning_orchestrator.py:711-722 | goals of other kinds never change the estimate or make a plan risky |
| PlanningOrchestration.AllOneShots | planning_orchestrator.py:711-712 | a plan made only of OneShot goals counts one step per goal |
| PlanningOrchestration.RiskBoundary | planning_orchestrator.py:719-722 | six OneShot goals make a plan high risk; five do not |
| PlanningOrchestration.Present | planning_orchestrator.py:695-698 | only the listed children present in the plan are summarised |
| PlanningOrchestration.SummaryLines | planning_orchestrator.py:695-698 | one line per present child, numbered by its 1-based position in the whole child list, so every present child has its line |
| PlanningOrchestration.SummaryLinesInOrder | planning_orchestrator.py:695-698 | the lines follow the child list in order: the lines of a concatenation are those of each part in turn, numbered on by the first part's length, and a single child gives "  n. description" when present and no line otherwise; together these fix the k-th line as that of the k-th present child |
| PlanningOrchestration.FormatPlanSummary | planning_orchestrator.py:688-700 | the placeholder "(No steps defined)" is returned iff the root is missing or has no present child, and otherwise the summary is the lines of the root's children joined by newlines |
| PlanningOrchestration.FirstMatch | planning_orchestrator.py:621-624 | the action word cut off is the first in list order that the text starts with; none before it matches |
| PlanningOrchestration.QueryWith | planning_orchestrator.py:615-633 | the query neither starts nor ends with a space or with . , ! ? |
| PlanningOrchestration.ExtractSearchQuery | planning_orchestrator.py:603-633 | the loop computes the query the functional definition gives |
| PlanningOrchestration.QueryIsSlice | planning_orchestrator.py:615-633 | the query is a contiguous piece of the lower-cased description: nothing is added or rewritten |
| PlanningOrchestration.LongestMatchWins | planning_orchestrator.py:621-624 | in a list where no word begins with an earlier one, the word cut off is the longest the text starts with |
| PlanningOrchestration.PhraseShadowed | planning_orchestrator.py:617-619 | as written, "research" comes before "research and compare", which begins with it |
| PlanningOrchestration.CorrectedOrderUnshadowed | planning_orchestrator.py:617-619 | with "research and compare" moved first, no action word begins with an earlier one |
| PlanningOrchestration.CorrectedStripsLongest | planning_orchestrator.py:617-624 | with the corrected order, the longest action word the description starts with is always the one cut off |
| PlanningOrchestration.ResearchAndCompareKept | planning_orchestrator.py:617-624 | as written, a request starting with "research and compare" keeps "and compare" in its query |
| PlanningOrchestration.ResearchAndCompareStripped | planning_orchestrator.py:617-624 | with the longest action word tried first, the same request loses the whole phrase |
| PlanningOrchestration.ExecutorLeaf | planning_orchestrator.py:593-594 | the executor's outcome is recorded on the goal, which becomes Completed on success and Failed otherwise |
| PlanningOrchestration.PlanningOrchestrator.constructor | planning_orchestrator.py:34-59 | every counter starts at zero over the given planner |
| PlanningOrchestration.PlanningOrchestrator.GetStats | planning_orchestrator.py:732-747 | the counters are reported as they are, the success rate is succeeded/executed and the reuse rate applied/created (0 when undefined), and both lie in [0, 1] |
| PlanningOrchestration.PlanningOrchestrator.ExecuteSingleGoal | planning_orchestrator.py:463-601 | a missing goal fails with "Goal not found" and nothing changes; otherwise the executor's outcome is recorded as `ExecutorLeaf` says |
| PlanningOrchestration.PlanningOrchestrator.ExecuteGoalTree | planning_orchestrator.py:413-461 | the result and goal table are those of `PlanTree.Walk` with OneShot goals delegated to the executor |
| PlanningOrchestration.PlanningOrchestrator.RunLinear | planning_orchestrator.py:441-445 | the Linear loop computes `Siblings` in Linear mode |
| PlanningOrchestration.PlanningOrchestrator.RunBranching | planning_orchestrator.py:448-452 | the Branching loop computes `Siblings` in Branching mode |
| PlanningOrchestration.PlanningOrchestrator.BranchingChild | planning_orchestrator.py:449-451 | one round of the Branching loop either ends it with a success or keeps the loop invariant |
| PlanningOrchestration.PlanningOrchestrator.RunParallel | planning_orchestrator.py:455-459 | the Parallel loop computes `Siblings` in Parallel mode |
| PlanningOrchestration.PlanningOrchestrator.ParallelChild | planning_orchestrator.py:457-458 | one round of the Parallel loop keeps the loop invariant |
| PlanningOrchestration.PlanningOrchestrator.ExecutePlan | planning_orchestrator.py:374-411 | the plan is run as `RunPlan` says, the execution is counted, and exactly one of the succeeded and failed counters goes up |
| PlanningOrchestration.RunPlan | planning_orchestrator.py:388-409 | the walk's result and goal table are kept; the plan ends Completed or Failed; a success stores the score and saves the plan in the library under its signature, and a failure changes neither |
| PlanningOrchestration.PlanningOrchestrator.CreatePlanFromScratch | planning_orchestrator.py:257-334 | without an answer, a one-goal plan whose OneShot root prompts with the request; with a usable answer, a root of the answer's kind over one goal per step in order; otherwise the first exception building it raises; a created plan is acyclic and registered as active |
| PlanningOrchestration.StepsProblem | planning_orchestrator.py:305-309 | building the steps raises nothing iff every step has a description and a known kind |
| PlanningOrchestration.ScratchStep | planning_orchestrator.py:306-317 | a step's goal is a childless goal under the root, of the step's kind ("one_shot" by default) |
| PlanningOrchestration.AddScratchSteps | planning_orchestrator.py:305-320 | the step loop either raises the first step's exception or adds every step's goal in order under the root |
| PlanningOrchestration.AddStep | planning_orchestrator.py:306-320 | one pass adds step `i`'s goal and lists it as the root's next child |
| PlanningOrchestration.Extended | planning_orchestrator.py:319-320 | after step `i` is added, the first `i + 1` steps are in the plan |
| PlanningOrchestration.StepsExtended | planning_orchestrator.py:319-320 | after step `i` is added, every earlier step's goal is unchanged and the root lists the first `i + 1` |
| PlanningOrchestration.CompleteRoot | planning_orchestrator.py:322-328 | the overall time estimate and the risks are written to the root, which completes the plan the answer describes |
| PlanningOrchestration.Finished | planning_orchestrator.py:322-328 | adding the overall estimates to the root completes the goal table |
| PlanningOrchestration.FromScratchRanked | planning_orchestrator.py:295-320 | a plan built from scratch is a root over childless steps, hence acyclic |
| PlanningOrchestration.ApprovalState.constructor | planning_orchestrator.py:159-173 | the scheduler's pending approvals and active plans start empty, so every approval is filed under its plan's id (`KeyedByPlan`) |
| PlanningOrchestration.PlanningOrchestrator.LookupPatterns | planning_orchestrator.py:128-130 | the lookup skeleton is registered as an active plan and the matches are the library entries with the skeleton's signature, best first; the library is not changed |
| PlanningOrchestration.MatchInLibrary | planning_orchestrator.py:128-134 | every match of the lookup is a library entry whose stored signature is that of a childless Linear root |
| PlanningOrchestration.SortedFrom | jarvis_planner.py:630 | every sorted match comes from the unsorted list |
| PlanningOrchestration.PlanningOrchestrator.PlanFromPattern | planning_orchestrator.py:138-145 | a new plan whose first root is a Linear goal for the request; the pattern is copied under the fresh ids, its copy becomes the root with the pattern's signature and shape, and the first root stays with no children |
| PlanningOrchestration.CopiesFromSpare | planning_orchestrator.py:138-145 | the copies are exactly the goals added after the first root |
| PlanningOrchestration.CopiedRootShape | planning_orchestrator.py:144-145 | the copy of the pattern's root has the pattern's shape |
| PlanningOrchestration.OrphanRootRanked | planning_orchestrator.py:138-145 | the copied plan together with its childless first root is acyclic |
| PlanningOrchestration.PlanningOrchestrator.PlanFromBestMatch | planning_orchestrator.py:132-147 | the pattern copied is that of the first, best-scored match: its reachable goals are copied in preorder under the fresh ids after a Linear root for the request, the copy adopts that pattern's root and signature, and the new acyclic plan is registered while the library stays as it was |
| PlanningOrchestration.PlanningOrchestrator.CreatePlanFor | planning_orchestrator.py:128-151 | the pattern branch is taken iff the lookup found a match, and then the plan is the copy of the best match's pattern; building fails iff there is no match and the answer raises, with that exception; otherwise a new acyclic plan for the request |
| PlanningOrchestration.PlanningOrchestrator.ApproveOrExecute | planning_orchestrator.py:153-176 | the reply awaits approval iff the estimate is high risk: then the plan is parked under its id with task, terminal and estimate and nothing runs; otherwise it is recorded as that task's active plan and run; either way a table whose approvals are filed under their plans' ids (`KeyedByPlan`) stays so |
| PlanningOrchestration.PlanningOrchestrator.HandleWithPlanning | planning_orchestrator.py:113-244 | the plan is counted; a pattern application is counted iff a match was found; an exception is raised only from scratch; a high-risk plan is parked for approval and any other plan is executed and ends Completed or Failed; a table whose approvals are filed under their plans' ids stays so |
| Scheduler.PriorityValue | jarvis_core.py:41-48 | every priority's number lies between 0 (INTERRUPT) and 5 (BACKGROUND) |
| Scheduler.PriorityOf | jarvis_core.py:107 | a number read back as a priority is that priority's number; anything else is refused, as `Priority(x)` raises |
| Scheduler.PriorityOfValue | jarvis_core.py:41-48 | every priority is read back from its own number (round trip) |
| Scheduler.Task.constructor | jarvis_core.py:71-87 | a new task keeps its content, terminal, priority, context and deadline, is created now with no attempts, and gets the twenty-digit timestamp as its id when none (or an empty one) is given, so ids are never empty |
| Scheduler.Task.FromRecord | jarvis_core.py:103-114 | a task built from a decoded record holds exactly that record |
| Scheduler.LessTransitive | jarvis_core.py:116-120 | `__lt__` (priority first, then creation time) is transitive |
| Scheduler.LessIrreflexive | jarvis_core.py:116-120 | no task is before itself |
| Scheduler.Decode | jarvis_core.py:103-114 | a record decodes only when content, terminal, priority and creation time are present, and a decoded record can be written back with a non-empty id |
| Scheduler.DecodeDeadlineField | jarvis_core.py:90-114 | an encoded deadline (or None) decodes to the record's own |
| Scheduler.DecodeOptionalFields | jarvis_core.py:92-113 | the encoded id, context and attempts decode to the record's own |
| Scheduler.DecodeRequiredFields | jarvis_core.py:93-112 | the encoded content, terminal, priority and creation time decode to the record's own |
| Scheduler.RoundTrip | jarvis_core.py:90-114 | `from_dict(to_dict(t))` gives back every field: id, content, terminal, priority, context, deadline, creation time and attempts |
| Scheduler.TaskRoundTrip | jarvis_core.py:90-114 | a task's own dictionary decodes back to that same task |
| Scheduler.Position | jarvis_core.py:665-668 | the stable sort puts a new task after every queued task that is not after it, and before the first one that is |
| Scheduler.InsertSorted | jarvis_core.py:665-668 | inserting into a sorted queue keeps it sorted |
| Scheduler.InsertStable | jarvis_core.py:665-668 | the new task lands behind every task not after it and ahead of every task after it, and the other tasks keep their order (FIFO among equal keys) |
| Scheduler.InsertPermutes | jarvis_core.py:665-668 | insertion adds the new task and loses nothing |
| Scheduler.SortedIsFixed | jarvis_core.py:668 | a sorted queue is its own stable sort |
| Scheduler.AppendThenSort | jarvis_core.py:667-668 | appending then sorting a sorted queue is inserting the new task at its stable position |
| Scheduler.DefaultPriority | jarvis_core.py:1217-1223 | input without a priority is queued as SYSTEM from the system terminal, as EVENT from a device, and as USER otherwise |
| Scheduler.FirstPendingIn | jarvis_core.py:770-773 | the answer goes to the first pending approval in insertion order raised from the same terminal; none exists when no entry is from it |
| Scheduler.FirstPending | jarvis_core.py:769-773 | the entry found is pending and from the terminal, and none is found iff no entry is from it |
| Scheduler.AnswerWithdrawsOwnOnly | jarvis_core.py:766-831 | with approvals filed under their plans' ids, the answered entry is found under its own plan id, withdrawing it removes exactly that key, and every other terminal's entries stay |
| Scheduler.JarvisCore.constructor | jarvis_core.py:128-180 | the core starts initialising with an empty queue, no terminals or contexts, no analysis terminal, nothing processed, and no pending approvals or active plans |
| Scheduler.JarvisCore.Enqueue | jarvis_core.py:665-671 | the queue is the stable sort of the old queue plus the new task, which is inserting it at its stable position; it gains exactly the new task and nothing else changes |
| Scheduler.JarvisCore.Dequeue | jarvis_core.py:673-677 | None on an empty queue; otherwise the head is removed and returned, and no queued task was before it |
| Scheduler.JarvisCore.RegisterTerminal | jarvis_core.py:1186-1200 | the terminal is (re)recorded as connected, and a new one gets an empty context while an existing context is kept |
| Scheduler.JarvisCore.ReceiveFromTerminal | jarvis_core.py:1210-1232 | nothing is queued for an unknown terminal; otherwise a new task with the content, the given or default priority and the terminal's type as context is inserted at its stable position |
| Scheduler.JarvisCore.GenerateSelfTask | jarvis_core.py:679-717 | the thought is the fixed one without a prompt manager, the model's `task` (default "Reflect on my existence") on a successful parsed answer, and the review fallback otherwise; it is queued as a BACKGROUND self-reflection task from terminal 0, and terminal 0 remembers it as its last self-task and among its ten most recent thoughts |
| Scheduler.JarvisCore.RememberThought | jarvis_core.py:712-717 | only terminal 0's context changes, to remember the thought |
| Scheduler.JarvisCore.RecordExchange | jarvis_core.py:1285-1292 | a known terminal's history gains the exchange and keeps only the last fifty; an unknown terminal's context is not created |
| Scheduler.JarvisCore.AnswerApproval | jarvis_core.py:765-831 | a yes-word with a pending approval from the terminal withdraws it, records the approved plan as active and executes the plan; a no-word withdraws the terminal's first entry and confirms; anything else goes on unchanged to the pipeline; a table whose approvals are filed under their plans' ids stays so |
| Scheduler.JarvisCore.ProcessTask | jarvis_core.py:721-756 | the attempt is counted; "analysis" enters analysis mode for administrators only; the analysis terminal's input goes to analysis commands; neither of those counts as processed; every other task is counted as processed and clears the current task, terminal 0's silently, except when the pending-approval lookup raises `KeyError`, where the task is not counted and stays current; with a prompt manager the approval check runs as `ApprovalAnswered` states |
| Scheduler.JarvisCore.ProcessOrdinary | jarvis_core.py:740-756 | a task that completes is counted and the current task cleared, while one whose approval lookup raises leaves both as they were; terminal 0 gets no reply; without a prompt manager the reply is the initialising text; otherwise the pending and active tables and the reply are those of the approval check (`ApprovalAnswered`, jarvis_core.py:765-831) |
| Scheduler.AppendBounded | jarvis_core.py:714-715 | the bounded list keeps at most `n` entries and ends with the new one; under the bound nothing is dropped |
| Scheduler.AppendBoundedSuffix | jarvis_core.py:1285-1292 | the bounded list is the newest suffix of the full one, of length min(old length + 1, n) |
| Scheduler.SelfTaskContext | jarvis_core.py:712-716 | the thought becomes the last self-task and the newest of at most ten recent thoughts, and the history is kept |
| DateTimes.NextDay | jarvis_core.py:193 | adding a day fails exactly on 9999-12-31; otherwise the result is a valid date one ordinal later at the same time of day |
| DateTimes.PrevDay | jarvis_core.py:195 | subtracting a day fails exactly on 0001-01-01; otherwise the result is one ordinal earlier at the same time of day |
| DateTimes.AddDays | jarvis_core.py:204 | a shift by `n` days that succeeds lands `n` ordinals later at the same time of day |
| DateTimes.AddDaysInRange | jarvis_core.py:204 | below the last year a shift of up to a week never overflows |
| DateTimes.IsoFormat | jarvis_core.py:242 | `isoformat()` writes 19 characters, or 26 when there are microseconds |
| DateTimes.Stamp | jarvis_core.py:80 | the timestamp id has exactly twenty characters |
| DateTimes.ParseIso | jarvis_core.py:208 | a date read by `fromisoformat` is a valid calendar date and time |
| DateTimes.ParseIsoFormat | jarvis_core.py:208-242 | `fromisoformat(isoformat(t)) == t` |
| DateTimes.MinuteForm | jarvis_core.py:208 | the minute form `YYYY-MM-DDTHH:MM` reads back with zero seconds |
| DateTimes.DaysAhead | jarvis_core.py:199-203 | the days to the named weekday are 1 to 7, never 0, and land on that weekday |
| DateTimes.NextWeekday | jarvis_core.py:196-204 | the next occurrence of a weekday is a valid date |
| DateTimes.ResolveDate | jarvis_core.py:186-210 | the resolved date is valid (None where the day arithmetic overflows) |
| DateTimes.IsoDateResolves | jarvis_core.py:205-208 | text that is neither a relative day nor a weekday name and reads as an ISO date resolves to exactly that date |
| DateTimes.ApplyTime | jarvis_core.py:212-240 | a readable time whose hour is 0-23 and minute 0-59 replaces hour and minute and zeroes seconds and microseconds; an absent, empty, unreadable or out-of-range time leaves the date as it was |
| DateTimes.ParseDateTime | jarvis_core.py:182-242 | a result exists iff the date resolves, and reading it back gives the resolved date with the time applied |
| DateTimes.NextWeekdayLands | jarvis_core.py:196-204 | the next named weekday is 1 to 7 days ahead, on that weekday, at the same time of day |
| DateTimes.AddDaysWeekday | jarvis_core.py:204 | moving `n` days moves the weekday `n` places round the week |
| DateTimes.WeekdayAhead | jarvis_core.py:196-204 | a weekday name, in any case, moves 1 to 7 days ahead onto that weekday at the same time of day |
| DateTimes.RelativeDays | jarvis_core.py:190-195 | today, tomorrow and yesterday move 0, +1 and -1 days and keep the time of day |
| DateTimes.UnknownDateIsNow | jarvis_core.py:205-210 | text that is neither a relative day, a weekday nor an ISO date falls back to now |
| DateTimes.ParseIntOfNat | jarvis_core.py:224 | `int(str(n)) == n` |
| DateTimes.TwelveHourClock | jarvis_core.py:217-230 | "<h>pm" gives h + 12 except 12pm stays 12, and "<h>am" gives h except 12am is 0, with minute 0 |
| DateTimes.PmClock | jarvis_core.py:217-230 | digits followed by "pm" read as the afternoon hour |
| DateTimes.AmClock | jarvis_core.py:217-230 | digits followed by "am" read as the morning hour |
| InteractionClassifier.ExtractChoices | jarvis-web/backend/interaction_classifier.py:359-378 | with numbered items the first five of them, else with bullet items the first five of those, each the text after its marker and spaces up to the end of its line; else the two sides of the first `X or Y` in the text, which stand in it separated by spaces, `or` and spaces; else nothing |
| InteractionClassifier.FirstAmountAt | jarvis-web/backend/interaction_classifier.py:350 | the search for `$` followed by an amount finds the leftmost position where one starts, and none exists when it reports nothing |
| InteractionClassifier.ExtractAmount | jarvis-web/backend/interaction_classifier.py:348-357 | an extracted amount is never negative, and text without a dollar sign has no amount |
| InteractionClassifier.ExtractAmountWithin | jarvis-web/backend/interaction_classifier.py:348-357 | whatever text (without `$`) precedes the first `$` and whatever follows the digits (not another digit, comma or `.dd`), `$` and the digits of n read as exactly n |
| InteractionClassifier.ExtractAmountWithCents | jarvis-web/backend/interaction_classifier.py:348-357 | `$`, the digits of n and `.dd` after the first `$` read as n dollars plus dd cents, whatever precedes and follows |
| InteractionClassifier.CommasThenCents | jarvis-web/backend/interaction_classifier.py:350-354 | the digit group may be commas only, so `$,.50` reads as 0.50 once the commas are removed |
| InteractionClassifier.CommasOnlyIsNoAmount | jarvis-web/backend/interaction_classifier.py:350-356 | `$,,` matches the pattern but leaves an empty string that does not parse as a number, so there is no amount |
| InteractionClassifier.ExtractAmountOfDollars | jarvis-web/backend/interaction_classifier.py:348-357 | `$` followed by the decimal digits of n reads back as exactly n |
| InteractionClassifier.Classify | jarvis-web/backend/interaction_classifier.py:89-130 | for every text: an explicit answer is required exactly when there is no timeout; a critical question always requires one and carries a disclaimer; a question with no default is an explicit confirmation; a choice offers one to five actions; every timeout is 30 s, 1 min or 2 min; each branch's full result is stated by the Grades lemmas below |
| InteractionClassifier.MedicalGrades | jarvis-web/backend/interaction_classifier.py:105-106 | a medical text, whatever else it mentions, is a critical confirmation with no timeout and no default, the medical disclaimer, warning level "critical", domain "medical" and its two actions |
| InteractionClassifier.LegalGrades | jarvis-web/backend/interaction_classifier.py:111-112 | a legal text that is neither medical nor financial is a critical confirmation with the legal disclaimer, domain "legal" and its three actions |
| InteractionClassifier.DestructiveGrades | jarvis-web/backend/interaction_classifier.py:254-265 | a destructive text outside the earlier domains is a high-risk confirmation with no timeout or default, the irreversibility disclaimer, warning level "high" and its two actions |
| InteractionClassifier.ApprovalGrades | jarvis-web/backend/interaction_classifier.py:267-293 | an approval request is medium with 2 min to "cancel" and three actions when it mentions a step or API-call count, otherwise low with 1 min to "yes" and Yes/No |
| InteractionClassifier.InformationGrades | jarvis-web/backend/interaction_classifier.py:295-318 | an information request is low with 30 s to "skip", Submit/Skip, and its input type as domain |
| InteractionClassifier.ChoiceGrades | jarvis-web/backend/interaction_classifier.py:320-333 | a choice request is low with 1 min to "first" and offers the extracted choices, or the three stock options when none are found |
| InteractionClassifier.OpenEndedGrades | jarvis-web/backend/interaction_classifier.py:335-344 | text that passes no test is open-ended: medium with 2 min to "skip" and Submit/Skip |
| InteractionClassifier.MedicalBeatsDestructive | jarvis-web/backend/interaction_classifier.py:105-115 | the tests apply first match first: "delete surgery" is destructive but classified as critical and medical |
| InteractionClassifier.FinancialRiskMonotone | jarvis-web/backend/interaction_classifier.py:206-225 | a larger amount never gets a lower financial risk grade |
| InteractionClassifier.FinancialGrades | jarvis-web/backend/interaction_classifier.py:200-236 | a financial (non-medical) text is an approval with the extracted amount: critical with no timeout and a disclaimer from $1000, high with no timeout from $100, otherwise medium with a two-minute timeout; the default is `cancel` exactly when an explicit answer is required, `ask_again` otherwise |
| InteractionHandling.DefaultResponse | jarvis-web/backend/interaction_handler.py:227-246 | yes gives action yes with value true and no gives no with false; skip and cancel give their own action with no value; `first` gives a choice of the first suggested action, or skip when there is none; any other default (including none and `ask_again`) gives `continue` with no value, and a choice arises in no other way |
| InteractionHandling.IdForInjective | jarvis-web/backend/interaction_handler.py:115-116 | two counter values never yield the same `interaction_<n>` id, so a fresh interaction never overwrites a pending one |
| InteractionHandling.PendingInteraction.constructor | jarvis-web/backend/interaction_handler.py:24-40 | a new interaction keeps its ids, question, classification and creation time, with an unsettled future and no timer |
| InteractionHandling.PendingInteraction.SetResponse | jarvis-web/backend/interaction_handler.py:42-47 | only the first settlement counts: an unsettled interaction becomes answered and its armed timer is cancelled; a settled one is left exactly as it was |
| InteractionHandling.PendingInteraction.Cancel | jarvis-web/backend/interaction_handler.py:49-53 | an unsettled interaction becomes cancelled and its armed timer is cancelled; a settled one is left as it was |
| InteractionHandling.PendingInteraction.HandleTimeout | jarvis-web/backend/interaction_handler.py:200-225 | a timer that fires on an unsettled question with a non-zero timeout answers it with the default response; its own timer is then stopped; an earlier answer is never replaced, and a cancelled or absent timer, or a question without a timeout, changes neither the answer nor the timer |
| InteractionHandling.InteractionHandler.constructor | jarvis-web/backend/interaction_handler.py:62-73 | the handler starts with no pending interactions, no plan modes and a zero counter |
| InteractionHandling.InteractionHandler.SetExecutionMode | jarvis-web/backend/interaction_handler.py:181-184 | the plan's mode is overwritten and nothing else changes |
| InteractionHandling.InteractionHandler.AskUser | jarvis-web/backend/interaction_handler.py:75-140 | in autonomous mode a non-critical question, and in supervised mode a low or medium one, is answered at once with its default and the table is untouched; otherwise the counter advances, a fresh interaction under a new id joins the end of the pending table with the question's classification, and its timer is armed exactly when the classification has a non-zero timeout |
| InteractionHandling.InteractionHandler.Finish | jarvis-web/backend/interaction_handler.py:142-152 | once settled, the caller gets the answer, or None for a cancelled question, and the interaction leaves the pending table |
| InteractionHandling.InteractionHandler.SubmitResponse | jarvis-web/backend/interaction_handler.py:154-179 | a response is accepted exactly when the id is pending; it answers the interaction and cancels its armed timer unless it had already settled, in which case answer and timer are kept; the pending table, counter and modes are unchanged |
| InteractionHandling.InteractionHandler.GetPendingInteraction | jarvis-web/backend/interaction_handler.py:186-191 | returns the first pending interaction, in insertion order, of the plan, and None only when the plan has none |
| InteractionHandling.InteractionHandler.GetPendingInteractionByUser | jarvis-web/backend/interaction_handler.py:193-198 | returns the first pending interaction, in insertion order, for the user, and None only when the user has none |
| InteractionHandling.ExplicitNeverDefaultsToYes | jarvis-web/backend/interaction_handler.py:227-246 | a question that demands an explicit answer defaults to `cancel` or `continue`, never to an affirmative answer |
| InteractionHandling.YesOnlyForLowRisk | jarvis-web/backend/interaction_handler.py:227-246 | a default of `yes` comes only from a low-risk question with a one-minute timeout |
| IntentClassification.QuickClassify | intent_classifier.py:120-185 | whenever the quick rules decide, the intent is never `unclear`, the suggested handler is the intent's own, and the confidence is at least 0.7 |
| IntentClassification.GreetingBeforeQuestion | intent_classifier.py:130-147 | any non-command input that starts with a greeting is chat at 0.95, even when it is also phrased as a question |
| IntentClassification.TaskDecomposition | intent_classifier.py:158-172 | a quick `task` answer starts with a task verb and needs decomposition exactly when the input has more than ten words or contains ` and ` or ` then ` |
| IntentClassification.QuickDefers | intent_classifier.py:120-185 | the quick rules hand over to the model exactly when the input is no command, no greeting, no simple question, starts with no task verb and is not a short chat line |
| IntentClassification.QuickIsConfident | intent_classifier.py:120-185 | a quickly classified input is always confident at the default 0.7 threshold and never needs clarification |
| IntentClassification.IntentOfName | intent_classifier.py:266-274 | a recognised name maps back to its intent, and every other name maps to `unclear` |
| IntentClassification.ParseClassification | intent_classifier.py:259-297 | the reply parses exactly when its `intent` entry (default "unclear") is a string, which then decides the intent case-insensitively, with the handler that intent calls for |
| IntentClassification.UnknownIntentIsUnclear | intent_classifier.py:266-287 | an unrecognised intent name gives `unclear`, routed to the chat handler |
| IntentClassification.LlmClassify | intent_classifier.py:187-215 | a failed or empty model reply yields nothing, and any result carries the handler of its intent |
| IntentClassification.Outcome | intent_classifier.py:82-118 | whichever path decides (quick rules, model or fallback), the suggested handler is the intent's own |
| IntentClassification.OutcomeSources | intent_classifier.py:82-118 | the quick rules, when they decide, win; with no quick and no model answer the result is `unclear` at confidence 0 and needs clarification; an `unclear` result never comes from the quick rules and goes to chat |
| IntentClassification.OnlyModelRaises | intent_classifier.py:82-118 | a confidence the statistics cannot compare can only come from a model reply, never from the quick rules or the fallback |
| IntentClassification.IsConfident | intent_classifier.py:372-374 | defined exactly when the confidence is a number, and true exactly when it reaches the threshold |
| IntentClassification.NeedsClarification | intent_classifier.py:376-381 | an `unclear` result always needs clarification; otherwise the answer is defined exactly when the confidence is a number, and it is true exactly when the intent is `unclear` or the confidence is below 0.5 |
| IntentClassification.IntentClassifier.constructor | intent_classifier.py:64-80 | all counters start at zero with an empty per-intent map and history |
| IntentClassification.IntentClassifier.UpdateStats | intent_classifier.py:323-347 | the total and the intent's own count rise by one; a numeric confidence of at least 0.8 counts as high, below 0.5 as low, and the entry is appended to a history that keeps its last 100 entries; a non-numeric confidence raises after the counts and leaves the rest unchanged |
| IntentClassification.IntentClassifier.Classify | intent_classifier.py:82-118 | the statistics are updated exactly once, for the outcome of the quick rules, the model or the fallback: the total and that intent's count rise by one, the high/low counters and the bounded history move as in `_update_stats`, and nothing else moves when the confidence is not numeric; the result is that outcome unless updating raises |
| IntentClassification.IntentClassifier.GetStats | intent_classifier.py:349-364 | with no classifications the answer is the error; otherwise the total and per-intent counts are reported as kept, the high and low rates are those counts' shares of the total (rate times total is the count), they sum to at most one, and the average confidence times the history length is the sum of the recorded confidences (0 for an empty history) |
| IntentHandling.IntentHandlers.constructor | intent_handlers.py:35-59 | statistics start at zero with no per-intent counts |
| IntentHandling.IntentHandlers.Route | intent_handlers.py:64-107 | every call is counted, under its intent, whether or not a handler exists; an unknown intent gets the "not sure" reply, a handler's reply is passed through, and only a handler that raises counts as a failure and yields the trouble message |
| IntentHandling.IntentHandlers.SuccessRate | intent_handlers.py:529-538 | the success rate lies between 0 and 1 and, once something was handled, times the number handled gives the number of successes; it is 1 when nothing failed and 0 when nothing was handled or every call failed |
| IntentHandling.JoinDateTime | intent_handlers.py:509-527 | without a time the date is returned unchanged; with one the result is the date, one space and the time |
| IntentHandling.CrudCreate | intent_handlers.py:111-204 | the "memory not initialized" reply comes exactly when there is no memory store; an input of at most two words without details is exactly the case that asks whether to look up or create, naming the first word, and stores nothing; a contact is saved only with a name, under that name, and refused exactly when the name is missing; an event is saved only with a title and a start that begins with the given date, and refused exactly when either is missing; any other type becomes a note titled by the title, the name or the first 50 characters, whose content is the given content or the input |
| IntentHandling.CrudCreateStores | intent_handlers.py:133-204 | once memory is available and the input is not taken for a lookup, a contact is stored exactly when it has a name (and then under it), an event exactly when it has a title and a date, and every other type is stored as a note |
| IntentHandling.FirstPossessive | intent_handlers.py:238-241 | the index of the first word containing `'s` or `s'`, and none only when no word does |
| IntentHandling.FirstPossessiveIs | intent_handlers.py:238-241 | a possessive word preceded by none is the one the loop stops at |
| IntentHandling.LastUncommon | intent_handlers.py:236-245 | the last word that is not a common word, and none only when all are common |
| IntentHandling.PotentialNames | intent_handlers.py:236 | filtering keeps at most as many names as there were words |
| IntentHandling.PotentialNamesLast | intent_handlers.py:236-245 | the potential names are empty exactly when every word is common, and otherwise the last one is the last uncommon word stripped of punctuation |
| IntentHandling.Identifier | intent_handlers.py:217-245 | a given identifier that is neither empty nor a list word is kept as it is |
| IntentHandling.ExtractIdentifier | intent_handlers.py:217-245 | the imperative identifier steps of `handle_crud_read` compute the identifier that its specification defines |
| IntentHandling.FindOwner | intent_handlers.py:238-241 | the possessive loop yields the cleaned owner of the first possessive word, or nothing without one |
| IntentHandling.PossessiveWins | intent_handlers.py:238-245 | with no given identifier, the first possessive word decides unless nothing is left of it once cleaned |
| IntentHandling.LastMeaningfulWord | intent_handlers.py:244-245 | without a possessive word the identifier is the last uncommon word stripped of punctuation, or empty when every word is common |
| IntentHandling.NameInWithoutPossessive | intent_handlers.py:236-245 | without a possessive word the name comes from the last uncommon word alone |
| IntentHandling.FirstSet | intent_handlers.py:299-303 | the field value found is the value of the first tried key that is set, and it is empty exactly when every tried key is empty |
| IntentHandling.CardEntries | intent_handlers.py:313-322 | the card lists exactly the present fields among the card's keys, each with its own value, and never more entries than keys |
| IntentHandling.CardEntriesInOrder | intent_handlers.py:313-322 | the card keeps the order of its keys: a key gives its entry when the field is set and nothing otherwise, and the entries of a concatenation are those of each part in turn |
| IntentHandling.ReadContact | intent_handlers.py:264-339 | listing all contacts gives "none", every contact with its phone up to ten, or the count and the first ten names beyond; a named lookup with no match is exactly the no-match reply, several matches show at most five, each as its full line of name, company and phone, with the rest counted, and a single match gives a field value, a missing field or the card; a field answer is never empty and never for a whole-card field |
| IntentHandling.CrudRead | intent_handlers.py:206-258 | the "memory not initialized" reply comes exactly when there is no memory store; otherwise the record type (default contact) picks the contact, calendar or note reader, each given the identifier `Identifier` settles on, the contact reader also the asked field (default "all"), and any other type is refused |
| IntentHandling.ReadDefaultsToCard | intent_handlers.py:217-250 | a read naming no type and no field, for a given identifier with one match, shows that contact's whole card |
| PromptAnalysis.CurrentIn | prompt_analyzer.py:367-373 | a runtime override wins over the boot prompt, and there is no prompt exactly when neither has the id |
| PromptAnalysis.VersionIn | prompt_analyzer.py:375-378 | a missing prompt, and a prompt without a `version` entry, are version 1; a prompt with a `version` entry reports that entry |
| PromptAnalysis.Refusal | prompt_analyzer.py:59-66 | a missing prompt is refused as not found, a present one as immutable exactly when its flag (default true) is set, and the model is asked exactly for a present, mutable prompt |
| PromptAnalysis.LatestIndex | prompt_analyzer.py:434-439 | the most recent entry for the prompt, with no later entry for it, and none only when the history has no entry for it |
| PromptAnalysis.LatestAfterRecord | prompt_analyzer.py:434-439 | a newly recorded analysis becomes the latest for its prompt and leaves every other prompt's latest analysis unchanged |
| PromptAnalysis.GatherPerformance | prompt_analyzer.py:389-406 | the "no manager" answer comes exactly when there is no prompt manager; a prompt with statistics reports its version, call count, average time and tokens, and a success rate whose failure share times the calls is the errors; an unseen prompt reports zero calls and rate 1 |
| PromptAnalysis.SuccessRateBounds | prompt_analyzer.py:389-406 | when errors never outnumber calls the success rate is a share between 0 and 1 and, once called, times the calls gives the successful calls; an unseen prompt or one without errors rates 1, and one whose every call failed rates 0 |
| PromptAnalysis.FailureLines | prompt_analyzer.py:429-430 | one numbered line per failure, in order, numbered consecutively from the start value |
| PromptAnalysis.FormatFailuresShape | prompt_analyzer.py:423-432 | the placeholder text appears exactly when there are no failures; otherwise the text is the first five failures, numbered from one, one per line |
| PromptAnalysis.Recorded | prompt_analyzer.py:321-340 | one execution is appended; exactly one of the success and failure counts rises with the outcome; time and tokens accumulate; the version is kept and the counts stay consistent with the executions |
| PromptAnalysis.DegradationMeansTwoFewer | prompt_analyzer.py:344-361 | with at least twenty executions, a drop of more than 0.15 in the success share means exactly that the last ten have at least two fewer successes than the ten before |
| PromptAnalysis.IgnoredChangesKeepText | prompt_analyzer.py:466-472 | changes that are neither a modification with an original nor an addition leave the template as it was |
| PromptAnalysis.AdditionsAppend | prompt_analyzer.py:470-472 | additions only append their text, each on a new line, in order |
| PromptAnalysis.NextVersion | prompt_analyzer.py:475 | the next version is the current one plus one, and is undefined exactly when the version is not a number |
| PromptAnalysis.AppliedRecord | prompt_analyzer.py:477-485 | the stored override has exactly the seven keys, with the new version and text, and is mutable |
| PromptAnalysis.AppliedIsCurrent | prompt_analyzer.py:477-485 | once stored, the override is the current prompt, it can be analysed again, and it reports the version just stored |
| PromptAnalysis.ApplyAll | prompt_analyzer.py:465-472 | the change loop produces the text defined by applying each change in order |
| PromptAnalysis.PromptAnalyzer.constructor | prompt_analyzer.py:30-39 | the analyzer starts with empty analysis and version histories over the given prompts |
| PromptAnalysis.PromptAnalyzer.AnalyzeAndImprove | prompt_analyzer.py:43-89 | a refused prompt gets its refusal and nothing is recorded; otherwise a usable model reply is appended to the analysis history and returned, and an unusable one fails without recording; the prompts are never changed |
| PromptAnalysis.PromptAnalyzer.TrackPerformance | prompt_analyzer.py:300-342 | the prompt's record, started at its current version when new, gains exactly this execution; nothing else changes, and the warning is raised exactly when the degradation rule holds |
| PromptAnalysis.PromptAnalyzer.ApplyChanges | prompt_analyzer.py:443-505 | the outcome is "not found" exactly when the prompt is missing or empty, and then nothing changes; a non-numeric version raises and nothing changes; otherwise the runtime override becomes the changed template at the next version, recording the previous version and the number of changes |
| EventBroadcasting.ToWebsocketMessage | jarvis-web/backend/event_broadcaster.py:82-89 | the message is an object with exactly the channel, type, data and timestamp keys: channel `oob`, the event's type, its data and its timestamp |
| EventBroadcasting.Eligible | jarvis-web/backend/event_broadcaster.py:152-156 | exactly the subscribers whose level reaches the event's minimum are eligible |
| EventBroadcasting.FailedIds | jarvis-web/backend/event_broadcaster.py:158-164 | exactly the eligible subscribers whose send raised are listed as failed |
| EventBroadcasting.Sends | jarvis-web/backend/event_broadcaster.py:152-164 | every eligible subscriber whose send did not raise gets a delivery, no other subscriber does, and each carries the event's message |
| EventBroadcasting.RemoveAll | jarvis-web/backend/event_broadcaster.py:166-168 | the subscribers left are exactly those not removed, with their levels unchanged |
| EventBroadcasting.FanOut | jarvis-web/backend/event_broadcaster.py:152-164 | the send loop makes exactly the specified deliveries, in table order, and collects exactly the specified failures |
| EventBroadcasting.UnsubscribeAll | jarvis-web/backend/event_broadcaster.py:166-168 | the clean-up loop removes exactly the failed subscribers |
| EventBroadcasting.EventBroadcaster.constructor | jarvis-web/backend/event_broadcaster.py:101-111 | no subscribers, zero counters and no deliveries |
| EventBroadcasting.EventBroadcaster.Subscribe | jarvis-web/backend/event_broadcaster.py:113-128 | the subscriber is added at the end, or keeps its place with the new level; nothing else changes |
| EventBroadcasting.EventBroadcaster.Unsubscribe | jarvis-web/backend/event_broadcaster.py:130-134 | the subscriber is removed if present, and nothing else changes |
| EventBroadcasting.EventBroadcaster.Broadcast | jarvis-web/backend/event_broadcaster.py:136-171 | the event is counted once overall and once under its type; every eligible subscriber whose send works receives the message, in table order; each one whose send raises counts as a failed delivery and is unsubscribed |
| EventBroadcasting.EventBroadcaster.SendToSubscriber | jarvis-web/backend/event_broadcaster.py:173-203 | an unknown or under-privileged subscriber gets nothing and no counter moves; otherwise one delivery is counted as sent, or one failure as failed, and the subscriber is kept either way |
| EventBroadcasting.EventBroadcaster.CountByAuthLevel | jarvis-web/backend/event_broadcaster.py:213-218 | the loop computes the per-level counts of the subscribers' levels, and they add up to the number of subscribers |
| EventBroadcasting.EventBroadcaster.GetStats | jarvis-web/backend/event_broadcaster.py:205-211 | the statistics report the counters as they are, the number of active subscribers, and the per-level counts of `_count_by_auth_level` (`CountLevels`), which add up to that number |
| EventBroadcasting.CountLevelsSum | jarvis-web/backend/event_broadcaster.py:213-218 | the per-level counts add up to the number of levels counted |
| EventBroadcasting.CountLevelsCounts | jarvis-web/backend/event_broadcaster.py:213-218 | a level appears in the counts exactly when some subscriber holds it, and its count is how many do |
| EventBroadcasting.FanOutPartition | jarvis-web/backend/event_broadcaster.py:152-164 | every eligible subscriber is either delivered to or failed, so deliveries and failures add up to the eligible subscribers |
| WebSearch.CacheKeyInjective | search_provider.py:78-81 | two searches share a cache entry exactly when their queries are equal once lowercased and stripped and they ask for the same number of results |
| WebSearch.Kept | search_provider.py:143-166 | the page loop keeps no more results than blocks, and every kept result has a title and a URL |
| WebSearch.KeptExactly | search_provider.py:143-166 | every kept result comes from a usable block of the page, and every usable block is kept |
| WebSearch.ParseResults | search_provider.py:143-166 | the loop over the first `num_results` blocks keeps exactly the specified results, never more than asked for |
| WebSearch.ShortSnippet | search_provider.py:209-210 | a snippet within 200 characters is shown whole; a longer one is cut to its first 200 characters followed by `...` |
| WebSearch.Block | search_provider.py:205-213 | each shown result is its numbered bold title, its indented URL, its shortened snippet when it has one, and a blank line |
| WebSearch.FormatResultsShape | search_provider.py:190-216 | the "no results" text is given exactly for an empty list; otherwise the header counts all results and three or four lines follow for each of at most `max_results` shown ones |
| WebSearch.SearchProvider.constructor | search_provider.py:52-69 | an empty cache and zero counters |
| WebSearch.SearchProvider.CheckCache | search_provider.py:83-99 | a hit happens exactly when the key is cached and younger than five minutes; it counts a hit and returns the cached results, while an expired entry is removed; no other counter moves |
| WebSearch.SearchProvider.StoreCache | search_provider.py:101-104 | the key now maps to the results stamped with the current time, and no counter moves |
| WebSearch.SearchProvider.Search | search_provider.py:106-188 | every search is counted; a live entry counts a hit and, when non-empty, is the answer; otherwise a failed fetch counts a failure and returns nothing, and a fetched page yields the kept results, which are counted and cached |
| WebSearch.SearchProvider.GetStats | search_provider.py:218-227 | the counters are reported as they are; the hit rate, success rate and average result count times the number of searches (1 before the first) are the hits, the successful searches and the total results; both rates lie between 0 and 1, are 0 before the first search, and the success rate is 1 when no search failed |
| WebSearch.SearchProvider.ClearCache | search_provider.py:229-233 | the cache is emptied and the counters are kept |
| UserRegistry.FirstNamed | jarvis-web/backend/auth_manager.py:216-221 | the first position in table order holding the name, and none only when no user has it |
| UserRegistry.FindByName | jarvis-web/backend/auth_manager.py:216-221 | a user found by name has that name and is in the table, and nobody is found exactly when no user has the name |
| UserRegistry.FindByNameUnique | jarvis-web/backend/auth_manager.py:216-221 | in a table whose names are unique, the lookup by name returns that user's own entry |
| UserRegistry.MaxString | jarvis-web/backend/auth_manager.py:302-305 | there is no latest creation time exactly when there are no users, and otherwise it is one of the users' times |
| UserRegistry.MaxStringIsGreatest | jarvis-web/backend/auth_manager.py:302-305 | no creation time compares greater than the reported latest one |
| UserRegistry.LevelCounts | jarvis-web/backend/auth_manager.py:297-300 | one count for each of the levels 0 to 4, each the number of users at that level |
| UserRegistry.LevelCountsPartition | jarvis-web/backend/auth_manager.py:297-300 | the five level counts never exceed the number of users, and add up to it exactly when every level lies in 0..4 |
| UserRegistry.AtLeast | jarvis-web/backend/auth_manager.py:277-291 | exactly the users at or above the level are listed |
| UserRegistry.AtLeastInOrder | jarvis-web/backend/auth_manager.py:277-291 | the listing keeps table order: a user is listed exactly when their level is high enough, and the listing of a concatenation is that of each part in turn |
| UserRegistry.Updated | jarvis-web/backend/auth_manager.py:243-254 | only the email and the level passed are assigned and a passed password is replaced by its hash; id, name, creation and last login are kept |
| UserRegistry.AuthManager.constructor | jarvis-web/backend/auth_manager.py:47-56 | an empty user table |
| UserRegistry.AuthManager.CreateUser | jarvis-web/backend/auth_manager.py:98-142 | a taken username is refused first, then a level outside 0..4, both leaving the table unchanged; otherwise a user with the new id, the password's hash and no last login is added at the end of the table |
| UserRegistry.AuthManager.Authenticate | jarvis-web/backend/auth_manager.py:144-168 | an unknown name or a wrong password gives nothing and changes nothing; a match returns the user with the login time recorded, also in the table |
| UserRegistry.AuthManager.GetUserById | jarvis-web/backend/auth_manager.py:223-225 | the user under the id, and nothing exactly when the id is absent |
| UserRegistry.AuthManager.UpdateUser | jarvis-web/backend/auth_manager.py:227-258 | an unknown id gives nothing and changes nothing; otherwise the user is updated in place and returned, and the table's order is kept |
| UserRegistry.AuthManager.DeleteUser | jarvis-web/backend/auth_manager.py:260-275 | the table is the old one with that user's entry removed and every other entry kept in order, and the answer is true exactly when it was present |
| OrderedDicts.RemoveInOrder | jarvis-web/backend/auth_manager.py:271-272 | removing a present key from an insertion-ordered table drops exactly its position from the key order and from the values, keeping every other entry in order |
| UserRegistry.AuthManager.ListUsers | jarvis-web/backend/auth_manager.py:277-291 | exactly the users at or above the level, from the table, in table order (`AtLeast` over the table's values) |
| UserRegistry.AuthManager.GetStats | jarvis-web/backend/auth_manager.py:293-306 | the total is the number of users, the five level counts are those of `LevelCounts` over the table, and the latest creation time is missing exactly when the table is empty and otherwise is some user's creation time that no user's exceeds |
| UserRegistry.ValuesAreTable | jarvis-web/backend/auth_manager.py:218 | iterating the table in order visits exactly its users |
| VisualizerCheck.CheckFingerprint | test_visualizer_export.py:153-162 | the dimension loop reports exactly what the fingerprint specification reports, or raises where it does |
| VisualizerCheck.CheckFields | test_visualizer_export.py:137-139 | the field loop reports exactly the missing required fields, in order |
| VisualizerCheck.CheckStep | test_visualizer_export.py:135-175 | the per-step checks report exactly what the step specification reports, or raise where it does |
| VisualizerCheck.ValidateJsonFormat | test_visualizer_export.py:114-175 | a missing `steps` key and a non-list `steps` each give their single report; the checker reports nothing exactly when every step is well formed (an object with all five fields, a list of children, the type its child count calls for, and every fingerprint dimension a number in [0, 1]) |
| VisualizerCheck.MissingFieldsEmpty | test_visualizer_export.py:137-139 | no field is reported missing exactly when every field is present |
| VisualizerCheck.DimIssuesEmpty | test_visualizer_export.py:153-162 | an object fingerprint draws no report exactly when every dimension is present, numeric and within [0, 1] |
| VisualizerCheck.DimIssuesNotObject | test_visualizer_export.py:153-162 | a fingerprint that is a string or a list never passes |
| VisualizerCheck.FingerprintIssuesEmpty | test_visualizer_export.py:151-162 | the fingerprint draws no report exactly when it is well formed |
| VisualizerCheck.RequiredPresent | test_visualizer_export.py:137-139 | no field is reported missing exactly when all five required fields are present |
| VisualizerCheck.StepTypeAllowed | test_visualizer_export.py:164-170 | the type a child count calls for is one of the three the visualizer accepts |
| VisualizerCheck.StepIssuesEmpty | test_visualizer_export.py:135-175 | one step draws no report exactly when it is well formed |
| VisualizerCheck.AllStepsEmpty | test_visualizer_export.py:135-175 | the first steps draw no report exactly when none of them does |
| VisualizerCheck.ValidateEmptyIff | test_visualizer_export.py:114-175 | the checker reports nothing exactly when `steps` is a list of well-formed steps |
| VisualizerCheck.StepJsonOk | jarvis_planner.py:319-454 | every step the planner exports is well formed |
| VisualizerCheck.ExportValidates | jarvis_planner.py:319-454 | the export of any plan passes the visualizer's checker with no report |

## Left out

- Plans.Plan.ComputeSignature: the SHA-256 digest (FIPS 180-4) truncated to 16 hex digits is not modelled; the signature is the serialised shape itself, so equal signatures mean equal shapes here, while the real digest could in principle collide.
- PlanTree.Walk: defined only on plans whose child links are acyclic (`Ranked`); on a cyclic plan the source recurses until Python's recursion limit (see Findings). The same precondition sits on every tree recursion: execution, signature and pattern copy (cost analysis sums over the goal table and needs none).
- DateTimes.ParseIso: reads `YYYY-MM-DD`, optionally followed by any single separator character (as `fromisoformat` accepts) and `HH`, `HH:MM`, `HH:MM:SS`, or `HH:MM:SS` with 3 or 6 fraction digits; time-zone offsets and the other `fromisoformat` spellings are not read and fall back to "now" as unparseable text would.
- Lower-casing is ASCII-only. The classifier's `\w` is ASCII letters, digits and underscore. Its `\s`, and the white space that `strip()` and `split()` remove, is the white space `str.isspace()` accepts below U+0100 (`Common.Whitespace`: tab to carriage return, \x1c-\x1f, space, \x85 and \xa0). Unicode case mapping, Unicode letters for `\w` and the white space above U+00FF (U+1680, U+2000-U+200A, U+2028, U+2029, U+202F, U+205F, U+3000) are not modelled.
- Large language model calls (decomposition, execution, intent classification, prompt analysis) are total deterministic parameters: the model's answer or the executor's outcome is given, and the prompt texts, JSON extraction and the executor's exceptions are not modelled.
- The web search inside `_execute_single_goal` (planning_orchestrator.py:485-513) and its prompt assembly are not modelled; only the query extraction is.
- HTTP fetching and HTML parsing in `search` are a parameter: either a failure or the page's result blocks.
- MD5 cache keys are the key text itself; bcrypt hashing and checking are parameters; JWT `create_token` and `verify_token` are not modelled.
- Ids from `uuid4` and times from `datetime.now()` are parameters; timestamps the model never compares (`created_at` of events and interactions, `started_at`, `completed_at`, history timestamps) are dropped.
- File persistence is not modelled: `_save_plan`, `_load_patterns` (the planner starts with an empty library), the pattern file write in `save_as_pattern`, `_persist_state`, `_write_memorylog`, `_save_users`, `_load_users`, `_backup_prompt`, `_save_runtime_prompts` and `export_visualizer_json`.
- Logging, console output and event emission are dropped, including `_emit_interaction_event` and `_emit_timeout_event`; in particular the await of the emit before the timer is armed (jarvis-web/backend/interaction_handler.py:130-136) is not modelled.
- asyncio concurrency is not modelled: futures and timers are a settle-once state machine whose events (answer, cancel, timeout) arrive one at a time, and the awaits inside `broadcast`'s loop are taken to run without interleaving.
- `round(x, 2)` in the visualizer export is not modelled; the exported values are exact.
- Goal fields the core never reads back (`retry`, `context`, `Prerequisite.required_state`) are dropped.
- `handle_crud_update`, `handle_crud_delete`, `handle_query`, `handle_conversation`, `handle_smarthome`, `_read_calendar_events` and `_read_notes` are not modelled one by one: `route` takes the registered handler's outcome (a reply or an exception) as a parameter.
- The contact store behind `_read_contact` is a lookup parameter; SQLite and `jarvis_memory.py` are not part of this model.
- `get_handler_for_intent`, `get_recent_history`, `suggest_clarification_question` and `_build_classification_prompt` are not modelled (routing glue and prompt text).
- `_format_analysis_results`, `interactive_refinement`, `_llm_analyze_prompt`'s prompt, `_get_prompt_type` and the fixed placeholder of `_gather_recent_failures` are not modelled; the failure formatter is modelled on any list.
- `get_broadcaster` and the `emit_*` helper functions of the event broadcaster are not modelled (they only build an event and call `broadcast`).
- The `search_web` convenience function is not modelled (it builds a provider and calls `search`).
- WebSearch.SearchProvider.Search: the result count is a `nat`, so a negative `num_results` is not modelled; in Python `result_divs[:num_results]` (search_provider.py:143) would then drop the last blocks instead, and the cache key would read "-n" (80). `format_results`' `max_results` (search_provider.py:190-216) is a `nat` for the same reason.
- `disconnect_terminal`, `send_to_terminal`, `_enter_analysis_mode`'s messages, `_handle_analysis_command` and the rest of `_intelligent_process` after the approval branch are not modelled; the scheduler model stops at the replies that select them.
- Scheduler.Decode: refuses a mistyped `content`, `source_terminal`, `context`, `task_id` or `attempts` with an error, where `from_dict` (jarvis_core.py:103-114) stores such values unchecked; the model's task record holds typed fields only.
- The reply text of the yes branch of the approval check (jarvis_core.py:786-820: the completion line, the score and each child's result) is not modelled; the model stops at handing the approved plan over for execution.
- `_llm_analyze_prompt` (prompt_analyzer.py:91-180) calls the prompt manager unconditionally and so raises when there is none; the model takes the model's reply as a parameter and does not model that exception.
- PromptAnalysis.TemplateOf: a template that is not a string reads as empty, where `apply_changes` (prompt_analyzer.py:465-475) would raise on calling `replace` on it.
- PlanningOrchestration.PlanningOrchestrator.HandleWithPlanning: the reply texts are not modelled, only the outcome they report: the "I can help with that (…)" approval prompt with the plan summary and cost line (planning_orchestrator.py:167-170), the "✅ Completed" line with the evaluation score, the per-step results and `_format_structured_result` (planning_orchestrator.py:180-242), and the "❌ Could not complete" line (planning_orchestrator.py:244).
- IntentHandling.Entity: entities are a string-valued map; entity values the language model gives as numbers, lists or objects, which `entities.get` would pass on as they are, are not modelled.
- IntentHandling.CrudCreate: a stored contact, event or note is reported by the fields the model keeps (a contact's name, an event's title and start, a note's title and content); the other fields passed to `create_contact` and `create_event` (phones, emails, company, location, description, attendees; intent_handlers.py:155-187) and the note's tag are not modelled. An exception raised by a creator, caught into the "I had trouble saving that. …" reply (intent_handlers.py:145-147), is not modelled either.
- IntentHandling.CrudRead: the calendar and note readers are not modelled (see above), so their replies name only the identifier handed over; an exception from a reader, caught into the "I had trouble looking that up" reply, is not modelled.
- InteractionClassifier.ExtractAmount: reads ASCII digits only, where Python's `\d` also matches other Unicode decimal digits; the amount is an exact real, so the rounding and overflow of Python's `float` are not modelled.

## Findings

| source | as written | input that shows it | evidently intended | confidence | as-written member | corrected member |
|---|---|---|---|---|---|---|
| planning_orchestrator.py:617-624 | the action words are tried in list order and "research" comes before "research and compare", so the longer phrase can never be cut off | "research and compare laptops" gives the query "and compare laptops" | the longest matching action word is removed, giving "laptops" | high, not executed | PlanningOrchestration.ResearchAndCompareKept | PlanningOrchestration.CorrectedStripsLongest |
| jarvis_planner.py:793-831 | `_execute_goal_tree` (and the copy in `apply_pattern`, jarvis_planner.py:642-674) recurses over `goal.children` with no visited set | a goal whose `children` lists its own id makes the walk recurse until `RecursionError` | plans are trees, so every walk ends; the model admits only acyclic plans | medium, not executed | PlanTree.SelfChildUnranked | PlanTree.Walk |
| jarvis_planner.py:476-483 | the cost component divides by the estimated total and only a zero estimate is replaced by 1.0 | estimated total -2.0 and actual total -1.0 give a cost component of 1.5 | the cost component lies in [0, 1], which holds for every positive estimate | low, not executed | Plans.NegativeEstimateOverflow | Plans.CostScoreBounds |
