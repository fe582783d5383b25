/**
 * The goal arena of a plan, seen as a tree: a map from goal id to goal in
 * which each goal lists its children by id. Children may be dangling (not
 * in the map). Recursion over the arena terminates because of a ghost rank
 * that strictly decreases from a goal to each of its children; an arena
 * with a cycle (on which the Python recursion overflows) has no such rank.
 *
 * This module holds the two recursive readings of the arena that the
 * planner and the orchestrator share: the execution walk of
 * `_execute_goal_tree` (parameterised by what a OneShot leaf does) and the
 * structural shape behind `compute_signature`.
 */
module PlanTree {
  import opened Common
  import opened PlannerTypes

  type Arena = map<GoalId, Goal>

  /** Every id in `cs` has a rank below `bound`. */
  ghost predicate Below(cs: seq<GoalId>, rank: map<GoalId, nat>, bound: nat)
  {
    forall i :: 0 <= i < |cs| ==> cs[i] in rank && rank[cs[i]] < bound
  }

  ghost predicate Ranked(goals: Arena, rank: map<GoalId, nat>)
  {
    forall g :: g in goals ==> g in rank && Below(goals[g].children, rank, rank[g])
  }

  /**
   * A goal that lists itself among its children admits no rank: the
   * recursive walks over such an arena never reach a leaf, and in Python
   * they end in `RecursionError`.
   */
  lemma SelfChildUnranked(goals: Arena, id: GoalId, rank: map<GoalId, nat>)
    requires id in goals && id in goals[id].children
    ensures id !in rank || !Below(goals[id].children, rank, rank[id])
    ensures !Ranked(goals, rank)
  {
    if id in rank {
      var i :| 0 <= i < |goals[id].children| && goals[id].children[i] == id;
      assert goals[id].children[i] in rank && rank[goals[id].children[i]] == rank[id];
    }
  }

  function Height(rank: map<GoalId, nat>, id: GoalId): nat
  {
    if id in rank then rank[id] else 0
  }

  /** Same goals with the same kinds and child lists: only execution state may differ. */
  ghost predicate SameTree(a: Arena, b: Arena)
  {
    a.Keys == b.Keys &&
    forall k :: k in a ==> b[k].goalType == a[k].goalType && b[k].children == a[k].children
  }

  lemma SameTreeRanked(a: Arena, b: Arena, rank: map<GoalId, nat>)
    requires SameTree(a, b) && Ranked(a, rank)
    ensures Ranked(b, rank)
  {
  }

  lemma SameTreeTrans(a: Arena, b: Arena, c: Arena)
    requires SameTree(a, b) && SameTree(b, c)
    ensures SameTree(a, c)
  {
  }

  // ------------------------------------------------------------ execution

  /** What executing one OneShot goal decides: its success, new status and recorded outcome. */
  datatype LeafResult = LeafResult(ok: bool, status: GoalStatus, outcome: Option<Outcome>)

  /** The goal after its leaf execution; `None` keeps the previous outcome. */
  function ApplyLeaf(g: Goal, l: LeafResult): Goal
  {
    g.(status := l.status, actualOutcome := if l.outcome.Some? then l.outcome else g.actualOutcome)
  }

  datatype WalkResult = WalkResult(ok: bool, goals: Arena)

  /** Result of walking a list of siblings: `outcomes[i]` is the result of the i-th child actually walked. */
  datatype SiblingsResult = SiblingsResult(ok: bool, goals: Arena, outcomes: seq<bool>)

  /** Only OneShot goals change during a walk. */
  ghost predicate OnlyLeavesChanged(a: Arena, b: Arena)
  {
    forall k :: k in a && k in b && b[k] != a[k] ==> a[k].goalType == OneShot
  }

  /**
   * `_execute_goal_tree`: a missing goal fails, Stop succeeds, Abort fails,
   * a OneShot goal is executed by `leaf`, and Linear, Branching and Parallel
   * goals combine their children as `Siblings` describes. The goal table is
   * threaded through, so a goal reached twice sees its earlier execution.
   */
  ghost function Walk(goals: Arena, id: GoalId, leaf: Goal -> LeafResult, rank: map<GoalId, nat>): (r: WalkResult)
    requires Ranked(goals, rank)
    ensures SameTree(goals, r.goals)
    ensures id !in goals ==> r == WalkResult(false, goals)
    ensures id in goals && goals[id].goalType == Stop ==> r == WalkResult(true, goals)
    ensures id in goals && goals[id].goalType == Abort ==> r == WalkResult(false, goals)
    ensures id in goals && IsTerminal(goals[id]) ==> r.goals == goals && (r.ok <==> goals[id].goalType == Stop)
    decreases Height(rank, id), 1, 0
  {
    if id !in goals then WalkResult(false, goals)
    else
      var g := goals[id];
      match g.goalType
      case Stop => WalkResult(true, goals)
      case Abort => WalkResult(false, goals)
      case OneShot =>
        var l := leaf(g);
        WalkResult(l.ok, goals[id := ApplyLeaf(g, l)])
      case _ =>
        var s := Siblings(goals, g.children, g.goalType, leaf, rank, rank[id]);
        WalkResult(s.ok, s.goals)
  }

  /**
   * The loop over a goal's children for each composite kind:
   * Linear stops after the first failure, Branching stops after the first
   * success, Parallel walks every child and succeeds iff all succeeded.
   */
  ghost function Siblings(goals: Arena, cs: seq<GoalId>, mode: GoalType, leaf: Goal -> LeafResult,
                          rank: map<GoalId, nat>, bound: nat): (r: SiblingsResult)
    requires Ranked(goals, rank)
    requires mode in {Linear, Branching, Parallel}
    requires Below(cs, rank, bound)
    ensures SameTree(goals, r.goals)
    ensures |r.outcomes| <= |cs|
    ensures |cs| > 0 ==> |r.outcomes| > 0
    decreases bound, 0, |cs|
  {
    if |cs| == 0 then SiblingsResult(mode != Branching, goals, [])
    else
      var w := Walk(goals, cs[0], leaf, rank);
      SameTreeRanked(goals, w.goals, rank);
      if mode == Linear && !w.ok then SiblingsResult(false, w.goals, [false])
      else if mode == Branching && w.ok then SiblingsResult(true, w.goals, [true])
      else
        var rest := Siblings(w.goals, cs[1..], mode, leaf, rank, bound);
        SameTreeTrans(goals, w.goals, rest.goals);
        SiblingsResult(if mode == Parallel then w.ok && rest.ok else rest.ok, rest.goals, [w.ok] + rest.outcomes)
  }

  /**
   * Linear: the children are walked in order up to and including the first
   * failure; the later siblings are not walked.
   */
  lemma {:induction false} LinearStopsAtFailure(goals: Arena, cs: seq<GoalId>, leaf: Goal -> LeafResult,
                                                rank: map<GoalId, nat>, bound: nat)
    requires Ranked(goals, rank)
    requires Below(cs, rank, bound)
    ensures var o := Siblings(goals, cs, Linear, leaf, rank, bound).outcomes;
      (forall i :: 0 <= i < |o| - 1 ==> o[i]) && (|o| < |cs| ==> !o[|o| - 1])
    decreases |cs|
  {
    var r := Siblings(goals, cs, Linear, leaf, rank, bound);
    if |cs| > 0 {
      var w := Walk(goals, cs[0], leaf, rank);
      SameTreeRanked(goals, w.goals, rank);
      if !w.ok {
        assert r == SiblingsResult(false, w.goals, [false]);
      } else {
        LinearStopsAtFailure(w.goals, cs[1..], leaf, rank, bound);
        var rest := Siblings(w.goals, cs[1..], Linear, leaf, rank, bound);
        assert r == SiblingsResult(rest.ok, rest.goals, [true] + rest.outcomes);
        PrefixCons(true, rest.outcomes, |cs| - 1);
      }
    }
  }

  /** Linear: the goal succeeds iff every child was walked and succeeded. */
  lemma {:induction false} LinearSucceedsIffAll(goals: Arena, cs: seq<GoalId>, leaf: Goal -> LeafResult,
                                                rank: map<GoalId, nat>, bound: nat)
    requires Ranked(goals, rank)
    requires Below(cs, rank, bound)
    ensures var r := Siblings(goals, cs, Linear, leaf, rank, bound);
      r.ok <==> |r.outcomes| == |cs| && forall i :: 0 <= i < |r.outcomes| ==> r.outcomes[i]
    decreases |cs|
  {
    var r := Siblings(goals, cs, Linear, leaf, rank, bound);
    if |cs| > 0 {
      var w := Walk(goals, cs[0], leaf, rank);
      SameTreeRanked(goals, w.goals, rank);
      if !w.ok {
        assert r == SiblingsResult(false, w.goals, [false]);
        assert !r.outcomes[0];
      } else {
        LinearSucceedsIffAll(w.goals, cs[1..], leaf, rank, bound);
        var rest := Siblings(w.goals, cs[1..], Linear, leaf, rank, bound);
        assert r == SiblingsResult(rest.ok, rest.goals, [true] + rest.outcomes);
        AllTrueCons(true, rest.outcomes);
      }
    }
  }

  /**
   * The outcomes of a Branching walk over `n` children: failures up to the
   * last attempt, a success if it stopped early, and overall success iff
   * some attempt succeeded.
   */
  predicate BranchingShape(os: seq<bool>, n: nat, ok: bool)
  {
    (forall i :: 0 <= i < |os| - 1 ==> !os[i]) &&
    (|os| < n ==> |os| > 0 && os[|os| - 1]) &&
    (ok <==> exists i :: 0 <= i < |os| && os[i])
  }

  /** Branching: the children are tried in order up to and including the first success. */
  lemma {:induction false} BranchingSiblings(goals: Arena, cs: seq<GoalId>, leaf: Goal -> LeafResult,
                                             rank: map<GoalId, nat>, bound: nat)
    requires Ranked(goals, rank)
    requires Below(cs, rank, bound)
    ensures var r := Siblings(goals, cs, Branching, leaf, rank, bound);
      BranchingShape(r.outcomes, |cs|, r.ok)
    decreases |cs|
  {
    var r := Siblings(goals, cs, Branching, leaf, rank, bound);
    if |cs| > 0 {
      var w := Walk(goals, cs[0], leaf, rank);
      SameTreeRanked(goals, w.goals, rank);
      if w.ok {
        assert r.outcomes == [true] && r.ok;
        assert r.outcomes[0];
      } else {
        BranchingSiblings(w.goals, cs[1..], leaf, rank, bound);
        var rest := Siblings(w.goals, cs[1..], Branching, leaf, rank, bound);
        assert r.outcomes == [false] + rest.outcomes && r.ok == rest.ok;
        FailedFirst(rest.outcomes, |cs|, rest.ok);
      }
    } else {
      assert r.outcomes == [] && !r.ok;
    }
  }

  /** Prefixing one failed attempt keeps the shape `BranchingSiblings` states. */
  lemma FailedFirst(rest: seq<bool>, n: nat, ok: bool)
    requires n > 0 && (n > 1 ==> |rest| > 0)
    requires BranchingShape(rest, n - 1, ok)
    ensures BranchingShape([false] + rest, n, ok)
  {
    var os := [false] + rest;
    assert forall i :: 1 <= i < |os| ==> os[i] == rest[i - 1];
    if exists i :: 0 <= i < |rest| && rest[i] {
      var j :| 0 <= j < |rest| && rest[j];
      assert os[j + 1];
    }
  }

  /** Parallel: every child is walked, and the goal succeeds iff all of them succeeded. */
  lemma {:induction false} ParallelSiblings(goals: Arena, cs: seq<GoalId>, leaf: Goal -> LeafResult,
                                            rank: map<GoalId, nat>, bound: nat)
    requires Ranked(goals, rank)
    requires Below(cs, rank, bound)
    ensures var r := Siblings(goals, cs, Parallel, leaf, rank, bound);
      |r.outcomes| == |cs| && (r.ok <==> forall i :: 0 <= i < |r.outcomes| ==> r.outcomes[i])
    decreases |cs|
  {
    var r := Siblings(goals, cs, Parallel, leaf, rank, bound);
    if |cs| > 0 {
      var w := Walk(goals, cs[0], leaf, rank);
      SameTreeRanked(goals, w.goals, rank);
      ParallelSiblings(w.goals, cs[1..], leaf, rank, bound);
      var rest := Siblings(w.goals, cs[1..], Parallel, leaf, rank, bound);
      assert r == SiblingsResult(w.ok && rest.ok, rest.goals, [w.ok] + rest.outcomes);
      AllTrueCons(w.ok, rest.outcomes);
    }
  }

  lemma AllTrueCons(b: bool, s: seq<bool>)
    ensures (forall i :: 0 <= i < |[b] + s| ==> ([b] + s)[i]) <==> b && forall i :: 0 <= i < |s| ==> s[i]
  {
    var t := [b] + s;
    assert t[0] == b;
    assert forall i :: 0 <= i < |s| ==> t[i + 1] == s[i];
    if b && forall i :: 0 <= i < |s| ==> s[i] {
      forall i | 0 <= i < |t| ensures t[i] {
        if i > 0 { assert t[i] == s[i - 1]; }
      }
    }
    if forall i :: 0 <= i < |t| ==> t[i] {
      forall i | 0 <= i < |s| ensures s[i] {
        assert t[i + 1] == s[i];
      }
    }
  }

  /** Prepending a success keeps "successes, then a failure if stopped early". */
  lemma PrefixCons(b: bool, s: seq<bool>, n: nat)
    requires b
    requires (forall i :: 0 <= i < |s| - 1 ==> s[i]) && (|s| < n ==> |s| > 0 && !s[|s| - 1])
    ensures var t := [b] + s;
      (forall i :: 0 <= i < |t| - 1 ==> t[i]) && (|t| < n + 1 ==> !t[|t| - 1])
  {
    var t := [b] + s;
    assert forall i :: 0 < i < |t| ==> t[i] == s[i - 1];
  }

  /** One step of the sibling loop, as the imperative loops take it. */
  lemma SiblingsStep(goals: Arena, cs: seq<GoalId>, i: nat, mode: GoalType, leaf: Goal -> LeafResult,
                     rank: map<GoalId, nat>, bound: nat)
    requires Ranked(goals, rank)
    requires mode in {Linear, Branching, Parallel}
    requires Below(cs, rank, bound)
    requires i < |cs|
    ensures Ranked(Walk(goals, cs[i], leaf, rank).goals, rank)
    ensures var w := Walk(goals, cs[i], leaf, rank);
            var s := Siblings(goals, cs[i..], mode, leaf, rank, bound);
            if mode == Linear && !w.ok then s.ok == false && s.goals == w.goals
            else if mode == Branching && w.ok then s.ok == true && s.goals == w.goals
            else
              var rest := Siblings(w.goals, cs[i + 1..], mode, leaf, rank, bound);
              s.goals == rest.goals &&
              s.ok == (if mode == Parallel then w.ok && rest.ok else rest.ok)
  {
    var w := Walk(goals, cs[i], leaf, rank);
    SameTreeRanked(goals, w.goals, rank);
    assert cs[i..][0] == cs[i];
    assert cs[i..][1..] == cs[i + 1..];
  }

  /**
   * What is left of a sibling walk after `i` children leads to the result
   * `s`, given that the children walked so far combine to `acc` (always
   * true except for Parallel, where it is `all` of their results).
   */
  ghost predicate SiblingsRest(m: Arena, cs: seq<GoalId>, i: nat, mode: GoalType, leaf: Goal -> LeafResult,
                               rank: map<GoalId, nat>, bound: nat, acc: bool, s: SiblingsResult)
  {
    Ranked(m, rank) && mode in {Linear, Branching, Parallel} && Below(cs, rank, bound) && i <= |cs| &&
    s.ok == (acc && Siblings(m, cs[i..], mode, leaf, rank, bound).ok) &&
    s.goals == Siblings(m, cs[i..], mode, leaf, rank, bound).goals
  }

  lemma LinearRestStep(m: Arena, cs: seq<GoalId>, i: nat, leaf: Goal -> LeafResult, rank: map<GoalId, nat>, bound: nat,
                       s: SiblingsResult)
    requires SiblingsRest(m, cs, i, Linear, leaf, rank, bound, true, s) && i < |cs|
    ensures var w := Walk(m, cs[i], leaf, rank);
      (w.ok ==> SiblingsRest(w.goals, cs, i + 1, Linear, leaf, rank, bound, true, s)) &&
      (!w.ok ==> !s.ok && s.goals == w.goals)
  {
    SiblingsStep(m, cs, i, Linear, leaf, rank, bound);
  }

  lemma BranchingRestStep(m: Arena, cs: seq<GoalId>, i: nat, leaf: Goal -> LeafResult, rank: map<GoalId, nat>, bound: nat,
                          s: SiblingsResult)
    requires SiblingsRest(m, cs, i, Branching, leaf, rank, bound, true, s) && i < |cs|
    ensures var w := Walk(m, cs[i], leaf, rank);
      (!w.ok ==> SiblingsRest(w.goals, cs, i + 1, Branching, leaf, rank, bound, true, s)) &&
      (w.ok ==> s.ok && s.goals == w.goals)
  {
    SiblingsStep(m, cs, i, Branching, leaf, rank, bound);
  }

  lemma ParallelRestStep(m: Arena, cs: seq<GoalId>, i: nat, leaf: Goal -> LeafResult, rank: map<GoalId, nat>, bound: nat,
                         acc: bool, s: SiblingsResult)
    requires SiblingsRest(m, cs, i, Parallel, leaf, rank, bound, acc, s) && i < |cs|
    ensures var w := Walk(m, cs[i], leaf, rank);
      SiblingsRest(w.goals, cs, i + 1, Parallel, leaf, rank, bound, acc && w.ok, s)
  {
    SiblingsStep(m, cs, i, Parallel, leaf, rank, bound);
  }

  lemma SiblingsRestStart(m: Arena, cs: seq<GoalId>, mode: GoalType, leaf: Goal -> LeafResult,
                          rank: map<GoalId, nat>, bound: nat)
    requires Ranked(m, rank) && mode in {Linear, Branching, Parallel} && Below(cs, rank, bound)
    ensures SiblingsRest(m, cs, 0, mode, leaf, rank, bound, true, Siblings(m, cs, mode, leaf, rank, bound))
  {
    assert cs[0..] == cs;
  }

  lemma SiblingsRestDone(m: Arena, cs: seq<GoalId>, mode: GoalType, leaf: Goal -> LeafResult,
                         rank: map<GoalId, nat>, bound: nat, acc: bool, s: SiblingsResult)
    requires SiblingsRest(m, cs, |cs|, mode, leaf, rank, bound, acc, s)
    ensures s.ok == (acc && mode != Branching) && s.goals == m
  {
    assert cs[|cs|..] == [];
  }

  // ------------------------------------------------------------ signature

  /** The normalised structure `build_tree` produces: `{}` or `{type, children}`. */
  datatype Shape = Missing | Node(kind: GoalType, children: seq<Shape>)

  /**
   * `build_tree`: the shape below `id`. Only goal kinds and child lists
   * contribute; a dangling id gives the empty node.
   */
  ghost function ShapeOf(goals: Arena, id: GoalId, rank: map<GoalId, nat>): (r: Shape)
    requires Ranked(goals, rank)
    ensures r == Missing <==> id !in goals
    ensures r.Node? ==> r.kind == goals[id].goalType && |r.children| == |goals[id].children|
    decreases Height(rank, id)
  {
    if id !in goals then Missing
    else
      var cs := goals[id].children;
      Node(goals[id].goalType, seq(|cs|, i requires 0 <= i < |cs| => ShapeOf(goals, cs[i], rank)))
  }

  /** `json.dumps(tree, sort_keys=True)`: keys in sorted order, default separators. */
  function Serialize(s: Shape): string
  {
    match s
    case Missing => "{}"
    case Node(k, cs) => "{\"children\": [" + SerializeList(cs) + "], \"type\": \"" + TypeValue(k) + "\"}"
  }

  function SerializeList(cs: seq<Shape>): string
  {
    if |cs| == 0 then ""
    else if |cs| == 1 then Serialize(cs[0])
    else Serialize(cs[0]) + ", " + SerializeList(cs[1..])
  }

  lemma NoQuoteInType(k: GoalType)
    ensures forall i :: 0 <= i < |TypeValue(k)| ==> TypeValue(k)[i] != '"'
  {
  }

  /** A kind's value followed by the closing `"}` determines the kind and what follows. */
  lemma TypeThenClose(k1: GoalType, k2: GoalType, x: string, y: string)
    requires TypeValue(k1) + "\"}" + x == TypeValue(k2) + "\"}" + y
    ensures k1 == k2 && x == y
  {
    var t1, t2 := TypeValue(k1), TypeValue(k2);
    var l := t1 + "\"}" + x;
    NoQuoteInType(k1);
    NoQuoteInType(k2);
    if |t1| < |t2| {
      CharAt(t1 + "\"}", x, |t1|);
      CharAt(t1, "\"}", |t1|);
      CharAt(t2 + "\"}", y, |t1|);
      CharAt(t2, "\"}", |t1|);
      assert false;
    } else if |t2| < |t1| {
      CharAt(t2 + "\"}", y, |t2|);
      CharAt(t2, "\"}", |t2|);
      CharAt(t1 + "\"}", x, |t2|);
      CharAt(t1, "\"}", |t2|);
      assert false;
    } else {
      assert t1 == l[..|t1|] == t2;
      ParseTypeValue(k1);
      ParseTypeValue(k2);
      assert x == l[|t1| + 2..] == y;
    }
  }

  /** The character at `i` of a concatenation. */
  lemma CharAt(a: string, b: string, i: int)
    ensures 0 <= i < |a + b| ==> (a + b)[i] == (if i < |a| then a[i] else b[i - |a|])
  {
  }

  lemma SerializeOpens(s: Shape)
    ensures |Serialize(s)| > 1 && Serialize(s)[0] == '{'
    ensures s.Missing? <==> Serialize(s)[1] == '}'
  {
  }

  lemma StripPrefix(p: string, u: string, v: string)
    requires p + u == p + v
    ensures u == v
  {
    assert u == (p + u)[|p|..];
  }

  /** A node's text: the opening, the children, the closing bracket and the kind. */
  lemma NodeText(k: GoalType, cs: seq<Shape>, x: string)
    ensures Serialize(Node(k, cs)) + x ==
            "{\"children\": [" + (SerializeList(cs) + "]" + (", \"type\": \"" + (TypeValue(k) + "\"}" + x)))
  {
    var p, m, q, t, e := "{\"children\": [", SerializeList(cs), ", \"type\": \"", TypeValue(k), "\"}";
    assert "], \"type\": \"" == "]" + q;
    assert Serialize(Node(k, cs)) == p + m + ("]" + q) + t + e;
    Regroup(p, m, "]", q, t, e, x);
  }

  lemma Regroup(p: string, m: string, c: string, q: string, t: string, e: string, x: string)
    ensures p + m + (c + q) + t + e + x == p + (m + c + (q + (t + e + x)))
  {
  }

  /** The text after a list's first element: its closing bracket, or a comma and the rest. */
  function ListRest(cs: seq<Shape>, x: string): string
    requires |cs| > 0
  {
    if |cs| == 1 then "]" + x else ", " + (SerializeList(cs[1..]) + "]" + x)
  }

  lemma ListText(cs: seq<Shape>, x: string)
    requires |cs| > 0
    ensures SerializeList(cs) + "]" + x == Serialize(cs[0]) + ListRest(cs, x)
  {
  }

  /**
   * No serialised shape is a proper prefix of another, and equal texts come
   * from equal shapes: distinct shapes, whether they differ in a kind or in
   * a child count anywhere in the tree, get distinct signatures.
   */
  lemma {:induction false} SerializePrefixFree(a: Shape, b: Shape, x: string, y: string)
    requires Serialize(a) + x == Serialize(b) + y
    ensures a == b && x == y
    decreases a
  {
    var l := Serialize(a) + x;
    SerializeOpens(a);
    SerializeOpens(b);
    assert l[1] == Serialize(a)[1] && l[1] == Serialize(b)[1];
    if a.Missing? {
      StripPrefix("{}", x, y);
    } else {
      var r1 := ", \"type\": \"" + (TypeValue(a.kind) + "\"}" + x);
      var r2 := ", \"type\": \"" + (TypeValue(b.kind) + "\"}" + y);
      NodeText(a.kind, a.children, x);
      NodeText(b.kind, b.children, y);
      StripPrefix("{\"children\": [", SerializeList(a.children) + "]" + r1, SerializeList(b.children) + "]" + r2);
      SerializeListPrefixFree(a.children, b.children, r1, r2);
      StripPrefix(", \"type\": \"", TypeValue(a.kind) + "\"}" + x, TypeValue(b.kind) + "\"}" + y);
      TypeThenClose(a.kind, b.kind, x, y);
    }
  }

  lemma {:induction false} SerializeListPrefixFree(cs: seq<Shape>, ds: seq<Shape>, x: string, y: string)
    requires SerializeList(cs) + "]" + x == SerializeList(ds) + "]" + y
    ensures cs == ds && x == y
    decreases cs
  {
    var l := SerializeList(cs) + "]" + x;
    if |cs| == 0 && |ds| == 0 {
      assert SerializeList(cs) == "" && SerializeList(ds) == "";
      assert "" + "]" + x == "]" + x && "" + "]" + y == "]" + y;
      StripPrefix("]", x, y);
    } else if |cs| == 0 {
      SerializeOpens(ds[0]);
      ListText(ds, y);
      CharAt(SerializeList(cs) + "]", x, 0);
      CharAt(SerializeList(cs), "]", 0);
      CharAt(Serialize(ds[0]), ListRest(ds, y), 0);
      assert false;
    } else if |ds| == 0 {
      SerializeOpens(cs[0]);
      ListText(cs, x);
      CharAt(SerializeList(ds) + "]", y, 0);
      CharAt(SerializeList(ds), "]", 0);
      CharAt(Serialize(cs[0]), ListRest(cs, x), 0);
      assert false;
    } else {
      ListText(cs, x);
      ListText(ds, y);
      var r1, r2 := ListRest(cs, x), ListRest(ds, y);
      SerializePrefixFree(cs[0], ds[0], r1, r2);
      assert r1[0] == (if |cs| == 1 then ']' else ',') && r2[0] == (if |ds| == 1 then ']' else ',');
      if |cs| == 1 {
        assert |ds| == 1;
        assert r1 == "]" + x && r2 == "]" + y;
        StripPrefix("]", x, y);
        assert cs == [cs[0]] && ds == [ds[0]];
      } else {
        assert |ds| > 1;
        StripPrefix(", ", SerializeList(cs[1..]) + "]" + x, SerializeList(ds[1..]) + "]" + y);
        SerializeListPrefixFree(cs[1..], ds[1..], x, y);
        assert cs == [cs[0]] + cs[1..] && ds == [ds[0]] + ds[1..];
      }
    }
  }

  /** Equal signatures mean equal shapes. */
  lemma SerializeInjective(a: Shape, b: Shape)
    requires Serialize(a) == Serialize(b)
    ensures a == b
  {
    assert Serialize(a) + "" == Serialize(b) + "";
    SerializePrefixFree(a, b, "", "");
  }

  /** Root goals that differ in kind or in child count give different signatures. */
  lemma RootChangeChangesSignature(a: Arena, ra: map<GoalId, nat>, ida: GoalId,
                                   b: Arena, rb: map<GoalId, nat>, idb: GoalId)
    requires Ranked(a, ra) && Ranked(b, rb) && ida in a && idb in b
    requires a[ida].goalType != b[idb].goalType || |a[ida].children| != |b[idb].children|
    ensures Serialize(ShapeOf(a, ida, ra)) != Serialize(ShapeOf(b, idb, rb))
  {
    if Serialize(ShapeOf(a, ida, ra)) == Serialize(ShapeOf(b, idb, rb)) {
      SerializeInjective(ShapeOf(a, ida, ra), ShapeOf(b, idb, rb));
    }
  }

  /**
   * The signature depends only on kinds and child lists: two arenas that
   * agree on those (whatever their descriptions, statuses and outcomes)
   * have equal shapes.
   */
  lemma {:induction false} ShapeIgnoresLabels(a: Arena, b: Arena, id: GoalId, rank: map<GoalId, nat>)
    requires Ranked(a, rank) && SameTree(a, b)
    ensures Ranked(b, rank)
    ensures ShapeOf(a, id, rank) == ShapeOf(b, id, rank)
    decreases Height(rank, id)
  {
    SameTreeRanked(a, b, rank);
    if id in a {
      var cs := a[id].children;
      forall i | 0 <= i < |cs| ensures ShapeOf(a, cs[i], rank) == ShapeOf(b, cs[i], rank) {
        ShapeIgnoresLabels(a, b, cs[i], rank);
      }
    }
  }

  /**
   * Renaming every goal id consistently (and leaving dangling children
   * dangling) does not change the shape: plans that differ only in ids and
   * labels get equal signatures.
   */
  ghost predicate Renames(a: Arena, b: Arena, f: map<GoalId, GoalId>)
  {
    forall k :: k in a ==>
      (k in f && f[k] in b &&
       b[f[k]].goalType == a[k].goalType &&
       |b[f[k]].children| == |a[k].children| &&
       forall i :: 0 <= i < |a[k].children| ==>
         (a[k].children[i] in a ==> a[k].children[i] in f && b[f[k]].children[i] == f[a[k].children[i]]) &&
         (a[k].children[i] !in a ==> b[f[k]].children[i] !in b))
  }

  lemma {:induction false} ShapeRenaming(a: Arena, ra: map<GoalId, nat>, b: Arena, rb: map<GoalId, nat>,
                                         f: map<GoalId, GoalId>, id: GoalId)
    requires Ranked(a, ra) && Ranked(b, rb) && Renames(a, b, f)
    requires id in a
    ensures ShapeOf(a, id, ra) == ShapeOf(b, f[id], rb)
    decreases Height(ra, id)
  {
    var cs := a[id].children;
    var ds := b[f[id]].children;
    forall i | 0 <= i < |cs| ensures ShapeOf(a, cs[i], ra) == ShapeOf(b, ds[i], rb) {
      if cs[i] in a {
        ShapeRenaming(a, ra, b, rb, f, cs[i]);
      }
    }
  }

  /** Executing a plan never changes its signature. */
  lemma WalkKeepsShape(goals: Arena, id: GoalId, root: GoalId, leaf: Goal -> LeafResult, rank: map<GoalId, nat>)
    requires Ranked(goals, rank)
    ensures Ranked(Walk(goals, id, leaf, rank).goals, rank)
    ensures ShapeOf(goals, root, rank) == ShapeOf(Walk(goals, id, leaf, rank).goals, root, rank)
  {
    ShapeIgnoresLabels(goals, Walk(goals, id, leaf, rank).goals, root, rank);
  }
}
