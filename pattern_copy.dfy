/**
 * What `GoalPlanner.apply_pattern` (jarvis_planner.py) produces: a copy of
 * every goal reachable from the pattern's root, made in preorder, each copy
 * taking the next fresh id. This module defines how many ids a subtree
 * consumes, which ids the copies of a goal's children receive, and the
 * predicate `Copied` that says a new goal is a faithful copy of its origin.
 */
module PatternCopy {
  import opened Common
  import opened OrderedDicts
  import opened PlannerTypes
  import opened PlanTree

  /** The number of goals `copy_tree` creates below (and including) `id`. */
  ghost function TreeSize(src: Arena, id: GoalId, rank: map<GoalId, nat>): (n: nat)
    requires Ranked(src, rank)
    ensures n > 0 <==> id in src
    decreases Height(rank, id), 1
  {
    if id !in src then 0 else 1 + ForestSize(src, src[id].children, rank, rank[id])
  }

  ghost function ForestSize(src: Arena, cs: seq<GoalId>, rank: map<GoalId, nat>, bound: nat): nat
    requires Ranked(src, rank) && Below(cs, rank, bound)
    decreases bound, 0, |cs|
  {
    if |cs| == 0 then 0 else TreeSize(src, cs[0], rank) + ForestSize(src, cs[1..], rank, bound)
  }

  /** The children that exist in the pattern, in order: the ones that get copied. */
  function PresentChildren(src: Arena, cs: seq<GoalId>): (r: seq<GoalId>)
    ensures forall k :: 0 <= k < |r| ==> r[k] in src
  {
    if |cs| == 0 then [] else (if cs[0] in src then [cs[0]] else []) + PresentChildren(src, cs[1..])
  }

  /**
   * Positions in the fresh-id sequence taken by the copies of the children
   * `cs`, when the first of them is copied at position `start`.
   */
  ghost function CopiedIdx(src: Arena, cs: seq<GoalId>, start: nat, rank: map<GoalId, nat>, bound: nat): (r: seq<nat>)
    requires Ranked(src, rank) && Below(cs, rank, bound)
    ensures |r| == |PresentChildren(src, cs)|
    ensures forall k :: 0 <= k < |r| ==> start <= r[k]
    decreases |cs|
  {
    if |cs| == 0 then []
    else
      var rest := CopiedIdx(src, cs[1..], start + TreeSize(src, cs[0], rank), rank, bound);
      if cs[0] in src then [start] + rest else rest
  }

  /**
   * The new goal built from pattern goal `s`: description, kind, prompt
   * template, target outcome and prerequisites are copied, the estimated
   * costs are the pattern's actual costs, and everything else starts empty.
   */
  function CopyGoal(s: Goal, id: GoalId, parent: Option<GoalId>, planId: string, children: seq<GoalId>): (g: Goal)
    ensures g.id == id && g.parentId == parent && g.planId == Some(planId) && g.children == children
    ensures g.description == s.description && g.goalType == s.goalType && g.promptTemplate == s.promptTemplate
    ensures g.targetOutcome == s.targetOutcome && g.prerequisites == s.prerequisites
    ensures g.costAnalysis.estimatedCosts == s.costAnalysis.actualCosts
    ensures g.status == Pending && g.actualOutcome == None
  {
    Goal(id, parent, Some(planId), s.description, s.goalType, s.promptTemplate, children,
         s.prerequisites, Pending, s.targetOutcome, None,
         EmptyCosts().(estimatedCosts := s.costAnalysis.actualCosts))
  }

  ghost predicate Distinct(ids: seq<GoalId>)
  {
    forall i, j :: 0 <= i < j < |ids| ==> ids[i] != ids[j]
  }

  /**
   * The goal `id` of `goals` is the copy of pattern goal `o`: it is
   * `CopyGoal` of it, and its children are, in order, the copies of `o`'s
   * present children, at the positions `CopiedIdx` gives, each pointing back
   * to `id` as its parent.
   */
  ghost predicate CopyOf(goals: Arena, src: Arena, rank: map<GoalId, nat>, ids: seq<GoalId>,
                         origin: map<GoalId, GoalId>, planId: string, id: GoalId, o: GoalId, start: nat)
  {
    Ranked(src, rank) && o in src && id in goals &&
    var s := src[o];
    var g := goals[id];
    var idx := CopiedIdx(src, s.children, start, rank, rank[o]);
    var pc := PresentChildren(src, s.children);
    g == CopyGoal(s, id, g.parentId, planId, g.children) &&
    |g.children| == |idx| &&
    forall k :: 0 <= k < |idx| ==>
      idx[k] < |ids| && g.children[k] == ids[idx[k]] &&
      g.children[k] in goals && goals[g.children[k]].parentId == Some(id) &&
      g.children[k] in origin && origin[g.children[k]] == pc[k]
  }

  /** The goal at fresh-id position `j` is the copy of its origin. */
  ghost predicate Copied(goals: Arena, src: Arena, rank: map<GoalId, nat>, ids: seq<GoalId>,
                         origin: map<GoalId, GoalId>, planId: string, j: nat)
  {
    j < |ids| && ids[j] in origin &&
    CopyOf(goals, src, rank, ids, origin, planId, ids[j], origin[ids[j]], j + 1)
  }

  /** `Copied` survives adding goals and origins, as long as nothing it looked at changes. */
  lemma CopiedGrow(a: Arena, b: Arena, src: Arena, rank: map<GoalId, nat>, ids: seq<GoalId>,
                   oa: map<GoalId, GoalId>, ob: map<GoalId, GoalId>, planId: string, j: nat)
    requires Copied(a, src, rank, ids, oa, planId, j)
    requires forall k :: k in a ==> k in b && b[k] == a[k]
    requires forall k :: k in oa ==> k in ob && ob[k] == oa[k]
    ensures Copied(b, src, rank, ids, ob, planId, j)
  {
  }

  /**
   * `Copied` for position `j` survives replacing the goal at an earlier
   * fresh-id position: that goal is neither the copy itself nor one of its
   * children, whose positions all come after `j`.
   */
  lemma CopiedUpdate(a: Arena, src: Arena, rank: map<GoalId, nat>, ids: seq<GoalId>,
                     origin: map<GoalId, GoalId>, planId: string, j: nat, pos: nat, v: Goal)
    requires Copied(a, src, rank, ids, origin, planId, j)
    requires Distinct(ids) && pos < j
    ensures Copied(a[ids[pos] := v], src, rank, ids, origin, planId, j)
  {
    var b := a[ids[pos] := v];
    var o := origin[ids[j]];
    var g := a[ids[j]];
    var idx := CopiedIdx(src, src[o].children, j + 1, rank, rank[o]);
    assert b[ids[j]] == g;
    forall k | 0 <= k < |idx| ensures g.children[k] in b && b[g.children[k]] == a[g.children[k]] {
      assert g.children[k] == ids[idx[k]] && idx[k] > pos;
    }
  }

  /** Every goal of the table is stored under its own id. */
  ghost predicate Keyed(m: Arena)
  {
    forall k :: k in m ==> m[k].id == k
  }

  /**
   * `copy_tree` inside `apply_pattern`, on the goal table `goals` of plan
   * `planId`: copies the pattern goal `srcId` and, recursively, its present
   * children, in preorder, taking ids from position `pos` on. Returns the
   * new id (None for a missing goal), the next unused position and the new
   * table; the ghost `origin` maps each new id to the pattern goal it copies.
   */
  method CopyInto(goals: ODict<GoalId, Goal>, planId: string, src: Arena, srcId: GoalId, parent: Option<GoalId>,
                  ids: seq<GoalId>, pos: nat, ghost rank: map<GoalId, nat>)
    returns (newId: Option<GoalId>, next: nat, r: ODict<GoalId, Goal>, ghost origin: map<GoalId, GoalId>)
    requires Keyed(goals.m) && Ranked(src, rank) && Distinct(ids)
    requires forall j :: pos <= j < |ids| ==> ids[j] !in goals.m
    requires pos + TreeSize(src, srcId, rank) <= |ids|
    ensures Keyed(r.m)
    ensures next == pos + TreeSize(src, srcId, rank)
    ensures Framed(goals, r, origin, ids, pos, next)
    ensures srcId !in src ==> newId == None && r == goals
    ensures srcId in src ==> newId == Some(ids[pos]) && ids[pos] in r.m && r.m[ids[pos]].parentId == parent &&
                             ids[pos] in origin && origin[ids[pos]] == srcId
    ensures CopiedRange(r.m, src, rank, ids, origin, planId, pos, next)
    decreases Height(rank, srcId), 1
  {
    if srcId !in src {
      return None, pos, goals, map[];
    }
    var s := src[srcId];
    var id := ids[pos];
    r := Put(goals, id, CopyGoal(s, id, parent, planId, []));
    origin := map[id := srcId];
    var cs := s.children;
    ghost var bound := rank[srcId];
    ghost var done: seq<nat> := [];
    ghost var donePc: seq<GoalId> := [];
    var kids: seq<GoalId> := [];
    next := pos + 1;
    var i := 0;
    IndexStart(src, cs, pos, rank, bound);
    assert ids[pos..next] == [id];
    while i < |cs|
      invariant i <= |cs|
      invariant Progress(goals, planId, src, srcId, parent, ids, pos, rank, i, next, r, origin, kids, done, donePc)
    {
      next, r, origin, kids, done, donePc := CopyChild(goals, planId, src, srcId, parent, ids, pos, rank,
                                                       i, next, r, origin, kids, done, donePc);
      i := i + 1;
    }
    IndexDone(src, cs, pos, rank, bound, done, donePc, next);
    CopiedRoot(r.m, src, rank, ids, origin, planId, pos, next, parent, kids, done, donePc);
    newId := Some(id);
  }

  /** One pass of `copy_tree`'s loop over the children: copies child `i` and links it under the new goal. */
  method CopyChild(goals: ODict<GoalId, Goal>, planId: string, src: Arena, srcId: GoalId, parent: Option<GoalId>,
                   ids: seq<GoalId>, pos: nat, ghost rank: map<GoalId, nat>,
                   i: nat, next: nat, r: ODict<GoalId, Goal>, ghost origin: map<GoalId, GoalId>,
                   kids: seq<GoalId>, ghost done: seq<nat>, ghost donePc: seq<GoalId>)
    returns (next2: nat, r2: ODict<GoalId, Goal>, ghost origin2: map<GoalId, GoalId>,
             kids2: seq<GoalId>, ghost done2: seq<nat>, ghost donePc2: seq<GoalId>)
    requires Ranked(src, rank) && Distinct(ids) && srcId in src && i < |src[srcId].children|
    requires forall j :: pos <= j < |ids| ==> ids[j] !in goals.m
    requires pos + TreeSize(src, srcId, rank) <= |ids|
    requires Progress(goals, planId, src, srcId, parent, ids, pos, rank, i, next, r, origin, kids, done, donePc)
    ensures Progress(goals, planId, src, srcId, parent, ids, pos, rank, i + 1, next2, r2, origin2, kids2, done2, donePc2)
    decreases rank[srcId], 0
  {
    var s := src[srcId];
    var id := ids[pos];
    var cs := s.children;
    ghost var bound := rank[srcId];
    var c := cs[i];
    ForestStep(src, cs, i, next, rank, bound);
    UnusedBeyond(r, goals, ids, pos, next);
    var cr, after, rc, co := CopyInto(r, planId, src, c, Some(id), ids, next, rank);
    IndexStep(src, cs, i, pos, next, after, rank, bound, done, cr.Some?);
    PresentStep(src, cs, i, donePc, cr.Some?);
    FramedGrow(goals, r, rc, origin, co, ids, pos, next, after);
    KidsGrow(r.m, rc.m, origin, co, ids, id, kids, done, donePc, pos, next, after, cr, c);
    CopiedGrowRange(r.m, rc.m, src, rank, ids, origin, co, planId, pos + 1, next, after);
    r2, origin2, next2 := rc, origin + co, after;
    kids2, done2, donePc2 := kids, done, donePc;
    if cr.Some? {
      kids2, done2, donePc2 := kids + [cr.value], done + [next], donePc + [c];
      var g := CopyGoal(s, id, parent, planId, kids2);
      KidsPut(r2.m, origin2, ids, id, kids2, done2, donePc2, pos, after, g);
      CopiedRangeUpdate(r2.m, src, rank, ids, origin2, planId, pos + 1, after, pos, g);
      FramedPut(goals, r2, origin2, ids, pos, after, id, g);
      r2 := Put(r2, id, g);
    }
  }

  /**
   * The state of `copy_tree`'s loop after the first `i` children of `srcId`:
   * the copy of `srcId` sits at position `pos` with the children linked so
   * far, and the copies of the walked subtrees fill positions up to `next`.
   */
  ghost predicate Progress(goals: ODict<GoalId, Goal>, planId: string, src: Arena, srcId: GoalId, parent: Option<GoalId>,
                           ids: seq<GoalId>, pos: nat, rank: map<GoalId, nat>, i: nat, next: nat,
                           r: ODict<GoalId, Goal>, origin: map<GoalId, GoalId>,
                           kids: seq<GoalId>, done: seq<nat>, donePc: seq<GoalId>)
  {
    Ranked(src, rank) && srcId in src && pos < |ids| && pos < next &&
    var cs := src[srcId].children;
    i <= |cs| &&
    next + ForestSize(src, cs[i..], rank, rank[srcId]) == pos + TreeSize(src, srcId, rank) &&
    IndexInv(src, cs, pos, rank, rank[srcId], done, i, next) && PresentInv(src, cs, donePc, i) &&
    Keyed(r.m) && Framed(goals, r, origin, ids, pos, next) &&
    ids[pos] in r.m && r.m[ids[pos]] == CopyGoal(src[srcId], ids[pos], parent, planId, kids) &&
    ids[pos] in origin && origin[ids[pos]] == srcId &&
    KidsOk(r.m, origin, ids, ids[pos], kids, done, donePc, pos, next) &&
    CopiedRange(r.m, src, rank, ids, origin, planId, pos + 1, next)
  }

  /**
   * The table `r` is `goals` with the ids at positions `pos..next` appended,
   * every old goal unchanged, and every id of `origin` new.
   */
  ghost predicate Framed(goals: ODict<GoalId, Goal>, r: ODict<GoalId, Goal>, origin: map<GoalId, GoalId>,
                         ids: seq<GoalId>, pos: nat, next: nat)
  {
    pos <= next <= |ids| && r.keys == goals.keys + ids[pos..next] &&
    (forall k :: k in goals.m ==> k in r.m && r.m[k] == goals.m[k]) &&
    (forall k :: k in origin ==> k in r.m && k !in goals.m)
  }

  /** The goals at positions `lo..hi` are copies of their origins. */
  ghost predicate CopiedRange(m: Arena, src: Arena, rank: map<GoalId, nat>, ids: seq<GoalId>,
                              origin: map<GoalId, GoalId>, planId: string, lo: nat, hi: nat)
  {
    forall j :: lo <= j < hi ==> Copied(m, src, rank, ids, origin, planId, j)
  }

  /**
   * The children copied so far under `id`: `kids[k]` is the copy taken at
   * position `done[k]`, points back to `id`, and copies `donePc[k]`.
   */
  ghost predicate KidsOk(m: Arena, origin: map<GoalId, GoalId>, ids: seq<GoalId>, id: GoalId,
                         kids: seq<GoalId>, done: seq<nat>, donePc: seq<GoalId>, pos: nat, next: nat)
  {
    |kids| == |done| == |donePc| &&
    forall k :: 0 <= k < |done| ==>
      pos < done[k] < next && done[k] < |ids| && kids[k] == ids[done[k]] && kids[k] in m &&
      m[kids[k]].parentId == Some(id) && kids[k] in origin && origin[kids[k]] == donePc[k]
  }

  lemma ForestStep(src: Arena, cs: seq<GoalId>, i: nat, next: nat, rank: map<GoalId, nat>, bound: nat)
    requires Ranked(src, rank) && Below(cs, rank, bound) && i < |cs|
    ensures ForestSize(src, cs[i..], rank, bound) == TreeSize(src, cs[i], rank) + ForestSize(src, cs[i + 1..], rank, bound)
  {
    assert cs[i..][0] == cs[i] && cs[i..][1..] == cs[i + 1..];
  }

  /**
   * The copy positions `done` taken by the children walked so far are the
   * prefix of the whole list's, and the rest start at `next`.
   */
  ghost predicate IndexInv(src: Arena, cs: seq<GoalId>, pos: nat, rank: map<GoalId, nat>, bound: nat,
                           done: seq<nat>, i: nat, next: nat)
  {
    Ranked(src, rank) && Below(cs, rank, bound) && i <= |cs| &&
    CopiedIdx(src, cs, pos + 1, rank, bound) == done + CopiedIdx(src, cs[i..], next, rank, bound)
  }

  /** The present children walked so far, `donePc`, are the prefix of the whole list's. */
  ghost predicate PresentInv(src: Arena, cs: seq<GoalId>, donePc: seq<GoalId>, i: nat)
  {
    i <= |cs| && PresentChildren(src, cs) == donePc + PresentChildren(src, cs[i..])
  }

  /** Walking past child `cs[i]` moves its copy position (if it is present) into `done`. */
  lemma IndexStep(src: Arena, cs: seq<GoalId>, i: nat, pos: nat, next: nat, after: nat, rank: map<GoalId, nat>, bound: nat,
                  done: seq<nat>, present: bool)
    requires IndexInv(src, cs, pos, rank, bound, done, i, next) && i < |cs|
    requires after == next + TreeSize(src, cs[i], rank) && present == (cs[i] in src)
    ensures present ==> IndexInv(src, cs, pos, rank, bound, done + [next], i + 1, after)
    ensures !present ==> IndexInv(src, cs, pos, rank, bound, done, i + 1, after)
  {
    IdxUnfold(src, cs, i, next, rank, bound);
    if present {
      SnocAssoc(done, next, CopiedIdx(src, cs[i + 1..], after, rank, bound));
    } else {
      EmptyAssoc(done, CopiedIdx(src, cs[i + 1..], after, rank, bound));
    }
  }

  /** Walking past child `cs[i]` moves it (if it is present) into `donePc`. */
  lemma PresentStep(src: Arena, cs: seq<GoalId>, i: nat, donePc: seq<GoalId>, present: bool)
    requires PresentInv(src, cs, donePc, i) && i < |cs| && present == (cs[i] in src)
    ensures present ==> PresentInv(src, cs, donePc + [cs[i]], i + 1)
    ensures !present ==> PresentInv(src, cs, donePc, i + 1)
  {
    PresentUnfold(src, cs, i);
    if present {
      SnocAssoc(donePc, cs[i], PresentChildren(src, cs[i + 1..]));
    } else {
      EmptyAssoc(donePc, PresentChildren(src, cs[i + 1..]));
    }
  }

  lemma SnocAssoc<T>(a: seq<T>, x: T, b: seq<T>)
    ensures a + ([x] + b) == (a + [x]) + b
  {
  }

  lemma EmptyAssoc<T>(a: seq<T>, b: seq<T>)
    ensures a + ([] + b) == a + b
  {
  }

  lemma IdxUnfold(src: Arena, cs: seq<GoalId>, i: nat, next: nat, rank: map<GoalId, nat>, bound: nat)
    requires Ranked(src, rank) && Below(cs, rank, bound) && i < |cs|
    ensures CopiedIdx(src, cs[i..], next, rank, bound) ==
      (if cs[i] in src then [next] else []) + CopiedIdx(src, cs[i + 1..], next + TreeSize(src, cs[i], rank), rank, bound)
  {
    assert cs[i..][0] == cs[i] && cs[i..][1..] == cs[i + 1..];
  }

  lemma PresentUnfold(src: Arena, cs: seq<GoalId>, i: nat)
    requires i < |cs|
    ensures PresentChildren(src, cs[i..]) == (if cs[i] in src then [cs[i]] else []) + PresentChildren(src, cs[i + 1..])
  {
    assert cs[i..][0] == cs[i] && cs[i..][1..] == cs[i + 1..];
  }

  lemma IndexStart(src: Arena, cs: seq<GoalId>, pos: nat, rank: map<GoalId, nat>, bound: nat)
    requires Ranked(src, rank) && Below(cs, rank, bound)
    ensures IndexInv(src, cs, pos, rank, bound, [], 0, pos + 1) && PresentInv(src, cs, [], 0)
  {
    assert cs[0..] == cs;
  }

  lemma IndexDone(src: Arena, cs: seq<GoalId>, pos: nat, rank: map<GoalId, nat>, bound: nat,
                  done: seq<nat>, donePc: seq<GoalId>, next: nat)
    requires IndexInv(src, cs, pos, rank, bound, done, |cs|, next) && PresentInv(src, cs, donePc, |cs|)
    ensures done == CopiedIdx(src, cs, pos + 1, rank, bound) && donePc == PresentChildren(src, cs)
  {
    assert cs[|cs|..] == [];
  }

  /** The recursive copy of one child extends the table, the positions and the origins. */
  lemma FramedGrow(goals: ODict<GoalId, Goal>, r: ODict<GoalId, Goal>, r2: ODict<GoalId, Goal>,
                   origin: map<GoalId, GoalId>, co: map<GoalId, GoalId>, ids: seq<GoalId>, pos: nat, next: nat, after: nat)
    requires Framed(goals, r, origin, ids, pos, next) && Framed(r, r2, co, ids, next, after)
    ensures Framed(goals, r2, origin + co, ids, pos, after)
  {
    assert ids[pos..after] == ids[pos..next] + ids[next..after];
  }

  /** Rewriting a goal that is already new keeps the table framed. */
  lemma FramedPut(goals: ODict<GoalId, Goal>, r: ODict<GoalId, Goal>, origin: map<GoalId, GoalId>,
                  ids: seq<GoalId>, pos: nat, next: nat, id: GoalId, g: Goal)
    requires Framed(goals, r, origin, ids, pos, next) && id in r.m && id !in goals.m
    requires Keyed(r.m) && g.id == id
    ensures Framed(goals, Put(r, id, g), origin, ids, pos, next)
    ensures Keyed(Put(r, id, g).m)
  {
  }

  /** The children copied so far stay valid while a later child is copied, and gain it if it was present. */
  lemma KidsGrow(m: Arena, m2: Arena, origin: map<GoalId, GoalId>, co: map<GoalId, GoalId>, ids: seq<GoalId>,
                 id: GoalId, kids: seq<GoalId>, done: seq<nat>, donePc: seq<GoalId>, pos: nat, next: nat, after: nat,
                 cr: Option<GoalId>, c: GoalId)
    requires KidsOk(m, origin, ids, id, kids, done, donePc, pos, next) && pos < next <= after <= |ids|
    requires forall k :: k in m ==> k in m2 && m2[k] == m[k]
    requires forall k :: k in co ==> k !in m
    requires cr.Some? ==> next < after && cr.value == ids[next] && ids[next] in m2 && m2[ids[next]].parentId == Some(id) &&
                          ids[next] in co && co[ids[next]] == c
    ensures cr.Some? ==> KidsOk(m2, origin + co, ids, id, kids + [cr.value], done + [next], donePc + [c], pos, after)
    ensures cr.None? ==> KidsOk(m2, origin + co, ids, id, kids, done, donePc, pos, after)
  {
  }

  /** Rewriting the parent's own entry does not touch any copied child. */
  lemma KidsPut(m: Arena, origin: map<GoalId, GoalId>, ids: seq<GoalId>, id: GoalId, kids: seq<GoalId>,
                done: seq<nat>, donePc: seq<GoalId>, pos: nat, next: nat, g: Goal)
    requires KidsOk(m, origin, ids, id, kids, done, donePc, pos, next) && Distinct(ids) && pos < |ids| && id == ids[pos]
    ensures KidsOk(m[id := g], origin, ids, id, kids, done, donePc, pos, next)
  {
    forall k | 0 <= k < |done| ensures kids[k] != id {
      assert ids[done[k]] != ids[pos];
    }
  }

  lemma CopiedGrowRange(m: Arena, m2: Arena, src: Arena, rank: map<GoalId, nat>, ids: seq<GoalId>,
                        origin: map<GoalId, GoalId>, co: map<GoalId, GoalId>, planId: string, lo: nat, next: nat, after: nat)
    requires CopiedRange(m, src, rank, ids, origin, planId, lo, next)
    requires CopiedRange(m2, src, rank, ids, co, planId, next, after)
    requires forall k :: k in m ==> k in m2 && m2[k] == m[k]
    requires forall k :: k in co ==> k !in m
    requires forall k :: k in origin ==> k in m
    ensures CopiedRange(m2, src, rank, ids, origin + co, planId, lo, after)
  {
    forall j | lo <= j < next ensures Copied(m2, src, rank, ids, origin + co, planId, j) {
      CopiedGrow(m, m2, src, rank, ids, origin, origin + co, planId, j);
    }
    forall j | next <= j < after ensures Copied(m2, src, rank, ids, origin + co, planId, j) {
      CopiedGrow(m2, m2, src, rank, ids, co, origin + co, planId, j);
    }
  }

  lemma CopiedRangeUpdate(m: Arena, src: Arena, rank: map<GoalId, nat>, ids: seq<GoalId>,
                          origin: map<GoalId, GoalId>, planId: string, lo: nat, hi: nat, pos: nat, v: Goal)
    requires CopiedRange(m, src, rank, ids, origin, planId, lo, hi) && Distinct(ids) && pos < lo && pos < |ids|
    ensures CopiedRange(m[ids[pos] := v], src, rank, ids, origin, planId, lo, hi)
  {
    var b := m[ids[pos] := v];
    forall j | lo <= j < hi ensures Copied(b, src, rank, ids, origin, planId, j) {
      CopiedUpdate(m, src, rank, ids, origin, planId, j, pos, v);
    }
  }

  /** Once every child is done, the goal at `pos` is the copy of `srcId`. */
  lemma CopiedRoot(m: Arena, src: Arena, rank: map<GoalId, nat>, ids: seq<GoalId>, origin: map<GoalId, GoalId>,
                   planId: string, pos: nat, next: nat, parent: Option<GoalId>,
                   kids: seq<GoalId>, done: seq<nat>, donePc: seq<GoalId>)
    requires Ranked(src, rank) && pos < |ids| && ids[pos] in origin && origin[ids[pos]] in src
    requires var o := origin[ids[pos]];
      done == CopiedIdx(src, src[o].children, pos + 1, rank, rank[o]) &&
      donePc == PresentChildren(src, src[o].children) &&
      ids[pos] in m && m[ids[pos]] == CopyGoal(src[o], ids[pos], parent, planId, kids)
    requires KidsOk(m, origin, ids, ids[pos], kids, done, donePc, pos, next)
    requires CopiedRange(m, src, rank, ids, origin, planId, pos + 1, next)
    ensures CopiedRange(m, src, rank, ids, origin, planId, pos, next)
  {
    assert Copied(m, src, rank, ids, origin, planId, pos);
  }

  /** Ids at positions `p` and later are still unused after positions `pos..p` were added. */
  lemma UnusedBeyond(d: ODict<GoalId, Goal>, d0: ODict<GoalId, Goal>, ids: seq<GoalId>, pos: nat, p: nat)
    requires pos <= p <= |ids| && Distinct(ids)
    requires d.keys == d0.keys + ids[pos..p]
    requires forall j :: pos <= j < |ids| ==> ids[j] !in d0.m
    ensures forall j :: p <= j < |ids| ==> ids[j] !in d.m
  {
    forall j | p <= j < |ids| ensures ids[j] !in d.m {
      InKeys(d, ids[j]);
      InKeys(d0, ids[j]);
    }
  }

  // ------------------------------------------------- ranks of the copies

  /** The children that are copied rank below their parent, as all children do. */
  lemma {:induction false} PresentChildrenBelow(src: Arena, cs: seq<GoalId>, rank: map<GoalId, nat>, bound: nat)
    requires Below(cs, rank, bound)
    ensures Below(PresentChildren(src, cs), rank, bound)
  {
    if |cs| > 0 {
      PresentChildrenBelow(src, cs[1..], rank, bound);
    }
  }

  /** The rank a table of copies inherits from the pattern: a copy ranks as its origin, any other goal 0. */
  ghost function InheritedRank(m: Arena, origin: map<GoalId, GoalId>, rank: map<GoalId, nat>): map<GoalId, nat>
  {
    map k | k in m :: if k in origin && origin[k] in rank then rank[origin[k]] else 0
  }

  /** A goal that is a copy keeps its children below it under the inherited rank. */
  lemma CopyBelow(m: Arena, src: Arena, rank: map<GoalId, nat>, ids: seq<GoalId>,
                  origin: map<GoalId, GoalId>, planId: string, j: nat)
    requires Copied(m, src, rank, ids, origin, planId, j)
    ensures ids[j] in m &&
            Below(m[ids[j]].children, InheritedRank(m, origin, rank), InheritedRank(m, origin, rank)[ids[j]])
  {
    var id := ids[j];
    var o := origin[id];
    var pc := PresentChildren(src, src[o].children);
    PresentChildrenBelow(src, src[o].children, rank, rank[o]);
    var r := InheritedRank(m, origin, rank);
    var g := m[id];
    forall k | 0 <= k < |g.children| ensures g.children[k] in r && r[g.children[k]] < r[id] {
      assert origin[g.children[k]] == pc[k];
    }
  }

  /**
   * A table holding the copies of the positions `0..n` of `ids` and, apart
   * from them, only childless goals is ranked by the inherited rank: a
   * copied plan is as acyclic as its pattern.
   */
  lemma CopyRanked(m: Arena, src: Arena, rank: map<GoalId, nat>, ids: seq<GoalId>,
                   origin: map<GoalId, GoalId>, planId: string, n: nat)
    requires CopiedRange(m, src, rank, ids, origin, planId, 0, n)
    requires n <= |ids|
    requires forall k :: k in m ==> m[k].children == [] || exists j :: 0 <= j < n && ids[j] == k
    ensures Ranked(m, InheritedRank(m, origin, rank))
  {
    forall k | k in m ensures Below(m[k].children, InheritedRank(m, origin, rank), InheritedRank(m, origin, rank)[k]) {
      if m[k].children != [] {
        var j :| 0 <= j < n && ids[j] == k;
        CopyBelow(m, src, rank, ids, origin, planId, j);
      }
    }
  }
  // ---------------------------------------------------------- signature

  /** Every child id listed in the arena is a goal of it. */
  ghost predicate NoDangling(src: Arena)
  {
    forall k, i :: k in src && 0 <= i < |src[k].children| ==> src[k].children[i] in src
  }

  /** Every copy recorded in `origin` sits at one of the positions `0..n`. */
  ghost predicate CopiesClosed(ids: seq<GoalId>, origin: map<GoalId, GoalId>, n: nat)
  {
    forall k :: k in origin ==> exists j :: 0 <= j < n && j < |ids| && ids[j] == k
  }

  lemma {:induction false} PresentAll(src: Arena, cs: seq<GoalId>)
    requires forall i :: 0 <= i < |cs| ==> cs[i] in src
    ensures PresentChildren(src, cs) == cs
  {
    if |cs| > 0 {
      PresentAll(src, cs[1..]);
      assert [cs[0]] + cs[1..] == cs;
    }
  }

  /**
   * A copy has the shape of its origin when the pattern has no dangling
   * child: kinds and child lists are copied one to one, so the copied plan
   * gets the pattern's signature.
   */
  lemma {:induction false} CopyShape(m: Arena, src: Arena, rank: map<GoalId, nat>, ids: seq<GoalId>,
                                     origin: map<GoalId, GoalId>, planId: string, n: nat,
                                     r2: map<GoalId, nat>, id: GoalId)
    requires CopiedRange(m, src, rank, ids, origin, planId, 0, n) && CopiesClosed(ids, origin, n)
    requires NoDangling(src) && Ranked(src, rank) && Ranked(m, r2)
    requires id in origin
    ensures origin[id] in src && ShapeOf(m, id, r2) == ShapeOf(src, origin[id], rank)
    decreases Height(rank, origin[id])
  {
    var j :| 0 <= j < n && j < |ids| && ids[j] == id;
    assert Copied(m, src, rank, ids, origin, planId, j);
    var o := origin[id];
    var s := src[o];
    var g := m[id];
    var pc := PresentChildren(src, s.children);
    PresentAll(src, s.children);
    assert g.goalType == s.goalType && |g.children| == |s.children|;
    forall k | 0 <= k < |g.children| ensures ShapeOf(m, g.children[k], r2) == ShapeOf(src, s.children[k], rank) {
      var c := g.children[k];
      assert c in origin && origin[c] == pc[k];
      assert rank[s.children[k]] < rank[o];
      CopyShape(m, src, rank, ids, origin, planId, n, r2, c);
    }
  }
}
