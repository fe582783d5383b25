/**
 * The cost roll-up of `GoalPlanner.analyze_costs` (jarvis_planner.py):
 * per-key sums of the goals' estimated and actual cost dictionaries, taken
 * in goal-table order, and the concatenation of their risks.
 */
module PlanCosts {
  import opened Common
  import opened OrderedDicts
  import opened PlannerTypes

  /** Adds `d[k]` into `acc[k]` (a missing key counts 0) for each key of `ks` in turn. */
  function AddKeys(acc: CostDict, d: CostDict, ks: seq<string>): CostDict
  {
    if |ks| == 0 then acc
    else
      var k := ks[|ks| - 1];
      AddOne(AddKeys(acc, d, ks[..|ks| - 1]), k, GetOr(d, k, 0.0))
  }

  /** `acc[k] = acc.get(k, 0) + amount`. */
  function AddOne(acc: CostDict, k: string, amount: real): (r: CostDict)
    ensures r.m == acc.m[k := GetOr(acc, k, 0.0) + amount]
    ensures k in acc.m ==> r.keys == acc.keys
    ensures k !in acc.m ==> r.keys == acc.keys + [k]
  {
    Put(acc, k, GetOr(acc, k, 0.0) + amount)
  }

  /** The loop `for cost_type, amount in d.items(): acc[cost_type] = acc.get(cost_type, 0) + amount`. */
  function AddAll(acc: CostDict, d: CostDict): CostDict
  {
    AddKeys(acc, d, d.keys)
  }

  function ValuesAt(d: CostDict, ks: seq<string>): seq<real>
    requires forall i :: 0 <= i < |ks| ==> ks[i] in d.m
  {
    seq(|ks|, i requires 0 <= i < |ks| => d.m[ks[i]])
  }

  lemma {:induction false} AddKeysPointwise(acc: CostDict, d: CostDict, ks: seq<string>, k: string)
    requires forall i :: 0 <= i < |ks| ==> ks[i] in d.m
    requires forall i, j :: 0 <= i < j < |ks| ==> ks[i] != ks[j]
    ensures GetOr(AddKeys(acc, d, ks), k, 0.0) == GetOr(acc, k, 0.0) + (if k in ks then d.m[k] else 0.0)
    ensures k in AddKeys(acc, d, ks).m <==> k in acc.m || k in ks
  {
    if |ks| > 0 {
      var init := ks[..|ks| - 1];
      AddKeysPointwise(acc, d, init, k);
      assert ks == init + [ks[|ks| - 1]];
      if k == ks[|ks| - 1] {
        assert k !in init;
      }
    }
  }

  /** After the loop each key holds the old amount plus the added one, and the key set is the union. */
  lemma AddAllPointwise(acc: CostDict, d: CostDict, k: string)
    ensures GetOr(AddAll(acc, d), k, 0.0) == GetOr(acc, k, 0.0) + GetOr(d, k, 0.0)
    ensures k in AddAll(acc, d).m <==> k in acc.m || k in d.m
  {
    AddKeysPointwise(acc, d, d.keys, k);
    InKeys(d, k);
  }

  lemma {:induction false} AddKeysSum(acc: CostDict, d: CostDict, ks: seq<string>)
    requires forall i :: 0 <= i < |ks| ==> ks[i] in d.m
    ensures SumValues(AddKeys(acc, d, ks)) == SumValues(acc) + SumReals(ValuesAt(d, ks))
  {
    if |ks| == 0 {
      assert ValuesAt(d, ks) == [];
    } else {
      var init := ks[..|ks| - 1];
      var k := ks[|ks| - 1];
      var prev := AddKeys(acc, d, init);
      assert AddKeys(acc, d, ks) == AddOne(prev, k, GetOr(d, k, 0.0));
      AddOneSum(prev, k, d.m[k]);
      AddKeysSum(acc, d, init);
      ValuesAtSnoc(d, ks);
    }
  }

  /** Adding `amount` to one key adds `amount` to the total. */
  lemma AddOneSum(acc: CostDict, k: string, amount: real)
    ensures SumValues(AddOne(acc, k, amount)) == SumValues(acc) + amount
  {
    SumAfterPut(acc, k, GetOr(acc, k, 0.0) + amount);
  }

  lemma ValuesAtSnoc(d: CostDict, ks: seq<string>)
    requires |ks| > 0 && forall i :: 0 <= i < |ks| ==> ks[i] in d.m
    ensures SumReals(ValuesAt(d, ks)) == SumReals(ValuesAt(d, ks[..|ks| - 1])) + d.m[ks[|ks| - 1]]
  {
    var init := ks[..|ks| - 1];
    assert ValuesAt(d, ks) == ValuesAt(d, init) + [d.m[ks[|ks| - 1]]];
    SumRealsAppend(ValuesAt(d, init), [d.m[ks[|ks| - 1]]]);
  }

  /** Adding a dictionary into an accumulator adds its total to the accumulator's total. */
  lemma AddAllSum(acc: CostDict, d: CostDict)
    ensures SumValues(AddAll(acc, d)) == SumValues(acc) + SumValues(d)
  {
    AddKeysSum(acc, d, d.keys);
    assert ValuesAt(d, d.keys) == Values(d);
  }

  /** The `CostAnalysis` that `analyze_costs` builds from the goals, in goal-table order. */
  function Aggregate(gs: seq<Goal>): (r: CostAnalysis)
    ensures r.estimatedBenefits == Empty() && r.actualBenefits == Empty() && r.riskMitigation == []
  {
    if |gs| == 0 then EmptyCosts()
    else
      var prev := Aggregate(gs[..|gs| - 1]);
      var c := gs[|gs| - 1].costAnalysis;
      prev.(estimatedCosts := AddAll(prev.estimatedCosts, c.estimatedCosts),
            actualCosts := AddAll(prev.actualCosts, c.actualCosts),
            risks := prev.risks + c.risks)
  }

  /** The prefix of `ks` one key longer adds that key's amount. */
  lemma AddKeysStep(acc: CostDict, d: CostDict, j: nat, prev: CostDict)
    requires j < |d.keys| && prev == AddKeys(acc, d, d.keys[..j])
    ensures AddKeys(acc, d, d.keys[..j + 1]) == AddOne(prev, d.keys[j], GetOr(d, d.keys[j], 0.0))
  {
    assert d.keys[..j + 1][..j] == d.keys[..j];
  }

  /** The aggregate of one more goal adds its dictionaries and appends its risks. */
  lemma AggregateStep(gs: seq<Goal>, i: nat, prev: CostAnalysis)
    requires i < |gs| && prev == Aggregate(gs[..i])
    ensures var c := gs[i].costAnalysis;
      Aggregate(gs[..i + 1]) == prev.(estimatedCosts := AddAll(prev.estimatedCosts, c.estimatedCosts),
                                      actualCosts := AddAll(prev.actualCosts, c.actualCosts),
                                      risks := prev.risks + c.risks)
  {
    assert gs[..i + 1][..i] == gs[..i];
  }

  /** Per goal: the amount recorded under key `k`, estimated or actual. */
  function Column(gs: seq<Goal>, k: string, estimated: bool): seq<real>
  {
    seq(|gs|, i requires 0 <= i < |gs| =>
      GetOr(if estimated then gs[i].costAnalysis.estimatedCosts else gs[i].costAnalysis.actualCosts, k, 0.0))
  }

  /** Per goal: its estimated or actual total. */
  function Totals(gs: seq<Goal>, estimated: bool): seq<real>
  {
    seq(|gs|, i requires 0 <= i < |gs| =>
      SumValues(if estimated then gs[i].costAnalysis.estimatedCosts else gs[i].costAnalysis.actualCosts))
  }

  /** The goals' risk lists, one after the other. */
  function AllRisks(gs: seq<Goal>): seq<string>
  {
    if |gs| == 0 then [] else gs[0].costAnalysis.risks + AllRisks(gs[1..])
  }

  lemma {:induction false} AllRisksSnoc(gs: seq<Goal>, g: Goal)
    ensures AllRisks(gs + [g]) == AllRisks(gs) + g.costAnalysis.risks
  {
    if |gs| == 0 {
      assert gs + [g] == [g];
    } else {
      assert (gs + [g])[1..] == gs[1..] + [g];
      AllRisksSnoc(gs[1..], g);
    }
  }

  /**
   * Every key's aggregated amount is the sum of that key over all goals,
   * estimated and actual separately.
   */
  lemma {:induction false} AggregatePerKey(gs: seq<Goal>, k: string, estimated: bool)
    ensures GetOr(Pick(Aggregate(gs), estimated), k, 0.0) == SumReals(Column(gs, k, estimated))
  {
    if |gs| == 0 {
      assert Column(gs, k, estimated) == [];
    } else {
      var init := gs[..|gs| - 1];
      var c := gs[|gs| - 1].costAnalysis;
      assert Pick(Aggregate(gs), estimated) == AddAll(Pick(Aggregate(init), estimated), Pick(c, estimated));
      AggregatePerKey(init, k, estimated);
      AddAllPointwise(Pick(Aggregate(init), estimated), Pick(c, estimated), k);
      ColumnSnoc(gs, k, estimated);
    }
  }

  /** A key appears in the aggregate iff some goal has it. */
  lemma {:induction false} AggregateKeys(gs: seq<Goal>, k: string, estimated: bool)
    ensures k in Pick(Aggregate(gs), estimated).m <==> SomeGoalHas(gs, k, estimated)
  {
    if |gs| > 0 {
      var init := gs[..|gs| - 1];
      var c := gs[|gs| - 1].costAnalysis;
      var prev := Pick(Aggregate(init), estimated);
      assert k in Pick(Aggregate(gs), estimated).m <==> k in prev.m || k in Pick(c, estimated).m by {
        assert Pick(Aggregate(gs), estimated) == AddAll(prev, Pick(c, estimated));
        AddAllPointwise(prev, Pick(c, estimated), k);
      }
      AggregateKeys(init, k, estimated);
      SomeGoalHasSnoc(gs, k, estimated);
    }
  }

  /** Some goal of `gs` carries key `k` in the picked dictionary. */
  ghost predicate SomeGoalHas(gs: seq<Goal>, k: string, estimated: bool)
  {
    exists i :: 0 <= i < |gs| && k in Pick(gs[i].costAnalysis, estimated).m
  }

  lemma SomeGoalHasSnoc(gs: seq<Goal>, k: string, estimated: bool)
    requires |gs| > 0
    ensures SomeGoalHas(gs, k, estimated) <==>
      SomeGoalHas(gs[..|gs| - 1], k, estimated) || k in Pick(gs[|gs| - 1].costAnalysis, estimated).m
  {
    var init := gs[..|gs| - 1];
    if SomeGoalHas(gs, k, estimated) {
      var i :| 0 <= i < |gs| && k in Pick(gs[i].costAnalysis, estimated).m;
      if i < |gs| - 1 {
        assert init[i] == gs[i];
      }
    }
    if SomeGoalHas(init, k, estimated) {
      var i :| 0 <= i < |init| && k in Pick(init[i].costAnalysis, estimated).m;
      assert gs[i] == init[i];
    }
  }

  /** The estimated or the actual cost dictionary. */
  function Pick(c: CostAnalysis, estimated: bool): CostDict
  {
    if estimated then c.estimatedCosts else c.actualCosts
  }

  lemma ColumnSnoc(gs: seq<Goal>, k: string, estimated: bool)
    requires |gs| > 0
    ensures SumReals(Column(gs, k, estimated)) ==
            SumReals(Column(gs[..|gs| - 1], k, estimated)) + GetOr(Pick(gs[|gs| - 1].costAnalysis, estimated), k, 0.0)
  {
    var init := gs[..|gs| - 1];
    var x := GetOr(Pick(gs[|gs| - 1].costAnalysis, estimated), k, 0.0);
    assert Column(gs, k, estimated) == Column(init, k, estimated) + [x];
    SumRealsAppend(Column(init, k, estimated), [x]);
  }

  lemma TotalsSnoc(gs: seq<Goal>, estimated: bool)
    requires |gs| > 0
    ensures SumReals(Totals(gs, estimated)) ==
            SumReals(Totals(gs[..|gs| - 1], estimated)) + SumValues(Pick(gs[|gs| - 1].costAnalysis, estimated))
  {
    var init := gs[..|gs| - 1];
    var x := SumValues(Pick(gs[|gs| - 1].costAnalysis, estimated));
    assert Totals(gs, estimated) == Totals(init, estimated) + [x];
    SumRealsAppend(Totals(init, estimated), [x]);
  }

  /** The aggregated total is the sum of the goals' totals. */
  lemma {:induction false} AggregateTotal(gs: seq<Goal>, estimated: bool)
    ensures SumValues(Pick(Aggregate(gs), estimated)) == SumReals(Totals(gs, estimated))
  {
    if |gs| == 0 {
      assert Totals(gs, estimated) == [];
      assert Values(Empty<string, real>()) == [];
    } else {
      var init := gs[..|gs| - 1];
      var c := gs[|gs| - 1].costAnalysis;
      assert Pick(Aggregate(gs), estimated) == AddAll(Pick(Aggregate(init), estimated), Pick(c, estimated));
      AggregateTotal(init, estimated);
      AddAllSum(Pick(Aggregate(init), estimated), Pick(c, estimated));
      TotalsSnoc(gs, estimated);
    }
  }

  /** The aggregate records no benefits, so its net benefits are minus the summed goal totals. */
  lemma AggregateNetBenefit(gs: seq<Goal>)
    ensures NetBenefitEstimated(Aggregate(gs)) == -SumReals(Totals(gs, true))
    ensures NetBenefitActual(Aggregate(gs)) == -SumReals(Totals(gs, false))
  {
    assert Values(Empty<string, real>()) == [];
    AggregateTotal(gs, true);
    AggregateTotal(gs, false);
  }

  /** The aggregated risks are the goals' risks concatenated in goal order. */
  lemma {:induction false} AggregateRisks(gs: seq<Goal>)
    ensures Aggregate(gs).risks == AllRisks(gs)
  {
    if |gs| > 0 {
      var init := gs[..|gs| - 1];
      var g := gs[|gs| - 1];
      AggregateRisks(init);
      assert gs == init + [g];
      AllRisksSnoc(init, g);
    }
  }
}
