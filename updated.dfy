/**
 * The accumulating variant of the builder (mqo_python_updated.py): the cost
 * pass, a savings pass and a per-query penalty pass that add into `Q`
 * (missing keys start at 0), then the selection of plans from the best sample
 * and the per-query result rows.
 */
module UpdatedScript {
  import opened Names
  import opened Qubo
  import opened Tables
  import opened Passes

  /** `penalty_weight = 10` */
  const PenaltyWeight: real := 10.0

  /**
   * `if key not in Q: Q[key] = 0` then `Q[key] += d`: d is added to the
   * coefficient, an absent key counting as 0, and every other key is kept.
   */
  method AddInto(Q0: Coefficients, key: Key, d: real) returns (Q: Coefficients)
    ensures Q == Accumulate(Q0, (key, d))
    ensures Q.Keys == Q0.Keys + {key} && Q[key] == Get(Q0, key) + d
    ensures forall k :: k != key && k in Q0 ==> Q[k] == Q0[k]
  {
    Q := Q0;
    if key !in Q {
      Q := Q[key := 0.0];
    }
    Q := Q[key := Q[key] + d];
  }

  // ---------------------------------------------------------------------------
  // Savings pass
  // ---------------------------------------------------------------------------

  /**
   * The savings pass adds every row's saving into its key: the keys grow by
   * the saving keys, each coefficient is its old value plus the sum over all
   * rows producing that key, and no plan's diagonal changes.
   */
  method AccumulateSavings(Q0: Coefficients, savings: seq<SavingRow>) returns (Q: Coefficients)
    ensures Q == AddAll(Q0, SavingUpdates(savings))
    ensures Q.Keys == Q0.Keys + KeySet(SavingUpdates(savings))
    ensures forall k :: Get(Q, k) == Get(Q0, k) + DeltaSum(SavingUpdates(savings), k)
    ensures forall mq: nat, q: nat, gp: nat ::
              Get(Q, Diagonal(PlanVar(mq, q, gp))) == Get(Q0, Diagonal(PlanVar(mq, q, gp)))
  {
    ghost var us := SavingUpdates(savings);
    Q := Q0;
    for i := 0 to |savings|
      invariant Q == AddAll(Q0, us[..i])
    {
      var planVar1 := SavingVar(savings[i].multiQueryId, savings[i].plan1GlobalId);
      var planVar2 := SavingVar(savings[i].multiQueryId, savings[i].plan2GlobalId);
      assert us[..i + 1] == us[..i] + [us[i]];
      AddAllSnoc(Q0, us[..i], us[i]);
      Q := AddInto(Q, (planVar1, planVar2), savings[i].costSaving);
    }
    assert us[..|savings|] == us;
    AddAllAt(Q0, us);
    forall mq: nat, q: nat, gp: nat
      ensures Get(Q, Diagonal(PlanVar(mq, q, gp))) == Get(Q0, Diagonal(PlanVar(mq, q, gp)))
    {
      var k := Diagonal(PlanVar(mq, q, gp));
      SavingKeysAvoidPlanVars(savings, k, mq, q, gp);
      forall x | 0 <= x < |us| ensures us[x].0 != k { assert us[x].0 in KeySet(us); }
      DeltaSumOutside(us, k);
    }
  }

  /** A saving row given twice contributes twice its saving, not once. */
  lemma DuplicateSavingCountsTwice(Q: Coefficients, savings: seq<SavingRow>, r: SavingRow)
    ensures Get(AddAll(Q, SavingUpdates(savings + [r, r])), SavingKey(r))
         == Get(AddAll(Q, SavingUpdates(savings)), SavingKey(r)) + 2.0 * r.costSaving
  {
    var u := (SavingKey(r), r.costSaving);
    assert SavingUpdates(savings + [r, r]) == SavingUpdates(savings) + [u] + [u];
    AddAllSnoc(Q, SavingUpdates(savings) + [u], u);
    AddAllSnoc(Q, SavingUpdates(savings), u);
  }

  // ---------------------------------------------------------------------------
  // Penalty pass
  // ---------------------------------------------------------------------------

  /** The writes for one query: `penalty_weight` on each diagonal, then on each pair i < j. */
  function GroupPenalty(vars: seq<Var>): (us: seq<Update>)
    ensures AllWeights(us, PenaltyWeight)
  {
    var linear := Linear(vars, |vars|, PenaltyWeight);
    var pairs := Pairs(vars, |vars|, PenaltyWeight);
    AllWeightsConcat(linear, pairs, PenaltyWeight);
    linear + pairs
  }

  /** The writes for a list of query groups' variable lists, one group after another. */
  function GroupsPenalty(vss: seq<seq<Var>>): (us: seq<Update>)
    ensures AllWeights(us, PenaltyWeight)
  {
    if vss == [] then []
    else
      var before := GroupsPenalty(vss[..|vss| - 1]);
      var group := GroupPenalty(vss[|vss| - 1]);
      AllWeightsConcat(before, group, PenaltyWeight);
      before + group
  }

  lemma GroupsPenaltySnoc(vss: seq<seq<Var>>, vars: seq<Var>)
    ensures GroupsPenalty(vss + [vars]) == GroupsPenalty(vss) + GroupPenalty(vars)
  {
    assert (vss + [vars])[..|vss|] == vss;
  }

  /** All writes of the penalty pass, in group-by order. */
  function PenaltyUpdates(plans: seq<PlanRow>): seq<Update>
  {
    GroupsPenalty(GroupVarLists(plans))
  }

  /** k is (vars[a], vars[b]) for positions a <= b: the keys one query's penalty writes. */
  ghost predicate IsPenaltyKeyOf(vars: seq<Var>, k: Key)
  {
    exists a, b :: 0 <= a <= b < |vars| && k == (vars[a], vars[b])
  }

  /** k is a penalty key of some query group of the plans table. */
  ghost predicate IsPenaltyKey(plans: seq<PlanRow>, k: Key)
  {
    exists g :: g in QueryGroups(plans) && IsPenaltyKeyOf(GroupVars(plans, g), k)
  }

  lemma GroupPenaltyKeys(vars: seq<Var>, k: Key)
    ensures k in KeySet(GroupPenalty(vars)) <==> IsPenaltyKeyOf(vars, k)
  {
    KeySetConcat(Linear(vars, |vars|, PenaltyWeight), Pairs(vars, |vars|, PenaltyWeight));
    LinearKeys(vars, |vars|, PenaltyWeight, k);
    PairsKeys(vars, |vars|, PenaltyWeight, k);
    if IsPenaltyKeyOf(vars, k) {
      var a, b :| 0 <= a <= b < |vars| && k == (vars[a], vars[b]);
      if a == b {
        assert exists p :: 0 <= p < |vars| && k == (vars[p], vars[p]);
      } else {
        assert exists a', b' :: 0 <= a' < |vars| && a' < b' < |vars| && k == (vars[a'], vars[b']);
      }
    }
  }

  lemma {:induction false} GroupsPenaltyKeys(vss: seq<seq<Var>>, k: Key)
    ensures k in KeySet(GroupsPenalty(vss)) <==> exists x :: 0 <= x < |vss| && IsPenaltyKeyOf(vss[x], k)
  {
    if vss != [] {
      var init := vss[..|vss| - 1];
      KeySetConcat(GroupsPenalty(init), GroupPenalty(vss[|vss| - 1]));
      GroupsPenaltyKeys(init, k);
      GroupPenaltyKeys(vss[|vss| - 1], k);
      if exists x :: 0 <= x < |vss| && IsPenaltyKeyOf(vss[x], k) {
        var x :| 0 <= x < |vss| && IsPenaltyKeyOf(vss[x], k);
        if x < |init| {
          assert init[x] == vss[x];
        }
      }
      if exists x :: 0 <= x < |init| && IsPenaltyKeyOf(init[x], k) {
        var x :| 0 <= x < |init| && IsPenaltyKeyOf(init[x], k);
        assert init[x] == vss[x];
      }
    }
  }

  /**
   * The keys the penalty pass writes are exactly the pairs
   * (plan_vars[i], plan_vars[j]) with i <= j of some query group.
   */
  lemma PenaltyKeys(plans: seq<PlanRow>, k: Key)
    ensures k in KeySet(PenaltyUpdates(plans)) <==> IsPenaltyKey(plans, k)
  {
    var gs := QueryGroups(plans);
    var vss := GroupVarLists(plans);
    GroupsPenaltyKeys(vss, k);
    if exists g :: g in gs && IsPenaltyKeyOf(GroupVars(plans, g), k) {
      var g :| g in gs && IsPenaltyKeyOf(GroupVars(plans, g), k);
      var x :| 0 <= x < |gs| && gs[x] == g;
      assert IsPenaltyKeyOf(vss[x], k);
    }
    if exists x :: 0 <= x < |vss| && IsPenaltyKeyOf(vss[x], k) {
      var x :| 0 <= x < |vss| && IsPenaltyKeyOf(vss[x], k);
      assert gs[x] in gs;
    }
  }

  /** With distinct plans, one query's penalty writes each key once. */
  lemma GroupPenaltyNoDup(vars: seq<Var>)
    requires Distinct(vars)
    ensures NoDupKeys(GroupPenalty(vars))
  {
    LinearNoDup(vars, |vars|, PenaltyWeight);
    PairsNoDup(vars, |vars|, PenaltyWeight);
    LinearPairsDisjoint(vars, PenaltyWeight, PenaltyWeight);
    NoDupConcat(Linear(vars, |vars|, PenaltyWeight), Pairs(vars, |vars|, PenaltyWeight));
  }

  lemma {:induction false} GroupsPenaltyNoDup(vss: seq<seq<Var>>)
    requires SeparateLists(vss)
    ensures NoDupKeys(GroupsPenalty(vss))
  {
    if vss != [] {
      var init := vss[..|vss| - 1];
      var vars := vss[|vss| - 1];
      assert SeparateLists(init) by {
        forall x | 0 <= x < |init| ensures init[x] == vss[x] { }
      }
      GroupsPenaltyNoDup(init);
      GroupPenaltyNoDup(vars);
      forall k | k in KeySet(GroupPenalty(vars)) ensures k !in KeySet(GroupsPenalty(init)) {
        GroupPenaltyKeys(vars, k);
        GroupsPenaltyKeys(init, k);
        var a, b :| 0 <= a <= b < |vars| && k == (vars[a], vars[b]);
        forall x, c, d | 0 <= x < |init| && 0 <= c <= d < |init[x]| ensures k != (init[x][c], init[x][d]) {
          assert init[x] == vss[x];
        }
      }
      NoDupConcat(GroupsPenalty(init), GroupPenalty(vars));
    }
  }

  /** With distinct plans, the penalty pass writes each key once. */
  lemma PenaltyNoDup(plans: seq<PlanRow>)
    requires DistinctTriples(plans)
    ensures NoDupKeys(PenaltyUpdates(plans))
  {
    GroupVarListsSeparate(plans);
    GroupsPenaltyNoDup(GroupVarLists(plans));
  }

  /**
   * The penalty pass adds `penalty_weight` into every key once per write aimed
   * at it (missing keys start at 0) and changes nothing else.
   */
  method AccumulatePenalty(Q0: Coefficients, plans: seq<PlanRow>) returns (Q: Coefficients)
    ensures Q == AddAll(Q0, PenaltyUpdates(plans))
    ensures Q.Keys == Q0.Keys + KeySet(PenaltyUpdates(plans))
    ensures forall k :: Get(Q, k) == Get(Q0, k) + PenaltyWeight * (Hits(PenaltyUpdates(plans), k) as real)
  {
    var groups := QueryGroups(plans);
    ghost var vss := GroupVarLists(plans);
    Q := Q0;
    for m := 0 to |groups|
      invariant Q == AddAll(Q0, GroupsPenalty(vss[..m]))
    {
      var g := groups[m];
      var planVars := GroupVars(plans, g);
      assert vss[m] == planVars;
      ghost var Qm := Q;
      Q := AccumulateGroup(Q, planVars);
      PenaltyStep(Q0, vss, m, Qm, Q);
    }
    assert vss[..|groups|] == vss;
    PenaltyPassAt(Q0, plans);
  }

  /** What the penalty writes leave in the dictionary. */
  lemma PenaltyPassAt(Q0: Coefficients, plans: seq<PlanRow>)
    ensures AddAll(Q0, PenaltyUpdates(plans)).Keys == Q0.Keys + KeySet(PenaltyUpdates(plans))
    ensures forall k :: Get(AddAll(Q0, PenaltyUpdates(plans)), k)
                     == Get(Q0, k) + PenaltyWeight * (Hits(PenaltyUpdates(plans), k) as real)
  {
    AddAllConstant(Q0, PenaltyUpdates(plans), PenaltyWeight);
  }

  /** One more group of the outer loop. */
  lemma PenaltyStep(Q0: Coefficients, vss: seq<seq<Var>>, m: nat, Qm: Coefficients, Q: Coefficients)
    requires m < |vss|
    requires Qm == AddAll(Q0, GroupsPenalty(vss[..m])) && Q == AddAll(Qm, GroupPenalty(vss[m]))
    ensures Q == AddAll(Q0, GroupsPenalty(vss[..m + 1]))
  {
    assert vss[..m + 1] == vss[..m] + [vss[m]];
    GroupsPenaltySnoc(vss[..m], vss[m]);
    AddAllConcat(Q0, GroupsPenalty(vss[..m]), GroupPenalty(vss[m]));
  }

  /** The body of the group loop: the diagonal loop, then the pair loops. */
  method AccumulateGroup(Q0: Coefficients, planVars: seq<Var>) returns (Q: Coefficients)
    ensures Q == AddAll(Q0, GroupPenalty(planVars))
  {
    Q := Q0;
    for t := 0 to |planVars|
      invariant Q == AddAll(Q0, Linear(planVars, t, PenaltyWeight))
    {
      var v := planVars[t];
      AddAllSnoc(Q0, Linear(planVars, t, PenaltyWeight), ((v, v), PenaltyWeight));
      Q := AddInto(Q, (v, v), PenaltyWeight);
    }
    ghost var Ql := Q;
    for i := 0 to |planVars|
      invariant Q == AddAll(Ql, Pairs(planVars, i, PenaltyWeight))
    {
      Q := AccumulateRow(Q, planVars, i);
      AddAllConcat(Ql, Pairs(planVars, i, PenaltyWeight), Row(planVars, i, |planVars|, PenaltyWeight));
      assert Pairs(planVars, i, PenaltyWeight) + Row(planVars, i, |planVars|, PenaltyWeight)
          == Pairs(planVars, i + 1, PenaltyWeight);
    }
    AddAllConcat(Q0, Linear(planVars, |planVars|, PenaltyWeight), Pairs(planVars, |planVars|, PenaltyWeight));
  }

  /** The inner loop `for j in range(i + 1, len(plan_vars))` for one i. */
  method AccumulateRow(Q0: Coefficients, planVars: seq<Var>, i: nat) returns (Q: Coefficients)
    requires i < |planVars|
    ensures Q == AddAll(Q0, Row(planVars, i, |planVars|, PenaltyWeight))
  {
    Q := Q0;
    for j := i + 1 to |planVars|
      invariant Q == AddAll(Q0, Row(planVars, i, j, PenaltyWeight))
    {
      var u := ((planVars[i], planVars[j]), PenaltyWeight);
      AddAllSnoc(Q0, Row(planVars, i, j, PenaltyWeight), u);
      Q := AddInto(Q, (planVars[i], planVars[j]), PenaltyWeight);
    }
  }

  /**
   * With distinct plans: each plan variable's diagonal and each within-query
   * pair (plan_vars[i], plan_vars[j]), i < j, grows by exactly
   * `penalty_weight`; every other key keeps its coefficient.
   */
  lemma {:induction false} PenaltyAddsWeightOnce(Q: Coefficients, plans: seq<PlanRow>, k: Key)
    requires DistinctTriples(plans)
    ensures IsPenaltyKey(plans, k) ==>
              k in AddAll(Q, PenaltyUpdates(plans)) &&
              AddAll(Q, PenaltyUpdates(plans))[k] == Get(Q, k) + PenaltyWeight
    ensures !IsPenaltyKey(plans, k) ==>
              (k in AddAll(Q, PenaltyUpdates(plans)) <==> k in Q) &&
              Get(AddAll(Q, PenaltyUpdates(plans)), k) == Get(Q, k)
  {
    PenaltyKeys(plans, k);
    PenaltyNoDup(plans);
    AddAllOnce(Q, PenaltyUpdates(plans), PenaltyWeight, k);
  }

  // ---------------------------------------------------------------------------
  // Energy of the penalty
  // ---------------------------------------------------------------------------

  /**
   * For a query whose list has k positions set to 1, the penalty writes raise
   * the energy by 10*k + 10*k(k-1)/2, which is 0 exactly when k == 0.
   */
  lemma GroupPenaltyEnergy(vars: seq<Var>, on: set<Var>)
    ensures UpdatesEnergy(GroupPenalty(vars), on)
         == PenaltyWeight * ((Selected(vars, on) + Tri(Selected(vars, on))) as real)
    ensures 2 * Tri(Selected(vars, on)) == Selected(vars, on) * (Selected(vars, on) - 1)
    ensures UpdatesEnergy(GroupPenalty(vars), on) == 0.0 <==> Selected(vars, on) == 0
  {
    UpdatesEnergyConstant(GroupPenalty(vars), PenaltyWeight, on);
    GroupPenaltyHits(vars, on);
    TriClosedForm(Selected(vars, on));
  }

  /** A query with k selected plans has k linear and Tri(k) pair writes on selected variables. */
  lemma GroupPenaltyHits(vars: seq<Var>, on: set<Var>)
    ensures SelectedHits(GroupPenalty(vars), on) == Selected(vars, on) + Tri(Selected(vars, on))
  {
    SelectedHitsConcat(Linear(vars, |vars|, PenaltyWeight), Pairs(vars, |vars|, PenaltyWeight), on);
    LinearSelected(vars, |vars|, PenaltyWeight, on);
    PairsSelected(vars, |vars|, PenaltyWeight, on);
  }

  /** Sum over the lists of k + k(k-1)/2, k the list's selected count. */
  function PenaltyCount(vss: seq<seq<Var>>, on: set<Var>): nat
  {
    if vss == [] then 0
    else
      var k := Selected(vss[|vss| - 1], on);
      PenaltyCount(vss[..|vss| - 1], on) + k + Tri(k)
  }

  /** The penalty writes on selected variables number PenaltyCount. */
  lemma {:induction false} GroupsPenaltyHits(vss: seq<seq<Var>>, on: set<Var>)
    ensures SelectedHits(GroupsPenalty(vss), on) == PenaltyCount(vss, on)
  {
    if vss != [] {
      var init := vss[..|vss| - 1];
      var vars := vss[|vss| - 1];
      GroupsPenaltyHits(init, on);
      SelectedHitsConcat(GroupsPenalty(init), GroupPenalty(vars), on);
      GroupPenaltyHits(vars, on);
    }
  }

  lemma GroupsPenaltyEnergy(vss: seq<seq<Var>>, on: set<Var>)
    ensures UpdatesEnergy(GroupsPenalty(vss), on) == PenaltyWeight * (PenaltyCount(vss, on) as real)
  {
    UpdatesEnergyConstant(GroupsPenalty(vss), PenaltyWeight, on);
    GroupsPenaltyHits(vss, on);
  }

  lemma {:induction false} PenaltyCountZero(vss: seq<seq<Var>>, on: set<Var>)
    ensures PenaltyCount(vss, on) == 0 <==> forall x :: 0 <= x < |vss| ==> Selected(vss[x], on) == 0
  {
    if vss != [] {
      var init := vss[..|vss| - 1];
      PenaltyCountZero(init, on);
      assert forall x :: 0 <= x < |init| ==> init[x] == vss[x];
    }
  }

  /**
   * The penalty pass raises the QUBO energy of an assignment by
   * 10 * sum over queries of (k + k(k-1)/2); the increase is 0 exactly when no
   * query has a selected plan, so the penalty favours selecting nothing.
   */
  lemma PenaltyEnergy(Q: Coefficients, plans: seq<PlanRow>, on: set<Var>)
    ensures Energy(AddAll(Q, PenaltyUpdates(plans)), on)
         == Energy(Q, on) + PenaltyWeight * (PenaltyCount(GroupVarLists(plans), on) as real)
    ensures Energy(AddAll(Q, PenaltyUpdates(plans)), on) == Energy(Q, on) <==>
              forall g :: g in QueryGroups(plans) ==> Selected(GroupVars(plans, g), on) == 0
  {
    var gs := QueryGroups(plans);
    var vss := GroupVarLists(plans);
    AddAllEnergy(Q, PenaltyUpdates(plans), on);
    GroupsPenaltyEnergy(vss, on);
    PenaltyCountZero(vss, on);
    if forall x :: 0 <= x < |vss| ==> Selected(vss[x], on) == 0 {
      forall g | g in gs ensures Selected(GroupVars(plans, g), on) == 0 {
        var x :| 0 <= x < |gs| && gs[x] == g;
        assert vss[x] == GroupVars(plans, g);
      }
    }
  }

  // ---------------------------------------------------------------------------
  // The whole build
  // ---------------------------------------------------------------------------

  /** The dictionary the script hands to `BinaryQuadraticModel.from_qubo`. */
  function BuiltQubo(plans: seq<PlanRow>, savings: seq<SavingRow>): Coefficients
  {
    AddAll(AddAll(SetAll(map[], CostUpdates(plans)), SavingUpdates(savings)), PenaltyUpdates(plans))
  }

  /** Cost pass, savings pass, penalty pass, in the script's order. */
  method BuildQubo(plans: seq<PlanRow>, savings: seq<SavingRow>) returns (Q: Coefficients)
    ensures Q == BuiltQubo(plans, savings)
    ensures DistinctTriples(plans) ==>
              forall i :: 0 <= i < |plans| ==>
                Diagonal(PlanVarOf(plans[i])) in Q &&
                Q[Diagonal(PlanVarOf(plans[i]))] == plans[i].planCost + PenaltyWeight
    ensures forall i :: 0 <= i < |savings| ==>
              SavingKey(savings[i]) in Q &&
              Q[SavingKey(savings[i])] == DeltaSum(SavingUpdates(savings), SavingKey(savings[i]))
    ensures DistinctTriples(plans) ==>
              forall k :: IsPenaltyKey(plans, k) && k.0 != k.1 ==> k in Q && Q[k] == PenaltyWeight
  {
    Q := CostPass(plans);
    Q := AccumulateSavings(Q, savings);
    Q := AccumulatePenalty(Q, plans);
    if DistinctTriples(plans) {
      forall i | 0 <= i < |plans|
        ensures Diagonal(PlanVarOf(plans[i])) in Q
        ensures Q[Diagonal(PlanVarOf(plans[i]))] == plans[i].planCost + PenaltyWeight
      {
        PlanDiagonal(plans, savings, i);
      }
      forall k | IsPenaltyKey(plans, k) && k.0 != k.1 ensures k in Q && Q[k] == PenaltyWeight {
        PairEntry(plans, savings, k);
      }
    }
    forall i | 0 <= i < |savings|
      ensures SavingKey(savings[i]) in Q
      ensures Q[SavingKey(savings[i])] == DeltaSum(SavingUpdates(savings), SavingKey(savings[i]))
    {
      SavingEntry(plans, savings, i);
    }
  }

  /**
   * With distinct plans, every plan's diagonal ends at its cost plus
   * `penalty_weight`: the savings never reach it.
   */
  lemma PlanDiagonal(plans: seq<PlanRow>, savings: seq<SavingRow>, i: nat)
    requires DistinctTriples(plans) && i < |plans|
    ensures Diagonal(PlanVarOf(plans[i])) in BuiltQubo(plans, savings)
    ensures BuiltQubo(plans, savings)[Diagonal(PlanVarOf(plans[i]))] == plans[i].planCost + PenaltyWeight
  {
    var r := plans[i];
    var k := Diagonal(PlanVarOf(r));
    var costs := CostUpdates(plans);
    var Q1 := SetAll(map[], costs);
    var Q2 := AddAll(Q1, SavingUpdates(savings));
    // the cost pass
    forall j | i < j < |costs| ensures costs[j].0 != costs[i].0 {
      PlanVarOfInjective(plans[i], plans[j]);
    }
    SetAllLast(map[], costs, i);
    // the savings pass
    SavingKeysAvoidPlanVars(savings, k, r.multiQueryId, r.queryId, r.globalPlanId);
    forall x | 0 <= x < |SavingUpdates(savings)| ensures SavingUpdates(savings)[x].0 != k {
      assert SavingUpdates(savings)[x].0 in KeySet(SavingUpdates(savings));
    }
    DeltaSumOutside(SavingUpdates(savings), k);
    AddAllAt(Q1, SavingUpdates(savings));
    // the penalty pass
    var g := KeyOf(r);
    var rows := GroupRows(plans, g);
    assert r in rows;
    var p :| 0 <= p < |rows| && rows[p] == r;
    GroupVarsAt(plans, g, p);
    assert IsPenaltyKeyOf(GroupVars(plans, g), k);
    PenaltyAddsWeightOnce(Q2, plans, k);
  }

  /** Both halves of a penalty key are plan names of its query. */
  lemma PenaltyKeyNames(plans: seq<PlanRow>, k: Key)
    requires IsPenaltyKey(plans, k)
    ensures exists g: QueryKey, gp: nat, gp': nat ::
              k == (PlanVar(g.multiQueryId, g.queryId, gp), PlanVar(g.multiQueryId, g.queryId, gp'))
  {
    var g :| g in QueryGroups(plans) && IsPenaltyKeyOf(GroupVars(plans, g), k);
    var vars := GroupVars(plans, g);
    var a, b :| 0 <= a <= b < |vars| && k == (vars[a], vars[b]);
    assert k.0 in vars && k.1 in vars;
    GroupVarIsPlanVar(plans, g, k.0);
    GroupVarIsPlanVar(plans, g, k.1);
  }

  /** No saving key is a penalty key: savings name `{mq}_{gp}`, plans `q_{mq}_{q}_{gp}`. */
  lemma PenaltyKeyNotSavingKey(plans: seq<PlanRow>, r: SavingRow)
    ensures !IsPenaltyKey(plans, SavingKey(r))
  {
    var k := SavingKey(r);
    if IsPenaltyKey(plans, k) {
      PenaltyKeyNames(plans, k);
      var g: QueryKey, gp: nat, gp': nat :|
        k == (PlanVar(g.multiQueryId, g.queryId, gp), PlanVar(g.multiQueryId, g.queryId, gp'));
      SavingVarIsNotPlanVar(r.multiQueryId, r.plan1GlobalId, g.multiQueryId, g.queryId, gp);
    }
  }

  /**
   * Every saving key ends at the sum of the savings of all rows producing it:
   * neither the cost pass nor the penalty pass writes it.
   */
  lemma SavingEntry(plans: seq<PlanRow>, savings: seq<SavingRow>, i: nat)
    requires i < |savings|
    ensures SavingKey(savings[i]) in BuiltQubo(plans, savings)
    ensures BuiltQubo(plans, savings)[SavingKey(savings[i])] == DeltaSum(SavingUpdates(savings), SavingKey(savings[i]))
  {
    var r := savings[i];
    var k := SavingKey(r);
    var us := SavingUpdates(savings);
    var Q1 := SetAll(map[], CostUpdates(plans));
    var Q2 := AddAll(Q1, us);
    // the cost pass writes diagonals of plan names only
    CostPassKeys(plans);
    forall j | 0 <= j < |plans| ensures k != Diagonal(PlanVarOf(plans[j])) {
      SavingVarIsNotPlanVar(r.multiQueryId, r.plan1GlobalId, plans[j].multiQueryId, plans[j].queryId, plans[j].globalPlanId);
    }
    assert k !in Q1;
    // the savings pass
    AddAllAt(Q1, us);
    assert us[i].0 == k;
    assert k in Q2;
    // the penalty pass
    PenaltyKeyNotSavingKey(plans, r);
    PenaltyKeys(plans, k);
    HitsOutside(PenaltyUpdates(plans), k);
    PenaltyPassAt(Q2, plans);
  }

  /**
   * With distinct plans, every within-query pair (plan_vars[i], plan_vars[j]),
   * i < j, ends at exactly `penalty_weight`: the cost and savings passes never
   * write it.
   */
  lemma PairEntry(plans: seq<PlanRow>, savings: seq<SavingRow>, k: Key)
    requires DistinctTriples(plans) && IsPenaltyKey(plans, k) && k.0 != k.1
    ensures k in BuiltQubo(plans, savings) && BuiltQubo(plans, savings)[k] == PenaltyWeight
  {
    var us := SavingUpdates(savings);
    var Q1 := SetAll(map[], CostUpdates(plans));
    var Q2 := AddAll(Q1, us);
    PenaltyKeyNames(plans, k);
    var g: QueryKey, gp: nat, gp': nat :|
      k == (PlanVar(g.multiQueryId, g.queryId, gp), PlanVar(g.multiQueryId, g.queryId, gp'));
    // the cost pass writes diagonals only
    CostPassKeys(plans);
    assert k !in Q1;
    // the savings pass never writes a plan name
    SavingKeysAvoidPlanVars(savings, k, g.multiQueryId, g.queryId, gp);
    forall x | 0 <= x < |us| ensures us[x].0 != k {
      assert us[x].0 in KeySet(us);
    }
    DeltaSumOutside(us, k);
    AddAllAt(Q1, us);
    // the penalty pass
    PenaltyAddsWeightOnce(Q2, plans, k);
  }

  // ---------------------------------------------------------------------------
  // Selected plans and the result rows
  // ---------------------------------------------------------------------------

  /** One row of the results table; `selectedPlans` is the list the script comma-joins. */
  datatype ResultRow = ResultRow(multiQueryId: nat, queryId: nat, selectedPlans: seq<Var>, totalCost: real)

  /** `[plan for plan in selected_plans if f'q_{multi_query_id}_{query_id}' in plan]` */
  function Matching(selected: seq<Var>, tag: Var): (r: seq<Var>)
    ensures forall v :: v in r <==> v in selected && Contains(v, tag)
  {
    if selected == [] then []
    else
      var init := selected[..|selected| - 1];
      var last := selected[|selected| - 1];
      assert forall v :: v in init ==> v in selected;
      assert forall v :: v in selected ==> v in init || v == last;
      Matching(init, tag) + (if Contains(last, tag) then [last] else [])
  }

  /** Matching keeps the order of `selected_plans`: it distributes over concatenation. */
  lemma {:induction false} MatchingConcat(a: seq<Var>, b: seq<Var>, tag: Var)
    ensures Matching(a + b, tag) == Matching(a, tag) + Matching(b, tag)
    decreases |b|
  {
    if b == [] {
      assert a + b == a;
    } else {
      var b' := b[..|b| - 1];
      assert (a + b)[..|a + b| - 1] == a + b';
      MatchingConcat(a, b', tag);
    }
  }

  /**
   * The evidently intended filter for a query's plans: names that start with
   * `q_{mq}_{q}_`.
   */
  function QueryPlans(selected: seq<Var>, mq: nat, q: nat): (r: seq<Var>)
    ensures forall v :: v in r <==> v in selected && InQuery(v, mq, q)
  {
    if selected == [] then []
    else
      var init := selected[..|selected| - 1];
      var last := selected[|selected| - 1];
      assert forall v :: v in init ==> v in selected;
      assert forall v :: v in selected ==> v in init || v == last;
      QueryPlans(init, mq, q) + (if InQuery(last, mq, q) then [last] else [])
  }

  /** The prefix filter keeps the order of `selected_plans` as well. */
  lemma {:induction false} QueryPlansConcat(a: seq<Var>, b: seq<Var>, mq: nat, q: nat)
    ensures QueryPlans(a + b, mq, q) == QueryPlans(a, mq, q) + QueryPlans(b, mq, q)
    decreases |b|
  {
    if b == [] {
      assert a + b == a;
    } else {
      var b' := b[..|b| - 1];
      assert (a + b)[..|a + b| - 1] == a + b';
      QueryPlansConcat(a, b', mq, q);
    }
  }

  /**
   * The prefix filter keeps a plan name exactly when it is selected and names
   * a plan of query (mq, q); it never keeps a saving name; and it keeps
   * nothing the substring test drops.
   */
  lemma QueryPlansExact(selected: seq<Var>, mq: nat, q: nat, a: nat, b: nat, c: nat)
    ensures PlanVar(a, b, c) in QueryPlans(selected, mq, q) <==> PlanVar(a, b, c) in selected && a == mq && b == q
    ensures SavingVar(a, b) !in QueryPlans(selected, mq, q)
    ensures forall v :: v in QueryPlans(selected, mq, q) ==> v in Matching(selected, QueryTag(mq, q))
  {
    InQueryPlanVar(a, b, c, mq, q);
    InQueryNotSavingVar(a, b, mq, q);
    forall v | v in QueryPlans(selected, mq, q) ensures v in Matching(selected, QueryTag(mq, q)) {
      var t := QueryTag(mq, q);
      assert v[..|t|] == v[..|t| + 1][..|t|] == (t + "_")[..|t|] == t;
      assert IsPrefix(t, v);
    }
  }

  /** The key of a result row. */
  function RowKey(r: ResultRow): QueryKey
  {
    QueryKey(r.multiQueryId, r.queryId)
  }

  /**
   * The names a query group's row lists: the selected names that contain the
   * group's tag as written, or, with `byPrefix`, the selected names of its
   * own plans.
   */
  function ForQuery(selected: seq<Var>, g: QueryKey, byPrefix: bool): seq<Var>
  {
    if byPrefix then QueryPlans(selected, g.multiQueryId, g.queryId)
    else Matching(selected, QueryTag(g.multiQueryId, g.queryId))
  }

  /**
   * The rows the projection appends while it visits the groups `gs` in order:
   * one for each group whose list of names is not empty.
   */
  function Rows(gs: seq<QueryKey>, selected: seq<Var>, energy: real, byPrefix: bool): seq<ResultRow>
  {
    if gs == [] then []
    else
      var g := gs[|gs| - 1];
      var names := ForQuery(selected, g, byPrefix);
      Rows(gs[..|gs| - 1], selected, energy, byPrefix)
        + (if names != [] then [ResultRow(g.multiQueryId, g.queryId, names, energy)] else [])
  }

  /**
   * Every row belongs to one of the groups, carries the best sample's energy
   * and lists the group's names, of which there is at least one.
   */
  lemma {:induction false} RowsSound(gs: seq<QueryKey>, selected: seq<Var>, energy: real, byPrefix: bool)
    ensures forall r :: r in Rows(gs, selected, energy, byPrefix) ==>
              RowKey(r) in gs && r.totalCost == energy && r.selectedPlans != [] &&
              r.selectedPlans == ForQuery(selected, RowKey(r), byPrefix)
  {
    if gs != [] {
      var init := gs[..|gs| - 1];
      RowsSound(init, selected, energy, byPrefix);
      assert forall h :: h in init ==> h in gs;
    }
  }

  /** No group with a name to list is left without a row. */
  lemma {:induction false} RowsComplete(gs: seq<QueryKey>, selected: seq<Var>, energy: real, byPrefix: bool)
    ensures forall g :: g in gs && ForQuery(selected, g, byPrefix) != [] ==>
              exists r :: r in Rows(gs, selected, energy, byPrefix) && RowKey(r) == g
  {
    if gs != [] {
      var init := gs[..|gs| - 1];
      var last := gs[|gs| - 1];
      RowsComplete(init, selected, energy, byPrefix);
      var rows := Rows(gs, selected, energy, byPrefix);
      forall g | g in gs && ForQuery(selected, g, byPrefix) != []
        ensures exists r :: r in rows && RowKey(r) == g
      {
        if g == last {
          var r := ResultRow(g.multiQueryId, g.queryId, ForQuery(selected, g, byPrefix), energy);
          assert r in rows && RowKey(r) == g;
        } else {
          assert g in init;
          var r :| r in Rows(init, selected, energy, byPrefix) && RowKey(r) == g;
          assert r in rows;
        }
      }
    }
  }

  /** Rows whose keys strictly increase in group-by order. */
  predicate InGroupOrder(rows: seq<ResultRow>)
  {
    forall i, j :: 0 <= i < j < |rows| ==> Before(RowKey(rows[i]), RowKey(rows[j]))
  }

  /** Rows come in group-by order. */
  lemma {:induction false} RowsSorted(gs: seq<QueryKey>, selected: seq<Var>, energy: real, byPrefix: bool)
    requires StrictlySorted(gs)
    ensures InGroupOrder(Rows(gs, selected, energy, byPrefix))
  {
    if gs != [] {
      var init := gs[..|gs| - 1];
      var last := gs[|gs| - 1];
      var front := Rows(init, selected, energy, byPrefix);
      var rows := Rows(gs, selected, energy, byPrefix);
      RowsSorted(init, selected, energy, byPrefix);
      RowsSound(init, selected, energy, byPrefix);
      forall i, j | 0 <= i < j < |rows| ensures Before(RowKey(rows[i]), RowKey(rows[j])) {
        var names := ForQuery(selected, last, byPrefix);
        if j < |front| {
          assert rows[i] == front[i] && rows[j] == front[j];
        } else {
          assert names != [];
          assert rows == front + [ResultRow(last.multiQueryId, last.queryId, names, energy)];
          assert rows[i] == front[i] && front[i] in front && RowKey(rows[j]) == last;
          var k :| 0 <= k < |init| && init[k] == RowKey(front[i]);
          assert gs[k] == init[k] && gs[|gs| - 1] == last && k < |gs| - 1;
          assert Before(gs[k], gs[|gs| - 1]);
          assert Before(RowKey(rows[i]), RowKey(rows[j]));
        }
      }
    }
  }

  /**
   * The result projection as written: one row per query group that has a
   * name containing `q_{mq}_{q}`, in group-by order; each row lists those
   * names in `selected_plans` order and carries the best sample's energy.
   */
  method ProjectResults(plans: seq<PlanRow>, selected: seq<Var>, energy: real) returns (results: seq<ResultRow>)
    ensures results == Rows(QueryGroups(plans), selected, energy, false)
    ensures forall r :: r in results ==>
              r.totalCost == energy && r.selectedPlans != [] &&
              r.selectedPlans == Matching(selected, QueryTag(r.multiQueryId, r.queryId))
    ensures InGroupOrder(results)
  {
    var groups := QueryGroups(plans);
    results := [];
    for m := 0 to |groups|
      invariant results == Rows(groups[..m], selected, energy, false)
    {
      var g := groups[m];
      assert groups[..m + 1][..m] == groups[..m];
      var selectedForQuery := Matching(selected, QueryTag(g.multiQueryId, g.queryId));
      if selectedForQuery != [] {
        results := results + [ResultRow(g.multiQueryId, g.queryId, selectedForQuery, energy)];
      }
    }
    assert groups[..|groups|] == groups;
    RowsSound(groups, selected, energy, false);
    RowsSorted(groups, selected, energy, false);
  }

  /**
   * A selected plan variable of a query group is listed in that group's row:
   * the group has a row, and the plan is among its names.
   */
  lemma SelectedPlanIsReported(plans: seq<PlanRow>, selected: seq<Var>, energy: real, mq: nat, q: nat, gp: nat)
    requires QueryKey(mq, q) in QueryGroups(plans) && PlanVar(mq, q, gp) in selected
    ensures exists r :: r in Rows(QueryGroups(plans), selected, energy, false) &&
              RowKey(r) == QueryKey(mq, q) && PlanVar(mq, q, gp) in r.selectedPlans
  {
    var gs := QueryGroups(plans);
    PlanVarContainsTag(mq, q, gp);
    assert PlanVar(mq, q, gp) in ForQuery(selected, QueryKey(mq, q), false);
    RowsComplete(gs, selected, energy, false);
    RowsSound(gs, selected, energy, false);
  }

  /**
   * As written, the substring test takes `q_1_12_3`, a plan of query 12, and
   * `q_1_15`, a saving name, for names of query 1: `q_1_1` occurs in both.
   */
  lemma SubstringMatchCounterexample()
    ensures Contains(PlanVar(1, 12, 3), QueryTag(1, 1))
    ensures forall gp: nat :: PlanVar(1, 12, 3) != PlanVar(1, 1, gp)
    ensures Contains(SavingVar(1, 15), QueryTag(1, 1))
  {
    assert Digits(12) == "12";
    assert Digits(15) == "15";
    assert Digits(1) == "1";
    assert QueryTag(1, 1) == "q_1_1";
    assert SavingVar(1, 15) == "q_1_15";
    assert "q_1_15"[..5] == "q_1_1";
    PlanVarShape(1, 12, 3);
    assert PlanVar(1, 12, 3)[..5] == QueryTag(1, 12)[..5] == "q_1_1";
    forall gp: nat ensures PlanVar(1, 12, 3) != PlanVar(1, 1, gp) {
      if PlanVar(1, 12, 3) == PlanVar(1, 1, gp) {
        PlanVarInjective(1, 12, 3, 1, 1, gp);
      }
    }
  }

  /**
   * On a table with queries 1 and 12 of multi-query 1 and only `q_1_12_3`
   * selected, the script as written emits a row for query 1 listing
   * `q_1_12_3`, though no plan of query 1 is selected; the prefix test emits
   * the row of query 12 alone.
   */
  lemma SubstringMatchRows()
    ensures Rows(QueryGroups([PlanRow(1, 1, 1, 5.0), PlanRow(1, 12, 3, 4.0)]), [PlanVar(1, 12, 3)], 0.0, false)
         == [ResultRow(1, 1, [PlanVar(1, 12, 3)], 0.0), ResultRow(1, 12, [PlanVar(1, 12, 3)], 0.0)]
    ensures Rows(QueryGroups([PlanRow(1, 1, 1, 5.0), PlanRow(1, 12, 3, 4.0)]), [PlanVar(1, 12, 3)], 0.0, true)
         == [ResultRow(1, 12, [PlanVar(1, 12, 3)], 0.0)]
  {
    ExampleGroups();
    ExampleNames();
    var gs := [QueryKey(1, 1), QueryKey(1, 12)];
    assert gs[..1] == [QueryKey(1, 1)];
    assert gs[..1][..0] == [];
  }

  /** The example table has the query groups (1, 1) and (1, 12), in that order. */
  lemma ExampleGroups()
    ensures QueryGroups([PlanRow(1, 1, 1, 5.0), PlanRow(1, 12, 3, 4.0)]) == [QueryKey(1, 1), QueryKey(1, 12)]
  {
    var plans := [PlanRow(1, 1, 1, 5.0), PlanRow(1, 12, 3, 4.0)];
    assert plans[..1] == [PlanRow(1, 1, 1, 5.0)];
    assert plans[..1][..0] == [];
    assert QueryGroups(plans[..1]) == Insert(QueryKey(1, 1), []) == [QueryKey(1, 1)];
    assert [QueryKey(1, 1)][1..] == [];
    assert Insert(QueryKey(1, 12), [QueryKey(1, 1)]) == [QueryKey(1, 1)] + Insert(QueryKey(1, 12), []);
  }

  /** Both tests keep `q_1_12_3` for query 12; only the substring test keeps it for query 1. */
  lemma ExampleNames()
    ensures Matching([PlanVar(1, 12, 3)], QueryTag(1, 1)) == [PlanVar(1, 12, 3)]
    ensures Matching([PlanVar(1, 12, 3)], QueryTag(1, 12)) == [PlanVar(1, 12, 3)]
    ensures QueryPlans([PlanVar(1, 12, 3)], 1, 1) == []
    ensures QueryPlans([PlanVar(1, 12, 3)], 1, 12) == [PlanVar(1, 12, 3)]
  {
    SubstringMatchCounterexample();
    PlanVarContainsTag(1, 12, 3);
    InQueryPlanVar(1, 12, 3, 1, 1);
    InQueryPlanVar(1, 12, 3, 1, 12);
    assert [PlanVar(1, 12, 3)][..0] == [];
  }

  /** The result projection with the prefix test in place of the substring test. */
  method ProjectResultsByPrefix(plans: seq<PlanRow>, selected: seq<Var>, energy: real)
    returns (results: seq<ResultRow>)
    ensures results == Rows(QueryGroups(plans), selected, energy, true)
    ensures forall r :: r in results ==>
              r.totalCost == energy && r.selectedPlans != [] &&
              r.selectedPlans == QueryPlans(selected, r.multiQueryId, r.queryId)
    ensures forall g :: g in QueryGroups(plans) && QueryPlans(selected, g.multiQueryId, g.queryId) != [] ==>
              exists r :: r in results && RowKey(r) == g
    ensures InGroupOrder(results)
  {
    var groups := QueryGroups(plans);
    results := [];
    for m := 0 to |groups|
      invariant results == Rows(groups[..m], selected, energy, true)
    {
      var g := groups[m];
      assert groups[..m + 1][..m] == groups[..m];
      var selectedForQuery := QueryPlans(selected, g.multiQueryId, g.queryId);
      if selectedForQuery != [] {
        results := results + [ResultRow(g.multiQueryId, g.queryId, selectedForQuery, energy)];
      }
    }
    assert groups[..|groups|] == groups;
    RowsByPrefixSpec(groups, selected, energy);
  }

  /** What the rows of the prefix test are, read off the generic row facts. */
  lemma RowsByPrefixSpec(gs: seq<QueryKey>, selected: seq<Var>, energy: real)
    requires StrictlySorted(gs)
    ensures forall r :: r in Rows(gs, selected, energy, true) ==>
              r.totalCost == energy && r.selectedPlans != [] &&
              r.selectedPlans == QueryPlans(selected, r.multiQueryId, r.queryId)
    ensures forall g :: g in gs && QueryPlans(selected, g.multiQueryId, g.queryId) != [] ==>
              exists r :: r in Rows(gs, selected, energy, true) && RowKey(r) == g
    ensures InGroupOrder(Rows(gs, selected, energy, true))
  {
    RowsSound(gs, selected, energy, true);
    RowsComplete(gs, selected, energy, true);
    RowsSorted(gs, selected, energy, true);
  }

  /**
   * Under the prefix test a row lists exactly the selected plans of its own
   * query, and never a saving name.
   */
  lemma ByPrefixRowsArePlansOfTheQuery(gs: seq<QueryKey>, selected: seq<Var>, energy: real,
                                       r: ResultRow, a: nat, b: nat, c: nat)
    requires r in Rows(gs, selected, energy, true)
    ensures PlanVar(a, b, c) in r.selectedPlans <==>
              PlanVar(a, b, c) in selected && a == r.multiQueryId && b == r.queryId
    ensures SavingVar(a, b) !in r.selectedPlans
  {
    RowsSound(gs, selected, energy, true);
    QueryPlansExact(selected, r.multiQueryId, r.queryId, a, b, c);
  }
}
