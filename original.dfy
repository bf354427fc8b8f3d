/**
 * The overwriting variant of the builder (mqo_python.py): the cost pass, a
 * savings pass that stores each row's saving, and a pair penalty that stores
 * the constant 2 on every within-query pair (plans[i], plans[j]), i < j; then
 * the selection of plans from the best sample.
 */
module OriginalScript {
  import opened Names
  import opened Qubo
  import opened Tables
  import opened Passes

  /** The value stored on each within-query pair. */
  const PairPenalty: real := 2.0

  // ---------------------------------------------------------------------------
  // Savings pass
  // ---------------------------------------------------------------------------

  /** Row i is the last saving row that writes its key. */
  predicate LastOfKey(savings: seq<SavingRow>, i: nat)
    requires i < |savings|
  {
    forall j :: i < j < |savings| ==> SavingKey(savings[j]) != SavingKey(savings[i])
  }

  /**
   * The savings pass stores each row's saving: a key holds the saving of the
   * last row that writes it, not a sum, and no plan's diagonal changes.
   */
  method OverwriteSavings(Q0: Coefficients, savings: seq<SavingRow>) returns (Q: Coefficients)
    ensures Q == SetAll(Q0, SavingUpdates(savings))
    ensures Q.Keys == Q0.Keys + KeySet(SavingUpdates(savings))
    ensures forall i :: 0 <= i < |savings| && LastOfKey(savings, i) ==>
              SavingKey(savings[i]) in Q && Q[SavingKey(savings[i])] == savings[i].costSaving
    ensures forall mq: nat, q: nat, gp: nat ::
              (Diagonal(PlanVar(mq, q, gp)) in Q <==> Diagonal(PlanVar(mq, q, gp)) in Q0) &&
              Get(Q, Diagonal(PlanVar(mq, q, gp))) == Get(Q0, Diagonal(PlanVar(mq, q, gp)))
  {
    ghost var us := SavingUpdates(savings);
    Q := Q0;
    for i := 0 to |savings|
      invariant Q == SetAll(Q0, us[..i])
    {
      var planVar1 := SavingVar(savings[i].multiQueryId, savings[i].plan1GlobalId);
      var planVar2 := SavingVar(savings[i].multiQueryId, savings[i].plan2GlobalId);
      assert us[..i + 1] == us[..i] + [us[i]];
      SetAllSnoc(Q0, us[..i], us[i]);
      Q := Q[(planVar1, planVar2) := savings[i].costSaving];
    }
    assert us[..|savings|] == us;
    SetAllKeys(Q0, us);
    forall i | 0 <= i < |savings| && LastOfKey(savings, i)
      ensures SavingKey(savings[i]) in Q && Q[SavingKey(savings[i])] == savings[i].costSaving
    {
      SetAllLast(Q0, us, i);
    }
    forall mq: nat, q: nat, gp: nat
      ensures (Diagonal(PlanVar(mq, q, gp)) in Q <==> Diagonal(PlanVar(mq, q, gp)) in Q0)
      ensures Get(Q, Diagonal(PlanVar(mq, q, gp))) == Get(Q0, Diagonal(PlanVar(mq, q, gp)))
    {
      SavingKeysAvoidPlanVars(savings, Diagonal(PlanVar(mq, q, gp)), mq, q, gp);
      SetAllUntouched(Q0, us, Diagonal(PlanVar(mq, q, gp)));
    }
  }

  /** Giving a saving row twice in a row stores the same as giving it once. */
  lemma {:induction false} DuplicateSavingRowIsIdempotent(Q: Coefficients, savings: seq<SavingRow>, r: SavingRow)
    ensures SetAll(Q, SavingUpdates(savings + [r, r])) == SetAll(Q, SavingUpdates(savings + [r]))
  {
    var u := (SavingKey(r), r.costSaving);
    assert SavingUpdates(savings + [r, r]) == SavingUpdates(savings) + [u] + [u];
    assert SavingUpdates(savings + [r]) == SavingUpdates(savings) + [u];
    SetAllSnoc(Q, SavingUpdates(savings) + [u], u);
    SetAllSnoc(Q, SavingUpdates(savings), u);
  }

  // ---------------------------------------------------------------------------
  // Pair penalty pass
  // ---------------------------------------------------------------------------

  /** The pairs written for a list of query groups' variable lists, one group after another. */
  function GroupsPairs(vss: seq<seq<Var>>): (us: seq<Update>)
    ensures AllWeights(us, PairPenalty)
  {
    if vss == [] then []
    else
      var before := GroupsPairs(vss[..|vss| - 1]);
      var vars := vss[|vss| - 1];
      var pairs := Pairs(vars, |vars|, PairPenalty);
      AllWeightsConcat(before, pairs, PairPenalty);
      before + pairs
  }

  lemma GroupsPairsSnoc(vss: seq<seq<Var>>, vars: seq<Var>)
    ensures GroupsPairs(vss + [vars]) == GroupsPairs(vss) + Pairs(vars, |vars|, PairPenalty)
  {
    assert (vss + [vars])[..|vss|] == vss;
  }

  /** All writes of the pair penalty pass, in group-by order. */
  function PairUpdates(plans: seq<PlanRow>): seq<Update>
  {
    GroupsPairs(GroupVarLists(plans))
  }

  /** k is a within-query pair (vars[a], vars[b]), a < b, of some query group. */
  ghost predicate IsPairKey(plans: seq<PlanRow>, k: Key)
  {
    exists g :: g in QueryGroups(plans) && IsPairOf(GroupVars(plans, g), k)
  }

  lemma {:induction false} GroupsPairsKeys(vss: seq<seq<Var>>, k: Key)
    ensures k in KeySet(GroupsPairs(vss)) <==> exists x :: 0 <= x < |vss| && IsPairOf(vss[x], k)
  {
    if vss != [] {
      var init := vss[..|vss| - 1];
      var vars := vss[|vss| - 1];
      KeySetConcat(GroupsPairs(init), Pairs(vars, |vars|, PairPenalty));
      GroupsPairsKeys(init, k);
      PairsKeys(vars, |vars|, PairPenalty, k);
      if exists x :: 0 <= x < |vss| && IsPairOf(vss[x], k) {
        var x :| 0 <= x < |vss| && IsPairOf(vss[x], k);
        if x < |init| {
          assert init[x] == vss[x];
        }
      }
      if exists x :: 0 <= x < |init| && IsPairOf(init[x], k) {
        var x :| 0 <= x < |init| && IsPairOf(init[x], k);
        assert init[x] == vss[x];
      }
    }
  }

  /** The keys the pair pass writes are exactly the within-query pairs i < j. */
  lemma {:induction false} PairKeys(plans: seq<PlanRow>, k: Key)
    ensures k in KeySet(PairUpdates(plans)) <==> IsPairKey(plans, k)
  {
    var gs := QueryGroups(plans);
    var vss := GroupVarLists(plans);
    GroupsPairsKeys(vss, k);
    if IsPairKey(plans, k) {
      var g :| g in gs && IsPairOf(GroupVars(plans, g), k);
      var x :| 0 <= x < |gs| && gs[x] == g;
      assert IsPairOf(vss[x], k);
    }
    if exists x :: 0 <= x < |vss| && IsPairOf(vss[x], k) {
      var x :| 0 <= x < |vss| && IsPairOf(vss[x], k);
      assert gs[x] in gs;
    }
  }

  /** With distinct plans no within-query pair is a diagonal. */
  lemma {:induction false} PairKeyNotDiagonal(plans: seq<PlanRow>, v: Var)
    requires DistinctTriples(plans)
    ensures !IsPairKey(plans, Diagonal(v))
  {
    if IsPairKey(plans, Diagonal(v)) {
      var g :| g in QueryGroups(plans) && IsPairOf(GroupVars(plans, g), Diagonal(v));
      var vars := GroupVars(plans, g);
      var a, b :| 0 <= a < b < |vars| && Diagonal(v) == (vars[a], vars[b]);
      GroupVarsDistinct(plans, g);
    }
  }

  /** No saving key is a within-query pair key. */
  lemma {:induction false} PairKeyNotSavingKey(plans: seq<PlanRow>, r: SavingRow)
    ensures !IsPairKey(plans, SavingKey(r))
  {
    var k := SavingKey(r);
    if IsPairKey(plans, k) {
      var g :| g in QueryGroups(plans) && IsPairOf(GroupVars(plans, g), k);
      var vars := GroupVars(plans, g);
      var a, b :| 0 <= a < b < |vars| && k == (vars[a], vars[b]);
      assert k.0 in vars;
      GroupVarIsPlanVar(plans, g, k.0);
      var gp: nat :| k.0 == PlanVar(g.multiQueryId, g.queryId, gp);
      SavingVarIsNotPlanVar(r.multiQueryId, r.plan1GlobalId, g.multiQueryId, g.queryId, gp);
    }
  }

  /** The names the pass builds from the group's first rows are the group's variables. */
  lemma {:induction false} FirstRowNames(plans: seq<PlanRow>, g: QueryKey, i: nat)
    requires g in QueryGroups(plans) && i < |GroupRows(plans, g)|
    ensures MultiQueryRows(plans, g.multiQueryId) != [] && GroupRows(plans, g) != []
    ensures PlanVar(MultiQueryRows(plans, g.multiQueryId)[0].multiQueryId,
                    GroupRows(plans, g)[0].queryId,
                    GroupRows(plans, g)[i].globalPlanId)
         == GroupVars(plans, g)[i]
  {
    var mqRows := MultiQueryRows(plans, g.multiQueryId);
    var rows := GroupRows(plans, g);
    var x :| 0 <= x < |plans| && KeyOf(plans[x]) == g;
    assert plans[x].multiQueryId == g.multiQueryId;
    assert mqRows[0] in mqRows;
    assert rows[0] in rows;
    GroupVarsNamedFromKey(plans, g, i);
  }

  /**
   * The pair pass stores 2 on every within-query pair (plans[i], plans[j]),
   * i < j, whatever the key held before, and leaves every other key as it was.
   * The names come from the first row of the multi-query group and of the
   * query group, and the plan ids of the query group in row order.
   */
  method PenalizePairs(Q0: Coefficients, plans: seq<PlanRow>) returns (Q: Coefficients)
    ensures Q == SetAll(Q0, PairUpdates(plans))
    ensures Q.Keys == Q0.Keys + KeySet(PairUpdates(plans))
    ensures forall k :: IsPairKey(plans, k) ==> k in Q && Q[k] == PairPenalty
    ensures forall k :: !IsPairKey(plans, k) ==> (k in Q <==> k in Q0) && Get(Q, k) == Get(Q0, k)
  {
    var groups := QueryGroups(plans);
    ghost var vss := GroupVarLists(plans);
    Q := Q0;
    for m := 0 to |groups|
      invariant Q == SetAll(Q0, GroupsPairs(vss[..m]))
    {
      assert vss[m] == GroupVars(plans, groups[m]);
      ghost var Qm := Q;
      Q := PenalizeGroup(Q, plans, groups[m]);
      PairStep(Q0, vss, m, Qm, Q);
    }
    assert vss[..|groups|] == vss;
    PairPassAt(Q0, plans);
  }

  /** The names `q_{mq}_{q}_{plans[i]}` of a list of plan ids. */
  function PlanNames(mq: nat, q: nat, ids: seq<nat>): (names: seq<Var>)
    ensures |names| == |ids|
  {
    seq(|ids|, i requires 0 <= i < |ids| => PlanVar(mq, q, ids[i]))
  }

  /**
   * The body of the group loop: `plans` is the query group's plan ids in row
   * order, and the prefix comes from the first row of the multi-query group
   * and of the query group.
   */
  method PenalizeGroup(Q0: Coefficients, plans: seq<PlanRow>, g: QueryKey) returns (Q: Coefficients)
    requires g in QueryGroups(plans)
    ensures Q == SetAll(Q0, Pairs(GroupVars(plans, g), |GroupVars(plans, g)|, PairPenalty))
  {
    var mqRows := MultiQueryRows(plans, g.multiQueryId);
    var queryRows := GroupRows(plans, g);
    var ids := seq(|queryRows|, i requires 0 <= i < |queryRows| => queryRows[i].globalPlanId);
    FirstRowNames(plans, g, 0);
    Q := StorePairs(Q0, mqRows[0].multiQueryId, queryRows[0].queryId, ids);
    ghost var names := PlanNames(mqRows[0].multiQueryId, queryRows[0].queryId, ids);
    forall i | 0 <= i < |ids| ensures names[i] == GroupVars(plans, g)[i] {
      FirstRowNames(plans, g, i);
    }
    assert names == GroupVars(plans, g);
  }

  /** `for i in range(len(plans)): for j in range(i + 1, len(plans)): Q[(plan_var1, plan_var2)] = 2` */
  method StorePairs(Q0: Coefficients, mq: nat, q: nat, ids: seq<nat>) returns (Q: Coefficients)
    ensures Q == SetAll(Q0, Pairs(PlanNames(mq, q, ids), |ids|, PairPenalty))
  {
    ghost var vars := PlanNames(mq, q, ids);
    Q := Q0;
    for i := 0 to |ids|
      invariant Q == SetAll(Q0, Pairs(vars, i, PairPenalty))
    {
      Q := StoreRow(Q, mq, q, ids, i);
      SetAllConcat(Q0, Pairs(vars, i, PairPenalty), Row(vars, i, |ids|, PairPenalty));
      assert Pairs(vars, i, PairPenalty) + Row(vars, i, |ids|, PairPenalty) == Pairs(vars, i + 1, PairPenalty);
    }
  }

  /** The inner loop `for j in range(i + 1, len(plans))` for one i. */
  method StoreRow(Q0: Coefficients, mq: nat, q: nat, ids: seq<nat>, i: nat) returns (Q: Coefficients)
    requires i < |ids|
    ensures Q == SetAll(Q0, Row(PlanNames(mq, q, ids), i, |ids|, PairPenalty))
  {
    ghost var vars := PlanNames(mq, q, ids);
    Q := Q0;
    for j := i + 1 to |ids|
      invariant Q == SetAll(Q0, Row(vars, i, j, PairPenalty))
    {
      var planVar1 := PlanVar(mq, q, ids[i]);
      var planVar2 := PlanVar(mq, q, ids[j]);
      var u := ((planVar1, planVar2), PairPenalty);
      assert Row(vars, i, j + 1, PairPenalty) == Row(vars, i, j, PairPenalty) + [u];
      SetAllSnoc(Q0, Row(vars, i, j, PairPenalty), u);
      Q := Q[(planVar1, planVar2) := PairPenalty];
    }
  }

  /** One more group of the outer loop. */
  lemma {:induction false} PairStep(Q0: Coefficients, vss: seq<seq<Var>>, m: nat, Qm: Coefficients, Q: Coefficients)
    requires m < |vss|
    requires Qm == SetAll(Q0, GroupsPairs(vss[..m])) && Q == SetAll(Qm, Pairs(vss[m], |vss[m]|, PairPenalty))
    ensures Q == SetAll(Q0, GroupsPairs(vss[..m + 1]))
  {
    assert vss[..m + 1] == vss[..m] + [vss[m]];
    GroupsPairsSnoc(vss[..m], vss[m]);
    SetAllConcat(Q0, GroupsPairs(vss[..m]), Pairs(vss[m], |vss[m]|, PairPenalty));
  }

  /** What the stored pairs leave in the dictionary. */
  lemma {:induction false} PairPassAt(Q0: Coefficients, plans: seq<PlanRow>)
    ensures SetAll(Q0, PairUpdates(plans)).Keys == Q0.Keys + KeySet(PairUpdates(plans))
    ensures forall k :: IsPairKey(plans, k) ==>
              k in SetAll(Q0, PairUpdates(plans)) && SetAll(Q0, PairUpdates(plans))[k] == PairPenalty
    ensures forall k :: !IsPairKey(plans, k) ==>
              (k in SetAll(Q0, PairUpdates(plans)) <==> k in Q0) &&
              Get(SetAll(Q0, PairUpdates(plans)), k) == Get(Q0, k)
  {
    var us := PairUpdates(plans);
    SetAllKeys(Q0, us);
    forall k | IsPairKey(plans, k) ensures k in SetAll(Q0, us) && SetAll(Q0, us)[k] == PairPenalty {
      PairKeys(plans, k);
      SetAllConstant(Q0, us, PairPenalty, k);
    }
    forall k | !IsPairKey(plans, k)
      ensures (k in SetAll(Q0, us) <==> k in Q0) && Get(SetAll(Q0, us), k) == Get(Q0, k)
    {
      PairKeys(plans, k);
      SetAllUntouched(Q0, us, k);
    }
  }

  // ---------------------------------------------------------------------------
  // Counting and energy of the pair penalty
  // ---------------------------------------------------------------------------

  /** For n distinct plans, the pair loops touch exactly n(n-1)/2 keys. */
  lemma {:induction false} PairKeyCount(vars: seq<Var>)
    requires Distinct(vars)
    ensures 2 * |KeySet(Pairs(vars, |vars|, PairPenalty))| == |vars| * (|vars| - 1)
  {
    PairsNoDup(vars, |vars|, PairPenalty);
    NoDupKeyCount(Pairs(vars, |vars|, PairPenalty));
    PairsLength(vars, |vars|, PairPenalty);
    TriClosedForm(|vars|);
  }

  /** With distinct plans, each query group's pair loops touch n(n-1)/2 keys. */
  lemma {:induction false} GroupPairKeyCount(plans: seq<PlanRow>, g: QueryKey)
    requires DistinctTriples(plans)
    ensures 2 * |KeySet(Pairs(GroupVars(plans, g), |GroupVars(plans, g)|, PairPenalty))|
         == |GroupRows(plans, g)| * (|GroupRows(plans, g)| - 1)
  {
    GroupVarsDistinct(plans, g);
    PairKeyCount(GroupVars(plans, g));
  }

  /**
   * For a query with distinct plans of which k are set to 1, the pair terms
   * weigh 2 * k(k-1)/2 = k(k-1) in the energy of any dictionary holding 2 on
   * every pair, which is 0 exactly when k <= 1.
   */
  lemma {:induction false} PairEnergy(Q: Coefficients, vars: seq<Var>, on: set<Var>)
    requires Distinct(vars)
    requires forall k :: k in KeySet(Pairs(vars, |vars|, PairPenalty)) ==> k in Q && Q[k] == PairPenalty
    ensures EnergyOver(Q, KeySet(Pairs(vars, |vars|, PairPenalty)), on)
         == (2 * Tri(Selected(vars, on))) as real
    ensures 2 * Tri(Selected(vars, on)) == Selected(vars, on) * (Selected(vars, on) - 1)
    ensures EnergyOver(Q, KeySet(Pairs(vars, |vars|, PairPenalty)), on) == 0.0 <==> Selected(vars, on) <= 1
  {
    var us := Pairs(vars, |vars|, PairPenalty);
    PairsNoDup(vars, |vars|, PairPenalty);
    forall x | 0 <= x < |us| ensures Get(Q, us[x].0) == us[x].1 {
      assert us[x].0 in KeySet(us);
    }
    EnergyOverWritten(Q, us, on);
    UpdatesEnergyConstant(us, PairPenalty, on);
    PairsSelected(vars, |vars|, PairPenalty, on);
    TriClosedForm(Selected(vars, on));
  }

  /**
   * After the pair pass, each query group's pair terms weigh 2 * Tri(k), that
   * is k(k-1), in the energy.
   */
  lemma {:induction false} PenalizedPairEnergy(Q0: Coefficients, plans: seq<PlanRow>, g: QueryKey, on: set<Var>)
    requires DistinctTriples(plans) && g in QueryGroups(plans)
    ensures EnergyOver(SetAll(Q0, PairUpdates(plans)),
                       KeySet(Pairs(GroupVars(plans, g), |GroupVars(plans, g)|, PairPenalty)), on)
         == (2 * Tri(Selected(GroupVars(plans, g), on))) as real
  {
    var vars := GroupVars(plans, g);
    var Q := SetAll(Q0, PairUpdates(plans));
    assert Distinct(vars) by {
      GroupVarsDistinct(plans, g);
    }
    assert forall k :: k in KeySet(Pairs(vars, |vars|, PairPenalty)) ==> k in Q && Q[k] == PairPenalty by {
      GroupPairsStored(Q0, plans, g);
    }
    PairEnergy(Q, vars, on);
  }

  /** After the pair pass, every pair of one query group holds 2. */
  lemma {:induction false} GroupPairsStored(Q0: Coefficients, plans: seq<PlanRow>, g: QueryKey)
    requires g in QueryGroups(plans)
    ensures forall k :: k in KeySet(Pairs(GroupVars(plans, g), |GroupVars(plans, g)|, PairPenalty)) ==>
              k in SetAll(Q0, PairUpdates(plans)) && SetAll(Q0, PairUpdates(plans))[k] == PairPenalty
  {
    var vars := GroupVars(plans, g);
    PairPassAt(Q0, plans);
    forall k | k in KeySet(Pairs(vars, |vars|, PairPenalty)) ensures IsPairKey(plans, k) {
      PairsKeys(vars, |vars|, PairPenalty, k);
    }
  }

  // ---------------------------------------------------------------------------
  // The whole build
  // ---------------------------------------------------------------------------

  /** The dictionary the script hands to `BinaryQuadraticModel.from_qubo`. */
  function BuiltQubo(plans: seq<PlanRow>, savings: seq<SavingRow>): Coefficients
  {
    SetAll(SetAll(SetAll(map[], CostUpdates(plans)), SavingUpdates(savings)), PairUpdates(plans))
  }

  /**
   * Cost pass, savings pass, pair pass, in the script's order. With distinct
   * plans every diagonal holds its plan's cost; the last row of each saving
   * key holds its saving; every within-query pair holds 2.
   */
  method BuildQubo(plans: seq<PlanRow>, savings: seq<SavingRow>) returns (Q: Coefficients)
    ensures Q == BuiltQubo(plans, savings)
    ensures DistinctTriples(plans) ==>
              forall i :: 0 <= i < |plans| ==>
                Diagonal(PlanVarOf(plans[i])) in Q && Q[Diagonal(PlanVarOf(plans[i]))] == plans[i].planCost
    ensures forall i :: 0 <= i < |savings| && LastOfKey(savings, i) ==>
              SavingKey(savings[i]) in Q && Q[SavingKey(savings[i])] == savings[i].costSaving
    ensures forall k :: IsPairKey(plans, k) ==> k in Q && Q[k] == PairPenalty
  {
    var Q1 := CostPass(plans);
    var Q2 := OverwriteSavings(Q1, savings);
    Q := PenalizePairs(Q2, plans);
    if DistinctTriples(plans) {
      forall i | 0 <= i < |plans|
        ensures Diagonal(PlanVarOf(plans[i])) in Q && Q[Diagonal(PlanVarOf(plans[i]))] == plans[i].planCost
      {
        var r := plans[i];
        assert LastOfTriple(plans, i);
        PairKeyNotDiagonal(plans, PlanVarOf(r));
      }
    }
    forall i | 0 <= i < |savings| && LastOfKey(savings, i)
      ensures SavingKey(savings[i]) in Q && Q[SavingKey(savings[i])] == savings[i].costSaving
    {
      PairKeyNotSavingKey(plans, savings[i]);
    }
  }
}
