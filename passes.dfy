/**
 * What both scripts share: the plan-cost pass, the saving keys, the per-query
 * variable lists, the update lists of the nested `for i ... for j in
 * range(i + 1, ...)` penalty loops, and the extraction of selected plans.
 */
module Passes {
  import opened Names
  import opened Qubo
  import opened Tables

  /** `f'q_{row["multi_query_id"]}_{row["query_id"]}_{row["global_plan_id"]}'` */
  function PlanVarOf(r: PlanRow): Var
  {
    PlanVar(r.multiQueryId, r.queryId, r.globalPlanId)
  }

  function Diagonal(v: Var): Key
  {
    (v, v)
  }

  /** Two plan rows name the same variable exactly when they carry the same triple. */
  lemma PlanVarOfInjective(r: PlanRow, s: PlanRow)
    ensures PlanVarOf(r) == PlanVarOf(s) <==> Triple(r) == Triple(s)
  {
    if PlanVarOf(r) == PlanVarOf(s) {
      PlanVarInjective(r.multiQueryId, r.queryId, r.globalPlanId, s.multiQueryId, s.queryId, s.globalPlanId);
    }
  }

  /** Row i is the last row of the table with its triple. */
  predicate LastOfTriple(plans: seq<PlanRow>, i: nat)
    requires i < |plans|
  {
    forall j :: i < j < |plans| ==> Triple(plans[j]) != Triple(plans[i])
  }

  /** The writes of the cost pass: the plan cost on the plan's diagonal. */
  function CostUpdates(plans: seq<PlanRow>): seq<Update>
  {
    seq(|plans|, i requires 0 <= i < |plans| => (Diagonal(PlanVarOf(plans[i])), plans[i].planCost))
  }

  /**
   * The cost pass of both scripts, run on the empty dictionary: it stores
   * (not adds) each row's cost on its variable's diagonal. The only keys are
   * those diagonals, and a repeated triple keeps the cost of its last row.
   */
  method CostPass(plans: seq<PlanRow>) returns (Q: Coefficients)
    ensures Q == SetAll(map[], CostUpdates(plans))
    ensures Q.Keys == set i | 0 <= i < |plans| :: Diagonal(PlanVarOf(plans[i]))
    ensures forall i :: 0 <= i < |plans| && LastOfTriple(plans, i) ==>
              Q[Diagonal(PlanVarOf(plans[i]))] == plans[i].planCost
  {
    ghost var us := CostUpdates(plans);
    Q := map[];
    for i := 0 to |plans|
      invariant Q == SetAll(map[], us[..i])
    {
      var planVar := PlanVar(plans[i].multiQueryId, plans[i].queryId, plans[i].globalPlanId);
      assert us[..i + 1] == us[..i] + [us[i]];
      SetAllSnoc(map[], us[..i], us[i]);
      Q := Q[(planVar, planVar) := plans[i].planCost];
    }
    assert us[..|plans|] == us;
    CostPassKeys(plans);
    CostPassLast(plans);
  }

  /** The cost pass writes exactly the diagonals of the plan variables. */
  lemma {:induction false} CostPassKeys(plans: seq<PlanRow>)
    ensures SetAll(map[], CostUpdates(plans)).Keys == set i | 0 <= i < |plans| :: Diagonal(PlanVarOf(plans[i]))
  {
    var us := CostUpdates(plans);
    var Q := SetAll(map[], us);
    SetAllKeys(map[], us);
    forall k | k in Q.Keys ensures k in set i | 0 <= i < |plans| :: Diagonal(PlanVarOf(plans[i])) {
      var i :| 0 <= i < |us| && us[i].0 == k;
    }
    forall i | 0 <= i < |plans| ensures Diagonal(PlanVarOf(plans[i])) in Q.Keys {
      assert us[i].0 in KeySet(us);
    }
  }

  /** The diagonal of a plan variable holds the cost of the last row with its triple. */
  lemma {:induction false} CostPassLast(plans: seq<PlanRow>)
    ensures forall i :: 0 <= i < |plans| && LastOfTriple(plans, i) ==>
              Diagonal(PlanVarOf(plans[i])) in SetAll(map[], CostUpdates(plans)) &&
              SetAll(map[], CostUpdates(plans))[Diagonal(PlanVarOf(plans[i]))] == plans[i].planCost
  {
    var us := CostUpdates(plans);
    forall i | 0 <= i < |plans| && LastOfTriple(plans, i)
      ensures Diagonal(PlanVarOf(plans[i])) in SetAll(map[], us) &&
              SetAll(map[], us)[Diagonal(PlanVarOf(plans[i]))] == plans[i].planCost
    {
      forall j | i < j < |us| ensures us[j].0 != us[i].0 {
        PlanVarOfInjective(plans[i], plans[j]);
      }
      SetAllLast(map[], us, i);
    }
  }

  /** The key `(f'q_{mq}_{plan1}', f'q_{mq}_{plan2}')` a saving row writes. */
  function SavingKey(r: SavingRow): Key
  {
    (SavingVar(r.multiQueryId, r.plan1GlobalId), SavingVar(r.multiQueryId, r.plan2GlobalId))
  }

  /** The writes of the savings pass, one per saving row, in file order. */
  function SavingUpdates(savings: seq<SavingRow>): seq<Update>
  {
    seq(|savings|, i requires 0 <= i < |savings| => (SavingKey(savings[i]), savings[i].costSaving))
  }

  /** No saving key has a plan variable on either side. */
  lemma SavingKeysAvoidPlanVars(savings: seq<SavingRow>, k: Key, mq: nat, q: nat, gp: nat)
    requires k.0 == PlanVar(mq, q, gp) || k.1 == PlanVar(mq, q, gp)
    ensures k !in KeySet(SavingUpdates(savings))
  {
    var us := SavingUpdates(savings);
    forall i | 0 <= i < |us| ensures us[i].0 != k {
      var r := savings[i];
      SavingVarIsNotPlanVar(r.multiQueryId, r.plan1GlobalId, mq, q, gp);
      SavingVarIsNotPlanVar(r.multiQueryId, r.plan2GlobalId, mq, q, gp);
    }
  }

  /**
   * `[f'q_{multi_query_id}_{query_id}_{row["global_plan_id"]}' for _, row in
   * query_group.iterrows()]`: the variables of one query group, in row order.
   */
  function GroupVars(plans: seq<PlanRow>, g: QueryKey): seq<Var>
  {
    var rows := GroupRows(plans, g);
    seq(|rows|, i requires 0 <= i < |rows| => PlanVar(g.multiQueryId, g.queryId, rows[i].globalPlanId))
  }

  predicate Distinct(vars: seq<Var>)
  {
    forall a, b :: 0 <= a < b < |vars| ==> vars[a] != vars[b]
  }

  /** The i-th variable of a group names the group's i-th row. */
  lemma GroupVarsAt(plans: seq<PlanRow>, g: QueryKey, i: nat)
    requires i < |GroupRows(plans, g)|
    ensures |GroupVars(plans, g)| == |GroupRows(plans, g)|
    ensures GroupVars(plans, g)[i] == PlanVarOf(GroupRows(plans, g)[i])
  {
    var rows := GroupRows(plans, g);
    assert rows[i] in rows;
  }

  /** With distinct triples, a group lists each of its variables once. */
  lemma GroupVarsDistinct(plans: seq<PlanRow>, g: QueryKey)
    requires DistinctTriples(plans)
    ensures Distinct(GroupVars(plans, g))
  {
    var rows := GroupRows(plans, g);
    var vars := GroupVars(plans, g);
    GroupRowsDistinct(plans, g);
    forall a, b | 0 <= a < b < |vars| ensures vars[a] != vars[b] {
      GroupVarsAt(plans, g, a);
      GroupVarsAt(plans, g, b);
      PlanVarOfInjective(rows[a], rows[b]);
    }
  }

  /** Every variable of a group is named from the group's own key. */
  lemma GroupVarsNamedFromKey(plans: seq<PlanRow>, g: QueryKey, i: nat)
    requires i < |GroupVars(plans, g)|
    ensures GroupVars(plans, g)[i] == PlanVar(g.multiQueryId, g.queryId, GroupRows(plans, g)[i].globalPlanId)
  {
  }

  /** Every variable of a query group is a plan name of that query. */
  lemma GroupVarIsPlanVar(plans: seq<PlanRow>, g: QueryKey, v: Var)
    requires v in GroupVars(plans, g)
    ensures exists gp: nat :: v == PlanVar(g.multiQueryId, g.queryId, gp)
  {
    var i :| 0 <= i < |GroupVars(plans, g)| && GroupVars(plans, g)[i] == v;
    GroupVarsNamedFromKey(plans, g, i);
  }

  /** Variables of two different groups never coincide. */
  lemma GroupVarsDisjoint(plans: seq<PlanRow>, g: QueryKey, h: QueryKey, i: nat, j: nat)
    requires g != h && i < |GroupVars(plans, g)| && j < |GroupVars(plans, h)|
    ensures GroupVars(plans, g)[i] != GroupVars(plans, h)[j]
  {
    var a := GroupRows(plans, g)[i].globalPlanId;
    var b := GroupRows(plans, h)[j].globalPlanId;
    if PlanVar(g.multiQueryId, g.queryId, a) == PlanVar(h.multiQueryId, h.queryId, b) {
      PlanVarInjective(g.multiQueryId, g.queryId, a, h.multiQueryId, h.queryId, b);
    }
  }

  /** The variable lists of the query groups, in group-by order. */
  function GroupVarLists(plans: seq<PlanRow>): seq<seq<Var>>
  {
    var gs := QueryGroups(plans);
    seq(|gs|, x requires 0 <= x < |gs| => GroupVars(plans, gs[x]))
  }

  /** Each list repeats no variable and no variable appears in two lists. */
  predicate SeparateLists(vss: seq<seq<Var>>)
  {
    && (forall x :: 0 <= x < |vss| ==> Distinct(vss[x]))
    && (forall x, y, a, b :: 0 <= x < y < |vss| && 0 <= a < |vss[x]| && 0 <= b < |vss[y]| ==> vss[x][a] != vss[y][b])
  }

  /** With distinct plans, the query groups' lists are separate. */
  lemma GroupVarListsSeparate(plans: seq<PlanRow>)
    requires DistinctTriples(plans)
    ensures SeparateLists(GroupVarLists(plans))
  {
    var gs := QueryGroups(plans);
    var vss := GroupVarLists(plans);
    forall x | 0 <= x < |vss| ensures Distinct(vss[x]) {
      GroupVarsDistinct(plans, gs[x]);
    }
    forall x, y, a, b | 0 <= x < y < |vss| && 0 <= a < |vss[x]| && 0 <= b < |vss[y]|
      ensures vss[x][a] != vss[y][b]
    {
      assert Before(gs[x], gs[y]);
      GroupVarsDisjoint(plans, gs[x], gs[y], a, b);
    }
  }

  // ---------------------------------------------------------------------------
  // Update lists of the per-query loops, for one list of variables.
  // ---------------------------------------------------------------------------

  /** `for var in plan_vars[:t]`: one write on each variable's diagonal. */
  function Linear(vars: seq<Var>, t: nat, w: real): (us: seq<Update>)
    requires t <= |vars|
    ensures |us| == t && AllWeights(us, w)
  {
    if t == 0 then [] else Linear(vars, t - 1, w) + [(Diagonal(vars[t - 1]), w)]
  }

  /** `for j in range(i + 1, j_end)`: the pairs (vars[i], vars[j]). */
  function Row(vars: seq<Var>, i: nat, j: nat, w: real): (us: seq<Update>)
    requires i < j <= |vars|
    ensures |us| == j - i - 1 && AllWeights(us, w)
    decreases j
  {
    if j == i + 1 then [] else Row(vars, i, j - 1, w) + [((vars[i], vars[j - 1]), w)]
  }

  /** `for i in range(i_end): for j in range(i + 1, len(vars))`. */
  function Pairs(vars: seq<Var>, i: nat, w: real): (us: seq<Update>)
    requires i <= |vars|
    ensures AllWeights(us, w)
  {
    if i == 0 then []
    else
      var before := Pairs(vars, i - 1, w);
      var row := Row(vars, i - 1, |vars|, w);
      AllWeightsConcat(before, row, w);
      before + row
  }

  /** k is the diagonal of some variable of the list. */
  ghost predicate IsDiagonalOf(vars: seq<Var>, k: Key)
  {
    exists p :: 0 <= p < |vars| && k == (vars[p], vars[p])
  }

  /** k is (vars[a], vars[b]) for some positions a < b. */
  ghost predicate IsPairOf(vars: seq<Var>, k: Key)
  {
    exists a, b :: 0 <= a < b < |vars| && k == (vars[a], vars[b])
  }

  lemma {:induction false} LinearKeys(vars: seq<Var>, t: nat, w: real, k: Key)
    requires t <= |vars|
    ensures k in KeySet(Linear(vars, t, w)) <==> exists p :: 0 <= p < t && k == (vars[p], vars[p])
  {
    if t > 0 {
      KeySetSnoc(Linear(vars, t - 1, w), (Diagonal(vars[t - 1]), w));
      LinearKeys(vars, t - 1, w, k);
    }
  }

  lemma {:induction false} RowKeys(vars: seq<Var>, i: nat, j: nat, w: real, k: Key)
    requires i < j <= |vars|
    ensures k in KeySet(Row(vars, i, j, w)) <==> exists p :: i < p < j && k == (vars[i], vars[p])
    decreases j
  {
    if j > i + 1 {
      KeySetSnoc(Row(vars, i, j - 1, w), ((vars[i], vars[j - 1]), w));
      RowKeys(vars, i, j - 1, w, k);
    }
  }

  lemma {:induction false} PairsKeys(vars: seq<Var>, i: nat, w: real, k: Key)
    requires i <= |vars|
    ensures k in KeySet(Pairs(vars, i, w)) <==>
              exists a, b :: 0 <= a < i && a < b < |vars| && k == (vars[a], vars[b])
  {
    if i > 0 {
      KeySetConcat(Pairs(vars, i - 1, w), Row(vars, i - 1, |vars|, w));
      PairsKeys(vars, i - 1, w, k);
      RowKeys(vars, i - 1, |vars|, w, k);
    }
  }

  lemma {:induction false} LinearNoDup(vars: seq<Var>, t: nat, w: real)
    requires t <= |vars| && Distinct(vars)
    ensures NoDupKeys(Linear(vars, t, w))
  {
    if t > 0 {
      var u := (Diagonal(vars[t - 1]), w);
      LinearNoDup(vars, t - 1, w);
      LinearKeys(vars, t - 1, w, u.0);
      KeySetSnoc([], u);
      assert [] + [u] == [u];
      NoDupConcat(Linear(vars, t - 1, w), [u]);
    }
  }

  lemma {:induction false} RowNoDup(vars: seq<Var>, i: nat, j: nat, w: real)
    requires i < j <= |vars| && Distinct(vars)
    ensures NoDupKeys(Row(vars, i, j, w))
    decreases j
  {
    if j > i + 1 {
      var u := ((vars[i], vars[j - 1]), w);
      RowNoDup(vars, i, j - 1, w);
      RowKeys(vars, i, j - 1, w, u.0);
      KeySetSnoc([], u);
      assert [] + [u] == [u];
      NoDupConcat(Row(vars, i, j - 1, w), [u]);
    }
  }

  lemma {:induction false} PairsNoDup(vars: seq<Var>, i: nat, w: real)
    requires i <= |vars| && Distinct(vars)
    ensures NoDupKeys(Pairs(vars, i, w))
  {
    if i > 0 {
      var before := Pairs(vars, i - 1, w);
      var row := Row(vars, i - 1, |vars|, w);
      PairsNoDup(vars, i - 1, w);
      RowNoDup(vars, i - 1, |vars|, w);
      forall k | k in KeySet(row) ensures k !in KeySet(before) {
        RowKeys(vars, i - 1, |vars|, w, k);
        PairsKeys(vars, i - 1, w, k);
      }
      NoDupConcat(before, row);
    }
  }

  /** With distinct variables, no diagonal key is also a pair key. */
  lemma LinearPairsDisjoint(vars: seq<Var>, w: real, w': real)
    requires Distinct(vars)
    ensures KeySet(Linear(vars, |vars|, w)) !! KeySet(Pairs(vars, |vars|, w'))
  {
    forall k | k in KeySet(Linear(vars, |vars|, w)) ensures k !in KeySet(Pairs(vars, |vars|, w')) {
      LinearKeys(vars, |vars|, w, k);
      PairsKeys(vars, |vars|, w', k);
    }
  }

  /** The pair loops write n(n-1)/2 updates for n variables. */
  lemma {:induction false} PairsLength(vars: seq<Var>, i: nat, w: real)
    requires i <= |vars|
    ensures |Pairs(vars, i, w)| + Tri(|vars| - i) == Tri(|vars|)
  {
    if i > 0 {
      PairsLength(vars, i - 1, w);
    }
  }

  // ---------------------------------------------------------------------------
  // Counting selected variables.
  // ---------------------------------------------------------------------------

  /** 0 + 1 + ... + (n - 1), the number of pairs a < b below n. */
  function Tri(n: nat): nat
  {
    if n == 0 then 0 else Tri(n - 1) + (n - 1)
  }

  lemma {:induction false} TriClosedForm(n: nat)
    ensures 2 * Tri(n) == n * (n - 1)
  {
    if n > 0 {
      TriClosedForm(n - 1);
      assert (n - 1) * (n - 2) + 2 * (n - 1) == n * (n - 1);
    }
  }

  /** Number of positions p in [lo, hi) whose variable is set to 1. */
  function CountOn(vars: seq<Var>, lo: nat, hi: nat, on: set<Var>): nat
    requires lo <= hi <= |vars|
    decreases hi - lo
  {
    if lo == hi then 0 else (if vars[lo] in on then 1 else 0) + CountOn(vars, lo + 1, hi, on)
  }

  /** Number of positions of the list whose variable is set to 1. */
  function Selected(vars: seq<Var>, on: set<Var>): nat
  {
    CountOn(vars, 0, |vars|, on)
  }

  lemma {:induction false} CountOnSnoc(vars: seq<Var>, lo: nat, hi: nat, on: set<Var>)
    requires lo < hi <= |vars|
    ensures CountOn(vars, lo, hi, on) == CountOn(vars, lo, hi - 1, on) + (if vars[hi - 1] in on then 1 else 0)
    decreases hi - lo
  {
    if lo < hi - 1 {
      CountOnSnoc(vars, lo + 1, hi, on);
    }
  }

  lemma {:induction false} LinearSelected(vars: seq<Var>, t: nat, w: real, on: set<Var>)
    requires t <= |vars|
    ensures SelectedHits(Linear(vars, t, w), on) == CountOn(vars, 0, t, on)
  {
    if t > 0 {
      LinearSelected(vars, t - 1, w, on);
      CountOnSnoc(vars, 0, t, on);
      assert Linear(vars, t, w)[..t - 1] == Linear(vars, t - 1, w);
    }
  }

  lemma {:induction false} RowSelected(vars: seq<Var>, i: nat, j: nat, w: real, on: set<Var>)
    requires i < j <= |vars|
    ensures SelectedHits(Row(vars, i, j, w), on) == if vars[i] in on then CountOn(vars, i + 1, j, on) else 0
    decreases j
  {
    if j > i + 1 {
      RowSelected(vars, i, j - 1, w, on);
      CountOnSnoc(vars, i + 1, j, on);
      var r := Row(vars, i, j, w);
      assert r[..|r| - 1] == Row(vars, i, j - 1, w);
    }
  }

  /** The pair loops hit both-selected pairs Tri(k) times for k selected positions. */
  lemma {:induction false} PairsSelected(vars: seq<Var>, i: nat, w: real, on: set<Var>)
    requires i <= |vars|
    ensures SelectedHits(Pairs(vars, i, w), on) + Tri(CountOn(vars, i, |vars|, on)) == Tri(Selected(vars, on))
  {
    if i > 0 {
      var before := Pairs(vars, i - 1, w);
      var row := Row(vars, i - 1, |vars|, w);
      var c := CountOn(vars, i, |vars|, on);
      var total := Tri(Selected(vars, on));
      var hb := SelectedHits(before, on);
      var hr := SelectedHits(row, on);
      assert hb + Tri(CountOn(vars, i - 1, |vars|, on)) == total by {
        PairsSelected(vars, i - 1, w, on);
      }
      assert hr == if vars[i - 1] in on then c else 0 by {
        RowSelected(vars, i - 1, |vars|, w, on);
      }
      assert SelectedHits(Pairs(vars, i, w), on) == hb + hr by {
        assert Pairs(vars, i, w) == before + row;
        SelectedHitsConcat(before, row, on);
      }
      if vars[i - 1] in on {
        assert CountOn(vars, i - 1, |vars|, on) == c + 1;
        assert Tri(c + 1) == Tri(c) + c;
      } else {
        assert CountOn(vars, i - 1, |vars|, on) == c;
      }
    }
  }


  // ---------------------------------------------------------------------------
  // Selected plans of the best sample.
  // ---------------------------------------------------------------------------

  /** `[key for key, value in best_solution.items() if value == 1]` */
  function SelectedPlans(sample: seq<(Var, int)>): (r: seq<Var>)
    ensures |r| <= |sample|
    ensures forall v :: v in r <==> exists i :: 0 <= i < |sample| && sample[i] == (v, 1)
  {
    if sample == [] then []
    else
      var init := sample[..|sample| - 1];
      var last := sample[|sample| - 1];
      assert forall i :: 0 <= i < |init| ==> init[i] == sample[i];
      SelectedPlans(init) + (if last.1 == 1 then [last.0] else [])
  }

  /** Selection keeps the sample's order: it distributes over concatenation. */
  lemma {:induction false} SelectedPlansConcat(a: seq<(Var, int)>, b: seq<(Var, int)>)
    ensures SelectedPlans(a + b) == SelectedPlans(a) + SelectedPlans(b)
    decreases |b|
  {
    if b == [] {
      assert a + b == a;
    } else {
      var b' := b[..|b| - 1];
      assert (a + b)[..|a + b| - 1] == a + b';
      SelectedPlansConcat(a, b');
    }
  }

  /** A sample's variables are dictionary keys, so each is selected at most once. */
  lemma {:induction false} SelectedPlansDistinct(sample: seq<(Var, int)>)
    requires forall i, j :: 0 <= i < j < |sample| ==> sample[i].0 != sample[j].0
    ensures Distinct(SelectedPlans(sample))
  {
    if sample != [] {
      var init := sample[..|sample| - 1];
      var last := sample[|sample| - 1];
      SelectedPlansDistinct(init);
      var r := SelectedPlans(init);
      if last.1 == 1 {
        forall v | v in r ensures v != last.0 {
          var i :| 0 <= i < |init| && init[i] == (v, 1);
          assert sample[i] == init[i];
        }
        var all := r + [last.0];
        forall a, b | 0 <= a < b < |all| ensures all[a] != all[b] {
          if b < |r| {
            assert all[a] == r[a] && all[b] == r[b];
          } else {
            assert all[a] == r[a] && r[a] in r;
          }
        }
      }
    }
  }
}
