/**
 * The two input tables, as sequences of rows in file order, and the grouping
 * `plans_df.groupby('multi_query_id')` followed by `.groupby('query_id')`:
 * groups are visited in ascending key order and keep their rows in input order.
 */
module Tables {

  datatype PlanRow = PlanRow(multiQueryId: nat, queryId: nat, globalPlanId: nat, planCost: real)

  datatype SavingRow = SavingRow(multiQueryId: nat, plan1GlobalId: nat, plan2GlobalId: nat, costSaving: real)

  /** The key of a query group: (multi_query_id, query_id). */
  datatype QueryKey = QueryKey(multiQueryId: nat, queryId: nat)

  function KeyOf(r: PlanRow): QueryKey
  {
    QueryKey(r.multiQueryId, r.queryId)
  }

  /** The id triple a plan variable is named from. */
  function Triple(r: PlanRow): (nat, nat, nat)
  {
    (r.multiQueryId, r.queryId, r.globalPlanId)
  }

  /** No two plan rows carry the same (multi_query_id, query_id, global_plan_id). */
  predicate DistinctTriples(plans: seq<PlanRow>)
  {
    forall i, j :: 0 <= i < j < |plans| ==> Triple(plans[i]) != Triple(plans[j])
  }

  /** Nested group-by order: by multi_query_id, then by query_id. */
  predicate Before(a: QueryKey, b: QueryKey)
  {
    a.multiQueryId < b.multiQueryId || (a.multiQueryId == b.multiQueryId && a.queryId < b.queryId)
  }

  predicate StrictlySorted(gs: seq<QueryKey>)
  {
    forall i, j :: 0 <= i < j < |gs| ==> Before(gs[i], gs[j])
  }

  /** Adds a key to a strictly sorted list of keys, unless it is already there. */
  function Insert(g: QueryKey, gs: seq<QueryKey>): (r: seq<QueryKey>)
    requires StrictlySorted(gs)
    ensures StrictlySorted(r)
    ensures forall h :: h in r <==> h == g || h in gs
  {
    if gs == [] then [g]
    else if g == gs[0] then gs
    else if Before(g, gs[0]) then [g] + gs
    else
      var rest := Insert(g, gs[1..]);
      assert forall h :: h in rest ==> Before(gs[0], h);
      [gs[0]] + rest
  }

  /** The query groups of the plans table, in the order the nested group-by visits them. */
  function QueryGroups(plans: seq<PlanRow>): (gs: seq<QueryKey>)
    ensures StrictlySorted(gs)
    ensures forall g :: g in gs <==> exists i :: 0 <= i < |plans| && KeyOf(plans[i]) == g
  {
    if plans == [] then []
    else
      var gs := QueryGroups(plans[..|plans| - 1]);
      assert forall i :: 0 <= i < |plans| - 1 ==> plans[..|plans| - 1][i] == plans[i];
      Insert(KeyOf(plans[|plans| - 1]), gs)
  }

  /** The rows of one query group, in input order. */
  function GroupRows(plans: seq<PlanRow>, g: QueryKey): (rows: seq<PlanRow>)
    ensures forall r :: r in rows ==> r in plans && KeyOf(r) == g
    ensures forall i :: 0 <= i < |plans| && KeyOf(plans[i]) == g ==> plans[i] in rows
    ensures rows != [] <==> exists i :: 0 <= i < |plans| && KeyOf(plans[i]) == g
  {
    if plans == [] then []
    else
      var last := plans[|plans| - 1];
      var rows := GroupRows(plans[..|plans| - 1], g);
      assert forall i :: 0 <= i < |plans| - 1 ==> plans[..|plans| - 1][i] == plans[i];
      rows + (if KeyOf(last) == g then [last] else [])
  }

  /**
   * Group-by keeps the input order and one copy of each row: the rows of a
   * concatenation are the rows of each part, in turn.
   */
  lemma {:induction false} GroupRowsConcat(a: seq<PlanRow>, b: seq<PlanRow>, g: QueryKey)
    ensures GroupRows(a + b, g) == GroupRows(a, g) + GroupRows(b, g)
    decreases |b|
  {
    if b == [] {
      assert a + b == a;
    } else {
      var b' := b[..|b| - 1];
      assert (a + b)[..|a + b| - 1] == a + b';
      GroupRowsConcat(a, b', g);
    }
  }

  /** A single row forms (part of) a group exactly when it carries the group's key. */
  lemma GroupRowsSingle(r: PlanRow, g: QueryKey)
    ensures GroupRows([r], g) == if KeyOf(r) == g then [r] else []
  {
  }

  /** The rows of one multi-query group, in input order. */
  function MultiQueryRows(plans: seq<PlanRow>, mq: nat): (rows: seq<PlanRow>)
    ensures forall r :: r in rows ==> r in plans && r.multiQueryId == mq
    ensures rows != [] <==> exists i :: 0 <= i < |plans| && plans[i].multiQueryId == mq
  {
    if plans == [] then []
    else
      var last := plans[|plans| - 1];
      var rows := MultiQueryRows(plans[..|plans| - 1], mq);
      assert forall i :: 0 <= i < |plans| - 1 ==> plans[..|plans| - 1][i] == plans[i];
      rows + (if last.multiQueryId == mq then [last] else [])
  }

  /** The multi-query group keeps the input order and one copy of each row as well. */
  lemma {:induction false} MultiQueryRowsConcat(a: seq<PlanRow>, b: seq<PlanRow>, mq: nat)
    ensures MultiQueryRows(a + b, mq) == MultiQueryRows(a, mq) + MultiQueryRows(b, mq)
    decreases |b|
  {
    if b == [] {
      assert a + b == a;
    } else {
      var b' := b[..|b| - 1];
      assert (a + b)[..|a + b| - 1] == a + b';
      MultiQueryRowsConcat(a, b', mq);
    }
  }

  /** Rows of a group keep distinct triples when the whole table has them. */
  lemma {:induction false} GroupRowsDistinct(plans: seq<PlanRow>, g: QueryKey)
    requires DistinctTriples(plans)
    ensures DistinctTriples(GroupRows(plans, g))
  {
    if plans != [] {
      var init := plans[..|plans| - 1];
      var last := plans[|plans| - 1];
      assert DistinctTriples(init) by {
        forall i, j | 0 <= i < j < |init| ensures Triple(init[i]) != Triple(init[j]) {
          assert init[i] == plans[i] && init[j] == plans[j];
        }
      }
      GroupRowsDistinct(init, g);
      var rows := GroupRows(init, g);
      if KeyOf(last) == g {
        forall r | r in rows ensures Triple(r) != Triple(last) {
          var i :| 0 <= i < |init| && init[i] == r;
          assert plans[i] == r;
        }
        var all := rows + [last];
        forall i, j | 0 <= i < j < |all| ensures Triple(all[i]) != Triple(all[j]) {
          if j < |rows| {
            assert all[i] == rows[i] && all[j] == rows[j];
          } else {
            assert all[i] == rows[i] && all[i] in rows;
          }
        }
      } else {
        assert GroupRows(plans, g) == rows;
      }
    }
  }
}
