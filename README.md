# Multi-query optimisation QUBO builder, modelled in Dafny

The repository solves multi-query optimisation on a quantum annealer. Each
query of a batch ("multi-query") has several candidate execution plans. One
binary variable per plan says whether that plan is chosen. The scripts put
the plan costs, the savings from sharing work between plans, and a per-query
penalty into a QUBO dictionary `Q`. `Q` maps ordered pairs of variable names
to coefficients. The scripts then hand `Q` to a sampler and read the chosen
plans back from the best sample.

The model covers both variants of the builder.

- `mqo_python_updated.py` accumulates. A missing key starts at 0, then `+=`.
  Its penalty adds `penalty_weight = 10` to every plan diagonal and to every
  within-query pair. It also projects the best sample onto per-query result
  rows.
- `mqo_python.py` overwrites (`Q[k] = v`). Its penalty stores the constant 2
  on every within-query pair.

How the model is organised:

- `names.dfy` (module `Names`): variable names rendered from natural-number
  ids in decimal, `q_{mq}_{q}_{gp}` for plans and `q_{mq}_{gp}` for savings.
  It also proves the facts about these strings that the passes rely on.
- `qubo.dfy` (module `Qubo`): the coefficient map.
  - A pass is described by the list of writes it performs, in order.
  - `AddAll` folds the list by accumulation and `SetAll` folds it by
    overwriting. These two folds are the specifications the imperative loops
    are proved against.
  - The QUBO energy of an assignment is Σ `Q[(a,b)]·x_a·x_b` over the keys.
- `tables.dfy` (module `Tables`): plan rows and saving rows as sequences, in
  file order.
  - The nested `groupby('multi_query_id')` / `groupby('query_id')` is a
    strictly sorted list of distinct `(mq, q)` keys, visited in ascending
    order.
  - Rows inside a group keep their input order.
- `passes.dfy` (module `Passes`): what both scripts share.
  - The cost pass.
  - The saving keys.
  - Each query's variable list.
  - The write lists of the nested `for i … for j in range(i + 1, …)` loops.
  - The extraction of `selected_plans`.
- `updated.dfy` (module `UpdatedScript`) and `original.dfy` (module
  `OriginalScript`): the two scripts' passes, as methods with loops whose
  results are tied to the folds, plus their properties.

`Q` is a local dictionary of each script that nothing else aliases. The
model therefore passes it as a value: each pass is a method that takes the
old map and returns the new one.

## Model

| member | source | states |
|---|---|---|
| Names.PlanVarInjective | mqo_python_updated.py:21 | two plan names are equal only when their (mq, q, gp) triples are equal |
| Names.Digits | mqo_python_updated.py:21 | an id rendered by an f-string: a nonempty string of decimal digits (read back by `ParseDigits`) |
| Names.PlanVar | mqo_python_updated.py:21 | the plan name `q_{mq}_{q}_{gp}` as rendered at `mqo_python_updated.py:21` and `:38` and at `mqo_python.py:26`; its shape and injectivity are the lemmas `PlanVarShape` and `PlanVarInjective` |
| Names.SavingVar | mqo_python_updated.py:27-28 | the saving name `q_{mq}_{gp}` as rendered at `mqo_python_updated.py:27-28` and `mqo_python.py:30-31`; it is never a plan name (`SavingVarIsNotPlanVar`) |
| Names.QueryTag | mqo_python_updated.py:85 | the tag `q_{mq}_{q}` the result filter looks for |
| Names.Contains | mqo_python_updated.py:85 | Python's `t in s` on strings: t occurs at some position of s (`ContainsOccurs`) |
| Names.DigitsInjective | mqo_python_updated.py:21 | the decimal rendering of natural-number ids is injective |
| Names.ParseDigits | mqo_python_updated.py:21 | reading back a rendered id gives the id (round trip) |
| Names.PlanVarShape | mqo_python_updated.py:38 | a plan name is `q_` + mq + `_` + q + `_` + gp, i.e. the query tag `q_{mq}_{q}` followed by `_` and the plan id |
| Names.SavingVarIsNotPlanVar | mqo_python_updated.py:27-28 | a two-component saving name `q_{mq}_{gp}` never equals a three-component plan name |
| Names.PlanVarContainsTag | mqo_python_updated.py:85 | every plan name of query (mq, q) contains the tag `q_{mq}_{q}` |
| Names.InQueryPlanVar | mqo_python_updated.py:85 | a plan name starts with `q_{mq}_{q}_` exactly when it names a plan of query (mq, q) |
| Names.InQueryNotSavingVar | mqo_python_updated.py:27-28 | no saving name starts with `q_{mq}_{q}_` |
| Qubo.AddAllAt | mqo_python_updated.py:29-31 | accumulating a write list: the keys are the old keys plus the written ones, and each coefficient is its old value (0 if absent) plus the sum of all writes to it |
| Qubo.AddAllConstant | mqo_python_updated.py:43-45 | accumulating writes of one value w: each coefficient grows by w per write aimed at it |
| Qubo.AddAllOnce | mqo_python_updated.py:50-52 | with no repeated key, a written key grows by exactly w and every other key keeps its membership and value |
| Qubo.SetAllKeys | mqo_python.py:32 | overwriting: the keys are the old keys plus the written ones |
| Qubo.SetAllLast | mqo_python.py:32 | overwriting: a key holds the value of the last write to it |
| Qubo.SetAllUntouched | mqo_python.py:42 | overwriting: a key no write touches keeps its membership and value |
| Qubo.AddAllEnergy | mqo_python_updated.py:56 | accumulating a write list raises the QUBO energy by exactly the writes' own energy |
| Qubo.EnergyOverWritten | mqo_python.py:44 | when no key repeats and each written key holds its write's value, the energy over the written keys equals the writes' energy |
| Tables.QueryGroups | mqo_python_updated.py:36-37 | the group keys are strictly sorted by (mq, q), and a key is present exactly when some plan row carries it |
| Tables.GroupRows | mqo_python_updated.py:37 | a group's rows are plan rows with its key; every plan row with that key is among them; the group is nonempty exactly when such a row exists; order and multiplicity are fixed by `GroupRowsConcat` and `GroupRowsSingle` |
| Tables.GroupRowsConcat | mqo_python_updated.py:37 | group-by keeps the input order and one copy of each row: the group of a concatenation is the group of each part, in turn |
| Tables.GroupRowsSingle | mqo_python_updated.py:37 | a single row is its own group exactly when it carries the key, and contributes nothing otherwise |
| Tables.MultiQueryRows | mqo_python.py:40 | `multi_query_group`: the rows of one multi-query id, each from the table, nonempty exactly when the id occurs |
| Tables.MultiQueryRowsConcat | mqo_python.py:34 | that group keeps the input order and one copy of each row |
| Tables.GroupRowsDistinct | mqo_python_updated.py:37 | a group keeps distinct triples when the whole table has them |
| Passes.CostPass | mqo_python_updated.py:20-22 | the cost pass stores each row's cost on its variable's diagonal, starting from an empty dictionary; the keys are exactly those diagonals; a repeated triple keeps the cost of its last row |
| Passes.CostUpdates | mqo_python_updated.py:20-22 | the cost pass's writes: one (diagonal of the row's plan name, plan cost) per plan row, in file order |
| Passes.CostPassKeys | mqo_python.py:25-27 | the cost writes create exactly the diagonal keys of the plan variables |
| Passes.CostPassLast | mqo_python.py:25-27 | each diagonal holds the cost of the last row with its triple (assigned, not added) |
| Passes.PlanVarOfInjective | mqo_python_updated.py:21 | two plan rows name the same variable exactly when they carry the same triple |
| Passes.SavingKey | mqo_python_updated.py:27-29 | the key of a saving row: the pair of its two saving names |
| Passes.SavingUpdates | mqo_python_updated.py:26-31 | the savings pass's writes: one (saving key, cost saving) per saving row, in file order |
| Passes.SavingKeysAvoidPlanVars | mqo_python_updated.py:27-28 | no key the savings pass writes has a plan name on either side |
| Passes.GroupVars | mqo_python_updated.py:38-39 | `plan_vars`: the plan names of a query group's rows, built from the group key, in row order (`GroupVarsAt`, `GroupVarIsPlanVar`) |
| Passes.GroupVarsAt | mqo_python_updated.py:38-39 | `plan_vars` has one name per row of the group, in row order |
| Passes.GroupVarIsPlanVar | mqo_python.py:40-41 | every variable of a query group is a plan name of that query |
| Passes.GroupVarsDistinct | mqo_python_updated.py:38-39 | with distinct triples, a group's names are pairwise distinct |
| Passes.GroupVarsDisjoint | mqo_python_updated.py:36-39 | names of two different groups never coincide |
| Passes.GroupVarListsSeparate | mqo_python_updated.py:36-39 | with distinct triples, each list is duplicate-free and no name occurs in two lists |
| Passes.Linear | mqo_python_updated.py:42-45 | the writes of `for var in plan_vars`: one write of w per position, on that name's diagonal |
| Passes.Row | mqo_python_updated.py:49-52 | the writes of the inner loop for one i: one write of w on (vars[i], vars[j]) per j > i, i.e. n - i - 1 writes |
| Passes.Pairs | mqo_python_updated.py:48-52 | the writes of the nested `i < j` loops (also `mqo_python.py:38-42`), every one of weight w |
| Passes.PairsKeys | mqo_python_updated.py:48-49 | the `for i … for j in range(i + 1, n)` loops write exactly the keys (vars[a], vars[b]) with a < b |
| Passes.PairsNoDup | mqo_python_updated.py:48-49 | over distinct names the pair loops never write a key twice |
| Passes.LinearPairsDisjoint | mqo_python_updated.py:42-52 | over distinct names the diagonal loop and the pair loops write different keys |
| Passes.PairsLength | mqo_python.py:38-39 | the pair loops perform n(n-1)/2 writes for n names |
| Passes.TriClosedForm | mqo_python.py:38-39 | 2·Tri(n) = n(n-1) |
| Passes.LinearSelected | mqo_python_updated.py:42-45 | the diagonal loop writes to a selected variable once per selected position |
| Passes.PairsSelected | mqo_python_updated.py:48-52 | the pair loops write Tri(k) keys whose two variables are both selected, for k selected positions |
| Passes.SelectedPlans | mqo_python_updated.py:76 | `selected_plans` holds exactly the variables the sample sets to 1 |
| Passes.SelectedPlansConcat | mqo_python.py:57 | the selection keeps the sample's iteration order (it distributes over concatenation) |
| Passes.SelectedPlansDistinct | mqo_python.py:57 | a sample with distinct variables yields a duplicate-free selection |
| UpdatedScript.AddInto | mqo_python_updated.py:29-31 | check-then-`+=`: d is added to the key's coefficient (0 if absent), and every other key is kept |
| UpdatedScript.AccumulateSavings | mqo_python_updated.py:26-31 | the savings pass accumulates: each coefficient is its old value plus the sum of the savings of all rows producing its key; no plan diagonal changes |
| UpdatedScript.DuplicateSavingCountsTwice | mqo_python_updated.py:26-31 | a saving row given twice contributes twice its saving |
| UpdatedScript.GroupPenalty | mqo_python_updated.py:42-52 | one query's penalty writes: the diagonal loop, then the pair loops, every write of weight 10 |
| UpdatedScript.PenaltyUpdates | mqo_python_updated.py:36-52 | the whole penalty pass's writes: the query groups' penalty writes in group-by order, every write of weight 10 |
| UpdatedScript.AccumulatePenalty | mqo_python_updated.py:35-52 | the penalty pass adds 10 per penalty write to each key, and its keys are the old ones plus the penalty keys |
| UpdatedScript.AccumulateGroup | mqo_python_updated.py:42-52 | the body of the group loop accumulates 10 on each diagonal, then 10 on each pair (plan_vars[i], plan_vars[j]) with i < j |
| UpdatedScript.AccumulateRow | mqo_python_updated.py:49-52 | one pass of the inner j loop |
| UpdatedScript.PenaltyPassAt | mqo_python_updated.py:35-52 | the dictionary after the penalty writes, key by key |
| UpdatedScript.PenaltyKeys | mqo_python_updated.py:35-52 | a key receives a penalty exactly when it is (vars[a], vars[b]) with a <= b for some query's variables |
| UpdatedScript.PenaltyNoDup | mqo_python_updated.py:35-52 | with distinct triples, no key receives the penalty twice |
| UpdatedScript.PenaltyAddsWeightOnce | mqo_python_updated.py:35-52 | with distinct plans, each diagonal and each within-query pair grows by exactly 10, and every other key is unchanged |
| UpdatedScript.GroupPenaltyEnergy | mqo_python_updated.py:42-52 | for a query with k selected plans, the penalty writes weigh 10·k + 10·k(k-1)/2 in the energy, which is 0 exactly when k = 0 |
| UpdatedScript.GroupsPenaltyEnergy | mqo_python_updated.py:36-52 | the whole penalty weighs 10 times the sum of k + k(k-1)/2 over the queries |
| UpdatedScript.PenaltyCountZero | mqo_python_updated.py:36-52 | that sum is 0 exactly when no query has a selected plan |
| UpdatedScript.PenaltyEnergy | mqo_python_updated.py:35-52 | the penalty pass raises the energy by 10·Σ(k + k(k-1)/2); the increase is 0 exactly when no query has a selected plan |
| UpdatedScript.BuiltQubo | mqo_python_updated.py:16-52 | the dictionary the script builds: cost writes stored into an empty dictionary, then savings and penalty writes accumulated |
| UpdatedScript.BuildQubo | mqo_python_updated.py:19-52 | the three passes in order; every saving key ends at the sum of the savings producing it; with distinct plans each diagonal ends at the plan's cost plus 10 and each within-query pair at exactly 10 |
| UpdatedScript.PlanDiagonal | mqo_python_updated.py:19-52 | with distinct plans, no saving reaches a diagonal, so each diagonal is cost + 10 in the built dictionary |
| UpdatedScript.PenaltyKeyNames | mqo_python_updated.py:38 | both halves of a penalty key are plan names of one query |
| UpdatedScript.PenaltyKeyNotSavingKey | mqo_python_updated.py:27-28 | no saving key receives a penalty |
| UpdatedScript.SavingEntry | mqo_python_updated.py:26-52 | in the built dictionary each saving key holds the sum of the savings of its rows: neither the cost pass nor the penalty touches it |
| UpdatedScript.PairEntry | mqo_python_updated.py:48-52 | with distinct plans each within-query pair (plan_vars[i], plan_vars[j]), i < j, holds exactly 10 in the built dictionary |
| UpdatedScript.Matching | mqo_python_updated.py:83-86 | the as-written filter keeps exactly the selected names that contain the tag `q_{mq}_{q}` |
| UpdatedScript.MatchingConcat | mqo_python_updated.py:83-86 | the filter keeps `selected_plans` order |
| UpdatedScript.ForQuery | mqo_python_updated.py:83-86 | the names a group's row lists: the substring filter as written, or the corrected prefix filter |
| UpdatedScript.Rows | mqo_python_updated.py:80-93 | the results loop: over the groups in group-by order, one row (mq, q, names, best energy) for each group whose name list is nonempty (`RowsSound`, `RowsComplete`, `RowsSorted`) |
| UpdatedScript.RowsSound | mqo_python_updated.py:87-93 | every emitted row belongs to a query group, carries the best sample's energy, and lists that group's names, of which there is at least one |
| UpdatedScript.RowsComplete | mqo_python_updated.py:87-93 | every group with a name to list gets a row |
| UpdatedScript.RowsSorted | mqo_python_updated.py:81-82 | rows come in group-by order |
| UpdatedScript.ProjectResults | mqo_python_updated.py:80-93 | the as-written projection: one row per group with a matching name, in group-by order, each listing its matches and the best energy |
| UpdatedScript.SelectedPlanIsReported | mqo_python_updated.py:83-87 | a selected plan of a query group appears in that group's row |
| UpdatedScript.SubstringMatchCounterexample | mqo_python_updated.py:85 | `q_1_1` occurs in `q_1_12_3`, which is not a plan of query 1, and in the saving name `q_1_15` |
| UpdatedScript.SubstringMatchRows | mqo_python_updated.py:85 | on queries 1 and 12 with only `q_1_12_3` selected, the as-written rows are (1, 1) and (1, 12), both listing `q_1_12_3`; the prefix test gives the (1, 12) row alone |
| UpdatedScript.ExampleGroups | mqo_python_updated.py:81-82 | the example table's groups are (1, 1) then (1, 12) |
| UpdatedScript.ExampleNames | mqo_python_updated.py:85 | on the example, the substring test keeps `q_1_12_3` for query 1 and the prefix test does not |
| UpdatedScript.QueryPlans | mqo_python_updated.py:83-86 | the corrected filter keeps exactly the selected names that start with `q_{mq}_{q}_` |
| UpdatedScript.QueryPlansConcat | mqo_python_updated.py:83-86 | the corrected filter keeps `selected_plans` order |
| UpdatedScript.QueryPlansExact | mqo_python_updated.py:83-86 | the corrected filter keeps a plan name exactly when it is selected and belongs to (mq, q); it never keeps a saving name; it keeps nothing the substring test drops |
| UpdatedScript.ProjectResultsByPrefix | mqo_python_updated.py:80-93 | the corrected projection: rows are sound, complete and in group-by order, and each lists exactly its query's selected names |
| UpdatedScript.RowsByPrefixSpec | mqo_python_updated.py:80-93 | the row facts, specialised to the prefix test |
| UpdatedScript.ByPrefixRowsArePlansOfTheQuery | mqo_python_updated.py:83-86 | under the prefix test, a row lists a plan name exactly when it is selected and belongs to that row's query, and never a saving name |
| OriginalScript.OverwriteSavings | mqo_python.py:29-32 | the savings pass stores: a key holds the saving of the last row producing it, not a sum; no plan diagonal changes |
| OriginalScript.DuplicateSavingRowIsIdempotent | mqo_python.py:29-32 | a saving row given twice in a row stores the same as given once |
| OriginalScript.GroupsPairs | mqo_python.py:36-42 | the pair writes of a list of query groups, one group after another, every write of weight 2 |
| OriginalScript.PairUpdates | mqo_python.py:34-42 | the whole pair pass's writes, in group-by order, every write of weight 2 |
| OriginalScript.PlanNames | mqo_python.py:40-41 | the names built from the group's first rows and `plans`: one per id, in list order |
| OriginalScript.PenalizePairs | mqo_python.py:34-42 | after the pair pass every within-query pair holds exactly 2, whatever it held before; every other key is untouched |
| OriginalScript.PenalizeGroup | mqo_python.py:35-42 | one query group's loop stores 2 on the group's pairs, with names built from the first rows |
| OriginalScript.StorePairs | mqo_python.py:38-42 | the nested `i < j` loops store 2 on each (plans[i], plans[j]) |
| OriginalScript.StoreRow | mqo_python.py:39-42 | one pass of the inner j loop |
| OriginalScript.FirstRowNames | mqo_python.py:40-41 | names built from `multi_query_group.iloc[0]` and `query_group.iloc[0]` are the group's own plan names |
| OriginalScript.PairPassAt | mqo_python.py:34-42 | the dictionary after the pair writes, key by key |
| OriginalScript.PairKeys | mqo_python.py:38-42 | a key is written by the pair pass exactly when it is a within-query pair (vars[a], vars[b]) with a < b |
| OriginalScript.PairKeyNotDiagonal | mqo_python.py:38-42 | with distinct plans no pair key is a diagonal, so the pass leaves the costs alone |
| OriginalScript.PairKeyNotSavingKey | mqo_python.py:30-31 | no saving key is a pair key, so the pass leaves the savings alone |
| OriginalScript.PairKeyCount | mqo_python.py:38-42 | for n distinct names the pass touches exactly n(n-1)/2 keys |
| OriginalScript.GroupPairKeyCount | mqo_python.py:36-42 | with distinct plans a query of n plans gets exactly n(n-1)/2 pair keys |
| OriginalScript.PairEnergy | mqo_python.py:42 | with k selected plans, the pair terms weigh 2·Tri(k) = k(k-1), which is 0 exactly when k <= 1 |
| OriginalScript.PenalizedPairEnergy | mqo_python.py:34-42 | after the pair pass, each query's pair terms weigh 2·Tri(k) = k(k-1) |
| OriginalScript.GroupPairsStored | mqo_python.py:34-42 | after the pair pass, every pair of a query holds 2 |
| OriginalScript.BuiltQubo | mqo_python.py:23-42 | the dictionary the script builds: cost, saving and pair writes, each stored (overwriting) in turn into an empty dictionary |
| OriginalScript.BuildQubo | mqo_python.py:23-42 | the three passes in order. With distinct plans each diagonal holds its cost. The last row of each saving key holds its saving. Every within-query pair holds 2 |

## Left out

- Reading and writing CSV files with pandas. The plan and saving tables are
  input sequences, and the result rows are the output sequence.
- `BinaryQuadraticModel.from_qubo`, the samplers, `num_reads` and
  `dwave.inspector` are external library and remote calls. The best sample
  is a given sequence of (variable, value) pairs, in the sample's iteration
  order. Its energy is a given real. The QUBO energy of an assignment is
  defined directly from `Q`, to state what the penalties cost.
- The `try/except` around sampling, which leaves `response` unbound when
  sampling fails.
- All logging (`logger_file.py`, `logger.*`) and all `print` output.
- Floating point. Costs and savings are `real`.
- Pandas dtype upcasting.
  - `iterrows` on a table with a float column yields rows whose id fields
    are floats. pandas would render them as `1.0`.
  - The model renders every id as a natural number in decimal, as the group
    keys are rendered.
  - It does not capture the name mismatch such upcasting would cause: the
    names at `mqo_python_updated.py:21` would come from float fields, while
    those at `:38` come from the group keys.
  - The same holds for `mqo_python.py`. At `:26` `iterrows` would give
    `q_1.0_1.0_3.0`. At `:40-41` the `iloc[0]` rows would be upcast as
    well, while `plans[i]` comes from the integer column through `tolist()`,
    giving `q_1.0_1.0_3`.
  - `OriginalScript.FirstRowNames` holds only under the integer rendering
    the model uses.
- `','.join(...)` at `mqo_python_updated.py:91`. Each row keeps the joined
  names as a list.
- The comment at `mqo_python_updated.py:47` promises "at least one plan".
  The model follows the code, which penalises every selected plan, so the
  penalty is smallest when nothing is selected (`UpdatedScript.PenaltyEnergy`).
- Neither script has a penalty for exactly one plan per query, so none is
  modelled.
- The pair passes follow the code where a general description might say
  otherwise:
  - only the ordered pairs (plans[i], plans[j]) with i < j are written;
  - nothing symmetric is added (`mqo_python_updated.py:48-52`,
    `mqo_python.py:38-42`);
  - repeated rows of one triple are counted as the code counts them.
- The nested `groupby` is flattened to one loop over the sorted (mq, q)
  keys. The order and the rows of each group are the same.
- `OriginalScript.PairKeyCount`, `OriginalScript.GroupPairKeyCount`,
  `OriginalScript.PairEnergy`, `OriginalScript.PenalizedPairEnergy` and
  `OriginalScript.PairKeyNotDiagonal` rely on the plans being distinct
  triples. With a repeated triple, a query's `plans` list repeats a name.
  The pass then writes fewer distinct keys, and a pair of equal names is a
  diagonal, overwritten with 2. The model still stores 2 on all of the pair
  keys (`OriginalScript.PenalizePairs`). `Passes.PairsLength` counts writes,
  not keys, and holds without that assumption.
- `UpdatedScript.AccumulatePenalty`, `UpdatedScript.PenaltyAddsWeightOnce`:
  "exactly 10 per key" is stated under `DistinctTriples`. Without it, a key
  grows by 10 per write aimed at it (`Hits`). The method's contract states
  that general form.

## Findings

| source | as written | input that shows it | evidently intended | confidence | as-written member | corrected member |
|---|---|---|---|---|---|---|
| mqo_python_updated.py:85 | keeps every selected name in which `q_{mq}_{q}` occurs as a substring | multi-query 1 with queries 1 and 12, only `q_1_12_3` selected: the row of query 1 lists `q_1_12_3`; a saving name such as `q_1_15` would match query 1 as well | keep the names that start with `q_{mq}_{q}_`, i.e. the plans of that query | not executed | UpdatedScript.SubstringMatchRows | UpdatedScript.ProjectResultsByPrefix |
