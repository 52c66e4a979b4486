# Home-run-derby roster optimizer, modelled in Dafny

The optimizer picks a fantasy home-run-derby team from a table of players.
Each row has a name, a draft cost and a projected number of home runs. There
are two selectors:

- **balanced** (`optimize_balanced`) picks exactly `team_size` players whose
  total cost is at most `budget_cap`, and maximises the sum of their
  projections;
- **top-heavy** (`optimize_top_7`) pays for `team_size` players under the same
  budget, but only the `top_k` counted players score. Each player gets a
  second 0/1 variable, "counts". Exactly `top_k` players count, and a player
  counts only if selected.

Both selectors build a 0/1 integer program and hand it to an external solver.
They then rebuild the team from the solver's answer: the rows whose selection
variable is 1, sorted by projection with the highest first. Last, they report
the total cost, the score and the solver's status.

The model has six modules:

- `LinearProgram` (`lp.dfy`): 0/1 programs with a linear objective and `<=` /
  `==` constraints.
  - An assignment is a `seq<bool>`.
  - `Sound` is the contract assumed of the external solver. An `Optimal`
    answer is feasible and no feasible assignment beats it. `Infeasible` is
    only reported when nothing is feasible.
  - `BruteForce` is an exhaustive reference solver, proved to meet that
    contract.
- `Players` (`players.dfy`): the player table.
  - The variable dictionaries are keyed by name: `DistinctNames` gives the
    keys in first-occurrence order.
  - `Lookup` reads a name's figures from the first row that carries it.
  - `VarRows` holds the rows the program actually sees.
  - `RowsNamed` is the `isin` filter on the table.
- `Ranking` (`ranking.dfy`): the sort by projection and `TopSum`, the sum of the first k projections (the best k once sorted).
  It holds the central result about the top-heavy formulation: for a
  fixed selection, the best counting assignment scores exactly the sum of the
  `top_k` largest selected projections (`CountedAtMostTop`, `TopAttainable`).
- `Formulation` (`formulation.dfy`): the two programs, and what their
  feasible and optimal assignments mean in terms of rosters.
- `Optimizer` (`optimizer.dfy`): the two selectors as methods.
  - Each builds its program step by step, as the `prob += ...` statements and
    the linking loop do.
  - Each then calls the solver, which is a function parameter, and extracts
    the result with pure functions.
  - The `...Checked` variants refuse a table that repeats a name (see
    Findings).
- `Scenarios` (`scenarios.dfy`): worked cases. These cover a team larger than
  the table, a budget met exactly, tied projections under the top-heavy rule,
  and the repeated-name case.

Every statement about an optimal result is conditional on the solver meeting
`Sound` for the program it was given.

Behaviour of the code that the model keeps as it is:

- The code reads a variable as selected only when its `varValue == 1`. The
  model reads solver values as booleans, and a value the solver left out
  reads as not selected.
- The code does not reject repeated names, negative costs, or `top_k` larger
  than `team_size`. The unchecked methods accept all of these.
- With an `Infeasible` status, the code still builds the team from whatever
  values the solver left. The model does the same. The brute-force reference
  leaves no values, so it gives an empty team (`OversizedTeamBalanced`).
- For the budget-exact case with three players, no roster fits the cap, so a
  sound solver cannot answer `Optimal` (`BudgetExactTrio`).

## Model

| member | source | states |
|---|---|---|
| LinearProgram.Sound | optimizer.py:18 | the contract assumed of `prob.solve(...)`: an Optimal answer is feasible and unbeaten, Infeasible means nothing is feasible, other statuses promise nothing (a definition, without a contract of its own) |
| LinearProgram.BruteForce | optimizer.py:18 | the exhaustive reference solver meets the solver contract, always decides, and answers Optimal whenever some assignment is feasible |
| LinearProgram.SearchIsBest | optimizer.py:49 | the exhaustive search returns a feasible completion of its prefix that no feasible completion beats, or none when no completion is feasible |
| LinearProgram.AllHoldAppend | optimizer.py:46-47 | constraints added after the first ones all hold exactly when the earlier list and the added list each hold |
| Players.DistinctNames | optimizer.py:11-12 | the dictionary keys contain exactly the table's names, each once |
| Players.Lookup | optimizer.py:14 | a lookup by name returns the first table row carrying that name, as `.values[0]` does |
| Players.VarRows | optimizer.py:11-15 | one variable per distinct name, each standing for a row of the table, with no name twice and never more variables than rows |
| Players.RowsNamed | optimizer.py:21 | the filter keeps exactly the table rows whose name is in the selected list |
| Players.DistinctNamesOfUnique | optimizer.py:11-12 | with unique names the keys are the name column in table order |
| Players.LookupOfUnique | optimizer.py:14 | with unique names a lookup by a row's name finds that very row |
| Players.VarRowsOfUnique | optimizer.py:11-15 | with unique names the program has one variable per row, in row order |
| Players.NameSelected | optimizer.py:20 | a name is in the selected list exactly when some row carrying it has its variable set |
| Players.RowsNamedMatches | optimizer.py:21 | filtering by a list that marks exactly the set rows returns the set rows |
| Players.SelectedRows | optimizer.py:20-21 | with unique names, filtering by the selected names returns exactly the rows whose variable is 1 |
| Players.Chosen | optimizer.py:20 | the rows whose selection variable is 1, as many as the variables set |
| Players.RowsNamedNone | optimizer.py:21 | filtering by an empty name list keeps no row |
| Players.ChosenAll | optimizer.py:20 | setting every variable selects the whole table |
| Players.ChosenNone | optimizer.py:20 | clearing every variable selects nobody |
| Ranking.Insert | optimizer.py:22 | insertion adds exactly one row to the multiset |
| Ranking.InsertSorted | optimizer.py:22 | insertion into a non-increasing list keeps it non-increasing |
| Ranking.SortByHr | optimizer.py:22 | the sort is a permutation of its input |
| Ranking.SortSorted | optimizer.py:22 | the sort's output is non-increasing in projection |
| Ranking.SortOfSorted | optimizer.py:22 | a list already in order is returned unchanged (a fact of the model's stable insertion sort) |
| Ranking.SortIdempotent | optimizer.py:22 | sorting twice gives the same list as sorting once (a fact of the model's stable insertion sort) |
| Ranking.InsertKeepsSums | optimizer.py:24-25 | insertion adds the row's cost and projection to the sums |
| Ranking.SortKeepsSums | optimizer.py:24-25 | the sort keeps the roster's cost sum and projection sum |
| Ranking.TopSumIsPrefixSum | optimizer.py:32 | the first-k sum is the projection sum of the prefix of length k when it exists |
| Ranking.TopSumStep | optimizer.py:32 | in a list none of whose projections exceeds v, the k-th row adds at most v |
| Ranking.InsertKeepsTop | optimizer.py:32 | inserting a row into a sorted list never lowers the sum of its first k projections |
| Ranking.InsertAddsTop | optimizer.py:32 | an inserted row plus the first k-1 of the rest is at most the first k after insertion |
| Ranking.InsertTopCases | optimizer.py:32 | the first k after insertion either hold the new row or are the first k of the rest |
| Ranking.InsertChoice | optimizer.py:32 | the first-k sum after insertion splits into whether the new row is among the first k and how many of the other rows are |
| Ranking.ChosenFirst | optimizer.py:20 | a set first variable puts its row first and adds its cost, projection and count |
| Ranking.ChosenSkip | optimizer.py:20 | a clear first variable contributes nothing |
| Ranking.Prepend | optimizer.py:46-47 | a counting decision on the first row extends a counting assignment below the rest of the selection |
| Ranking.CountedAtMostTop | optimizer.py:41-47 | any counting assignment below a selection scores at most the sum of that many largest selected projections |
| Ranking.TopAttainable | optimizer.py:41-47 | for k up to the selection size, some counting assignment below the selection counts exactly k rows and scores the sum of the k largest selected projections |
| Ranking.TopAttainableFirst | optimizer.py:41-47 | the same when the first row is selected |
| Ranking.FirstStep | optimizer.py:41-47 | the first row's counting decision plus the best k' of the rest gives the best k overall |
| Formulation.BalancedProblem | optimizer.py:9-16 | the balanced program has one variable per row, and its objective and both constraints have one coefficient per variable (its meaning is BalancedFeasibleIff) |
| Formulation.Top7Objective | optimizer.py:36-41 | selection variables weigh nothing in the objective and counting variable i weighs row i's projection |
| Formulation.Top7Header | optimizer.py:42-44 | three constraints, each with a coefficient for all 2n variables (their meaning is Top7HeaderIff) |
| Formulation.Link | optimizer.py:46-47 | the linking constraint of row i is `count_i - select_i <= 0`: coefficient -1 on the selection variable, 1 on the counting variable, 0 elsewhere |
| Formulation.Links | optimizer.py:46-47 | one linking constraint per row, each over all 2n variables |
| Formulation.Top7Problem | optimizer.py:34-47 | the top-heavy program has two variables per row and three plus one-per-row constraints, each with one coefficient per variable (its meaning is Top7FeasibleIff) |
| Formulation.ColumnDots | optimizer.py:14-15 | the cost and projection linear forms equal the sums over the selected rows |
| Formulation.BalancedFeasibleIff | optimizer.py:14-16 | the balanced program admits exactly the selections of team_size rows within budget, and scores each by its projection sum |
| Formulation.LinkHolds | optimizer.py:47 | a linking constraint holds exactly when its row counts only if selected |
| Formulation.Top7HeaderIff | optimizer.py:41-44 | the budget, team-size and counted-size constraints hold exactly for a selection within budget of team_size rows and top_k counted rows, and the objective reads the counted projections |
| Formulation.LinksIff | optimizer.py:46-47 | all linking constraints hold exactly when the counting assignment lies below the selection |
| Formulation.Top7FeasibleIff | optimizer.py:41-47 | the top-heavy program admits exactly the admissible selection and counting pairs, and scores each by its counted projections |
| Formulation.BalancedOptimal | optimizer.py:14-18 | an optimal balanced assignment is an admissible roster whose projection sum no admissible roster exceeds |
| Formulation.BalancedInfeasible | optimizer.py:15-18 | when the balanced program has no feasible assignment, no roster of team_size within budget exists |
| Formulation.BestCountsForSelection | optimizer.py:41-47 | for a fixed admissible selection, the counting score is bounded by and attains the best top_k sum of the selection |
| Formulation.Top7Optimal | optimizer.py:41-49 | an optimal top-heavy answer is admissible, scores the best top_k sum of its selection, and no admissible roster has a larger best top_k sum |
| Formulation.Top7Extends | optimizer.py:41-47 | every admissible roster extends to a feasible top-heavy assignment when 0 <= top_k <= team_size |
| Formulation.Top7Infeasible | optimizer.py:42-49 | when the top-heavy program has no feasible assignment and 0 <= top_k <= team_size, no roster of team_size within budget exists |
| Optimizer.SelectedNames | optimizer.py:20 | a name is selected exactly when some variable read as 1 stands for a row carrying it; every selected name is from the table, and there are no more of them than rows |
| Optimizer.SelectedFromTable | optimizer.py:20 | the names of the rows whose variable is 1 are exactly the names of rows that some set variable stands for, all from the table |
| Optimizer.Roster | optimizer.py:21-22 | the team is non-increasing in projection and is a permutation of the rows the name filter returns |
| Optimizer.CountedHr | optimizer.py:56-59 | the reported top-heavy score equals the program's objective at the solver's values |
| Optimizer.RosterShape | optimizer.py:20-22 | the team holds exactly the table rows whose name was selected |
| Optimizer.RosterOfUnique | optimizer.py:20-25 | with unique names the team is the sorted selection, with the selection's size, cost sum and projection sum |
| Optimizer.BalancedExtraction | optimizer.py:20-25 | with unique names and an optimal answer, the team has team_size players, costs at most budget_cap and outscores every admissible roster |
| Optimizer.Top7Extraction | optimizer.py:51-59 | with unique names and an optimal answer, the team has team_size players within budget, the score is the sum of the top_k highest projections on the team, and no admissible roster has a larger best top_k sum |
| Optimizer.OptimizeBalanced | optimizer.py:5-27 | builds the balanced program, returns the solver's status and the sorted team rebuilt from its answer with the team's cost and projection sums; on a sound Optimal answer with unique names the team is an optimal admissible roster; on a sound Infeasible answer with unique names no admissible roster exists |
| Optimizer.OptimizeTop7 | optimizer.py:30-61 | builds the top-heavy program (linking loop included), returns the status, the sorted team, its cost sum and the counted projections; on a sound Optimal answer with unique names the team is admissible, the score is the sum of its top_k highest projections, and no admissible roster beats it; on a sound Infeasible answer with unique names and 0 <= top_k <= team_size no admissible roster exists |
| Optimizer.OptimizeBalancedChecked | optimizer.py:11-27 | refuses exactly the tables with a repeated name; otherwise returns the solver's status and the sorted team rebuilt from its answer with its sums, and on a sound Optimal answer an optimal admissible roster, on a sound Infeasible answer the proof that none exists |
| Optimizer.OptimizeTop7Checked | optimizer.py:36-61 | refuses exactly the tables with a repeated name; otherwise returns the solver's status, the sorted team rebuilt from its answer, its cost and the counted projections, and on a sound Optimal answer an admissible team whose score is its top_k sum and is unbeaten |
| Scenarios.OversizedTeamBalanced | optimizer.py:16 | with team_size above the table size no sound solver answers Optimal, and the reference solver answers Infeasible with an empty team |
| Scenarios.OversizedTeamTop7 | optimizer.py:43 | the same for the top-heavy program |
| Scenarios.EmptyAnswerSelectsNobody | optimizer.py:20-22 | an answer with no values yields an empty team |
| Scenarios.BudgetExactPair | optimizer.py:14-27 | with cap 163 and two players from A(100,50), B(63,30), C(1,1), every optimal answer returns A then B, cost 163, 80 projected |
| Scenarios.BudgetOptimum | optimizer.py:14-18 | in that case the only optimal assignment selects A and B |
| Scenarios.UniqueBestIsOptimum | optimizer.py:14-18 | with unique names, when no other admissible roster scores as much as a given admissible roster, every optimal balanced answer selects exactly that roster |
| Scenarios.BudgetBest | optimizer.py:15-16 | A and B are admissible, score 80 and are already in order |
| Scenarios.BudgetOnlyBest | optimizer.py:15-16 | every other admissible pair scores less than 80 |
| Scenarios.ChosenSums | optimizer.py:24-25 | the sums and count over the selected rows, one variable at a time, without a case split |
| Scenarios.BudgetExactTrio | optimizer.py:15-16 | with the same cap and three players nothing is admissible, so no sound solver answers Optimal |
| Scenarios.TiedTopSeven | optimizer.py:41-59 | seven players at 10 and one at 0, all cost 1, cap 8, team 8, 7 counted: every optimal answer returns the whole table at cost 8 with score 70; the row order is that of the model's stable sort |
| Scenarios.TiedPoolFacts | optimizer.py:22 | that table has unique names, is already in order, costs 8, and its first seven projections sum to 70 |
| Scenarios.TiedSorted | optimizer.py:22 | that table is non-increasing in projection |
| Scenarios.TiedNamesUnique | optimizer.py:36-39 | that table has no repeated name |
| Scenarios.TiedSums | optimizer.py:55-59 | that table costs 8 and its first seven projections sum to 70 |
| Scenarios.TwinVariables | optimizer.py:11-12 | two rows with one name give the program a single variable |
| Scenarios.DuplicateNameOverfillsTeam | optimizer.py:11-21 | as written: two rows named A, cap 1, team 1; every sound Optimal answer yields a team of 2 rows costing 2 |
| Scenarios.DuplicateNameSolvable | optimizer.py:18 | that case is reachable: the reference solver answers Optimal for it |
| Scenarios.DuplicateNameFalseInfeasible | optimizer.py:11-16 | as written: two rows named A, cap 2, team 2; both rows form an admissible roster, yet no sound solver answers Optimal and the reference solver answers Infeasible |

## Left out

- The web front end (`app.py`): page setup, password check, CSV loading, column renaming and rendering. It is UI and I/O glue.
- The CBC branch-and-bound solve behind `prob.solve()` is a foreign library call. The solver is a parameter, and results are stated under the `Sound` contract. `BruteForce` shows that the contract can be met.
- Floating-point solver values: `varValue` is read as a boolean. A variable the solver gives no value reads as 0.
- Integer costs and projections: the table's numeric columns are modelled as `int`, not floats.
- The `LpStatus` string table: the status is the enum `Status`.
- Tie order of `sort_values`: pandas does not promise a stable order. The model sorts with one fixed insertion sort that keeps rows of equal projection in table order. The sort's general contract (permutation, non-increasing order) holds for any tie order. Three proved facts hold only for this stable order: `Ranking.SortOfSorted`, `Ranking.SortIdempotent`, and the exact row order in `Scenarios.TiedTopSeven`.
- DataFrame mechanics: `.copy()`, `reset_index`, the informational team column and the per-name table scans (performance only).
- PuLP's rewriting of variable names (`select_<name>`, `count_<name>`): distinct player names are assumed to give distinct solver variables.
- The default arguments `budget_cap=163`, `team_size=8`, `top_k=7` are recorded as constants, which the worked cases use. The methods take every argument explicitly.
- OptimizeBalanced: its optimality and infeasibility guarantees are stated only for tables with unique names. With a repeated name the source can return extra rows or report Infeasible while an admissible roster exists (see Findings), so it makes no such guarantee there.
- OptimizeTop7: its optimality and infeasibility guarantees are stated only for tables with unique names, for the same reason.

## Findings

| source | as written | input that shows it | evidently intended | confidence | as-written member | corrected member |
|---|---|---|---|---|---|---|
| optimizer.py:11-21 | the variables are keyed by name, so rows sharing a name share one variable, but the `isin` filter returns every row with a selected name | two rows `A` (cost 1, 5 home runs), `budget_cap=1`, `team_size=1`: the only optimal answer selects `A`, and the team has 2 rows costing 2 | a team of exactly `team_size` rows within `budget_cap`; a table with a repeated name is refused | high that the code behaves so, not executed | Scenarios.DuplicateNameOverfillsTeam | Optimizer.OptimizeBalancedChecked |
| optimizer.py:11-16 | the variables are keyed by name, so rows sharing a name share one variable and the team-size constraint counts them once | two rows `A` (cost 1 each), `budget_cap=2`, `team_size=2`: the two rows form a 2-player roster costing 2, but the single variable cannot sum to 2, so the status is Infeasible | Infeasible only when no roster of `team_size` rows within `budget_cap` exists; a table with a repeated name is refused | high that the code behaves so, not executed | Scenarios.DuplicateNameFalseInfeasible | Optimizer.OptimizeBalancedChecked |
