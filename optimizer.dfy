/** `optimize_balanced` and `optimize_top_7`: build the integer program,
    hand it to the solver, and rebuild the team from the solver's answer.
    The solver is a parameter; what can be concluded from its answer rests
    on the contract `Sound`. */
module Optimizer {
  import opened LinearProgram
  import opened Players
  import opened Ranking
  import opened Formulation

  /** The defaults of `budget_cap`, `team_size` and `top_k`. */
  const DefaultBudgetCap := 163
  const DefaultTeamSize := 8
  const DefaultTopK := 7

  /** `varValue == 1` for variable `i`; a variable the solver left without a
      value reads as not set. */
  function Bit(values: seq<bool>, i: int): bool
  {
    0 <= i < |values| && values[i]
  }

  /** The values of the `n` variables numbered from `lo`. */
  function Slice(values: seq<bool>, lo: nat, n: nat): (r: seq<bool>)
    ensures |r| == n
    ensures lo + n <= |values| ==> r == values[lo..lo + n]
  {
    if lo + n <= |values| then values[lo..lo + n]
    else seq(n, i => Bit(values, lo + i))
  }

  /** `[name for name in x_vars if x_vars[name].varValue == 1]`: the names
      whose selection variable is set, in variable order. */
  function SelectedNames(pool: seq<Player>, values: seq<bool>): (r: seq<string>)
    ensures |r| <= |pool|
    ensures forall n :: n in r <==>
              exists i :: 0 <= i < |VarRows(pool)| && Bit(values, i) && VarRows(pool)[i].name == n
    ensures forall n :: n in r ==> n in Names(pool)
  {
    var rows := VarRows(pool);
    SelectedFromTable(pool, values);
    Names(Chosen(rows, Slice(values, 0, |rows|)))
  }

  /** A name is selected exactly when some set variable stands for a row
      carrying it, and every such name is in the table. */
  lemma SelectedFromTable(pool: seq<Player>, values: seq<bool>)
    ensures var rows := VarRows(pool);
      forall n :: n in Names(Chosen(rows, Slice(values, 0, |rows|))) <==>
        exists i :: 0 <= i < |rows| && Bit(values, i) && rows[i].name == n
    ensures var rows := VarRows(pool);
      forall n :: n in Names(Chosen(rows, Slice(values, 0, |rows|))) ==> n in Names(pool)
  {
    var rows := VarRows(pool);
    var x := Slice(values, 0, |rows|);
    assert forall i :: 0 <= i < |rows| ==> x[i] == Bit(values, i);
    forall n
      ensures n in Names(Chosen(rows, x)) <==> exists i :: 0 <= i < |rows| && Bit(values, i) && rows[i].name == n
      ensures n in Names(Chosen(rows, x)) ==> n in Names(pool)
    {
      NameSelected(rows, x, n);
      if n in Names(Chosen(rows, x)) {
        var i :| 0 <= i < |rows| && x[i] && rows[i].name == n;
        assert rows[i] in pool;
        var j :| 0 <= j < |pool| && pool[j] == rows[i];
        assert Names(pool)[j] == n;
      }
    }
  }

  /** The returned team: the table's rows whose name was selected, sorted
      by projection, highest first. */
  function Roster(pool: seq<Player>, values: seq<bool>): (r: seq<Player>)
    ensures Sorted(r)
    ensures multiset(r) == multiset(RowsNamed(pool, SelectedNames(pool, values)))
  {
    var named := RowsNamed(pool, SelectedNames(pool, values));
    SortSorted(named);
    SortByHr(named)
  }

  /** The top-heavy score: the projections of the rows whose counting
      variable is set, each looked up in the table by name. */
  function CountedHr(pool: seq<Player>, values: seq<bool>): (r: int)
    ensures var n := |VarRows(pool)|;
      r == Dot(Top7Objective(VarRows(pool)), Slice(values, 0, 2 * n))
  {
    var rows := VarRows(pool);
    var n := |rows|;
    SliceSplit(values, n);
    Top7HeaderIff(rows, 0, 0, 0, Slice(values, 0, n), Slice(values, n, n));
    SumHr(Chosen(rows, Slice(values, n, n)))
  }

  lemma SliceSplit(values: seq<bool>, n: nat)
    ensures Slice(values, 0, 2 * n) == Slice(values, 0, n) + Slice(values, n, n)
  {
    var a, b, c := Slice(values, 0, 2 * n), Slice(values, 0, n), Slice(values, n, n);
    forall i | 0 <= i < 2 * n
      ensures a[i] == (b + c)[i]
    {
      assert a[i] == Bit(values, i);
      if i < n {
        assert b[i] == Bit(values, i);
      } else {
        assert c[i - n] == Bit(values, i);
      }
    }
  }

  // ---------------------------------------------------------------------
  // What the extraction returns

  /** The team holds exactly the table rows whose name was selected. */
  lemma RosterShape(pool: seq<Player>, values: seq<bool>)
    ensures forall p :: p in Roster(pool, values) <==> p in pool && p.name in SelectedNames(pool, values)
  {
    var named := RowsNamed(pool, SelectedNames(pool, values));
    assert Roster(pool, values) == SortByHr(named);
    forall p
      ensures p in SortByHr(named) <==> p in named
    {
      assert p in SortByHr(named) <==> p in multiset(SortByHr(named));
    }
  }

  /** With unique names, the team rebuilt from selection values `x` is the
      selected rows, reordered, with their cost and projection sums. */
  lemma RosterOfUnique(pool: seq<Player>, x: seq<bool>, values: seq<bool>)
    requires UniqueNames(pool) && |x| == |pool| && x == Slice(values, 0, |pool|)
    ensures Roster(pool, values) == SortByHr(Chosen(pool, x))
    ensures multiset(Roster(pool, values)) == multiset(Chosen(pool, x))
    ensures |Roster(pool, values)| == Count(x)
    ensures SumCost(Roster(pool, values)) == SumCost(Chosen(pool, x))
    ensures SumHr(Roster(pool, values)) == SumHr(Chosen(pool, x))
  {
    VarRowsOfUnique(pool);
    SelectedRows(pool, x);
    SortKeepsSums(Chosen(pool, x));
  }

  /** With unique names and an optimal answer, the balanced team has
      exactly `teamSize` players, costs at most `budget`, and its projection
      sum is at least that of every admissible roster. */
  lemma BalancedExtraction(pool: seq<Player>, budget: int, teamSize: int, values: seq<bool>)
    requires UniqueNames(pool)
    requires IsOptimal(BalancedProblem(VarRows(pool), budget, teamSize), values)
    ensures RosterAdmits(pool, budget, teamSize, values)
    ensures multiset(Roster(pool, values)) == multiset(Chosen(pool, values))
    ensures |Roster(pool, values)| == teamSize && SumCost(Roster(pool, values)) <= budget
    ensures forall x :: RosterAdmits(pool, budget, teamSize, x) ==>
              SumHr(Chosen(pool, x)) <= SumHr(Roster(pool, values))
  {
    VarRowsOfUnique(pool);
    BalancedOptimal(pool, budget, teamSize, values);
    RosterOfUnique(pool, values, values);
  }

  /** With unique names and an optimal answer, the top-heavy team has
      exactly `teamSize` players within `budget`; the reported score is the
      sum of the `topK` highest projections on the team; and no admissible
      roster has a larger sum of its `topK` highest projections. */
  lemma Top7Extraction(pool: seq<Player>, budget: int, teamSize: int, topK: int, values: seq<bool>)
    requires UniqueNames(pool)
    requires IsOptimal(Top7Problem(VarRows(pool), budget, teamSize, topK), values)
    ensures RosterAdmits(pool, budget, teamSize, Slice(values, 0, |pool|))
    ensures multiset(Roster(pool, values)) == multiset(Chosen(pool, Slice(values, 0, |pool|)))
    ensures |Roster(pool, values)| == teamSize && SumCost(Roster(pool, values)) <= budget
    ensures 0 <= topK <= |Roster(pool, values)|
    ensures CountedHr(pool, values) == SumHr(Roster(pool, values)[..topK])
    ensures forall x :: RosterAdmits(pool, budget, teamSize, x) ==>
              TopSum(SortByHr(Chosen(pool, x)), topK) <= CountedHr(pool, values)
  {
    VarRowsOfUnique(pool);
    var n := |pool|;
    var x, y := Slice(values, 0, n), Slice(values, n, n);
    assert values == x + y;
    Top7Optimal(pool, budget, teamSize, topK, x, y);
    RosterOfUnique(pool, x, values);
    SelectedRows(pool, x);
    TopSumIsPrefixSum(Roster(pool, values), topK);
  }

  // ---------------------------------------------------------------------
  // The two optimizers

  /** Balanced optimizer: the projections of every selected player count. */
  method OptimizeBalanced(pool: seq<Player>, budget: int, teamSize: int, solve: Problem -> Answer)
    returns (team: seq<Player>, totalCost: int, totalHr: int, status: Status)
    ensures var ans := solve(BalancedProblem(VarRows(pool), budget, teamSize));
      && status == ans.status
      && team == Roster(pool, ans.values) && Sorted(team)
      && totalCost == SumCost(team) && totalHr == SumHr(team)
    ensures var prob := BalancedProblem(VarRows(pool), budget, teamSize);
      UniqueNames(pool) && Sound(prob, solve(prob)) && status == Optimal ==>
        && |team| == teamSize && totalCost <= budget
        && (forall x :: RosterAdmits(pool, budget, teamSize, x) ==> SumHr(Chosen(pool, x)) <= totalHr)
    ensures var prob := BalancedProblem(VarRows(pool), budget, teamSize);
      UniqueNames(pool) && Sound(prob, solve(prob)) && status == Infeasible ==>
        forall x :: !RosterAdmits(pool, budget, teamSize, x)
  {
    var rows := VarRows(pool);
    var n := |rows|;
    var prob := Problem(n, Hrs(rows), []);
    prob := prob.(constraints := prob.constraints + [Constraint(Costs(rows), Le, budget)]);
    prob := prob.(constraints := prob.constraints + [Constraint(Fill(n, 1), Eq, teamSize)]);
    assert prob == BalancedProblem(rows, budget, teamSize);

    var ans := solve(prob);

    var selected := Names(Chosen(rows, Slice(ans.values, 0, n)));
    team := SortByHr(RowsNamed(pool, selected));
    totalCost := SumCost(team);
    totalHr := SumHr(team);
    status := ans.status;

    RosterShape(pool, ans.values);
    if UniqueNames(pool) && Sound(prob, ans) {
      VarRowsOfUnique(pool);
      if status == Optimal {
        BalancedExtraction(pool, budget, teamSize, ans.values);
      } else if status == Infeasible {
        BalancedInfeasible(pool, budget, teamSize);
      }
    }
  }

  /** Top-heavy optimizer: `teamSize` players are paid for, and only the
      `topK` counted ones score. */
  method OptimizeTop7(pool: seq<Player>, budget: int, teamSize: int, topK: int, solve: Problem -> Answer)
    returns (team: seq<Player>, totalCost: int, topHr: int, status: Status)
    ensures var ans := solve(Top7Problem(VarRows(pool), budget, teamSize, topK));
      && status == ans.status
      && team == Roster(pool, ans.values) && Sorted(team)
      && totalCost == SumCost(team) && topHr == CountedHr(pool, ans.values)
    ensures var prob := Top7Problem(VarRows(pool), budget, teamSize, topK);
      UniqueNames(pool) && Sound(prob, solve(prob)) && status == Optimal ==>
        && |team| == teamSize && totalCost <= budget
        && 0 <= topK <= |team| && topHr == SumHr(team[..topK])
        && (forall x :: RosterAdmits(pool, budget, teamSize, x) ==>
              TopSum(SortByHr(Chosen(pool, x)), topK) <= topHr)
    ensures var prob := Top7Problem(VarRows(pool), budget, teamSize, topK);
      UniqueNames(pool) && Sound(prob, solve(prob)) && status == Infeasible && 0 <= topK <= teamSize ==>
        forall x :: !RosterAdmits(pool, budget, teamSize, x)
  {
    var rows := VarRows(pool);
    var n := |rows|;
    var prob := Problem(2 * n, Fill(n, 0) + Hrs(rows), []);
    prob := prob.(constraints := prob.constraints + [Constraint(Costs(rows) + Fill(n, 0), Le, budget)]);
    prob := prob.(constraints := prob.constraints + [Constraint(Fill(n, 1) + Fill(n, 0), Eq, teamSize)]);
    prob := prob.(constraints := prob.constraints + [Constraint(Fill(n, 0) + Fill(n, 1), Eq, topK)]);
    var i := 0;
    while i < n
      invariant 0 <= i <= n
      invariant prob == Problem(2 * n, Top7Objective(rows),
                                Top7Header(rows, budget, teamSize, topK) + Links(n)[..i])
    {
      assert Links(n)[..i + 1] == Links(n)[..i] + [Link(n, i)];
      prob := prob.(constraints := prob.constraints + [Link(n, i)]);
      i := i + 1;
    }
    assert Links(n)[..n] == Links(n);
    assert prob == Top7Problem(rows, budget, teamSize, topK);

    var ans := solve(prob);

    var selected := Names(Chosen(rows, Slice(ans.values, 0, n)));
    team := SortByHr(RowsNamed(pool, selected));
    totalCost := SumCost(team);
    topHr := SumHr(Chosen(rows, Slice(ans.values, n, n)));
    status := ans.status;

    RosterShape(pool, ans.values);
    if UniqueNames(pool) && Sound(prob, ans) {
      VarRowsOfUnique(pool);
      if status == Optimal {
        Top7Extraction(pool, budget, teamSize, topK, ans.values);
      } else if status == Infeasible && 0 <= topK <= teamSize {
        Top7Infeasible(pool, budget, teamSize, topK);
      }
    }
  }

  // ---------------------------------------------------------------------
  // Entry points that refuse a table with a repeated name

  /** Either the table repeats a player name, or the optimizer's results. */
  datatype Outcome = DuplicateName | Solved(team: seq<Player>, totalCost: int, score: int, status: Status)

  /** `OptimizeBalanced` on tables whose names are unique; with a repeated
      name the variables no longer stand for rows and the call is refused. */
  method OptimizeBalancedChecked(pool: seq<Player>, budget: int, teamSize: int, solve: Problem -> Answer)
    returns (r: Outcome)
    ensures r.DuplicateName? <==> !UniqueNames(pool)
    ensures r.Solved? ==> var ans := solve(BalancedProblem(pool, budget, teamSize));
      && r.status == ans.status && r.team == Roster(pool, ans.values)
      && Sorted(r.team) && r.totalCost == SumCost(r.team) && r.score == SumHr(r.team)
    ensures var prob := BalancedProblem(pool, budget, teamSize);
      r.Solved? && Sound(prob, solve(prob)) && r.status == Optimal ==>
        && |r.team| == teamSize && r.totalCost <= budget
        && multiset(r.team) == multiset(Chosen(pool, solve(prob).values))
        && (forall x :: RosterAdmits(pool, budget, teamSize, x) ==> SumHr(Chosen(pool, x)) <= r.score)
    ensures var prob := BalancedProblem(pool, budget, teamSize);
      r.Solved? && Sound(prob, solve(prob)) && r.status == Infeasible ==>
        forall x :: !RosterAdmits(pool, budget, teamSize, x)
  {
    if !UniqueNames(pool) {
      return DuplicateName;
    }
    VarRowsOfUnique(pool);
    var team, totalCost, totalHr, status := OptimizeBalanced(pool, budget, teamSize, solve);
    r := Solved(team, totalCost, totalHr, status);
    var ans := solve(BalancedProblem(pool, budget, teamSize));
    if Sound(BalancedProblem(pool, budget, teamSize), ans) && status == Optimal {
      BalancedExtraction(pool, budget, teamSize, ans.values);
    }
  }

  /** `OptimizeTop7` on tables whose names are unique; with a repeated name
      the call is refused. */
  method OptimizeTop7Checked(pool: seq<Player>, budget: int, teamSize: int, topK: int, solve: Problem -> Answer)
    returns (r: Outcome)
    ensures r.DuplicateName? <==> !UniqueNames(pool)
    ensures r.Solved? ==> var ans := solve(Top7Problem(pool, budget, teamSize, topK));
      && r.status == ans.status && r.team == Roster(pool, ans.values)
      && Sorted(r.team) && r.totalCost == SumCost(r.team) && r.score == CountedHr(pool, ans.values)
    ensures var prob := Top7Problem(pool, budget, teamSize, topK);
      r.Solved? && Sound(prob, solve(prob)) && r.status == Optimal ==>
        && |r.team| == teamSize && r.totalCost <= budget
        && multiset(r.team) == multiset(Chosen(pool, Slice(solve(prob).values, 0, |pool|)))
        && 0 <= topK <= |r.team| && r.score == SumHr(r.team[..topK])
        && (forall x :: RosterAdmits(pool, budget, teamSize, x) ==>
              TopSum(SortByHr(Chosen(pool, x)), topK) <= r.score)
    ensures var prob := Top7Problem(pool, budget, teamSize, topK);
      r.Solved? && Sound(prob, solve(prob)) && r.status == Infeasible && 0 <= topK <= teamSize ==>
        forall x :: !RosterAdmits(pool, budget, teamSize, x)
  {
    if !UniqueNames(pool) {
      return DuplicateName;
    }
    VarRowsOfUnique(pool);
    var team, totalCost, topHr, status := OptimizeTop7(pool, budget, teamSize, topK, solve);
    r := Solved(team, totalCost, topHr, status);
    var ans := solve(Top7Problem(pool, budget, teamSize, topK));
    if Sound(Top7Problem(pool, budget, teamSize, topK), ans) && status == Optimal {
      Top7Extraction(pool, budget, teamSize, topK, ans.values);
    }
  }
}
