/** Worked cases: a team larger than the table, a budget met to the unit,
    tied projections under the top-heavy rule, and a table that repeats a
    player name. */
module Scenarios {
  import opened LinearProgram
  import opened Players
  import opened Ranking
  import opened Formulation
  import opened Optimizer

  // ---------------------------------------------------------------------
  // More players asked for than the table holds

  /** No roster of `teamSize` players exists, a sound solver never answers
      `Optimal` for the balanced program, and the brute-force solver answers
      `Infeasible` and leaves an empty team. */
  lemma OversizedTeamBalanced(pool: seq<Player>, budget: int, teamSize: int)
    requires teamSize > |pool|
    ensures forall a :: Sound(BalancedProblem(VarRows(pool), budget, teamSize), a) ==> a.status != Optimal
    ensures BruteForce(BalancedProblem(VarRows(pool), budget, teamSize)).status == Infeasible
    ensures Roster(pool, BruteForce(BalancedProblem(VarRows(pool), budget, teamSize)).values) == []
  {
    var rows := VarRows(pool);
    var prob := BalancedProblem(rows, budget, teamSize);
    forall w
      ensures !Feasible(prob, w)
    {
      BalancedFeasibleIff(rows, budget, teamSize, w);
    }
    EmptyAnswerSelectsNobody(pool);
  }

  /** The same for the top-heavy program. */
  lemma OversizedTeamTop7(pool: seq<Player>, budget: int, teamSize: int, topK: int)
    requires teamSize > |pool|
    ensures forall a :: Sound(Top7Problem(VarRows(pool), budget, teamSize, topK), a) ==> a.status != Optimal
    ensures BruteForce(Top7Problem(VarRows(pool), budget, teamSize, topK)).status == Infeasible
    ensures Roster(pool, BruteForce(Top7Problem(VarRows(pool), budget, teamSize, topK)).values) == []
  {
    var rows := VarRows(pool);
    var n := |rows|;
    var prob := Top7Problem(rows, budget, teamSize, topK);
    forall w
      ensures !Feasible(prob, w)
    {
      if |w| == 2 * n {
        var x, y := w[..n], w[n..];
        assert w == x + y;
        Top7FeasibleIff(rows, budget, teamSize, topK, x, y);
      }
    }
    EmptyAnswerSelectsNobody(pool);
  }

  /** An answer that carries no values selects nobody. */
  lemma EmptyAnswerSelectsNobody(pool: seq<Player>)
    ensures Roster(pool, []) == []
  {
    var rows := VarRows(pool);
    ChosenNone(rows, Slice([], 0, |rows|));
    assert SelectedNames(pool, []) == [];
    RowsNamedNone(pool);
    assert Roster(pool, []) == SortByHr([]);
  }

  // ---------------------------------------------------------------------
  // A budget met exactly

  function BudgetPool(): seq<Player>
  {
    [Player("A", 100, 50), Player("B", 63, 30), Player("C", 1, 1)]
  }

  /** With the default cap of 163 and two players, the balanced optimum is
      A and B: cost 163, 80 projected home runs. */
  lemma BudgetExactPair(values: seq<bool>)
    requires IsOptimal(BalancedProblem(VarRows(BudgetPool()), DefaultBudgetCap, 2), values)
    ensures Roster(BudgetPool(), values) == [Player("A", 100, 50), Player("B", 63, 30)]
    ensures SumCost(Roster(BudgetPool(), values)) == DefaultBudgetCap
    ensures SumHr(Roster(BudgetPool(), values)) == 80
  {
    var pool := BudgetPool();
    var best := [true, true, false];
    BudgetOptimum(values);
    BudgetBest();
    RosterOfUnique(pool, best, values);
  }

  /** The only optimal answer selects A and B. */
  lemma BudgetOptimum(values: seq<bool>)
    requires IsOptimal(BalancedProblem(VarRows(BudgetPool()), DefaultBudgetCap, 2), values)
    ensures values == [true, true, false]
  {
    BudgetBest();
    forall x | RosterAdmits(BudgetPool(), DefaultBudgetCap, 2, x) &&
               SumHr(Chosen(BudgetPool(), [true, true, false])) <= SumHr(Chosen(BudgetPool(), x))
      ensures x == [true, true, false]
    {
      BudgetOnlyBest(x);
    }
    UniqueBestIsOptimum(BudgetPool(), DefaultBudgetCap, 2, [true, true, false], values);
  }

  /** When one admissible roster outscores every other, each optimal answer
      of the balanced program selects exactly it. */
  lemma UniqueBestIsOptimum(pool: seq<Player>, budget: int, teamSize: int, best: seq<bool>, values: seq<bool>)
    requires UniqueNames(pool) && RosterAdmits(pool, budget, teamSize, best)
    requires forall x ::
               (RosterAdmits(pool, budget, teamSize, x) && SumHr(Chosen(pool, best)) <= SumHr(Chosen(pool, x)))
               ==> x == best
    requires IsOptimal(BalancedProblem(VarRows(pool), budget, teamSize), values)
    ensures values == best
  {
    VarRowsOfUnique(pool);
    BalancedOptimal(pool, budget, teamSize, values);
  }

  /** A and B together are admissible, score 80 and are already in order. */
  lemma BudgetBest()
    ensures UniqueNames(BudgetPool())
    ensures RosterAdmits(BudgetPool(), DefaultBudgetCap, 2, [true, true, false])
    ensures Chosen(BudgetPool(), [true, true, false]) == [Player("A", 100, 50), Player("B", 63, 30)]
    ensures SumHr(Chosen(BudgetPool(), [true, true, false])) == 80
    ensures SortByHr([Player("A", 100, 50), Player("B", 63, 30)]) == [Player("A", 100, 50), Player("B", 63, 30)]
  {
  }

  /** Every other pair is admissible too, but scores less than 80. */
  lemma BudgetOnlyBest(x: seq<bool>)
    requires RosterAdmits(BudgetPool(), DefaultBudgetCap, 2, x) && SumHr(Chosen(BudgetPool(), x)) >= 80
    ensures x == [true, true, false]
  {
    var pool := BudgetPool();
    ChosenSums(pool, x);
    ChosenSums(pool[1..], x[1..]);
    ChosenSums(pool[2..], x[2..]);
    assert pool[1..][1..] == pool[2..] && x[1..][1..] == x[2..];
    assert pool[2..][1..] == [] && x[2..][1..] == [];
    assert x == [x[0], x[1], x[2]];
  }

  /** `ChosenFirst` and `ChosenSkip` folded into one branch-free step, so
      that a proof over a concrete table does not split on every variable. */
  lemma ChosenSums(rows: seq<Player>, x: seq<bool>)
    requires |x| == |rows| > 0
    ensures SumHr(Chosen(rows, x)) == (if x[0] then rows[0].hr else 0) + SumHr(Chosen(rows[1..], x[1..]))
    ensures SumCost(Chosen(rows, x)) == (if x[0] then rows[0].cost else 0) + SumCost(Chosen(rows[1..], x[1..]))
    ensures Count(x) == (if x[0] then 1 else 0) + Count(x[1..])
    ensures x[1..] == [] ==> Chosen(rows[1..], x[1..]) == [] && Count(x[1..]) == 0
  {
    if x[0] {
      ChosenFirst(rows, x);
    } else {
      ChosenSkip(rows, x);
    }
  }

  /** With the same cap and three players the only roster costs 164, so
      nothing is admissible and a sound solver never answers `Optimal`. */
  lemma BudgetExactTrio()
    ensures forall x :: !RosterAdmits(BudgetPool(), DefaultBudgetCap, 3, x)
    ensures forall a :: Sound(BalancedProblem(VarRows(BudgetPool()), DefaultBudgetCap, 3), a) ==> a.status != Optimal
  {
    var pool := BudgetPool();
    assert UniqueNames(pool);
    VarRowsOfUnique(pool);
    forall x
      ensures !RosterAdmits(pool, DefaultBudgetCap, 3, x)
    {
      if |x| == 3 && Count(x) == 3 {
        CountFull(x);
        ChosenAll(pool, x);
      }
    }
    forall w
      ensures !Feasible(BalancedProblem(pool, DefaultBudgetCap, 3), w)
    {
      BalancedFeasibleIff(pool, DefaultBudgetCap, 3, w);
    }
  }

  // ---------------------------------------------------------------------
  // Tied projections under the top-heavy rule

  function TiedPool(): seq<Player>
  {
    [ Player("P1", 1, 10), Player("P2", 1, 10), Player("P3", 1, 10), Player("P4", 1, 10),
      Player("P5", 1, 10), Player("P6", 1, 10), Player("P7", 1, 10), Player("P8", 1, 0) ]
  }

  /** Eight players at cost 1, seven projected at 10 and one at 0, with a
      cap of 8, a team of 8 and 7 counted: the team is the whole table at
      cost 8, and the score is 70. */
  lemma TiedTopSeven(values: seq<bool>)
    requires IsOptimal(Top7Problem(VarRows(TiedPool()), 8, DefaultTeamSize, DefaultTopK), values)
    ensures Roster(TiedPool(), values) == TiedPool()
    ensures SumCost(Roster(TiedPool(), values)) == 8
    ensures CountedHr(TiedPool(), values) == 70
  {
    var pool := TiedPool();
    TiedPoolFacts();
    VarRowsOfUnique(pool);
    Top7Extraction(pool, 8, 8, 7, values);
    var x := Slice(values, 0, 8);
    CountFull(x);
    ChosenAll(pool, x);
    SelectedRows(pool, x);
    SortOfSorted(pool);
  }

  lemma TiedPoolFacts()
    ensures UniqueNames(TiedPool()) && Sorted(TiedPool())
    ensures SumCost(TiedPool()) == 8 && SumHr(TiedPool()[..7]) == 70
  {
    TiedNamesUnique();
    TiedSorted();
    TiedSums();
  }

  lemma TiedSorted()
    ensures Sorted(TiedPool())
  {
    var pool := TiedPool();
    forall i, j | 0 <= i < j < |pool|
      ensures pool[i].hr >= pool[j].hr
    {
      assert pool[i].hr == 10 && pool[j].hr <= 10;
    }
  }

  lemma TiedNamesUnique()
    ensures UniqueNames(TiedPool())
  {
    var pool := TiedPool();
    forall i, j | 0 <= i < j < |pool|
      ensures pool[i].name != pool[j].name
    {
      assert pool[i].name[1] != pool[j].name[1];
    }
  }

  lemma TiedSums()
    ensures SumCost(TiedPool()) == 8 && SumHr(TiedPool()[..7]) == 70
  {
    var pool := TiedPool();
    assert pool[..7] == [pool[0], pool[1], pool[2], pool[3], pool[4], pool[5], pool[6]];
  }

  // ---------------------------------------------------------------------
  // A repeated player name

  function TwinPool(): seq<Player>
  {
    [Player("A", 1, 5), Player("A", 1, 5)]
  }

  /** Two rows share one name, so the program has a single variable. */
  lemma TwinVariables()
    ensures VarRows(TwinPool()) == [Player("A", 1, 5)]
  {
    var pool := TwinPool();
    assert pool[1..] == [pool[1]];
    assert DistinctNames([pool[1]]) == ["A"];
    assert Remove(["A"], "A") == [];
    assert DistinctNames(pool) == ["A"];
  }

  /** As written: with a cap of 1 and a team of 1, every answer a sound
      solver can call optimal sets the one variable, and the name filter
      then returns both rows, a team of 2 that costs 2. */
  lemma DuplicateNameOverfillsTeam(ans: Answer)
    requires Sound(BalancedProblem(VarRows(TwinPool()), 1, 1), ans) && ans.status == Optimal
    ensures |Roster(TwinPool(), ans.values)| == 2
    ensures SumCost(Roster(TwinPool(), ans.values)) == 2
  {
    var pool := TwinPool();
    var a := Player("A", 1, 5);
    TwinVariables();
    BalancedFeasibleIff([a], 1, 1, ans.values);
    var v := ans.values;
    assert v == [v[0]];
    assert v == [true];
    assert Chosen([a], v) == [a];
    assert SelectedNames(pool, v) == ["A"];
    assert RowsNamed(pool, ["A"]) == [a, a];
    assert SortByHr([a, a]) == [a, a];
  }

  /** As written, the other way round: with a cap of 2 and a team of 2 the
      two rows together are an admissible roster, but the one variable can
      never sum to 2, so the program is infeasible and every sound solver
      (the brute-force one included) reports no optimum. */
  lemma DuplicateNameFalseInfeasible()
    ensures RosterAdmits(TwinPool(), 2, 2, [true, true])
    ensures forall a :: Sound(BalancedProblem(VarRows(TwinPool()), 2, 2), a) ==> a.status != Optimal
    ensures BruteForce(BalancedProblem(VarRows(TwinPool()), 2, 2)).status == Infeasible
  {
    var pool := TwinPool();
    var a := Player("A", 1, 5);
    TwinVariables();
    ChosenAll(pool, [true, true]);
    forall w
      ensures !Feasible(BalancedProblem([a], 2, 2), w)
    {
      BalancedFeasibleIff([a], 2, 2, w);
    }
  }

  /** The case above is reachable: the brute-force solver answers
      `Optimal` for it. */
  lemma DuplicateNameSolvable()
    ensures BruteForce(BalancedProblem(VarRows(TwinPool()), 1, 1)).status == Optimal
  {
    var a := Player("A", 1, 5);
    TwinVariables();
    BalancedFeasibleIff([a], 1, 1, [true]);
    assert Chosen([a], [true]) == [a];
  }
}
