/** The two integer programs the optimizers build, over the rows their
    decision variables stand for, and what an optimal answer to each means
    for the roster. */
module Formulation {
  import opened LinearProgram
  import opened Players
  import opened Ranking

  /** The roster constraints shared by both optimizers: one selection
      variable per row, exactly `teamSize` of them set, and the selected
      rows' total cost within `budget`. */
  predicate RosterAdmits(rows: seq<Player>, budget: int, teamSize: int, x: seq<bool>)
  {
    |x| == |rows| && Count(x) == teamSize && SumCost(Chosen(rows, x)) <= budget
  }

  /** The top-heavy constraints: an admissible roster `x` and a counting
      assignment `y` that counts exactly `topK` rows, none unselected. */
  predicate Top7Admits(rows: seq<Player>, budget: int, teamSize: int, topK: int, x: seq<bool>, y: seq<bool>)
  {
    RosterAdmits(rows, budget, teamSize, x) && Below(y, x) && Count(y) == topK
  }

  /** The balanced program: maximise the selected projections subject to
      the budget and the exact roster size. */
  function BalancedProblem(rows: seq<Player>, budget: int, teamSize: int): (p: Problem)
    ensures p.numVars == |rows| && WellFormed(p)
  {
    var n := |rows|;
    Problem(n, Hrs(rows),
      [Constraint(Costs(rows), Le, budget), Constraint(Fill(n, 1), Eq, teamSize)])
  }

  // The top-heavy program has 2n variables: 0..n-1 select a row, n..2n-1
  // count it.

  /** Selection variables weigh nothing; counting variable `i` weighs row
      `i`'s projection. */
  function Top7Objective(rows: seq<Player>): (r: seq<int>)
    ensures |r| == 2 * |rows|
    ensures forall i :: 0 <= i < |rows| ==> r[i] == 0 && r[|rows| + i] == rows[i].hr
  {
    Fill(|rows|, 0) + Hrs(rows)
  }

  /** The budget, roster-size and counted-size constraints, in the order
      they are added. */
  function Top7Header(rows: seq<Player>, budget: int, teamSize: int, topK: int): (r: seq<Constraint>)
    ensures |r| == 3 && forall c :: c in r ==> |c.coeffs| == 2 * |rows|
  {
    var n := |rows|;
    [ Constraint(Costs(rows) + Fill(n, 0), Le, budget),
      Constraint(Fill(n, 1) + Fill(n, 0), Eq, teamSize),
      Constraint(Fill(n, 0) + Fill(n, 1), Eq, topK) ]
  }

  /** `count_i <= select_i`, as `count_i - select_i <= 0`. */
  function Link(n: nat, i: nat): (c: Constraint)
    ensures |c.coeffs| == 2 * n && c.sense == Le && c.rhs == 0
    ensures i < n ==> c.coeffs[i] == -1 && c.coeffs[n + i] == 1
    ensures forall j :: 0 <= j < 2 * n && j != i && j != n + i ==> c.coeffs[j] == 0
  {
    Constraint(Unit(n, i, -1) + Unit(n, i, 1), Le, 0)
  }

  /** One linking constraint per row, each over all `2n` variables. */
  function Links(n: nat): (r: seq<Constraint>)
    ensures |r| == n && forall c :: c in r ==> |c.coeffs| == 2 * n
  {
    seq(n, i requires 0 <= i < n => Link(n, i))
  }

  function Top7Problem(rows: seq<Player>, budget: int, teamSize: int, topK: int): (p: Problem)
    ensures p.numVars == 2 * |rows| && WellFormed(p)
    ensures |p.constraints| == 3 + |rows|
  {
    Problem(2 * |rows|, Top7Objective(rows), Top7Header(rows, budget, teamSize, topK) + Links(|rows|))
  }

  // ---------------------------------------------------------------------
  // The programs admit exactly the intended assignments

  lemma {:induction false} ColumnDots(rows: seq<Player>, x: seq<bool>)
    requires |x| == |rows|
    ensures |Costs(rows)| == |rows| && |Hrs(rows)| == |rows|
    ensures Dot(Costs(rows), x) == SumCost(Chosen(rows, x))
    ensures Dot(Hrs(rows), x) == SumHr(Chosen(rows, x))
  {
    if rows != [] {
      ColumnDots(rows[1..], x[1..]);
      if x[0] {
        ChosenFirst(rows, x);
      } else {
        ChosenSkip(rows, x);
      }
    }
  }

  /** The balanced program admits exactly the rosters of `teamSize` rows
      within budget, and scores each by the projections it selects. */
  lemma BalancedFeasibleIff(rows: seq<Player>, budget: int, teamSize: int, x: seq<bool>)
    ensures Feasible(BalancedProblem(rows, budget, teamSize), x) <==> RosterAdmits(rows, budget, teamSize, x)
    ensures |x| == |rows| ==> Value(BalancedProblem(rows, budget, teamSize), x) == SumHr(Chosen(rows, x))
  {
    var p := BalancedProblem(rows, budget, teamSize);
    if |x| == |rows| {
      ColumnDots(rows, x);
      DotConstant(Fill(|rows|, 1), x, 1);
      assert Holds(p.constraints[0], x) <==> SumCost(Chosen(rows, x)) <= budget;
      assert Holds(p.constraints[1], x) <==> Count(x) == teamSize;
    }
  }

  /** The linking constraint of row `i` holds exactly when row `i` is
      counted only if it is selected. */
  lemma LinkHolds(n: nat, i: nat, x: seq<bool>, y: seq<bool>)
    requires |x| == n && |y| == n && i < n
    ensures Holds(Link(n, i), x + y) <==> (y[i] ==> x[i])
  {
    DotAppend(Unit(n, i, -1), Unit(n, i, 1), x, y);
    DotUnit(Unit(n, i, -1), x, i);
    DotUnit(Unit(n, i, 1), y, i);
  }

  /** The three leading constraints of the top-heavy program hold exactly
      for a selection within budget of `teamSize` rows and `topK` counted
      rows; the objective reads the counted projections. */
  lemma Top7HeaderIff(rows: seq<Player>, budget: int, teamSize: int, topK: int, x: seq<bool>, y: seq<bool>)
    requires |x| == |rows| && |y| == |rows|
    ensures (forall j :: 0 <= j < 3 ==> Holds(Top7Header(rows, budget, teamSize, topK)[j], x + y))
            <==> (SumCost(Chosen(rows, x)) <= budget && Count(x) == teamSize && Count(y) == topK)
    ensures Dot(Top7Objective(rows), x + y) == SumHr(Chosen(rows, y))
  {
    var n := |rows|;
    var h := Top7Header(rows, budget, teamSize, topK);
    ColumnDots(rows, x);
    ColumnDots(rows, y);
    DotConstant(Fill(n, 0), x, 0);
    DotConstant(Fill(n, 0), y, 0);
    DotConstant(Fill(n, 1), x, 1);
    DotConstant(Fill(n, 1), y, 1);
    DotAppend(Costs(rows), Fill(n, 0), x, y);
    DotAppend(Fill(n, 1), Fill(n, 0), x, y);
    DotAppend(Fill(n, 0), Fill(n, 1), x, y);
    DotAppend(Fill(n, 0), Hrs(rows), x, y);
    assert Holds(h[0], x + y) <==> SumCost(Chosen(rows, x)) <= budget;
    assert Holds(h[1], x + y) <==> Count(x) == teamSize;
    assert Holds(h[2], x + y) <==> Count(y) == topK;
  }

  /** The linking constraints hold exactly when no row is counted unless
      it is selected. */
  lemma LinksIff(n: nat, x: seq<bool>, y: seq<bool>)
    requires |x| == n && |y| == n
    ensures (forall i :: 0 <= i < n ==> Holds(Links(n)[i], x + y)) <==> Below(y, x)
  {
    forall i | 0 <= i < n
      ensures Holds(Links(n)[i], x + y) <==> (y[i] ==> x[i])
    {
      LinkHolds(n, i, x, y);
    }
  }

  /** The top-heavy program admits exactly the admissible roster and
      counting pairs, and scores each by the projections it counts. */
  lemma Top7FeasibleIff(rows: seq<Player>, budget: int, teamSize: int, topK: int, x: seq<bool>, y: seq<bool>)
    requires |x| == |rows| && |y| == |rows|
    ensures Feasible(Top7Problem(rows, budget, teamSize, topK), x + y)
            <==> Top7Admits(rows, budget, teamSize, topK, x, y)
    ensures Value(Top7Problem(rows, budget, teamSize, topK), x + y) == SumHr(Chosen(rows, y))
  {
    var n := |rows|;
    var h := Top7Header(rows, budget, teamSize, topK);
    Top7HeaderIff(rows, budget, teamSize, topK, x, y);
    LinksIff(n, x, y);
    AllHoldAppend(h, Links(n), x + y);
  }

  // ---------------------------------------------------------------------
  // What an optimal answer means

  /** An optimal answer to the balanced program is an admissible roster
      whose projection sum no admissible roster exceeds. */
  lemma BalancedOptimal(rows: seq<Player>, budget: int, teamSize: int, x: seq<bool>)
    requires IsOptimal(BalancedProblem(rows, budget, teamSize), x)
    ensures RosterAdmits(rows, budget, teamSize, x)
    ensures forall x' :: RosterAdmits(rows, budget, teamSize, x') ==>
              SumHr(Chosen(rows, x')) <= SumHr(Chosen(rows, x))
  {
    BalancedFeasibleIff(rows, budget, teamSize, x);
    forall x' | RosterAdmits(rows, budget, teamSize, x')
      ensures SumHr(Chosen(rows, x')) <= SumHr(Chosen(rows, x))
    {
      BalancedFeasibleIff(rows, budget, teamSize, x');
    }
  }

  /** When the balanced program has no feasible assignment, no roster is
      admissible. */
  lemma BalancedInfeasible(rows: seq<Player>, budget: int, teamSize: int)
    requires forall w :: !Feasible(BalancedProblem(rows, budget, teamSize), w)
    ensures forall x :: !RosterAdmits(rows, budget, teamSize, x)
  {
    forall x
      ensures !RosterAdmits(rows, budget, teamSize, x)
    {
      BalancedFeasibleIff(rows, budget, teamSize, x);
    }
  }

  /** For a fixed selection `x`, the best counting assignment under
      `count <= select` and exactly `topK` counted scores the sum of the
      `topK` largest projections among the selected rows. */
  lemma BestCountsForSelection(rows: seq<Player>, budget: int, teamSize: int, topK: int, x: seq<bool>)
    requires RosterAdmits(rows, budget, teamSize, x) && 0 <= topK <= teamSize
    ensures forall y :: Top7Admits(rows, budget, teamSize, topK, x, y) ==>
              SumHr(Chosen(rows, y)) <= TopSum(SortByHr(Chosen(rows, x)), topK)
    ensures exists y :: Top7Admits(rows, budget, teamSize, topK, x, y) &&
              SumHr(Chosen(rows, y)) == TopSum(SortByHr(Chosen(rows, x)), topK)
  {
    forall y | Top7Admits(rows, budget, teamSize, topK, x, y)
      ensures SumHr(Chosen(rows, y)) <= TopSum(SortByHr(Chosen(rows, x)), topK)
    {
      CountedAtMostTop(rows, x, y);
    }
    var best := TopAttainable(rows, x, topK);
    assert Top7Admits(rows, budget, teamSize, topK, x, best);
  }

  /** An optimal answer `x + y` to the top-heavy program selects an
      admissible roster, counts the `topK` largest projections on it, and
      no admissible roster has a larger best-`topK` sum. */
  lemma Top7Optimal(rows: seq<Player>, budget: int, teamSize: int, topK: int, x: seq<bool>, y: seq<bool>)
    requires |x| == |rows| && |y| == |rows|
    requires IsOptimal(Top7Problem(rows, budget, teamSize, topK), x + y)
    ensures Top7Admits(rows, budget, teamSize, topK, x, y) && 0 <= topK <= teamSize
    ensures SumHr(Chosen(rows, y)) == TopSum(SortByHr(Chosen(rows, x)), topK)
    ensures forall x' :: RosterAdmits(rows, budget, teamSize, x') ==>
              TopSum(SortByHr(Chosen(rows, x')), topK) <= SumHr(Chosen(rows, y))
  {
    var p := Top7Problem(rows, budget, teamSize, topK);
    Top7FeasibleIff(rows, budget, teamSize, topK, x, y);
    CountBelow(y, x);
    forall x' | RosterAdmits(rows, budget, teamSize, x')
      ensures TopSum(SortByHr(Chosen(rows, x')), topK) <= SumHr(Chosen(rows, y))
    {
      var y' := TopAttainable(rows, x', topK);
      Top7FeasibleIff(rows, budget, teamSize, topK, x', y');
      assert Feasible(p, x' + y');
    }
    CountedAtMostTop(rows, x, y);
  }

  /** Every admissible roster extends to a feasible top-heavy assignment
      when `topK` is within `0..teamSize`. */
  lemma Top7Extends(rows: seq<Player>, budget: int, teamSize: int, topK: int, x: seq<bool>)
    ensures RosterAdmits(rows, budget, teamSize, x) && 0 <= topK <= teamSize ==>
            exists w :: Feasible(Top7Problem(rows, budget, teamSize, topK), w)
  {
    if RosterAdmits(rows, budget, teamSize, x) && 0 <= topK <= teamSize {
      var y := TopAttainable(rows, x, topK);
      Top7FeasibleIff(rows, budget, teamSize, topK, x, y);
      assert Feasible(Top7Problem(rows, budget, teamSize, topK), x + y);
    }
  }

  /** When the top-heavy program has no feasible assignment and `topK` is
      within `0..teamSize`, no roster is admissible. */
  lemma Top7Infeasible(rows: seq<Player>, budget: int, teamSize: int, topK: int)
    requires forall w :: !Feasible(Top7Problem(rows, budget, teamSize, topK), w)
    requires 0 <= topK <= teamSize
    ensures forall x :: !RosterAdmits(rows, budget, teamSize, x)
  {
    forall x
      ensures !RosterAdmits(rows, budget, teamSize, x)
    {
      Top7Extends(rows, budget, teamSize, topK, x);
    }
  }
}
