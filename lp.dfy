/** Binary integer programs of the shape the optimizer hands to its solver:
    a linear objective to maximise and linear `<=` / `==` constraints over
    0/1 variables. Variables are numbered; an assignment is a `seq<bool>`. */
module LinearProgram {

  datatype Option<T> = None | Some(value: T)

  /** The solver's outcome classification (PuLP's `LpStatus`). */
  datatype Status = Optimal | NotSolved | Infeasible | Unbounded | Undefined

  datatype Sense = Le | Eq

  /** `sum_i coeffs[i] * v[i]  sense  rhs` */
  datatype Constraint = Constraint(coeffs: seq<int>, sense: Sense, rhs: int)

  /** A maximisation problem over `numVars` binary variables. */
  datatype Problem = Problem(numVars: nat, objective: seq<int>, constraints: seq<Constraint>)

  /** What the solver leaves behind: its status and the value of each variable. */
  datatype Answer = Answer(status: Status, values: seq<bool>)

  /** Linear form `sum_i coeffs[i] * v[i]`, reading a true variable as 1. */
  function Dot(coeffs: seq<int>, v: seq<bool>): int
  {
    if |coeffs| == 0 || |v| == 0 then 0
    else (if v[0] then coeffs[0] else 0) + Dot(coeffs[1..], v[1..])
  }

  /** Number of variables set to 1. */
  function Count(v: seq<bool>): (r: nat)
    ensures r <= |v|
  {
    if v == [] then 0 else (if v[0] then 1 else 0) + Count(v[1..])
  }

  /** `v` sets a variable only where `w` does (the pointwise `v <= w`). */
  predicate Below(v: seq<bool>, w: seq<bool>)
  {
    |v| == |w| && forall i :: 0 <= i < |v| && v[i] ==> w[i]
  }

  /** A coefficient vector of `n` copies of `c`. */
  function Fill(n: nat, c: int): seq<int>
  {
    seq(n, _ => c)
  }

  /** A coefficient vector of length `n` with `c` at position `i` and 0 elsewhere. */
  function Unit(n: nat, i: int, c: int): seq<int>
  {
    seq(n, j => if j == i then c else 0)
  }

  predicate Holds(c: Constraint, v: seq<bool>)
  {
    match c.sense
    case Le => Dot(c.coeffs, v) <= c.rhs
    case Eq => Dot(c.coeffs, v) == c.rhs
  }

  /** The objective and every constraint have one coefficient per variable. */
  predicate WellFormed(p: Problem)
  {
    |p.objective| == p.numVars && forall c :: c in p.constraints ==> |c.coeffs| == p.numVars
  }

  predicate Feasible(p: Problem, v: seq<bool>)
  {
    |v| == p.numVars && forall i :: 0 <= i < |p.constraints| ==> Holds(p.constraints[i], v)
  }

  function Value(p: Problem, v: seq<bool>): int
  {
    Dot(p.objective, v)
  }

  ghost predicate IsOptimal(p: Problem, v: seq<bool>)
  {
    Feasible(p, v) && forall w :: Feasible(p, w) ==> Value(p, w) <= Value(p, v)
  }

  /** The contract assumed of the external solver for one problem: an
      `Optimal` answer is a feasible assignment no feasible assignment beats,
      and `Infeasible` is only reported when nothing is feasible. Any other
      status promises nothing about the values. */
  ghost predicate Sound(p: Problem, a: Answer)
  {
    && (a.status == Optimal ==> IsOptimal(p, a.values))
    && (a.status == Infeasible ==> forall w :: !Feasible(p, w))
  }

  // ---------------------------------------------------------------------
  // Facts about linear forms

  lemma {:induction false} DotAppend(c1: seq<int>, c2: seq<int>, v1: seq<bool>, v2: seq<bool>)
    requires |c1| == |v1|
    ensures Dot(c1 + c2, v1 + v2) == Dot(c1, v1) + Dot(c2, v2)
    decreases |c1|
  {
    if |c1| == 0 {
      assert c1 + c2 == c2;
      assert v1 + v2 == v2;
    } else {
      assert (c1 + c2)[1..] == c1[1..] + c2;
      assert (v1 + v2)[1..] == v1[1..] + v2;
      DotAppend(c1[1..], c2, v1[1..], v2);
    }
  }

  /** A vector of equal coefficients weighs every set variable alike. */
  lemma {:induction false} DotConstant(cs: seq<int>, v: seq<bool>, c: int)
    requires |cs| == |v|
    requires forall j :: 0 <= j < |cs| ==> cs[j] == c
    ensures Dot(cs, v) == c * Count(v)
    decreases |cs|
  {
    if |cs| > 0 {
      DotConstant(cs[1..], v[1..], c);
      assert Count(v) == (if v[0] then 1 else 0) + Count(v[1..]);
      assert c * Count(v) == (if v[0] then c else 0) + c * Count(v[1..]);
    }
  }

  /** A vector that is zero except at `i` reads exactly variable `i`. */
  lemma {:induction false} DotUnit(cs: seq<int>, v: seq<bool>, i: int)
    requires |cs| == |v| && 0 <= i < |cs|
    requires forall j :: 0 <= j < |cs| && j != i ==> cs[j] == 0
    ensures Dot(cs, v) == if v[i] then cs[i] else 0
    decreases |cs|
  {
    if i == 0 {
      DotConstant(cs[1..], v[1..], 0);
    } else {
      DotUnit(cs[1..], v[1..], i - 1);
    }
  }

  lemma {:induction false} CountBelow(v: seq<bool>, w: seq<bool>)
    requires Below(v, w)
    ensures Count(v) <= Count(w)
    decreases |v|
  {
    if |v| > 0 {
      CountBelow(v[1..], w[1..]);
    }
  }

  /** Every variable is set exactly when the count is the full length. */
  lemma {:induction false} CountFull(v: seq<bool>)
    requires Count(v) == |v|
    ensures forall i :: 0 <= i < |v| ==> v[i]
    decreases |v|
  {
    if |v| > 0 {
      CountFull(v[1..]);
      assert forall i :: 1 <= i < |v| ==> v[i] == v[1..][i - 1];
    }
  }

  /** Two lists of constraints placed one after the other all hold exactly
      when each list holds. */
  lemma AllHoldAppend(a: seq<Constraint>, b: seq<Constraint>, v: seq<bool>)
    ensures (forall j :: 0 <= j < |a + b| ==> Holds((a + b)[j], v)) <==>
            (forall j :: 0 <= j < |a| ==> Holds(a[j], v)) && (forall j :: 0 <= j < |b| ==> Holds(b[j], v))
  {
    var c := a + b;
    if forall j :: 0 <= j < |c| ==> Holds(c[j], v) {
      forall j | 0 <= j < |b|
        ensures Holds(b[j], v)
      {
        assert c[|a| + j] == b[j];
      }
    }
    assert forall j :: 0 <= j < |a| ==> c[j] == a[j];
  }

  // ---------------------------------------------------------------------
  // A brute-force reference solver: it tries every assignment.

  /** The better of two candidate assignments; `a` wins ties. */
  function Better(p: Problem, a: Option<seq<bool>>, b: Option<seq<bool>>): Option<seq<bool>>
  {
    match a
    case None => b
    case Some(u) =>
      match b
      case None => a
      case Some(w) => if Value(p, w) > Value(p, u) then b else a
  }

  /** Best feasible completion of `prefix` to all `p.numVars` variables. */
  function Search(p: Problem, prefix: seq<bool>): Option<seq<bool>>
    requires |prefix| <= p.numVars
    decreases p.numVars - |prefix|
  {
    if |prefix| == p.numVars then
      if Feasible(p, prefix) then Some(prefix) else None
    else
      Better(p, Search(p, prefix + [false]), Search(p, prefix + [true]))
  }

  /** The brute-force reference meets the solver contract and always decides:
      it answers `Optimal` or `Infeasible`, and `Optimal` whenever some
      assignment is feasible. */
  function BruteForce(p: Problem): (a: Answer)
    ensures Sound(p, a)
    ensures a.status == Optimal || a.status == Infeasible
    ensures (exists w :: Feasible(p, w)) ==> a.status == Optimal
  {
    SearchIsBest(p, []);
    match Search(p, [])
    case Some(v) => Answer(Optimal, v)
    case None => Answer(Infeasible, [])
  }

  lemma {:induction false} SearchIsBest(p: Problem, prefix: seq<bool>)
    requires |prefix| <= p.numVars
    ensures Search(p, prefix).Some? ==>
      var v := Search(p, prefix).value;
      Feasible(p, v) && prefix <= v &&
      forall w :: Feasible(p, w) && prefix <= w ==> Value(p, w) <= Value(p, v)
    ensures Search(p, prefix).None? ==> forall w :: Feasible(p, w) ==> !(prefix <= w)
    decreases p.numVars - |prefix|
  {
    if |prefix| == p.numVars {
      forall w | Feasible(p, w) && prefix <= w
        ensures w == prefix
      {
        assert w == w[..|prefix|];
      }
    } else {
      var lo, hi := prefix + [false], prefix + [true];
      SearchIsBest(p, lo);
      SearchIsBest(p, hi);
      forall w | Feasible(p, w) && prefix <= w
        ensures lo <= w || hi <= w
      {
        assert prefix == w[..|prefix|];
        assert w[..|prefix| + 1] == w[..|prefix|] + [w[|prefix|]];
        if w[|prefix|] {
          assert hi == w[..|hi|];
        } else {
          assert lo == w[..|lo|];
        }
      }
      if Search(p, lo).Some? {
        assert prefix == Search(p, lo).value[..|prefix|];
      }
      if Search(p, hi).Some? {
        assert prefix == Search(p, hi).value[..|prefix|];
      }
    }
  }
}
