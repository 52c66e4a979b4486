/** Ordering rows by projected home runs, and the "best k of them" score
    that the top-heavy optimizer's counting variables express. */
module Ranking {
  import opened LinearProgram
  import opened Players

  /** Non-increasing in projected home runs. */
  predicate Sorted(s: seq<Player>)
  {
    forall i, j :: 0 <= i < j < |s| ==> s[i].hr >= s[j].hr
  }

  /** Places `p` in front of the first row it is not below. */
  function Insert(p: Player, s: seq<Player>): (r: seq<Player>)
    ensures multiset(r) == multiset(s) + multiset{p}
    ensures |r| == |s| + 1
  {
    if s == [] || p.hr >= s[0].hr then [p] + s
    else
      assert s == [s[0]] + s[1..];
      [s[0]] + Insert(p, s[1..])
  }

  lemma {:induction false} InsertSorted(p: Player, s: seq<Player>)
    requires Sorted(s)
    ensures Sorted(Insert(p, s))
  {
    if s != [] && p.hr < s[0].hr {
      var rest := Insert(p, s[1..]);
      InsertSorted(p, s[1..]);
      forall k | 0 <= k < |rest|
        ensures rest[k].hr <= s[0].hr
      {
        assert rest[k] in multiset(rest);
        assert rest[k] == p || rest[k] in multiset(s[1..]);
      }
    }
  }

  /** The roster order of `sort_values(by='hr_projection', ascending=False)`:
      the same rows, non-increasing in projected home runs (see `SortSorted`).
      Which of two equal projections comes first is not part of the contract. */
  function SortByHr(s: seq<Player>): (r: seq<Player>)
    ensures multiset(r) == multiset(s) && |r| == |s|
  {
    if s == [] then []
    else
      assert s == [s[0]] + s[1..];
      Insert(s[0], SortByHr(s[1..]))
  }

  lemma {:induction false} SortSorted(s: seq<Player>)
    ensures Sorted(SortByHr(s))
  {
    if s != [] {
      SortSorted(s[1..]);
      InsertSorted(s[0], SortByHr(s[1..]));
    }
  }

  /** A table already in order is left as it is. */
  lemma {:induction false} SortOfSorted(s: seq<Player>)
    requires Sorted(s)
    ensures SortByHr(s) == s
  {
    if s != [] {
      SortOfSorted(s[1..]);
      assert s == [s[0]] + s[1..];
    }
  }

  /** Sorting twice is sorting once. */
  lemma SortIdempotent(s: seq<Player>)
    ensures SortByHr(SortByHr(s)) == SortByHr(s)
  {
    SortSorted(s);
    SortOfSorted(SortByHr(s));
  }

  /** Sum of the projections of the first `k` rows (of all rows when there
      are fewer). */
  function TopSum(s: seq<Player>, k: nat): int
  {
    if k == 0 || s == [] then 0 else s[0].hr + TopSum(s[1..], k - 1)
  }

  // ---------------------------------------------------------------------
  // Sorting keeps the sums

  lemma {:induction false} InsertKeepsSums(p: Player, s: seq<Player>)
    ensures SumCost(Insert(p, s)) == p.cost + SumCost(s)
    ensures SumHr(Insert(p, s)) == p.hr + SumHr(s)
  {
    if s != [] && p.hr < s[0].hr {
      InsertKeepsSums(p, s[1..]);
    }
  }

  lemma {:induction false} SortKeepsSums(s: seq<Player>)
    ensures SumCost(SortByHr(s)) == SumCost(s)
    ensures SumHr(SortByHr(s)) == SumHr(s)
  {
    if s != [] {
      SortKeepsSums(s[1..]);
      InsertKeepsSums(s[0], SortByHr(s[1..]));
    }
  }

  /** On a prefix that exists, `TopSum` is the projection sum of that prefix. */
  lemma {:induction false} TopSumIsPrefixSum(s: seq<Player>, k: nat)
    requires k <= |s|
    ensures TopSum(s, k) == SumHr(s[..k])
  {
    if k > 0 {
      assert s[..k][1..] == s[1..][..k - 1];
      TopSumIsPrefixSum(s[1..], k - 1);
    }
  }

  // ---------------------------------------------------------------------
  // How the first-k sum changes when one row is inserted

  /** In a list of rows none above `v`, the k-th row adds at most `v`. */
  lemma {:induction false} TopSumStep(s: seq<Player>, k: nat, v: int)
    requires 1 <= k <= |s|
    requires forall i :: 0 <= i < |s| ==> s[i].hr <= v
    ensures TopSum(s, k) <= v + TopSum(s, k - 1)
  {
    if k > 1 {
      TopSumStep(s[1..], k - 1, v);
    }
  }

  /** Inserting a row into a sorted list never lowers the sum of its first
      k projections. */
  lemma {:induction false} InsertKeepsTop(a: Player, s: seq<Player>, k: nat)
    requires Sorted(s) && k <= |s|
    ensures TopSum(s, k) <= TopSum(Insert(a, s), k)
  {
    if k > 0 {
      if a.hr >= s[0].hr {
        TopSumStep(s, k, a.hr);
      } else {
        InsertKeepsTop(a, s[1..], k - 1);
      }
    }
  }

  /** The inserted row plus the first k-1 of the rest is at most the first
      k after insertion. */
  lemma {:induction false} InsertAddsTop(a: Player, s: seq<Player>, k: nat)
    requires 1 <= k
    ensures a.hr + TopSum(s, k - 1) <= TopSum(Insert(a, s), k)
  {
    if s != [] && a.hr < s[0].hr && k > 1 {
      InsertAddsTop(a, s[1..], k - 1);
    }
  }

  /** The first k after inserting `a` either hold `a` (and the first k-1 of
      the rest) or leave it out (and are the first k of the rest). */
  lemma {:induction false} InsertTopCases(a: Player, s: seq<Player>, k: nat)
    requires 1 <= k
    requires TopSum(Insert(a, s), k) != a.hr + TopSum(s, k - 1)
    ensures k <= |s| && TopSum(Insert(a, s), k) == TopSum(s, k)
  {
    if k > 1 && TopSum(Insert(a, s[1..]), k - 1) != a.hr + TopSum(s[1..], k - 2) {
      InsertTopCases(a, s[1..], k - 1);
    }
  }

  // ---------------------------------------------------------------------
  // Counting variables against the best-k sum of the selected rows

  /** One step of `Chosen` followed by the sort, for a set first variable. */
  lemma ChosenFirst(rows: seq<Player>, x: seq<bool>)
    requires |x| == |rows| > 0 && x[0]
    ensures Chosen(rows, x) == [rows[0]] + Chosen(rows[1..], x[1..])
    ensures SortByHr(Chosen(rows, x)) == Insert(rows[0], SortByHr(Chosen(rows[1..], x[1..])))
    ensures SumHr(Chosen(rows, x)) == rows[0].hr + SumHr(Chosen(rows[1..], x[1..]))
    ensures SumCost(Chosen(rows, x)) == rows[0].cost + SumCost(Chosen(rows[1..], x[1..]))
    ensures Count(x) == 1 + Count(x[1..])
  {
    var c := Chosen(rows, x);
    assert c[0] == rows[0] && c[1..] == Chosen(rows[1..], x[1..]);
  }

  /** One step of `Chosen` for a clear first variable. */
  lemma ChosenSkip(rows: seq<Player>, x: seq<bool>)
    requires |x| == |rows| > 0 && !x[0]
    ensures Chosen(rows, x) == Chosen(rows[1..], x[1..])
    ensures Count(x) == Count(x[1..])
  {
  }

  /** Extending a counting assignment below `x[1..]` by one variable. */
  lemma Prepend(rows: seq<Player>, x: seq<bool>, y': seq<bool>, take: bool)
    requires |x| == |rows| > 0 && Below(y', x[1..]) && (take ==> x[0])
    ensures Below([take] + y', x)
    ensures Count([take] + y') == (if take then 1 else 0) + Count(y')
    ensures SumHr(Chosen(rows, [take] + y')) ==
            (if take then rows[0].hr else 0) + SumHr(Chosen(rows[1..], y'))
  {
    var y := [take] + y';
    assert y[1..] == y' && y[0] == take;
    forall i | 0 <= i < |y| && y[i]
      ensures x[i]
    {
      if i > 0 {
        assert y'[i - 1];
      }
    }
    if take {
      ChosenFirst(rows, y);
    } else {
      ChosenSkip(rows, y);
    }
  }

  /** Counting any `Count(y)` selected rows scores at most the sum of the
      `Count(y)` largest projections among the selected rows. */
  lemma {:induction false} CountedAtMostTop(rows: seq<Player>, x: seq<bool>, y: seq<bool>)
    requires |x| == |rows| && Below(y, x)
    ensures SumHr(Chosen(rows, y)) <= TopSum(SortByHr(Chosen(rows, x)), Count(y))
  {
    if rows != [] {
      var rest, x', y' := rows[1..], x[1..], y[1..];
      assert Below(y', x') by {
        forall i | 0 <= i < |y'| && y'[i]
          ensures x'[i]
        {
          assert y[i + 1];
        }
      }
      CountedAtMostTop(rest, x', y');
      var r := SortByHr(Chosen(rest, x'));
      if x[0] {
        ChosenFirst(rows, x);
        if y[0] {
          ChosenFirst(rows, y);
          InsertAddsTop(rows[0], r, Count(y));
        } else {
          ChosenSkip(rows, y);
          CountBelow(y', x');
          SortSorted(Chosen(rest, x'));
          InsertKeepsTop(rows[0], r, Count(y));
        }
      } else {
        ChosenSkip(rows, x);
        ChosenSkip(rows, y);
      }
    }
  }

  /** For a fixed selection and `k` no larger than it, some counting
      assignment below the selection counts exactly `k` rows and scores the
      sum of the `k` largest selected projections. */
  lemma {:induction false} TopAttainable(rows: seq<Player>, x: seq<bool>, k: nat) returns (y: seq<bool>)
    requires |x| == |rows| && k <= Count(x)
    ensures Below(y, x) && Count(y) == k
    ensures SumHr(Chosen(rows, y)) == TopSum(SortByHr(Chosen(rows, x)), k)
    decreases |rows|, 1
  {
    if rows == [] {
      y := [];
      assert Chosen(rows, x) == [] && Chosen(rows, y) == [];
    } else if !x[0] {
      ChosenSkip(rows, x);
      var y' := TopAttainable(rows[1..], x[1..], k);
      Prepend(rows, x, y', false);
      y := [false] + y';
    } else {
      y := TopAttainableFirst(rows, x, k);
    }
  }

  /** `TopAttainable` when the first row is selected: it is counted exactly
      when it belongs to the best k. */
  lemma {:induction false} TopAttainableFirst(rows: seq<Player>, x: seq<bool>, k: nat) returns (y: seq<bool>)
    requires |x| == |rows| > 0 && x[0] && k <= Count(x)
    ensures Below(y, x) && Count(y) == k
    ensures SumHr(Chosen(rows, y)) == TopSum(SortByHr(Chosen(rows, x)), k)
    decreases |rows|, 0
  {
    var r := SortByHr(Chosen(rows[1..], x[1..]));
    assert Count(x) == 1 + Count(x[1..]);
    var take, k' := InsertChoice(rows[0], r, k);
    var y' := TopAttainable(rows[1..], x[1..], k');
    y := [take] + y';
    FirstStep(rows, x, y', take, k, k');
  }

  /** Whether an inserted row is among the first k, and how many of the
      other rows are then among the first k. */
  lemma InsertChoice(a: Player, s: seq<Player>, k: nat) returns (take: bool, k': nat)
    requires k <= |s| + 1
    ensures k' <= |s| && k == k' + (if take then 1 else 0)
    ensures TopSum(Insert(a, s), k) == (if take then a.hr else 0) + TopSum(s, k')
  {
    if k >= 1 && TopSum(Insert(a, s), k) == a.hr + TopSum(s, k - 1) {
      take, k' := true, k - 1;
    } else {
      if k >= 1 {
        InsertTopCases(a, s, k);
      }
      take, k' := false, k;
    }
  }

  /** Extending the best k' of the rest by the first row's decision. */
  lemma FirstStep(rows: seq<Player>, x: seq<bool>, y': seq<bool>, take: bool, k: nat, k': nat)
    requires |x| == |rows| > 0 && x[0]
    requires Below(y', x[1..]) && Count(y') == k' && k == k' + (if take then 1 else 0)
    requires SumHr(Chosen(rows[1..], y')) == TopSum(SortByHr(Chosen(rows[1..], x[1..])), k')
    requires TopSum(Insert(rows[0], SortByHr(Chosen(rows[1..], x[1..]))), k)
             == (if take then rows[0].hr else 0) + TopSum(SortByHr(Chosen(rows[1..], x[1..])), k')
    ensures Below([take] + y', x) && Count([take] + y') == k
    ensures SumHr(Chosen(rows, [take] + y')) == TopSum(SortByHr(Chosen(rows, x)), k)
  {
    ChosenFirst(rows, x);
    Prepend(rows, x, y', take);
  }
}
