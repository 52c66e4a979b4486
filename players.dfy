/** The table both optimizers read: one row per player, with the player's
    name (the key of the decision variables), cost to draft and projected
    home runs. The team column is carried by the table but never read. */
module Players {
  import opened LinearProgram

  datatype Player = Player(name: string, cost: int, hr: int)

  /** The `player_name` column. */
  function Names(rows: seq<Player>): (r: seq<string>)
    ensures |r| == |rows| && forall i :: 0 <= i < |rows| ==> r[i] == rows[i].name
  {
    if rows == [] then [] else [rows[0].name] + Names(rows[1..])
  }

  /** The `cost_to_draft` column. */
  function Costs(rows: seq<Player>): (r: seq<int>)
    ensures |r| == |rows| && forall i :: 0 <= i < |rows| ==> r[i] == rows[i].cost
  {
    if rows == [] then [] else [rows[0].cost] + Costs(rows[1..])
  }

  /** The `hr_projection` column. */
  function Hrs(rows: seq<Player>): (r: seq<int>)
    ensures |r| == |rows| && forall i :: 0 <= i < |rows| ==> r[i] == rows[i].hr
  {
    if rows == [] then [] else [rows[0].hr] + Hrs(rows[1..])
  }

  function SumCost(rows: seq<Player>): int
  {
    if rows == [] then 0 else rows[0].cost + SumCost(rows[1..])
  }

  function SumHr(rows: seq<Player>): int
  {
    if rows == [] then 0 else rows[0].hr + SumHr(rows[1..])
  }

  predicate UniqueNames(rows: seq<Player>)
  {
    forall i, j :: 0 <= i < j < |rows| ==> rows[i].name != rows[j].name
  }

  predicate NoDuplicates(s: seq<string>)
  {
    forall i, j :: 0 <= i < j < |s| ==> s[i] != s[j]
  }

  /** The rows whose decision variable is set, in table order. */
  function Chosen(rows: seq<Player>, x: seq<bool>): (r: seq<Player>)
    ensures |x| == |rows| ==> |r| == Count(x)
  {
    if rows == [] || x == [] then []
    else (if x[0] then [rows[0]] else []) + Chosen(rows[1..], x[1..])
  }

  /** `s` without any occurrence of `n`, order kept. */
  function Remove(s: seq<string>, n: string): (r: seq<string>)
    ensures forall m :: m in r <==> m in s && m != n
    ensures NoDuplicates(s) ==> NoDuplicates(r)
    ensures n !in s ==> r == s
  {
    if s == [] then []
    else if s[0] == n then Remove(s[1..], n)
    else
      assert NoDuplicates(s) ==> s[0] !in s[1..];
      [s[0]] + Remove(s[1..], n)
  }

  /** The keys of the optimizer's name-keyed variable dictionaries: every
      name of the table exactly once, in order of first appearance. */
  function DistinctNames(rows: seq<Player>): (r: seq<string>)
    ensures forall n :: n in r <==> n in Names(rows)
    ensures NoDuplicates(r)
  {
    if rows == [] then []
    else [rows[0].name] + Remove(DistinctNames(rows[1..]), rows[0].name)
  }

  /** The value read by `df.loc[df['player_name'] == name, col].values[0]`:
      the first row that carries `name`. */
  function Lookup(rows: seq<Player>, name: string): (r: Player)
    requires name in Names(rows)
    ensures r in rows && r.name == name
    ensures forall i ::
              (0 <= i < |rows| && rows[i].name == name && forall j :: 0 <= j < i ==> rows[j].name != name)
              ==> r == rows[i]
  {
    if rows[0].name == name then rows[0]
    else
      assert name in Names(rows[1..]) by {
        var k :| 0 <= k < |rows| && Names(rows)[k] == name;
        assert Names(rows[1..])[k - 1] == name;
      }
      var r := Lookup(rows[1..], name);
      assert forall i ::
               (0 <= i < |rows| && rows[i].name == name && forall j :: 0 <= j < i ==> rows[j].name != name)
               ==> r == rows[i] by {
        forall i | 0 <= i < |rows| && rows[i].name == name && forall j :: 0 <= j < i ==> rows[j].name != name
          ensures r == rows[i]
        {
          assert rows[1..][i - 1] == rows[i];
          forall j | 0 <= j < i - 1
            ensures rows[1..][j].name != name
          {
            assert rows[1..][j] == rows[j + 1];
          }
        }
      }
      r
  }

  /** The row each decision variable stands for, in variable order: one per
      distinct name, with the figures of the first row of that name. */
  function VarRows(rows: seq<Player>): (r: seq<Player>)
    ensures |r| == |DistinctNames(rows)| <= |rows|
    ensures UniqueNames(r)
    ensures forall p :: p in r ==> p in rows
  {
    var keys := DistinctNames(rows);
    DistinctNamesShorter(rows);
    seq(|keys|, i requires 0 <= i < |keys| => Lookup(rows, keys[i]))
  }

  /** `df[df['player_name'].isin(names)]`: the rows whose name is listed,
      in table order. */
  function RowsNamed(rows: seq<Player>, names: seq<string>): (r: seq<Player>)
    ensures forall p :: p in r <==> p in rows && p.name in names
  {
    if rows == [] then []
    else (if rows[0].name in names then [rows[0]] else []) + RowsNamed(rows[1..], names)
  }

  // ---------------------------------------------------------------------

  lemma {:induction false} DistinctNamesShorter(rows: seq<Player>)
    ensures |DistinctNames(rows)| <= |rows|
  {
    if rows != [] {
      DistinctNamesShorter(rows[1..]);
      RemoveShorter(DistinctNames(rows[1..]), rows[0].name);
    }
  }

  lemma {:induction false} RemoveShorter(s: seq<string>, n: string)
    ensures |Remove(s, n)| <= |s|
  {
    if s != [] {
      RemoveShorter(s[1..], n);
    }
  }

  /** With unique names the dictionary keys are exactly the name column. */
  lemma {:induction false} DistinctNamesOfUnique(rows: seq<Player>)
    requires UniqueNames(rows)
    ensures DistinctNames(rows) == Names(rows)
  {
    if rows != [] {
      DistinctNamesOfUnique(rows[1..]);
      assert rows[0].name !in Names(rows[1..]);
    }
  }

  /** With unique names a lookup by a row's name finds that row. */
  lemma {:induction false} LookupOfUnique(rows: seq<Player>, i: int)
    requires UniqueNames(rows) && 0 <= i < |rows|
    ensures rows[i].name in Names(rows)
    ensures Lookup(rows, rows[i].name) == rows[i]
  {
    if i > 0 {
      LookupOfUnique(rows[1..], i - 1);
    }
  }

  /** With unique names there is one variable per row, in row order. */
  lemma VarRowsOfUnique(rows: seq<Player>)
    requires UniqueNames(rows)
    ensures VarRows(rows) == rows
  {
    DistinctNamesOfUnique(rows);
    forall i | 0 <= i < |rows|
      ensures VarRows(rows)[i] == rows[i]
    {
      LookupOfUnique(rows, i);
    }
  }

  /** A name is selected exactly when some set variable's row carries it. */
  lemma {:induction false} NameSelected(rows: seq<Player>, x: seq<bool>, n: string)
    requires |x| == |rows|
    ensures n in Names(Chosen(rows, x)) <==>
            exists i :: 0 <= i < |rows| && x[i] && rows[i].name == n
  {
    if rows != [] {
      NameSelected(rows[1..], x[1..], n);
      assert Names(Chosen(rows, x)) ==
        (if x[0] then [rows[0].name] else []) + Names(Chosen(rows[1..], x[1..]));
      if exists i :: 0 <= i < |rows| && x[i] && rows[i].name == n {
        var i :| 0 <= i < |rows| && x[i] && rows[i].name == n;
        if i > 0 {
          assert x[1..][i - 1] && rows[1..][i - 1].name == n;
        }
      }
    }
  }

  /** Filtering the table by a name list that marks exactly the set rows
      gives back the set rows. */
  lemma {:induction false} RowsNamedMatches(rows: seq<Player>, names: seq<string>, x: seq<bool>)
    requires |x| == |rows|
    requires forall i :: 0 <= i < |rows| ==> (rows[i].name in names <==> x[i])
    ensures RowsNamed(rows, names) == Chosen(rows, x)
  {
    if rows != [] {
      assert rows[0].name in names <==> x[0];
      forall i | 0 <= i < |rows| - 1
        ensures rows[1..][i].name in names <==> x[1..][i]
      {
        assert rows[1..][i] == rows[i + 1];
      }
      RowsNamedMatches(rows[1..], names, x[1..]);
    }
  }

  /** With unique names, filtering the table by the names of the set
      variables gives exactly the rows whose variable is set. */
  lemma SelectedRows(rows: seq<Player>, x: seq<bool>)
    requires UniqueNames(rows) && |x| == |rows|
    ensures RowsNamed(rows, Names(Chosen(rows, x))) == Chosen(rows, x)
  {
    var names := Names(Chosen(rows, x));
    forall i | 0 <= i < |rows|
      ensures rows[i].name in names <==> x[i]
    {
      NameSelected(rows, x, rows[i].name);
    }
    RowsNamedMatches(rows, names, x);
  }

  /** Filtering by an empty name list keeps no row. */
  lemma {:induction false} RowsNamedNone(rows: seq<Player>)
    ensures RowsNamed(rows, []) == []
  {
    if rows != [] {
      RowsNamedNone(rows[1..]);
    }
  }

  /** Setting every variable chooses the whole table. */
  lemma {:induction false} ChosenAll(rows: seq<Player>, x: seq<bool>)
    requires |x| == |rows| && forall i :: 0 <= i < |x| ==> x[i]
    ensures Chosen(rows, x) == rows
  {
    if rows != [] {
      assert forall i :: 0 <= i < |x| - 1 ==> x[1..][i] == x[i + 1];
      ChosenAll(rows[1..], x[1..]);
    }
  }

  /** Clearing every variable chooses nothing. */
  lemma {:induction false} ChosenNone(rows: seq<Player>, x: seq<bool>)
    requires |x| == |rows| && forall i :: 0 <= i < |x| ==> !x[i]
    ensures Chosen(rows, x) == []
  {
    if rows != [] {
      assert forall i :: 0 <= i < |x| - 1 ==> x[1..][i] == x[i + 1];
      ChosenNone(rows[1..], x[1..]);
    }
  }
}
