/**
 * The table operations the pipeline borrows from pandas, on tables modelled as
 * sequences of rows: group-by with an aggregate, a left merge on a string key,
 * and the arithmetic mean.
 */
module Tables {
  import opened Wrappers

  /** A row of a keyed table: the key column ("Player Name") and the rest. */
  datatype Keyed<V> = Keyed(key: string, val: V)

  /** The key of a keyed row. */
  function Key<V>(r: Keyed<V>): string
  {
    r.key
  }

  predicate NoDuplicates(s: seq<string>)
  {
    forall i, j :: 0 <= i < j < |s| ==> s[i] != s[j]
  }

  /** No key occurs twice: what `groupby(...).reset_index()` produces. */
  predicate UniqueKeys<V>(t: seq<Keyed<V>>)
  {
    NoDuplicates(KeysOf(t, Key))
  }

  /** The value of the first row whose key is `k`, if any. */
  function Lookup<V>(t: seq<Keyed<V>>, k: string): (r: Option<V>)
    ensures r.None? <==> k !in KeysOf(t, Key)
    ensures r.Some? ==> exists i :: 0 <= i < |t| && t[i] == Keyed(k, r.value)
  {
    if t == [] then None
    else if t[0].key == k then Some(t[0].val)
    else
      var r := Lookup(t[1..], k);
      assert KeysOf(t, Key) == [t[0].key] + KeysOf(t[1..], Key);
      assert r.Some? ==> exists i :: 0 <= i < |t[1..]| && t[1..][i] == Keyed(k, r.value);
      r
  }

  /** The key column of a table of rows of any shape. */
  function KeysOf<R>(rows: seq<R>, key: R -> string): (r: seq<string>)
    ensures |r| == |rows| && forall i :: 0 <= i < |rows| ==> r[i] == key(rows[i])
  {
    seq(|rows|, i requires 0 <= i < |rows| => key(rows[i]))
  }

  /** The distinct elements of `s`, each once, in order of first appearance. */
  function Distinct(s: seq<string>): (r: seq<string>)
    ensures NoDuplicates(r)
    ensures forall x :: x in r <==> x in s
    decreases |s|
  {
    if s == [] then []
    else
      var d := Distinct(s[..|s| - 1]);
      assert s == s[..|s| - 1] + [s[|s| - 1]];
      if s[|s| - 1] in d then d else d + [s[|s| - 1]]
  }

  /** The rows whose key is `k`, in table order: one group of a group-by. */
  function Where<R(!new)>(rows: seq<R>, key: R -> string, k: string): (r: seq<R>)
    ensures forall x :: x in r ==> x in rows && key(x) == k
    ensures |r| > 0 <==> k in KeysOf(rows, key)
  {
    if rows == [] then []
    else
      assert rows == [rows[0]] + rows[1..];
      assert KeysOf(rows, key) == [key(rows[0])] + KeysOf(rows[1..], key);
      (if key(rows[0]) == k then [rows[0]] else []) + Where(rows[1..], key, k)
  }

  /** A group holds every row of its key, as often as the table does, and no other row. */
  lemma {:induction false} WhereKeepsGroup<R(!new)>(rows: seq<R>, key: R -> string, k: string, x: R)
    ensures multiset(Where(rows, key, k))[x] == if key(x) == k then multiset(rows)[x] else 0
  {
    if rows != [] {
      assert rows == [rows[0]] + rows[1..];
      WhereKeepsGroup(rows[1..], key, k, x);
    }
  }

  /** When every row has key `k`, the group of `k` is the whole table. */
  lemma {:induction false} WhereAll<R(!new)>(rows: seq<R>, key: R -> string, k: string)
    requires forall i :: 0 <= i < |rows| ==> key(rows[i]) == k
    ensures Where(rows, key, k) == rows
  {
    if rows != [] {
      WhereAll(rows[1..], key, k);
    }
  }

  function Sum(xs: seq<real>): real
  {
    if xs == [] then 0.0 else xs[0] + Sum(xs[1..])
  }

  /** The arithmetic mean, as pandas' `mean()` computes it on a group (never empty). */
  function Mean(xs: seq<real>): real
    requires |xs| > 0
  {
    Sum(xs) / (|xs| as real)
  }

  lemma {:induction false} SumConstant(xs: seq<real>, c: real)
    requires forall i :: 0 <= i < |xs| ==> xs[i] == c
    ensures Sum(xs) == (|xs| as real) * c
  {
    if xs != [] {
      SumConstant(xs[1..], c);
    }
  }

  /** The mean of a column whose every entry is `c` is `c`. */
  lemma MeanConstant(xs: seq<real>, c: real)
    requires |xs| > 0
    requires forall i :: 0 <= i < |xs| ==> xs[i] == c
    ensures Mean(xs) == c
  {
    SumConstant(xs, c);
  }

  /** One aggregated row per name in `names`. */
  function Aggregate<R(!new), V>(rows: seq<R>, key: R -> string, agg: seq<R> --> V, names: seq<string>): (r: seq<Keyed<V>>)
    requires forall g :: |g| > 0 ==> agg.requires(g)
    requires forall n :: n in names ==> n in KeysOf(rows, key)
    ensures KeysOf(r, Key) == names
    ensures forall i :: 0 <= i < |r| ==> r[i].val == agg(Where(rows, key, names[i]))
  {
    if names == [] then []
    else [Keyed(names[0], agg(Where(rows, key, names[0])))] + Aggregate(rows, key, agg, names[1..])
  }

  /**
   * `rows.groupby(key).agg(...).reset_index()`: one row per distinct key of
   * `rows`, holding the aggregate of exactly the rows with that key.
   */
  function GroupBy<R(!new), V>(rows: seq<R>, key: R -> string, agg: seq<R> --> V): (r: seq<Keyed<V>>)
    requires forall g :: |g| > 0 ==> agg.requires(g)
    ensures UniqueKeys(r)
    ensures forall k :: k in KeysOf(r, Key) <==> k in KeysOf(rows, key)
    ensures forall k :: k in KeysOf(rows, key) ==> Lookup(r, k) == Some(agg(Where(rows, key, k)))
  {
    var r := Aggregate(rows, key, agg, Distinct(KeysOf(rows, key)));
    forall k | k in KeysOf(rows, key)
      ensures Lookup(r, k) == Some(agg(Where(rows, key, k)))
    {
      LookupUnique(r, k);
    }
    r
  }

  /** In a table with unique keys, the row with key `k` is the one `Lookup` finds. */
  lemma LookupUnique<V>(t: seq<Keyed<V>>, k: string)
    requires UniqueKeys(t)
    ensures forall i :: 0 <= i < |t| && t[i].key == k ==> Lookup(t, k) == Some(t[i].val)
  {
    forall i | 0 <= i < |t| && t[i].key == k
      ensures Lookup(t, k) == Some(t[i].val)
    {
      var r := Lookup(t, k);
      var j :| 0 <= j < |t| && t[j] == Keyed(k, r.value);
      assert KeysOf(t, Key)[i] == KeysOf(t, Key)[j];
    }
  }

  /** A merged row: the left row and the matching right value, or None (NaN) when unmatched. */
  datatype Joined<L, V> = Joined(left: L, right: Option<V>)

  /** The values of all right rows whose key is `k`, in right-table order. */
  function Matches<V>(t: seq<Keyed<V>>, k: string): (r: seq<V>)
    ensures |r| == 0 <==> k !in KeysOf(t, Key)
  {
    if t == [] then []
    else
      assert KeysOf(t, Key) == [t[0].key] + KeysOf(t[1..], Key);
      (if t[0].key == k then [t[0].val] else []) + Matches(t[1..], k)
  }

  /** The merged rows one left row gives: one per match, or one with None when nothing matches. */
  function JoinRow<L, V>(l: L, m: seq<V>): (r: seq<Joined<L, V>>)
    ensures |r| == if m == [] then 1 else |m|
    ensures forall j :: 0 <= j < |r| ==> r[j].left == l
  {
    if m == [] then [Joined(l, None)]
    else seq(|m|, j requires 0 <= j < |m| => Joined(l, Some(m[j])))
  }

  /**
   * `left.merge(right, on=key, how="left")`: every left row, in order, paired
   * with each right row of the same key (several if the right key repeats),
   * or with None when the right table has no such key.
   */
  function LeftJoin<L, V>(left: seq<L>, key: L -> string, right: seq<Keyed<V>>): (r: seq<Joined<L, V>>)
    ensures |r| >= |left|
  {
    if left == [] then []
    else JoinRow(left[0], Matches(right, key(left[0]))) + LeftJoin(left[1..], key, right)
  }

  /** The left-row column of a merged table. */
  function Lefts<L, V>(r: seq<Joined<L, V>>): (ls: seq<L>)
    ensures |ls| == |r| && forall j :: 0 <= j < |r| ==> ls[j] == r[j].left
  {
    seq(|r|, j requires 0 <= j < |r| => r[j].left)
  }

  /**
   * A left merge never drops a left row: every left row is carried by some
   * merged row, and every merged row carries a left row.
   */
  lemma {:induction false} LeftJoinKeepsLeft<L, V>(left: seq<L>, key: L -> string, right: seq<Keyed<V>>)
    ensures forall i :: 0 <= i < |left| ==> left[i] in Lefts(LeftJoin(left, key, right))
    ensures forall j :: 0 <= j < |LeftJoin(left, key, right)| ==> LeftJoin(left, key, right)[j].left in left
  {
    if left != [] {
      var head := JoinRow(left[0], Matches(right, key(left[0])));
      var rest := LeftJoin(left[1..], key, right);
      LeftJoinKeepsLeft(left[1..], key, right);
      var r := head + rest;
      assert Lefts(r) == Lefts(head) + Lefts(rest);
      assert Lefts(head)[0] == left[0];
      forall i | 1 <= i < |left| ensures left[i] in Lefts(r) {
        assert left[i] == left[1..][i - 1];
      }
      forall j | 0 <= j < |r| ensures r[j].left in left {
        if j >= |head| {
          assert r[j] == rest[j - |head|];
        }
      }
    }
  }

  lemma {:induction false} MatchesUnique<V>(t: seq<Keyed<V>>, k: string)
    requires UniqueKeys(t)
    ensures Matches(t, k) == match Lookup(t, k) case None => [] case Some(v) => [v]
  {
    if t != [] {
      assert KeysOf(t, Key) == [t[0].key] + KeysOf(t[1..], Key);
      assert UniqueKeys(t[1..]) by {
        assert KeysOf(t[1..], Key) == KeysOf(t, Key)[1..];
      }
      MatchesUnique(t[1..], k);
      if t[0].key == k {
        assert k !in KeysOf(t[1..], Key) by {
          forall i | 0 <= i < |t[1..]| ensures KeysOf(t[1..], Key)[i] != k {
            assert KeysOf(t, Key)[0] != KeysOf(t, Key)[i + 1];
          }
        }
      }
    }
  }

  /**
   * When the right keys are unique, the left merge keeps every left row
   * exactly once and in order, paired with the right value of its key.
   */
  lemma {:induction false} LeftJoinOneToOne<L, V>(left: seq<L>, key: L -> string, right: seq<Keyed<V>>)
    requires UniqueKeys(right)
    ensures |LeftJoin(left, key, right)| == |left|
    ensures forall i :: 0 <= i < |left| ==>
      LeftJoin(left, key, right)[i] == Joined(left[i], Lookup(right, key(left[i])))
  {
    if left != [] {
      var head := Joined(left[0], Lookup(right, key(left[0])));
      MatchesUnique(right, key(left[0]));
      assert JoinRow(left[0], Matches(right, key(left[0]))) == [head];
      LeftJoinOneToOne(left[1..], key, right);
      var rest := LeftJoin(left[1..], key, right);
      assert LeftJoin(left, key, right) == [head] + rest;
      forall i | 0 <= i < |left|
        ensures LeftJoin(left, key, right)[i] == Joined(left[i], Lookup(right, key(left[i])))
      {
        if i > 0 {
          assert left[i] == left[1..][i - 1];
        }
      }
    }
  }
}
