/** An in-memory stand-in for the relational store the services talk to: a
    table is a map from primary key to row plus the next key its sequence
    hands out, and a list query is an equality filter, one `order` key, a
    `range(from, to)` window and an exact count. */
module Datastore {
  import opened Types

  /** A sort-key value; `Null` orders after every value, as the store does
      for ascending order by default. */
  datatype Key = Value(v: int) | Null

  predicate KeyLe(a: Key, b: Key) {
    b.Null? || (a.Value? && a.v <= b.v)
  }

  /** `a` may come before `b` under `order(column, { ascending })`. */
  predicate InOrder(a: Key, b: Key, ascending: bool) {
    if ascending then KeyLe(a, b) else KeyLe(b, a)
  }

  predicate SortedBy<R>(s: seq<R>, key: R -> Key, ascending: bool) {
    forall i, j :: 0 <= i < j < |s| ==> InOrder(key(s[i]), key(s[j]), ascending)
  }

  datatype Table<R> = Table(rows: map<int, R>, next: int) {
    /** Every key was handed out by the sequence, which starts at 1. */
    predicate Valid() {
      1 <= next && forall k :: k in rows ==> 1 <= k < next
    }
  }

  /** The rows with a key in [lo, hi) that satisfy `p`, in key order. */
  function Select<R>(rows: map<int, R>, p: R -> bool, lo: int, hi: int): (r: seq<R>)
    ensures forall x :: x in r ==> p(x)
    ensures |r| <= if lo < hi then hi - lo else 0
    decreases hi - lo
  {
    if lo >= hi then []
    else (if lo in rows && p(rows[lo]) then [rows[lo]] else []) + Select(rows, p, lo + 1, hi)
  }

  /** The keys of the rows `Select` returns. */
  function MatchingKeys<R>(rows: map<int, R>, p: R -> bool, lo: int, hi: int): set<int> {
    set k | lo <= k < hi && k in rows && p(rows[k])
  }

  /** A row is selected exactly when it is stored under a key in range and
      satisfies the filter. */
  lemma {:induction false} SelectMembers<R>(rows: map<int, R>, p: R -> bool, lo: int, hi: int, x: R)
    ensures x in Select(rows, p, lo, hi) <==> p(x) && exists k :: lo <= k < hi && k in rows && rows[k] == x
    decreases hi - lo
  {
    if lo < hi {
      SelectMembers(rows, p, lo + 1, hi, x);
      if p(x) && lo + 1 <= hi && exists k :: lo + 1 <= k < hi && k in rows && rows[k] == x {
        var k :| lo + 1 <= k < hi && k in rows && rows[k] == x;
        assert lo <= k < hi;
      }
    }
  }

  /** The count the store reports is the number of matching keys. */
  lemma {:induction false} SelectCount<R>(rows: map<int, R>, p: R -> bool, lo: int, hi: int)
    ensures |Select(rows, p, lo, hi)| == |MatchingKeys(rows, p, lo, hi)|
    decreases hi - lo
  {
    if lo >= hi {
      assert MatchingKeys(rows, p, lo, hi) == {};
    } else {
      SelectCount(rows, p, lo + 1, hi);
      var rest := MatchingKeys(rows, p, lo + 1, hi);
      assert lo !in rest;
      if lo in rows && p(rows[lo]) {
        assert MatchingKeys(rows, p, lo, hi) == {lo} + rest;
      } else {
        assert MatchingKeys(rows, p, lo, hi) == rest;
      }
    }
  }

  /** Puts `x` into a sorted sequence before the first element it may precede. */
  function Insert<R>(x: R, s: seq<R>, key: R -> Key, ascending: bool): (r: seq<R>)
    ensures multiset(r) == multiset(s) + multiset{x}
    ensures |r| == |s| + 1
  {
    if s == [] then [x]
    else if InOrder(key(x), key(s[0]), ascending) then [x] + s
    else
      assert s == [s[0]] + s[1..];
      [s[0]] + Insert(x, s[1..], key, ascending)
  }

  lemma {:induction false} InsertSorted<R>(x: R, s: seq<R>, key: R -> Key, ascending: bool)
    requires SortedBy(s, key, ascending)
    ensures SortedBy(Insert(x, s, key, ascending), key, ascending)
  {
    if s != [] && !InOrder(key(x), key(s[0]), ascending) {
      var t := Insert(x, s[1..], key, ascending);
      assert SortedBy(s[1..], key, ascending);
      InsertSorted(x, s[1..], key, ascending);
      forall j | 0 <= j < |t| ensures InOrder(key(s[0]), key(t[j]), ascending) {
        assert t[j] in multiset(t);
        assert t[j] == x || t[j] in multiset(s[1..]);
        if t[j] != x {
          var i :| 0 <= i < |s[1..]| && s[1..][i] == t[j];
          assert s[i + 1] == t[j];
        }
      }
      assert Insert(x, s, key, ascending) == [s[0]] + t;
    }
  }

  /** `order(column, { ascending })`: a permutation of `s` sorted by `key`.
      How rows with equal keys are arranged is the store's choice; this one
      keeps them in scan order. */
  function Sort<R>(s: seq<R>, key: R -> Key, ascending: bool): (r: seq<R>)
    ensures multiset(r) == multiset(s)
    ensures |r| == |s|
    ensures SortedBy(r, key, ascending)
  {
    if s == [] then []
    else
      var rest := Sort(s[1..], key, ascending);
      InsertSorted(s[0], rest, key, ascending);
      assert multiset(s) == multiset(s[1..]) + multiset{s[0]} by {
        assert s == [s[0]] + s[1..];
      }
      Insert(s[0], rest, key, ascending)
  }

  /** `range(from, to)`: the rows at offsets from..to, both inclusive, of
      those that exist. */
  function Range<R>(s: seq<R>, from: int, to: int): (r: seq<R>)
    requires 0 <= from
    ensures |r| == if from < |s| && from <= to then Min(to + 1, |s|) - from else 0
    ensures forall i :: 0 <= i < |r| ==> from + i < |s| && r[i] == s[from + i]
  {
    if from >= |s| || to < from then [] else s[from..Min(to + 1, |s|)]
  }

  function Min(a: int, b: int): int {
    if a <= b then a else b
  }

  /** What a query returns: rows or nothing, an error or none, and the count. */
  datatype Response<R> = Response(data: Option<seq<R>>, error: Option<string>, count: Option<nat>)

  /** All rows of `t` that satisfy `p`, in the order `key` gives them. */
  function Ordered<R>(t: Table<R>, p: R -> bool, key: R -> Key, ascending: bool): (r: seq<R>)
    ensures forall x :: x in r ==> p(x)
    ensures SortedBy(r, key, ascending)
  {
    var s := Select(t.rows, p, 1, t.next);
    var r := Sort(s, key, ascending);
    assert forall x :: x in r ==> x in multiset(s);
    r
  }

  /** A window holds rows of the sequence it cuts, in the same order. */
  lemma RangeOfSorted<R>(s: seq<R>, key: R -> Key, ascending: bool, from: int, to: int)
    requires 0 <= from
    requires SortedBy(s, key, ascending)
    ensures SortedBy(Range(s, from, to), key, ascending)
    ensures forall x :: x in Range(s, from, to) ==> x in s
  {
    var r := Range(s, from, to);
    forall i, j | 0 <= i < j < |r| ensures InOrder(key(r[i]), key(r[j]), ascending) {
      assert r[i] == s[from + i] && r[j] == s[from + j];
    }
    forall x | x in r ensures x in s {
      var i :| 0 <= i < |r| && r[i] == x;
      assert s[from + i] == x;
    }
  }

  /** `insert(row)`: the row goes under the next key the sequence hands out. */
  function InsertRow<R>(t: Table<R>, row: R): (r: Table<R>)
    ensures t.Valid() ==> r.Valid() && t.next !in t.rows
    ensures r.rows.Keys == t.rows.Keys + {t.next}
    ensures forall k :: k in t.rows && k != t.next ==> r.rows[k] == t.rows[k]
    ensures r.rows[t.next] == row && r.next == t.next + 1
  {
    Table(t.rows[t.next := row], t.next + 1)
  }

  /** `update(..).eq(key)`: the row under `k` is replaced. */
  function ReplaceRow<R>(t: Table<R>, k: int, row: R): (r: Table<R>)
    requires k in t.rows
    ensures t.Valid() ==> r.Valid()
    ensures r.rows.Keys == t.rows.Keys && r.next == t.next
    ensures forall j :: j in t.rows && j != k ==> r.rows[j] == t.rows[j]
    ensures r.rows[k] == row
  {
    Table(t.rows[k := row], t.next)
  }

  /** `delete().eq(key)`: the row under `k`, if any, is removed. */
  function DeleteRow<R>(t: Table<R>, k: int): (r: Table<R>)
    ensures t.Valid() ==> r.Valid()
    ensures r.rows.Keys == t.rows.Keys - {k} && r.next == t.next
    ensures forall j :: j in r.rows ==> r.rows[j] == t.rows[j]
  {
    Table(t.rows - {k}, t.next)
  }

  /** A `select('*', { count: 'exact' })` filtered by `p`, ordered by `key`
      and cut by `range(from, to)`; `fault` is the error the store raises,
      if it raises one. */
  function Execute<R>(t: Table<R>, p: R -> bool, key: R -> Key, ascending: bool,
                      from: int, to: int, fault: Option<string>): (r: Response<R>)
    requires 0 <= from
    ensures fault.Some? ==> r.error == fault && r.data.None?
    ensures fault.None? ==> r.error.None? && r.data.Some? && r.count.Some?
  {
    if fault.Some? then Response(None, fault, None)
    else
      var all := Ordered(t, p, key, ascending);
      Response(Some(Range(all, from, to)), None, Some(|all|))
  }

  /** A successful query answers with the window of the ordered matching rows
      and counts all of them, whatever the window. */
  lemma ExecuteAnswers<R>(t: Table<R>, p: R -> bool, key: R -> Key, ascending: bool,
                          from: int, to: int)
    requires 0 <= from
    ensures var r := Execute(t, p, key, ascending, from, to, None);
      && r.data == Some(Range(Ordered(t, p, key, ascending), from, to))
      && r.count == Some(|MatchingKeys(t.rows, p, 1, t.next)|)
  {
    SelectCount(t.rows, p, 1, t.next);
  }

  /** The ordered rows are exactly the stored rows that pass the filter. */
  lemma OrderedMembers<R>(t: Table<R>, p: R -> bool, key: R -> Key, ascending: bool, x: R)
    requires t.Valid()
    ensures x in Ordered(t, p, key, ascending) <==> p(x) && exists k :: k in t.rows && t.rows[k] == x
  {
    var s := Select(t.rows, p, 1, t.next);
    assert x in Ordered(t, p, key, ascending) <==> x in s by {
      assert x in multiset(Ordered(t, p, key, ascending)) <==> x in multiset(s);
    }
    SelectMembers(t.rows, p, 1, t.next, x);
    if exists k :: k in t.rows && t.rows[k] == x {
      var k :| k in t.rows && t.rows[k] == x;
      assert 1 <= k < t.next;
    }
  }
}
