/** A table of the service's store: rows in rowid order, ids positive and strictly ascending. A new
    row takes the largest id plus one (1 in an empty table), lookups by primary key find at most one
    row, and `query.filter_by(...).all()` keeps the rows that match, in rowid order. */
module Tables {
  import opened Wrappers

  predicate IdsAscending<T>(s: seq<T>, id: T -> int) {
    (forall i :: 0 <= i < |s| ==> id(s[i]) >= 1) &&
    (forall i, j :: 0 <= i < j < |s| ==> id(s[i]) < id(s[j]))
  }

  /** The id SQLite gives the next inserted row: one more than the largest id present, 1 when the
      table is empty. */
  function NextId<T>(s: seq<T>, id: T -> int): (r: int)
    requires IdsAscending(s, id)
    ensures r >= 1
    ensures forall i :: 0 <= i < |s| ==> id(s[i]) < r
  {
    if |s| == 0 then 1 else id(s[|s| - 1]) + 1
  }

  /** Appending a row under the next id keeps the table well formed. */
  lemma AppendNext<T>(s: seq<T>, id: T -> int, x: T)
    requires IdsAscending(s, id) && id(x) == NextId(s, id)
    ensures IdsAscending(s + [x], id)
  {
    assert forall i :: 0 <= i < |s| ==> (s + [x])[i] == s[i];
  }

  /** The position of the first row with id `k`, or -1 when there is none. */
  function IndexOf<T>(s: seq<T>, id: T -> int, k: int): (r: int)
    ensures -1 <= r < |s|
    ensures r == -1 <==> forall i :: 0 <= i < |s| ==> id(s[i]) != k
    ensures r >= 0 ==> id(s[r]) == k
    ensures r >= 0 ==> forall i :: 0 <= i < r ==> id(s[i]) != k
  {
    if |s| == 0 then -1
    else if id(s[|s| - 1]) == k && IndexOf(s[..|s| - 1], id, k) == -1 then |s| - 1
    else IndexOf(s[..|s| - 1], id, k)
  }

  /** `Model.query.get(k)`: the row with primary key `k`, if any. */
  function Find<T>(s: seq<T>, id: T -> int, k: int): (r: Option<T>)
    ensures r.None? <==> forall i :: 0 <= i < |s| ==> id(s[i]) != k
    ensures r.Some? ==> r.value in s && id(r.value) == k
  {
    var i := IndexOf(s, id, k);
    if i == -1 then None else Some(s[i])
  }

  /** In a well-formed table the row with a given id is the one at its position. */
  lemma FindAt<T>(s: seq<T>, id: T -> int, i: int)
    requires IdsAscending(s, id) && 0 <= i < |s|
    ensures Find(s, id, id(s[i])) == Some(s[i])
  {
    var j := IndexOf(s, id, id(s[i]));
    if j < i {
      assert false;
    } else if j > i {
      assert false;
    }
  }

  /** After an insert under the next id, only the new id finds something new. */
  lemma {:induction false} FindAfterAppend<T>(s: seq<T>, id: T -> int, x: T, k: int)
    requires IdsAscending(s, id) && id(x) == NextId(s, id)
    ensures Find(s + [x], id, k) == if k == id(x) then Some(x) else Find(s, id, k)
  {
    var t := s + [x];
    AppendNext(s, id, x);
    if k == id(x) {
      FindAt(t, id, |s|);
    } else {
      assert forall i :: 0 <= i < |s| ==> t[i] == s[i];
      var f := Find(s, id, k);
      if f.None? {
        assert forall i :: 0 <= i < |t| ==> id(t[i]) != k;
      } else {
        var i :| 0 <= i < |s| && s[i] == f.value;
        FindAt(s, id, i);
        FindAt(t, id, i);
      }
    }
  }

  /** Replacing the row at `i` by one with the same id changes what that id finds and nothing
      else. */
  lemma {:induction false} FindAfterReplace<T>(s: seq<T>, id: T -> int, i: int, x: T, k: int)
    requires IdsAscending(s, id) && 0 <= i < |s| && id(x) == id(s[i])
    ensures IdsAscending(s[i := x], id)
    ensures Find(s[i := x], id, k) == if k == id(x) then Some(x) else Find(s, id, k)
  {
    var t := s[i := x];
    assert forall j :: 0 <= j < |s| ==> id(t[j]) == id(s[j]);
    if k == id(x) {
      FindAt(t, id, i);
    } else {
      var f := Find(s, id, k);
      if f.None? {
        assert forall j :: 0 <= j < |t| ==> id(t[j]) != k;
      } else {
        var j :| 0 <= j < |s| && s[j] == f.value;
        FindAt(s, id, j);
        FindAt(t, id, j);
      }
    }
  }

  /** Removing the row at `i` makes its id find nothing and leaves every other id as it was. */
  lemma {:induction false} FindAfterRemove<T>(s: seq<T>, id: T -> int, i: int, k: int)
    requires IdsAscending(s, id) && 0 <= i < |s|
    ensures IdsAscending(s[..i] + s[i + 1..], id)
    ensures Find(s[..i] + s[i + 1..], id, k) == if k == id(s[i]) then None else Find(s, id, k)
  {
    var t := s[..i] + s[i + 1..];
    assert forall j :: 0 <= j < |t| ==> t[j] == if j < i then s[j] else s[j + 1];
    if k == id(s[i]) {
      assert forall j :: 0 <= j < |t| ==> id(t[j]) != k;
    } else {
      var f := Find(s, id, k);
      if f.None? {
        assert forall j :: 0 <= j < |t| ==> id(t[j]) != k;
      } else {
        var j :| 0 <= j < |s| && s[j] == f.value;
        FindAt(s, id, j);
        assert j != i;
        var j' := if j < i then j else j - 1;
        assert t[j'] == s[j];
        FindAt(t, id, j');
      }
    }
  }

  /** The rows of `s` that satisfy `p`, in their order in `s`. */
  function Where<T>(s: seq<T>, p: T -> bool): (r: seq<T>)
    ensures |r| <= |s|
    ensures forall i :: 0 <= i < |r| ==> r[i] in s && p(r[i])
    ensures forall i :: 0 <= i < |s| && p(s[i]) ==> s[i] in r
  {
    if |s| == 0 then []
    else
      var r := Where(s[..|s| - 1], p) + (if p(s[|s| - 1]) then [s[|s| - 1]] else []);
      assert s == s[..|s| - 1] + [s[|s| - 1]];
      r
  }

  /** A row whose id exceeds every id of a well-formed table can go at its end. */
  lemma AscendingSnoc<T>(s: seq<T>, id: T -> int, x: T)
    requires IdsAscending(s, id) && id(x) >= 1
    requires forall i :: 0 <= i < |s| ==> id(s[i]) < id(x)
    ensures IdsAscending(s + [x], id)
  {
    assert forall i :: 0 <= i < |s| ==> (s + [x])[i] == s[i];
  }

  /** A bound on every id of a table bounds the ids of the filtered rows. */
  lemma WhereBelow<T>(s: seq<T>, id: T -> int, p: T -> bool, b: int)
    requires forall i :: 0 <= i < |s| ==> id(s[i]) < b
    ensures forall j :: 0 <= j < |Where(s, p)| ==> id(Where(s, p)[j]) < b
  {
    var w := Where(s, p);
    forall j | 0 <= j < |w|
      ensures id(w[j]) < b
    {
      var k :| 0 <= k < |s| && s[k] == w[j];
    }
  }

  /** Filtering a table with one more row filters the rest and keeps that row if it matches. */
  lemma WhereSnoc<T>(s: seq<T>, p: T -> bool)
    requires |s| > 0
    ensures Where(s, p) == Where(s[..|s| - 1], p) + (if p(s[|s| - 1]) then [s[|s| - 1]] else [])
  {
  }

  /** The rows before the last of a well-formed table form one, with ids below the last one's. */
  lemma AscendingInit<T>(init: seq<T>, x: T, id: T -> int)
    requires IdsAscending(init + [x], id)
    ensures IdsAscending(init, id) && id(x) >= 1
    ensures forall i :: 0 <= i < |init| ==> id(init[i]) < id(x)
  {
    var s := init + [x];
    assert forall i :: 0 <= i < |init| ==> s[i] == init[i];
    assert s[|init|] == x;
  }

  /** The filtered rows keep the table's ascending id order. */
  lemma {:induction false} WhereAscending<T>(s: seq<T>, id: T -> int, p: T -> bool)
    ensures IdsAscending(s, id) ==> IdsAscending(Where(s, p), id)
  {
    if |s| > 0 && IdsAscending(s, id) {
      var init := s[..|s| - 1];
      var x := s[|s| - 1];
      assert s == init + [x];
      AscendingInit(init, x, id);
      WhereAscending(init, id, p);
      WhereBelow(init, id, p, id(x));
      WhereSnoc(s, p);
      var w := Where(init, p);
      if p(x) {
        AscendingSnoc(w, id, x);
      } else {
        assert w + [] == w;
      }
    }
  }
}
