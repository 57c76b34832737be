/**
 * The idea records the browser keeps in React state (`ideas` in the Kanban board and in the
 * home feed), and the two list operations the views build on: `Array.prototype.filter`
 * and a `map` that rewrites the record with a given id.
 */
module Cards {

  /** One entry of the `ideas` array returned by the ideas listing. */
  datatype Card = Card(id: int, title: string, description: string, status: string, votes: int)

  /** The answer of the ideas listing: `{ok: true, ideas}` or `{ok: false, error}`. */
  datatype IdeasResponse = IdeasOk(ideas: seq<Card>) | IdeasFailed(error: string)

  /** `r` is obtained from `s` by deleting elements, keeping the order of the rest. */
  ghost predicate IsSubsequence<T>(r: seq<T>, s: seq<T>)
    decreases |s|
  {
    r == [] || (s != [] && if r[0] == s[0] then IsSubsequence(r[1..], s[1..]) else IsSubsequence(r, s[1..]))
  }

  /** `s.filter(p)`. */
  function Filter<T(!new)>(s: seq<T>, p: T -> bool): (r: seq<T>)
    ensures |r| <= |s|
    ensures forall x :: x in r <==> x in s && p(x)
    ensures forall x :: multiset(r)[x] == if p(x) then multiset(s)[x] else 0
  {
    if s == [] then []
    else
      assert s == [s[0]] + s[1..];
      if p(s[0]) then [s[0]] + Filter(s[1..], p)
      else Filter(s[1..], p)
  }

  /** The filter keeps the order of the elements it keeps. */
  lemma {:induction false} FilterIsSubsequence<T(!new)>(s: seq<T>, p: T -> bool)
    ensures IsSubsequence(Filter(s, p), s)
  {
    if s != [] {
      FilterIsSubsequence(s[1..], p);
      var r := Filter(s, p);
      if !p(s[0]) && r != [] {
        assert r[0] in r;
      }
    }
  }

  /** Filtering a concatenation filters each part. */
  lemma {:induction false} FilterAppend<T(!new)>(a: seq<T>, b: seq<T>, p: T -> bool)
    ensures Filter(a + b, p) == Filter(a, p) + Filter(b, p)
  {
    if a == [] {
      assert a + b == b;
    } else {
      var ab := a + b;
      assert ab[0] == a[0] && ab[1..] == a[1..] + b;
      FilterAppend(a[1..], b, p);
      if p(a[0]) {
        calc {
          Filter(ab, p);
          [a[0]] + Filter(a[1..] + b, p);
          [a[0]] + (Filter(a[1..], p) + Filter(b, p));
          ([a[0]] + Filter(a[1..], p)) + Filter(b, p);
        }
      }
    }
  }

  /** A predicate that holds on every element keeps the whole list. */
  lemma {:induction false} FilterAll<T(!new)>(s: seq<T>, p: T -> bool)
    requires forall x :: x in s ==> p(x)
    ensures Filter(s, p) == s
  {
    if s != [] {
      assert forall x :: x in s[1..] ==> x in s;
      FilterAll(s[1..], p);
    }
  }

  /** Two predicates that agree on the elements of `s` filter it the same way. */
  lemma {:induction false} FilterCongruent<T(!new)>(s: seq<T>, p: T -> bool, q: T -> bool)
    requires forall x :: x in s ==> p(x) == q(x)
    ensures Filter(s, p) == Filter(s, q)
  {
    if s != [] {
      assert forall x :: x in s[1..] ==> x in s;
      FilterCongruent(s[1..], p, q);
    }
  }

  /** `ideas.map(i => i.id === id ? { ...i, status } : i)`. */
  function WithStatus(s: seq<Card>, id: int, status: string): (r: seq<Card>)
    ensures |r| == |s|
    ensures forall k :: 0 <= k < |s| ==>
      r[k].id == s[k].id && r[k].title == s[k].title && r[k].description == s[k].description &&
      r[k].votes == s[k].votes && r[k].status == (if s[k].id == id then status else s[k].status)
  {
    seq(|s|, k requires 0 <= k < |s| => if s[k].id == id then s[k].(status := status) else s[k])
  }

  /** `ideas.map(p => p.id === id ? { ...p, votes } : p)`. */
  function WithVotes(s: seq<Card>, id: int, votes: int): (r: seq<Card>)
    ensures |r| == |s|
    ensures forall k :: 0 <= k < |s| ==>
      r[k].id == s[k].id && r[k].title == s[k].title && r[k].description == s[k].description &&
      r[k].status == s[k].status && r[k].votes == (if s[k].id == id then votes else s[k].votes)
  {
    seq(|s|, k requires 0 <= k < |s| => if s[k].id == id then s[k].(votes := votes) else s[k])
  }

  /** A list with no card of the given id is left as it is by either rewrite. */
  lemma AbsentIdUntouched(s: seq<Card>, id: int, status: string, votes: int)
    requires forall k :: 0 <= k < |s| ==> s[k].id != id
    ensures WithStatus(s, id, status) == s
    ensures WithVotes(s, id, votes) == s
  {
    var a := WithStatus(s, id, status);
    var b := WithVotes(s, id, votes);
    assert forall k :: 0 <= k < |s| ==> a[k] == s[k];
    assert forall k :: 0 <= k < |s| ==> b[k] == s[k];
  }
}
