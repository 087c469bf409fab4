/** The `.sort()` of a MongoDB query: an ordering of the matched documents by a key. */
module Sorting {

  /** `le` relates every pair one way or the other and chains: a total preorder. */
  ghost predicate TotalPreorder<T(!new)>(le: (T, T) -> bool) {
    && (forall x, y :: le(x, y) || le(y, x))
    && (forall x, y, z :: le(x, y) && le(y, z) ==> le(x, z))
  }

  predicate SortedBy<T>(s: seq<T>, le: (T, T) -> bool) {
    forall i, j :: 0 <= i < j < |s| ==> le(s[i], s[j])
  }

  /** `x` placed in the sorted sequence `s` before the first element it does not follow. */
  function Insert<T(!new)>(x: T, s: seq<T>, le: (T, T) -> bool): (r: seq<T>)
    requires TotalPreorder(le) && SortedBy(s, le)
    ensures multiset(r) == multiset(s) + multiset{x}
    ensures SortedBy(r, le)
  {
    if s == [] then [x]
    else if le(x, s[0]) then
      LeadsAll(x, s, le);
      [x] + s
    else
      var rest := Insert(x, s[1..], le);
      assert s == [s[0]] + s[1..];
      LeadsAllOf(s[0], x, s[1..], rest, le);
      [s[0]] + rest
  }

  /** An element that precedes the head of a sorted sequence precedes all of it. */
  lemma LeadsAll<T(!new)>(x: T, s: seq<T>, le: (T, T) -> bool)
    requires TotalPreorder(le) && SortedBy(s, le) && s != [] && le(x, s[0])
    ensures SortedBy([x] + s, le)
  {
    forall j | 0 <= j < |s| ensures le(x, s[j]) {
      if j > 0 { assert le(s[0], s[j]); }
    }
  }

  /** `h`, which precedes `x` and all of the sorted `t`, precedes every element of a sorted
      rearrangement of `t` with `x` added. */
  lemma LeadsAllOf<T(!new)>(h: T, x: T, t: seq<T>, rest: seq<T>, le: (T, T) -> bool)
    requires TotalPreorder(le) && SortedBy([h] + t, le) && !le(x, h)
    requires multiset(rest) == multiset(t) + multiset{x} && SortedBy(rest, le)
    ensures SortedBy([h] + rest, le)
  {
    assert le(h, x);
    forall j | 0 <= j < |rest| ensures le(h, rest[j]) {
      assert rest[j] in multiset(rest);
      if rest[j] != x {
        assert rest[j] in multiset(t);
        var k :| 0 <= k < |t| && t[k] == rest[j];
        assert ([h] + t)[0] == h && ([h] + t)[k + 1] == t[k];
        assert le(([h] + t)[0], ([h] + t)[k + 1]);
      }
    }
  }

  /** Insertion sort of `s` by `le`. */
  function SortBy<T(!new)>(s: seq<T>, le: (T, T) -> bool): (r: seq<T>)
    requires TotalPreorder(le)
    ensures multiset(r) == multiset(s)
    ensures SortedBy(r, le)
  {
    if s == [] then []
    else
      assert s == [s[0]] + s[1..];
      Insert(s[0], SortBy(s[1..], le), le)
  }

  /** Some enumeration of a finite set, each element once. */
  ghost function Enumerate<T>(s: set<T>): (r: seq<T>)
    ensures multiset(r) == multiset(s)
  {
    if s == {} then []
    else
      var x :| x in s;
      assert multiset(s) == multiset(s - {x}) + multiset{x};
      [x] + Enumerate(s - {x})
  }
}
