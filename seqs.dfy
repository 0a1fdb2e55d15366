/**
 * The JavaScript array operations the reducer and the views are written with:
 * `findIndex`, `find`, `map` with a conditional replacement, `filter`, and
 * `splice` on a fresh copy.
 */
module Seqs {
  import opened Common

  /** `s.findIndex(p)`: the first index whose element satisfies `p`, or -1. */
  function FindIndex<T>(s: seq<T>, p: T -> bool): (k: int)
    ensures -1 <= k < |s|
    ensures k == -1 <==> forall i :: 0 <= i < |s| ==> !p(s[i])
    ensures 0 <= k ==> p(s[k]) && forall i :: 0 <= i < k ==> !p(s[i])
  {
    if |s| == 0 then -1
    else if p(s[0]) then 0
    else
      var k := FindIndex(s[1..], p);
      if k < 0 then -1 else k + 1
  }

  /** `findIndex` only looks at whether each element passes, so sequences that pass at the same places agree. */
  lemma FindIndexSamePasses<T, U>(a: seq<T>, p: T -> bool, b: seq<U>, q: U -> bool)
    requires |a| == |b| && forall i :: 0 <= i < |a| ==> p(a[i]) == q(b[i])
    ensures FindIndex(a, p) == FindIndex(b, q)
  {
  }

  /** `s.find(p)`: the first element satisfying `p`, or `undefined`. */
  function Find<T>(s: seq<T>, p: T -> bool): (r: Option<T>)
    ensures r.None? <==> forall i :: 0 <= i < |s| ==> !p(s[i])
    ensures r.Some? ==> r.value == s[FindIndex(s, p)] && p(r.value)
  {
    var k := FindIndex(s, p);
    if k < 0 then None else Some(s[k])
  }

  /** `s.map(x => p(x) ? f(x) : x)`. */
  function MapWhere<T>(s: seq<T>, p: T -> bool, f: T -> T): (r: seq<T>)
    ensures |r| == |s|
    ensures forall i :: 0 <= i < |s| ==> r[i] == if p(s[i]) then f(s[i]) else s[i]
  {
    seq(|s|, i requires 0 <= i < |s| => if p(s[i]) then f(s[i]) else s[i])
  }

  /** When nothing satisfies `p`, the conditional map returns `s` itself. */
  lemma MapWhereNoMatch<T>(s: seq<T>, p: T -> bool, f: T -> T)
    requires forall i :: 0 <= i < |s| ==> !p(s[i])
    ensures MapWhere(s, p, f) == s
  {
  }

  /** `s.filter(keep)`. */
  function Filter<T(!new)>(s: seq<T>, keep: T -> bool): (r: seq<T>)
    ensures |r| <= |s|
    ensures forall x :: multiset(r)[x] == if keep(x) then multiset(s)[x] else 0
  {
    if |s| == 0 then []
    else
      assert s == [s[0]] + s[1..];
      (if keep(s[0]) then [s[0]] else []) + Filter(s[1..], keep)
  }

  /** An element is kept exactly when it occurs in `s` and satisfies `keep`. */
  lemma FilterMembership<T(!new)>(s: seq<T>, keep: T -> bool, x: T)
    ensures x in Filter(s, keep) <==> x in s && keep(x)
  {
    assert x in Filter(s, keep) <==> multiset(Filter(s, keep))[x] > 0;
    assert x in s <==> multiset(s)[x] > 0;
  }

  /** Filtering keeps everything when every element satisfies `keep`. */
  lemma {:induction false} FilterAllKept<T(!new)>(s: seq<T>, keep: T -> bool)
    requires forall i :: 0 <= i < |s| ==> keep(s[i])
    ensures Filter(s, keep) == s
  {
    if |s| > 0 {
      FilterAllKept(s[1..], keep);
    }
  }

  /** Filtering distributes over concatenation: relative order is preserved. */
  lemma {:induction false} FilterAppend<T(!new)>(a: seq<T>, b: seq<T>, keep: T -> bool)
    ensures Filter(a + b, keep) == Filter(a, keep) + Filter(b, keep)
  {
    if |a| == 0 {
      assert a + b == b;
      assert Filter(a, keep) == [];
    } else {
      var ab := a + b;
      assert ab[0] == a[0];
      assert ab[1..] == a[1..] + b;
      FilterAppend(a[1..], b, keep);
      FilterCons(ab, keep);
      FilterCons(a, keep);
      var head := if keep(a[0]) then [a[0]] else [];
      assert Filter(ab, keep) == head + (Filter(a[1..], keep) + Filter(b, keep));
      assert Filter(a, keep) == head + Filter(a[1..], keep);
      SeqAssoc(head, Filter(a[1..], keep), Filter(b, keep));
    }
  }

  lemma SeqAssoc<T>(x: seq<T>, y: seq<T>, z: seq<T>)
    ensures x + (y + z) == (x + y) + z
  {
  }

  /** `idx` lists, in increasing order, positions of `s` holding the elements of `r` one by one. */
  ghost predicate OrderedPositions<T>(s: seq<T>, r: seq<T>, idx: seq<nat>) {
    && |idx| == |r|
    && (forall k :: 0 <= k < |idx| ==> idx[k] < |s| && s[idx[k]] == r[k])
    && (forall k, l :: 0 <= k < l < |idx| ==> idx[k] < idx[l])
  }

  /**
   * `filter` keeps the order of what it keeps: the result sits in `s` at
   * strictly increasing positions.
   */
  lemma {:induction false} FilterKeepsOrder<T(!new)>(s: seq<T>, keep: T -> bool)
    ensures exists idx: seq<nat> :: OrderedPositions(s, Filter(s, keep), idx)
  {
    if |s| == 0 {
      assert OrderedPositions(s, Filter(s, keep), []);
    } else {
      FilterKeepsOrder(s[1..], keep);
      var r1 := Filter(s[1..], keep);
      var rest :| OrderedPositions(s[1..], r1, rest);
      var shifted := ShiftPositions(s, r1, rest);
      if keep(s[0]) {
        assert Filter(s, keep) == [s[0]] + r1;
        PrependPosition(s, r1, shifted);
      } else {
        assert Filter(s, keep) == r1;
      }
    }
  }

  /**
   * `r` is what `filter(keep)` leaves of `s`: exactly the passing elements,
   * each as often as it occurs in `s`, in their relative order.
   */
  ghost predicate KeptInOrder<T(!new)>(s: seq<T>, r: seq<T>, keep: T -> bool) {
    && (forall x :: x in r <==> x in s && keep(x))
    && (forall x :: multiset(r)[x] == if keep(x) then multiset(s)[x] else 0)
    && (exists idx :: OrderedPositions(s, r, idx))
  }

  /** `filter` leaves exactly the passing elements, as often as they occur, in order. */
  lemma FilterKeeps<T(!new)>(s: seq<T>, keep: T -> bool)
    ensures KeptInOrder(s, Filter(s, keep), keep)
  {
    forall x ensures x in Filter(s, keep) <==> x in s && keep(x) {
      FilterMembership(s, keep, x);
    }
    FilterKeepsOrder(s, keep);
  }

  /** Positions in `s[1..]` are positions in `s`, one further on. */
  lemma ShiftPositions<T>(s: seq<T>, r: seq<T>, idx: seq<nat>) returns (shifted: seq<nat>)
    requires |s| > 0 && OrderedPositions(s[1..], r, idx)
    ensures OrderedPositions(s, r, shifted) && forall k :: 0 <= k < |shifted| ==> 0 < shifted[k]
  {
    shifted := seq(|idx|, k requires 0 <= k < |idx| => idx[k] + 1);
    forall k | 0 <= k < |shifted|
      ensures shifted[k] < |s| && s[shifted[k]] == r[k]
    {
      assert s[idx[k] + 1] == s[1..][idx[k]];
    }
  }

  /** Keeping the first element puts position 0 in front. */
  lemma PrependPosition<T>(s: seq<T>, r: seq<T>, idx: seq<nat>)
    requires |s| > 0 && OrderedPositions(s, r, idx) && forall k :: 0 <= k < |idx| ==> 0 < idx[k]
    ensures OrderedPositions(s, [s[0]] + r, [0] + idx)
  {
  }

  /**
   * Looking for something `filter` keeps finds the same element in the
   * filtered sequence as in the original one.
   */
  lemma {:induction false} FindFilter<T(!new)>(s: seq<T>, keep: T -> bool, p: T -> bool)
    requires forall x :: p(x) ==> keep(x)
    ensures Find(Filter(s, keep), p) == Find(s, p)
  {
    if |s| > 0 {
      FindFilter(s[1..], keep, p);
      var rest := Filter(s[1..], keep);
      FilterCons(s, keep);
      FindCons(s, p);
      if keep(s[0]) {
        FindCons([s[0]] + rest, p);
        assert ([s[0]] + rest)[1..] == rest;
      }
    }
  }

  /** `filter` looks at the first element, then filters the rest. */
  lemma FilterCons<T(!new)>(s: seq<T>, keep: T -> bool)
    requires |s| > 0
    ensures Filter(s, keep) == if keep(s[0]) then [s[0]] + Filter(s[1..], keep) else Filter(s[1..], keep)
  {
  }

  /** `find` returns the first element when it passes, and otherwise looks further. */
  lemma FindCons<T>(s: seq<T>, p: T -> bool)
    requires |s| > 0
    ensures Find(s, p) == if p(s[0]) then Some(s[0]) else Find(s[1..], p)
  {
  }

  /** The first element `filter` keeps is the one `find` finds. */
  lemma FilterHeadIsFind<T(!new)>(s: seq<T>, keep: T -> bool)
    requires |Filter(s, keep)| > 0
    ensures Find(s, keep).Some? && Filter(s, keep)[0] == Find(s, keep).value
  {
    var r := Filter(s, keep);
    FindFilter(s, keep, keep);
    FilterMembership(s, keep, r[0]);
  }

  /**
   * The start position `splice` uses: a negative `start` counts back from the
   * end (and stops at 0), a `start` past the end is the end.
   */
  function SpliceStart(start: int, len: nat): (k: nat)
    ensures k <= len
    ensures 0 <= start <= len ==> k == start
  {
    if start < 0 then (if len + start < 0 then 0 else len + start)
    else if start > len then len
    else start
  }

  /** A copy of `s` after `copy.splice(start, 1)`. */
  function SpliceRemove<T>(s: seq<T>, start: int): (r: seq<T>)
    ensures |r| == if 0 < |s| && start < |s| then |s| - 1 else |s|
    ensures 0 <= start < |s| ==> multiset(r) + multiset{s[start]} == multiset(s)
    ensures 0 <= start < |s| ==> r == s[..start] + s[start + 1..]
  {
    var k := SpliceStart(start, |s|);
    if k < |s| then
      assert s == s[..k] + [s[k]] + s[k + 1..];
      s[..k] + s[k + 1..]
    else s
  }

  /** A copy of `s` after `copy.splice(start, 0, x)`. */
  function SpliceInsert<T>(s: seq<T>, start: int, x: T): (r: seq<T>)
    ensures |r| == |s| + 1
    ensures multiset(r) == multiset(s) + multiset{x}
    ensures 0 <= start <= |s| ==> r[start] == x && r[..start] == s[..start] && r[start + 1..] == s[start..]
  {
    var k := SpliceStart(start, |s|);
    assert s == s[..k] + s[k..];
    s[..k] + [x] + s[k..]
  }

  /** Inserting at a valid position and removing there again gives back the original. */
  lemma SpliceInsertRemove<T>(s: seq<T>, i: nat, x: T)
    requires i <= |s|
    ensures SpliceRemove(SpliceInsert(s, i, x), i) == s
  {
    var r := SpliceInsert(s, i, x);
    assert r[..i] + r[i + 1..] == s[..i] + s[i..];
    assert s == s[..i] + s[i..];
  }
}
