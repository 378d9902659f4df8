/** Sequence operations that the game applies to its entity lists: the
    element-wise update of `Array.prototype.forEach`, the survivor list of
    `Array.prototype.filter`, and the one-element removal `splice(i, 1)`. */
module Seqs {

  /** The list after `forEach(x => <update x>)`: every element replaced by its update. */
  function Map<T>(s: seq<T>, f: T -> T): seq<T>
  {
    seq(|s|, i requires 0 <= i < |s| => f(s[i]))
  }

  /** The survivors of `filter(keep)`, in their original order. */
  function Filter<T(!new)>(s: seq<T>, keep: T -> bool): (r: seq<T>)
    ensures |r| <= |s|
    ensures forall i :: 0 <= i < |r| ==> keep(r[i])
    ensures forall x :: multiset(r)[x] == if keep(x) then multiset(s)[x] else 0
  {
    if s == [] then []
    else
      var init, last := s[..|s| - 1], s[|s| - 1];
      assert s == init + [last];
      var kept := Filter(init, keep);
      if keep(last) then kept + [last] else kept
  }

  /** `splice(i, 1)`: removes the element at index `i` when there is one, and
      does nothing when `i` is past the end. */
  function Splice<T>(s: seq<T>, i: nat): (r: seq<T>)
    ensures |r| == if i < |s| then |s| - 1 else |s|
    ensures forall k :: 0 <= k < |r| ==> r[k] == if k < i then s[k] else s[k + 1]
  {
    if i < |s| then s[..i] + s[i + 1..]
    else s
  }

  /** `splice(i, 1)` removes exactly the element at `i`, and nothing when there is none. */
  lemma SpliceMultiset<T>(s: seq<T>, i: nat)
    ensures i < |s| ==> multiset(Splice(s, i)) + multiset{s[i]} == multiset(s)
    ensures i >= |s| ==> Splice(s, i) == s
    ensures multiset(Splice(s, i)) <= multiset(s)
  {
    if i < |s| {
      assert s == s[..i] + [s[i]] + s[i + 1..];
    }
  }

  /** Removing the first element leaves the rest. */
  lemma SpliceFirst<T>(x: T, s: seq<T>)
    ensures Splice([x] + s, 0) == s
  {
    assert ([x] + s)[1..] == s;
  }

  /** Removing the last element leaves the ones before it. */
  lemma SpliceLast<T>(s: seq<T>, x: T)
    ensures Splice(s + [x], |s|) == s
  {
    assert (s + [x])[..|s|] == s;
  }

  /** Filtering a concatenation filters each part: survivors keep their order. */
  lemma {:induction false} FilterConcat<T(!new)>(a: seq<T>, b: seq<T>, keep: T -> bool)
    ensures Filter(a + b, keep) == Filter(a, keep) + Filter(b, keep)
  {
    if b == [] {
      assert a + b == a;
    } else {
      var init := b[..|b| - 1];
      assert (a + b)[..|a + b| - 1] == a + init;
      assert (a + b)[|a + b| - 1] == b[|b| - 1];
      FilterConcat(a, init, keep);
    }
  }

  /** A list whose every element passes is its own filter. */
  lemma {:induction false} FilterAllPass<T(!new)>(s: seq<T>, keep: T -> bool)
    requires forall i :: 0 <= i < |s| ==> keep(s[i])
    ensures Filter(s, keep) == s
  {
    if s != [] {
      var init := s[..|s| - 1];
      FilterAllPass(init, keep);
      assert init + [s[|s| - 1]] == s;
      assert Filter(s, keep) == Filter(init, keep) + [s[|s| - 1]];
    }
  }

  /** The forEach loop that updates every element where it stands. */
  method ForEachUpdate<T>(s: seq<T>, f: T -> T) returns (r: seq<T>)
    ensures r == Map(s, f)
  {
    r := s;
    for i := 0 to |r|
      invariant |r| == |s|
      invariant forall k :: 0 <= k < i ==> r[k] == f(s[k])
      invariant forall k :: i <= k < |r| ==> r[k] == s[k]
    {
      r := r[i := f(r[i])];
    }
  }

  /** The filter loop: a new list holding the elements that pass, in order. */
  method FilterInto<T(!new)>(s: seq<T>, keep: T -> bool) returns (r: seq<T>)
    ensures r == Filter(s, keep)
  {
    r := [];
    for i := 0 to |s|
      invariant r == Filter(s[..i], keep)
    {
      assert s[..i + 1][..i] == s[..i];
      if keep(s[i]) {
        r := r + [s[i]];
      }
    }
    assert s[..|s|] == s;
  }
}
