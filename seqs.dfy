/** Order-preserving sublists and the array `filter` of the planner. */
module Seqs {

  /** `s` is `t` with some of its elements dropped, the rest kept in order. */
  predicate IsSublist<T(==)>(s: seq<T>, t: seq<T>)
    decreases |t|
  {
    if t == [] then s == []
    else
      IsSublist(s, t[..|t| - 1])
      || (s != [] && s[|s| - 1] == t[|t| - 1] && IsSublist(s[..|s| - 1], t[..|t| - 1]))
  }

  /** Every element of a sublist is an element of the list it was taken from. */
  lemma {:induction false} SublistMembers<T>(s: seq<T>, t: seq<T>)
    requires IsSublist(s, t)
    ensures forall x :: x in s ==> x in t
    decreases |t|
  {
    if t != [] {
      var t' := t[..|t| - 1];
      if IsSublist(s, t') {
        SublistMembers(s, t');
      } else {
        var s' := s[..|s| - 1];
        SublistMembers(s', t');
        assert s == s' + [t[|t| - 1]];
        assert t == t' + [t[|t| - 1]];
      }
    }
  }

  lemma AppendAssoc<T>(a: seq<T>, b: seq<T>, c: seq<T>)
    ensures (a + b) + c == a + (b + c)
  {
  }

  /** The elements of `s` that satisfy `keep`, in their order in `s` (JavaScript's `Array.prototype.filter`). */
  function Filter<T(==)>(s: seq<T>, keep: T -> bool): (r: seq<T>)
    ensures forall k :: 0 <= k < |r| ==> r[k] in s && keep(r[k])
    ensures forall k :: 0 <= k < |s| && keep(s[k]) ==> s[k] in r
    ensures IsSublist(r, s)
    decreases |s|
  {
    if s == [] then []
    else
      var prev := Filter(s[..|s| - 1], keep);
      var last := s[|s| - 1];
      assert s == s[..|s| - 1] + [last];
      if keep(last) then
        assert (prev + [last])[..|prev|] == prev;
        prev + [last]
      else prev
  }

  /** `Filter` keeps every copy of a passing element and no copy of a failing one: each value occurs
      in the result as often as in the input when it passes, and not at all when it fails. */
  lemma {:induction false} FilterCounts<T>(s: seq<T>, keep: T -> bool)
    ensures forall x :: multiset(Filter(s, keep))[x] == if keep(x) then multiset(s)[x] else 0
    decreases |s|
  {
    if s != [] {
      var init := s[..|s| - 1];
      var last := s[|s| - 1];
      FilterCounts(init, keep);
      assert s == init + [last];
      assert multiset(s) == multiset(init) + multiset{last};
    }
  }
}
