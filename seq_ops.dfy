/** The two array operations the front-end builds everything from:
    `Array.prototype.filter` and the keyed replacement it writes with `map`. */
module SeqOps {

  /** `s.filter(p)`: the elements of `s` satisfying `p`, in their original order. */
  function Filter<T>(s: seq<T>, p: T -> bool): (r: seq<T>)
    ensures |r| <= |s|
    ensures forall i :: 0 <= i < |r| ==> r[i] in s && p(r[i])
    ensures forall i :: 0 <= i < |s| && p(s[i]) ==> s[i] in r
  {
    if s == [] then []
    else if p(s[0]) then [s[0]] + Filter(s[1..], p)
    else Filter(s[1..], p)
  }

  /** `a` is obtained from `b` by deleting some elements, keeping the order. */
  ghost predicate IsSubsequence<T>(a: seq<T>, b: seq<T>)
    decreases |b|
  {
    if a == [] then true
    else if b == [] then false
    else (a[0] == b[0] && IsSubsequence(a[1..], b[1..])) || IsSubsequence(a, b[1..])
  }

  lemma {:induction false} FilterIsSubsequence<T>(s: seq<T>, p: T -> bool)
    ensures IsSubsequence(Filter(s, p), s)
  {
    if s != [] {
      FilterIsSubsequence(s[1..], p);
      var r := Filter(s, p);
      if p(s[0]) {
        assert r[0] == s[0] && r[1..] == Filter(s[1..], p);
      } else {
        assert r == Filter(s[1..], p);
        if r != [] {
          assert IsSubsequence(r, s[1..]);
        }
      }
    }
  }

  /** Filtering keeps every occurrence of a satisfying element and no other:
      together with FilterIsSubsequence this pins the result down exactly. */
  lemma {:induction false} FilterCount<T>(s: seq<T>, p: T -> bool, x: T)
    ensures multiset(Filter(s, p))[x] == if p(x) then multiset(s)[x] else 0
  {
    if s != [] {
      FilterCount(s[1..], p, x);
      assert s == [s[0]] + s[1..];
      assert multiset(s) == multiset{s[0]} + multiset(s[1..]);
      if p(s[0]) {
        assert multiset(Filter(s, p)) == multiset{s[0]} + multiset(Filter(s[1..], p));
      }
    }
  }

  /** Filtering a sequence none of whose elements pass gives the empty sequence. */
  lemma {:induction false} FilterNonePass<T>(s: seq<T>, p: T -> bool)
    requires forall i :: 0 <= i < |s| ==> !p(s[i])
    ensures Filter(s, p) == []
  {
    if s != [] {
      FilterNonePass(s[1..], p);
    }
  }

  /** Appending one element extends the filtered view by that element exactly
      when it passes. */
  lemma {:induction false} FilterSnoc<T>(s: seq<T>, x: T, p: T -> bool)
    ensures Filter(s + [x], p) == Filter(s, p) + (if p(x) then [x] else [])
  {
    if s == [] {
      assert s + [x] == [x];
    } else {
      FilterSnoc(s[1..], x, p);
      assert (s + [x])[0] == s[0];
      assert (s + [x])[1..] == s[1..] + [x];
    }
  }

  /** `s.map(e => key(e) === key(x) ? x : e)`: every element whose key equals
      the key of `x` is replaced by `x`. */
  function ReplaceById<T>(s: seq<T>, key: T -> int, x: T): (r: seq<T>)
    ensures |r| == |s|
  {
    seq(|s|, i requires 0 <= i < |s| => if key(s[i]) == key(x) then x else s[i])
  }

  /** Replacement never changes which keys sit at which positions. */
  lemma ReplaceByIdKeepsKeys<T>(s: seq<T>, key: T -> int, x: T, i: int)
    requires 0 <= i < |s|
    ensures key(ReplaceById(s, key, x)[i]) == key(s[i])
  {
  }

  /** `x` ends up in the result exactly when some element already carried its key. */
  lemma ReplaceByIdPresent<T>(s: seq<T>, key: T -> int, x: T)
    ensures x in ReplaceById(s, key, x) <==> exists i :: 0 <= i < |s| && key(s[i]) == key(x)
  {
    var r := ReplaceById(s, key, x);
    if x in r {
      var i :| 0 <= i < |r| && r[i] == x;
      assert key(s[i]) == key(x);
    }
    if exists i :: 0 <= i < |s| && key(s[i]) == key(x) {
      var i :| 0 <= i < |s| && key(s[i]) == key(x);
      assert r[i] == x;
    }
  }

  /** With no element carrying the key of `x`, replacement changes nothing. */
  lemma ReplaceByIdAbsent<T>(s: seq<T>, key: T -> int, x: T)
    requires forall i :: 0 <= i < |s| ==> key(s[i]) != key(x)
    ensures ReplaceById(s, key, x) == s
  {
  }

  /** Replacing twice with the same record is the same as replacing once. */
  lemma ReplaceByIdIdempotent<T>(s: seq<T>, key: T -> int, x: T)
    ensures ReplaceById(ReplaceById(s, key, x), key, x) == ReplaceById(s, key, x)
  {
  }
}
