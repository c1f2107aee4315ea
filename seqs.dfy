/** Sequence helpers: JavaScript's `Array.prototype.filter`, and what it preserves. */
module Seqs {

  /** `s.filter(p)`: the elements of `s` satisfying `p`, in their original order. */
  function Filter<T(==)>(s: seq<T>, p: T -> bool): (r: seq<T>)
    ensures |r| <= |s|
    ensures forall i :: 0 <= i < |r| ==> r[i] in s && p(r[i])
    ensures forall i :: 0 <= i < |s| && p(s[i]) ==> s[i] in r
  {
    if s == [] then []
    else if p(s[0]) then [s[0]] + Filter(s[1..], p)
    else Filter(s[1..], p)
  }

  /** `sub` is obtained from `s` by deleting elements, keeping the relative order of the rest. */
  predicate IsSubsequence<T(==)>(sub: seq<T>, s: seq<T>)
  {
    if sub == [] then true
    else if s == [] then false
    else if sub[0] == s[0] then IsSubsequence(sub[1..], s[1..])
    else IsSubsequence(sub, s[1..])
  }

  /** No element occurs twice. */
  predicate NoDups<T(==)>(s: seq<T>)
  {
    forall i, j :: 0 <= i < j < |s| ==> s[i] != s[j]
  }

  lemma {:induction false} FilterIsSubsequence<T>(s: seq<T>, p: T -> bool)
    ensures IsSubsequence(Filter(s, p), s)
  {
    if s != [] {
      FilterIsSubsequence(s[1..], p);
      if p(s[0]) {
        assert Filter(s, p)[1..] == Filter(s[1..], p);
      } else {
        SubsequenceOfTail(Filter(s, p), s);
      }
    }
  }

  /** A subsequence of the tail is a subsequence of the whole. */
  lemma {:induction false} SubsequenceOfTail<T>(sub: seq<T>, s: seq<T>)
    requires s != [] && IsSubsequence(sub, s[1..])
    ensures IsSubsequence(sub, s)
  {
    if sub != [] && sub[0] == s[0] {
      SubsequenceDropHead(sub, s[1..]);
    }
  }

  /** Dropping the head of a subsequence keeps it a subsequence. */
  lemma {:induction false} SubsequenceDropHead<T>(sub: seq<T>, s: seq<T>)
    requires sub != [] && IsSubsequence(sub, s)
    ensures IsSubsequence(sub[1..], s)
  {
    if s != [] {
      if sub[0] == s[0] {
        assert IsSubsequence(sub[1..], s[1..]);
        SubsequenceOfTail(sub[1..], s);
      } else {
        SubsequenceDropHead(sub, s[1..]);
        SubsequenceOfTail(sub[1..], s);
      }
    }
  }

  /** Filtering keeps a duplicate-free sequence duplicate-free. */
  lemma {:induction false} FilterNoDups<T>(s: seq<T>, p: T -> bool)
    requires NoDups(s)
    ensures NoDups(Filter(s, p))
  {
    if s != [] {
      assert NoDups(s[1..]) by {
        forall i, j | 0 <= i < j < |s[1..]| ensures s[1..][i] != s[1..][j] {
          assert s[1..][i] == s[i + 1] && s[1..][j] == s[j + 1];
        }
      }
      FilterNoDups(s[1..], p);
      if p(s[0]) {
        var rest := Filter(s[1..], p);
        assert s[0] !in s[1..] by {
          forall k | 0 <= k < |s[1..]| ensures s[1..][k] != s[0] {
            assert s[1..][k] == s[k + 1];
          }
        }
        assert s[0] !in rest;
        var r := [s[0]] + rest;
        forall i, j | 0 <= i < j < |r| ensures r[i] != r[j] {
          if i == 0 {
            assert r[j] == rest[j - 1];
          } else {
            assert r[i] == rest[i - 1] && r[j] == rest[j - 1];
          }
        }
      }
    }
  }

  /** Filtering with a predicate every element satisfies is the identity. */
  lemma {:induction false} FilterAll<T>(s: seq<T>, p: T -> bool)
    requires forall i :: 0 <= i < |s| ==> p(s[i])
    ensures Filter(s, p) == s
  {
    if s != [] {
      FilterAll(s[1..], p);
    }
  }

  /** Filtering with a predicate no element satisfies gives the empty sequence. */
  lemma {:induction false} FilterNone<T>(s: seq<T>, p: T -> bool)
    requires forall i :: 0 <= i < |s| ==> !p(s[i])
    ensures Filter(s, p) == []
  {
    if s != [] {
      FilterNone(s[1..], p);
    }
  }

  /** Two filters in a row are one filter with the conjunction. */
  lemma {:induction false} FilterFilter<T>(s: seq<T>, p: T -> bool, q: T -> bool)
    ensures Filter(Filter(s, p), q) == Filter(s, x => p(x) && q(x))
  {
    if s != [] {
      FilterFilter(s[1..], p, q);
      if p(s[0]) {
        assert Filter(s, p) == [s[0]] + Filter(s[1..], p);
        assert Filter(s, p)[1..] == Filter(s[1..], p);
      }
    }
  }

  /** A prefix is a subsequence. */
  lemma {:induction false} PrefixSubsequence<T>(pre: seq<T>, s: seq<T>)
    requires |pre| <= |s| && pre == s[..|pre|]
    ensures IsSubsequence(pre, s)
  {
    if pre != [] {
      PrefixSubsequence(pre[1..], s[1..]);
    }
  }

  /** A subsequence of a subsequence is a subsequence. */
  lemma {:induction false} SubsequenceTransitive<T>(a: seq<T>, b: seq<T>, c: seq<T>)
    requires IsSubsequence(a, b) && IsSubsequence(b, c)
    ensures IsSubsequence(a, c)
    decreases |c|
  {
    if a != [] && b != [] && c != [] {
      if b[0] == c[0] {
        if a[0] == b[0] {
          SubsequenceTransitive(a[1..], b[1..], c[1..]);
        } else {
          SubsequenceTransitive(a, b[1..], c[1..]);
        }
      } else {
        SubsequenceTransitive(a, b, c[1..]);
        if a[0] == c[0] {
          SubsequenceDropHead(a, c[1..]);
        }
      }
    }
  }

  /**
   * Walk `s` in order and push `f(x)` for every `x` that `keep` accepts: the shape of a
   * `forEach` that pushes into an array.
   */
  function KeepMap<A, B>(s: seq<A>, keep: A -> bool, f: A -> B): (r: seq<B>)
    ensures |r| <= |s|
  {
    if s == [] then []
    else KeepMap(s[..|s| - 1], keep, f) + (if keep(s[|s| - 1]) then [f(s[|s| - 1])] else [])
  }

  /** One more element pushes at most its own image. */
  lemma KeepMapSnoc<A, B>(s: seq<A>, x: A, keep: A -> bool, f: A -> B)
    ensures KeepMap(s + [x], keep, f) == KeepMap(s, keep, f) + (if keep(x) then [f(x)] else [])
  {
    assert (s + [x])[..|s|] == s;
  }

  /** Walking two pieces one after the other is walking their concatenation. */
  lemma {:induction false} KeepMapAppend<A, B>(a: seq<A>, b: seq<A>, keep: A -> bool, f: A -> B)
    ensures KeepMap(a + b, keep, f) == KeepMap(a, keep, f) + KeepMap(b, keep, f)
    decreases |b|
  {
    if b != [] {
      var init := b[..|b| - 1];
      var x := b[|b| - 1];
      assert b == init + [x];
      assert a + b == (a + init) + [x];
      KeepMapAppend(a, init, keep, f);
      KeepMapSnoc(a + init, x, keep, f);
      KeepMapSnoc(init, x, keep, f);
    } else {
      assert a + b == a;
    }
  }

  /** An output is the image of an accepted element, and every accepted element has its image in the output. */
  lemma {:induction false} KeepMapMember<A, B>(s: seq<A>, keep: A -> bool, f: A -> B)
    ensures forall j :: 0 <= j < |KeepMap(s, keep, f)| ==>
      exists i :: 0 <= i < |s| && keep(s[i]) && f(s[i]) == KeepMap(s, keep, f)[j]
    ensures forall i :: 0 <= i < |s| && keep(s[i]) ==> f(s[i]) in KeepMap(s, keep, f)
  {
    if s != [] {
      var init := s[..|s| - 1];
      KeepMapMember(init, keep, f);
      var r := KeepMap(s, keep, f);
      var r0 := KeepMap(init, keep, f);
      var last := s[|s| - 1];
      assert r == r0 + (if keep(last) then [f(last)] else []);
      forall j | 0 <= j < |r|
        ensures exists i :: 0 <= i < |s| && keep(s[i]) && f(s[i]) == r[j]
      {
        if j < |r0| {
          assert r[j] == r0[j];
          var i :| 0 <= i < |init| && keep(init[i]) && f(init[i]) == r0[j];
          assert s[i] == init[i];
          assert 0 <= i < |s| && keep(s[i]) && f(s[i]) == r[j];
        } else {
          assert keep(last) && r[j] == f(last);
          assert 0 <= |s| - 1 < |s| && keep(s[|s| - 1]) && f(s[|s| - 1]) == r[j];
        }
      }
      forall i | 0 <= i < |s| && keep(s[i]) ensures f(s[i]) in r {
        if i < |s| - 1 {
          assert s[i] == init[i];
          assert f(init[i]) in r0;
        }
      }
    } else {
      assert KeepMap(s, keep, f) == [];
    }
  }

  /** Nothing accepted, nothing pushed; everything accepted, one image per element. */
  lemma {:induction false} KeepMapEmpty<A, B>(s: seq<A>, keep: A -> bool, f: A -> B)
    ensures KeepMap(s, keep, f) == [] <==> forall i :: 0 <= i < |s| ==> !keep(s[i])
  {
    KeepMapMember(s, keep, f);
    if KeepMap(s, keep, f) == [] {
      forall i | 0 <= i < |s| ensures !keep(s[i]) {
      }
    } else {
      var y := KeepMap(s, keep, f)[0];
      var i :| 0 <= i < |s| && keep(s[i]) && f(s[i]) == y;
    }
  }
}
