/** Order-preserving filtering of sequences, the one operation behind every
    `Array.prototype.filter` of the annotation code (visibility, page, id,
    role-selection), with the facts the other modules rely on. */
module Seqs {

  /** The elements of `s` that satisfy `p`, in their original order. */
  function Filter<T>(p: T -> bool, s: seq<T>): (r: seq<T>)
    ensures |r| <= |s|
    ensures forall i :: 0 <= i < |r| ==> p(r[i])
    decreases |s|
  {
    if s == [] then []
    else if p(s[0]) then [s[0]] + Filter(p, s[1..]) else Filter(p, s[1..])
  }

  /** `r` can be obtained from `s` by deleting elements (order is kept). */
  ghost predicate Subsequence<T>(r: seq<T>, s: seq<T>)
    decreases |s|
  {
    if r == [] then true
    else if s == [] then false
    else (r[0] == s[0] && Subsequence(r[1..], s[1..])) || Subsequence(r, s[1..])
  }

  /** No element occurs twice. */
  ghost predicate NoDup<T>(s: seq<T>)
  {
    forall i, j :: 0 <= i < j < |s| ==> s[i] != s[j]
  }

  lemma {:induction false} FilterMember<T>(p: T -> bool, s: seq<T>, x: T)
    ensures x in Filter(p, s) <==> x in s && p(x)
    decreases |s|
  {
    if s != [] {
      FilterMember(p, s[1..], x);
      assert s == [s[0]] + s[1..];
    }
  }

  /** Filtering is local: the result for `s + t` is the result for `s`
      followed by the result for `t`, so whether an element is kept does not
      depend on the other elements. */
  lemma {:induction false} FilterConcat<T>(p: T -> bool, s: seq<T>, t: seq<T>)
    ensures Filter(p, s + t) == Filter(p, s) + Filter(p, t)
    decreases |s|
  {
    if s == [] {
      assert s + t == t;
    } else {
      assert (s + t)[0] == s[0];
      assert (s + t)[1..] == s[1..] + t;
      FilterConcat(p, s[1..], t);
    }
  }

  lemma FilterSingleton<T>(p: T -> bool, x: T)
    ensures Filter(p, [x]) == if p(x) then [x] else []
  {
    assert [x][1..] == [];
  }

  /** The result keeps the input's order. */
  lemma {:induction false} FilterSubsequence<T>(p: T -> bool, s: seq<T>)
    ensures Subsequence(Filter(p, s), s)
    decreases |s|
  {
    if s != [] {
      FilterSubsequence(p, s[1..]);
      var r := Filter(p, s);
      if p(s[0]) {
        assert r[0] == s[0] && r[1..] == Filter(p, s[1..]);
      } else {
        if r != [] {
          assert Subsequence(r, s[1..]);
        }
      }
    }
  }

  lemma {:induction false} SubsequenceTrans<T>(a: seq<T>, b: seq<T>, c: seq<T>)
    requires Subsequence(a, b) && Subsequence(b, c)
    ensures Subsequence(a, c)
    decreases |c|
  {
    if a != [] {
      assert b != [] && c != [];
      if b[0] == c[0] && Subsequence(b[1..], c[1..]) {
        if a[0] == b[0] && Subsequence(a[1..], b[1..]) {
          SubsequenceTrans(a[1..], b[1..], c[1..]);
        } else {
          SubsequenceTrans(a, b[1..], c[1..]);
        }
      } else {
        SubsequenceTrans(a, b, c[1..]);
      }
    }
  }

  /** Nothing is removed when every element passes. */
  lemma {:induction false} FilterAll<T>(p: T -> bool, s: seq<T>)
    requires forall i :: 0 <= i < |s| ==> p(s[i])
    ensures Filter(p, s) == s
    decreases |s|
  {
    if s != [] {
      FilterAll(p, s[1..]);
      assert s == [s[0]] + s[1..];
    }
  }

  /** Everything is removed when no element passes. */
  lemma {:induction false} FilterNone<T>(p: T -> bool, s: seq<T>)
    requires forall i :: 0 <= i < |s| ==> !p(s[i])
    ensures Filter(p, s) == []
    decreases |s|
  {
    if s != [] {
      FilterNone(p, s[1..]);
    }
  }

  /** A filtered duplicate-free sequence is still duplicate-free. */
  lemma {:induction false} FilterNoDup<T>(p: T -> bool, s: seq<T>)
    requires NoDup(s)
    ensures NoDup(Filter(p, s))
    decreases |s|
  {
    if s != [] {
      assert NoDup(s[1..]) by {
        forall i, j | 0 <= i < j < |s[1..]| ensures s[1..][i] != s[1..][j] {
          assert s[1..][i] == s[i + 1] && s[1..][j] == s[j + 1];
        }
      }
      FilterNoDup(p, s[1..]);
      if p(s[0]) {
        var tail := Filter(p, s[1..]);
        assert s[0] !in s[1..] by {
          forall k | 0 <= k < |s[1..]| ensures s[1..][k] != s[0] {
            assert s[1..][k] == s[k + 1];
          }
        }
        FilterMember(p, s[1..], s[0]);
        var r := [s[0]] + tail;
        forall i, j | 0 <= i < j < |r| ensures r[i] != r[j] {
          if i == 0 {
            assert r[j] == tail[j - 1] && r[j] in tail;
          } else {
            assert r[i] == tail[i - 1] && r[j] == tail[j - 1];
          }
        }
      }
    }
  }

  /** Filtering out one failing element between passing ones leaves the rest. */
  lemma FilterDropsMiddle<T>(p: T -> bool, a: seq<T>, x: T, b: seq<T>)
    requires forall k :: 0 <= k < |a| ==> p(a[k])
    requires forall k :: 0 <= k < |b| ==> p(b[k])
    requires !p(x)
    ensures Filter(p, a + [x] + b) == a + b
  {
    FilterAll(p, a);
    FilterAll(p, b);
    FilterSingleton(p, x);
    FilterConcat(p, a, [x]);
    FilterConcat(p, a + [x], b);
    calc {
      Filter(p, a + [x] + b);
      Filter(p, a + [x]) + Filter(p, b);
      (Filter(p, a) + Filter(p, [x])) + b;
      (a + []) + b;
      { assert a + [] == a; }
      a + b;
    }
  }

  /** Cutting out the element at `i` and putting it back at the end keeps the multiset. */
  lemma RemoveAtMultiset<T>(s: seq<T>, i: nat)
    requires i < |s|
    ensures multiset(s[..i] + s[i + 1..] + [s[i]]) == multiset(s)
  {
    var pre, post := s[..i], s[i + 1..];
    assert s == pre + [s[i]] + post;
    calc {
      multiset(pre + post + [s[i]]);
      multiset(pre) + multiset(post) + multiset([s[i]]);
      multiset(pre + [s[i]] + post);
    }
  }
}
