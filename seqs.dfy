/** List comprehensions and order facts used throughout the model. */
module Seqs {

  /** `[x for x in s if f(x)]` */
  function Filter<T>(f: T -> bool, s: seq<T>): (r: seq<T>)
    ensures |r| <= |s|
    decreases |s|
  {
    if |s| == 0 then []
    else if f(s[0]) then [s[0]] + Filter(f, s[1..])
    else Filter(f, s[1..])
  }

  /** `sum(f(x) for x in s)` for a boolean `f`. */
  function Count<T>(f: T -> bool, s: seq<T>): nat
    decreases |s|
  {
    if |s| == 0 then 0 else (if f(s[0]) then 1 else 0) + Count(f, s[1..])
  }

  /** `a` is `b` with some elements left out, order kept. */
  predicate IsSubsequence<T(==)>(a: seq<T>, b: seq<T>)
    decreases |b|
  {
    |a| == 0 || (|b| > 0 && ((a[0] == b[0] && IsSubsequence(a[1..], b[1..])) || IsSubsequence(a, b[1..])))
  }

  /** `s.index(x)`: the position of the first `x` in `s`. */
  function IndexOf<T(==)>(s: seq<T>, x: T): (k: nat)
    requires x in s
    ensures k < |s| && s[k] == x && forall j :: 0 <= j < k ==> s[j] != x
    decreases |s|
  {
    if s[0] == x then 0 else 1 + IndexOf(s[1..], x)
  }

  /** A position holding x with no earlier x is the first index of x. */
  lemma IndexOfFirst<T>(s: seq<T>, x: T, k: nat)
    requires k < |s| && s[k] == x && forall j :: 0 <= j < k ==> s[j] != x
    ensures x in s && IndexOf(s, x) == k
  {
  }

  predicate Distinct<T(==)>(s: seq<T>)
  {
    forall i, j :: 0 <= i < j < |s| ==> s[i] != s[j]
  }

  /** The elements kept by a filter are exactly those of `s` that satisfy `f`. */
  lemma {:induction false} FilterMembership<T>(f: T -> bool, s: seq<T>, x: T)
    ensures x in Filter(f, s) <==> x in s && f(x)
    decreases |s|
  {
    if |s| > 0 {
      FilterMembership(f, s[1..], x);
      assert s == [s[0]] + s[1..];
    }
  }

  /** A filter keeps the order of its input. */
  lemma {:induction false} FilterIsSubsequence<T>(f: T -> bool, s: seq<T>)
    ensures IsSubsequence(Filter(f, s), s)
    decreases |s|
  {
    if |s| > 0 {
      FilterIsSubsequence(f, s[1..]);
      if f(s[0]) {
        assert Filter(f, s)[1..] == Filter(f, s[1..]);
      } else if |Filter(f, s)| > 0 {
        SubsequenceOfTail(Filter(f, s), s);
      }
    }
  }

  lemma SubsequenceOfTail<T>(a: seq<T>, b: seq<T>)
    requires |b| > 0 && IsSubsequence(a, b[1..])
    ensures IsSubsequence(a, b)
  {
  }

  /** Counting the elements that satisfy `f` is the length of the filter. */
  lemma {:induction false} CountIsFilterLength<T>(f: T -> bool, s: seq<T>)
    ensures Count(f, s) == |Filter(f, s)|
    decreases |s|
  {
    if |s| > 0 {
      CountIsFilterLength(f, s[1..]);
    }
  }

  lemma {:induction false} FilterConcat<T>(f: T -> bool, a: seq<T>, b: seq<T>)
    ensures Filter(f, a + b) == Filter(f, a) + Filter(f, b)
    decreases |a|
  {
    if |a| > 0 {
      assert (a + b)[1..] == a[1..] + b;
      FilterConcat(f, a[1..], b);
    } else {
      assert a + b == b;
    }
  }

  /** A filter whose test holds everywhere keeps everything. */
  lemma {:induction false} FilterAll<T>(f: T -> bool, s: seq<T>)
    requires forall k :: 0 <= k < |s| ==> f(s[k])
    ensures Filter(f, s) == s
    decreases |s|
  {
    if |s| > 0 {
      FilterAll(f, s[1..]);
      assert s == [s[0]] + s[1..];
    }
  }

  /** Two filters that agree on the elements of `s` give the same result. */
  lemma {:induction false} FilterExtensional<T>(f: T -> bool, g: T -> bool, s: seq<T>)
    requires forall k :: 0 <= k < |s| ==> f(s[k]) == g(s[k])
    ensures Filter(f, s) == Filter(g, s)
    decreases |s|
  {
    if |s| > 0 {
      FilterExtensional(f, g, s[1..]);
    }
  }

  lemma {:induction false} SubsequenceMembers<T>(a: seq<T>, b: seq<T>, x: T)
    requires IsSubsequence(a, b) && x in a
    ensures x in b
    decreases |b|
  {
    assert |a| > 0;
    if a[0] == b[0] && IsSubsequence(a[1..], b[1..]) {
      if x != a[0] {
        assert x in a[1..] by { assert a == [a[0]] + a[1..]; }
        SubsequenceMembers(a[1..], b[1..], x);
      }
    } else {
      SubsequenceMembers(a, b[1..], x);
    }
  }

  lemma {:induction false} SubsequenceLength<T>(a: seq<T>, b: seq<T>)
    requires IsSubsequence(a, b)
    ensures |a| <= |b|
    decreases |b|
  {
    if |a| > 0 {
      if a[0] == b[0] && IsSubsequence(a[1..], b[1..]) {
        SubsequenceLength(a[1..], b[1..]);
      } else {
        SubsequenceLength(a, b[1..]);
      }
    }
  }

  /** A subsequence as long as the whole is the whole. */
  lemma {:induction false} SubsequenceOfSameLength<T>(a: seq<T>, b: seq<T>)
    requires IsSubsequence(a, b) && |a| == |b|
    ensures a == b
    decreases |b|
  {
    if |a| > 0 {
      if a[0] == b[0] && IsSubsequence(a[1..], b[1..]) {
        SubsequenceOfSameLength(a[1..], b[1..]);
        assert a == [a[0]] + a[1..] && b == [b[0]] + b[1..];
      } else {
        SubsequenceLength(a, b[1..]);
      }
    }
  }

  lemma {:induction false} SubsequenceOfDistinct<T>(a: seq<T>, b: seq<T>)
    requires IsSubsequence(a, b) && Distinct(b)
    ensures Distinct(a)
    decreases |b|
  {
    if |a| > 0 {
      assert Distinct(b[1..]);
      if a[0] == b[0] && IsSubsequence(a[1..], b[1..]) {
        SubsequenceOfDistinct(a[1..], b[1..]);
        forall k | 1 <= k < |a| ensures a[k] != a[0] {
          assert a[k] in a[1..];
          SubsequenceMembers(a[1..], b[1..], a[k]);
          assert b[0] !in b[1..];
        }
      } else {
        SubsequenceOfDistinct(a, b[1..]);
      }
    }
  }

  /** `pd.unique(s)`: each value once, in order of first appearance. */
  function Unique<T(==)>(s: seq<T>): (r: seq<T>)
    decreases |s|
  {
    if |s| == 0 then []
    else var rest := Unique(s[..|s| - 1]);
      if s[|s| - 1] in rest then rest else rest + [s[|s| - 1]]
  }

  lemma {:induction false} UniqueProperties<T>(s: seq<T>)
    ensures Distinct(Unique(s))
    ensures forall x :: x in Unique(s) <==> x in s
    decreases |s|
  {
    if |s| > 0 {
      var init := s[..|s| - 1];
      UniqueProperties(init);
      assert s == init + [s[|s| - 1]];
    }
  }

  /** Appending the same element to both sides, or only to the longer one, keeps a subsequence. */
  lemma {:induction false} SubsequenceAppend<T>(a: seq<T>, b: seq<T>, x: T)
    requires IsSubsequence(a, b)
    ensures IsSubsequence(a, b + [x]) && IsSubsequence(a + [x], b + [x])
    decreases |b|
  {
    if |b| == 0 {
      assert (b + [x])[1..] == [];
    } else {
      assert (b + [x])[1..] == b[1..] + [x];
      if |a| == 0 {
        SubsequenceAppend(a, b[1..], x);
      } else {
        assert (a + [x])[1..] == a[1..] + [x];
        if a[0] == b[0] && IsSubsequence(a[1..], b[1..]) {
          SubsequenceAppend(a[1..], b[1..], x);
        } else {
          SubsequenceAppend(a, b[1..], x);
        }
      }
    }
  }

  /** `pd.unique(s)` keeps the order of `s`. */
  lemma {:induction false} UniqueIsSubsequence<T>(s: seq<T>)
    ensures IsSubsequence(Unique(s), s)
    decreases |s|
  {
    if |s| > 0 {
      var init := s[..|s| - 1];
      UniqueIsSubsequence(init);
      SubsequenceAppend(Unique(init), init, s[|s| - 1]);
      assert s == init + [s[|s| - 1]];
    }
  }

  lemma {:induction false} PrefixIsSubsequence<T>(a: seq<T>, b: seq<T>)
    requires |a| <= |b| && a == b[..|a|]
    ensures IsSubsequence(a, b)
    decreases |b|
  {
    if |a| > 0 {
      PrefixIsSubsequence(a[1..], b[1..]);
    }
  }

  lemma {:induction false} SubsequenceTransitive<T>(a: seq<T>, b: seq<T>, c: seq<T>)
    requires IsSubsequence(a, b) && IsSubsequence(b, c)
    ensures IsSubsequence(a, c)
    decreases |c|
  {
    if |a| > 0 {
      assert |b| > 0;
      if b[0] == c[0] && IsSubsequence(b[1..], c[1..]) {
        if a[0] == b[0] && IsSubsequence(a[1..], b[1..]) {
          SubsequenceTransitive(a[1..], b[1..], c[1..]);
        } else {
          SubsequenceTransitive(a, b[1..], c[1..]);
        }
      } else {
        SubsequenceTransitive(a, b, c[1..]);
      }
    }
  }

  lemma {:induction false} SubsequenceReflexive<T>(s: seq<T>)
    ensures IsSubsequence(s, s)
    decreases |s|
  {
    if |s| > 0 {
      SubsequenceReflexive(s[1..]);
    }
  }

  lemma {:induction false} SingletonSubsequence<T>(s: seq<T>, i: nat)
    requires i < |s|
    ensures IsSubsequence([s[i]], s)
    decreases i
  {
    if i > 0 {
      SingletonSubsequence(s[1..], i - 1);
    } else {
      assert [s[0]][1..] == [];
    }
  }

  /** The membership test `lambda x: x in s`. */
  function InSeq<T(==)>(s: seq<T>): T -> bool
  {
    (x: T) => x in s
  }

  /** Keeping the members of a subsequence from a list without repeats gives the subsequence back. */
  lemma {:induction false} FilterOfSubsequence<T>(a: seq<T>, b: seq<T>)
    requires IsSubsequence(a, b) && Distinct(b)
    ensures Filter(InSeq(a), b) == a
    decreases |b|
  {
    if |b| == 0 {
    } else if |a| > 0 && a[0] == b[0] && IsSubsequence(a[1..], b[1..]) {
      assert Distinct(b[1..]);
      forall k | 0 <= k < |b[1..]| ensures InSeq(a)(b[1..][k]) == InSeq(a[1..])(b[1..][k]) {
        assert b[1..][k] != b[0];
        assert a == [a[0]] + a[1..];
      }
      FilterExtensional(InSeq(a), InSeq(a[1..]), b[1..]);
      FilterOfSubsequence(a[1..], b[1..]);
      assert a == [a[0]] + a[1..];
    } else {
      assert IsSubsequence(a, b[1..]);
      assert Distinct(b[1..]);
      if b[0] in a {
        SubsequenceMembers(a, b[1..], b[0]);
        assert false;
      }
      FilterOfSubsequence(a, b[1..]);
    }
  }
}
