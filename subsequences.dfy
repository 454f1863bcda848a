/** Order-preserving subsequences, used to say that a filter or a slice
    never invents or reorders elements. */
module Subsequences {

  /** `a` is obtained from `b` by deleting elements. */
  predicate IsSubseq<T(==)>(a: seq<T>, b: seq<T>)
    decreases |b|
  {
    if a == [] then true
    else if b == [] then false
    else if a[0] == b[0] then IsSubseq(a[1..], b[1..])
    else IsSubseq(a, b[1..])
  }

  lemma {:induction false} SubseqRefl<T>(a: seq<T>)
    ensures IsSubseq(a, a)
    decreases |a|
  {
    if a != [] { SubseqRefl(a[1..]); }
  }

  lemma {:induction false} PrefixIsSubseq<T>(b: seq<T>, k: nat)
    requires k <= |b|
    ensures IsSubseq(b[..k], b)
    decreases |b|
  {
    if k > 0 {
      assert b[..k][1..] == b[1..][..k - 1];
      PrefixIsSubseq(b[1..], k - 1);
    }
  }

  lemma {:induction false} SubseqLength<T>(a: seq<T>, b: seq<T>)
    requires IsSubseq(a, b)
    ensures |a| <= |b|
    decreases |b|
  {
    if a != [] && b != [] {
      if a[0] == b[0] { SubseqLength(a[1..], b[1..]); } else { SubseqLength(a, b[1..]); }
    }
  }

  lemma {:induction false} SubseqMembers<T>(a: seq<T>, b: seq<T>)
    requires IsSubseq(a, b)
    ensures forall x :: x in a ==> x in b
    decreases |b|
  {
    if a != [] && b != [] {
      if a[0] == b[0] {
        SubseqMembers(a[1..], b[1..]);
        assert forall x :: x in a ==> x == a[0] || x in a[1..];
      } else {
        SubseqMembers(a, b[1..]);
      }
    }
  }

  /** Dropping the first element of a subsequence keeps it a subsequence. */
  lemma {:induction false} TailSubseq<T>(a: seq<T>, b: seq<T>)
    requires a != [] && IsSubseq(a, b)
    ensures IsSubseq(a[1..], b)
    decreases |b|
  {
    if a[1..] != [] {
      if a[0] == b[0] {
        if a[1] != b[0] {
          TailSubseq(a[1..], b[1..]);
        } else {
          TailSubseq(a[1..], b[1..]);
          assert a[1..][1..] == a[2..];
        }
      } else {
        TailSubseq(a, b[1..]);
        if a[1] == b[0] {
          TailSubseq(a[1..], b[1..]);
        }
      }
    }
  }

  /** A subsequence of the tail is a subsequence of the whole. */
  lemma ExtendSubseq<T>(a: seq<T>, b: seq<T>)
    requires b != [] && IsSubseq(a, b[1..])
    ensures IsSubseq(a, b)
  {
    if a != [] && a[0] == b[0] {
      TailSubseq(a, b[1..]);
    }
  }

  lemma {:induction false} SubseqTrans<T>(a: seq<T>, b: seq<T>, c: seq<T>)
    requires IsSubseq(a, b) && IsSubseq(b, c)
    ensures IsSubseq(a, c)
    decreases |c|
  {
    if a != [] && c != [] {
      assert b != [];
      if b[0] == c[0] {
        if a[0] == b[0] {
          SubseqTrans(a[1..], b[1..], c[1..]);
        } else {
          SubseqTrans(a, b[1..], c[1..]);
        }
      } else {
        SubseqTrans(a, b, c[1..]);
        ExtendSubseq(a, c);
      }
    }
  }

  /** Appending an element to the longer side, or to both sides, keeps a
      subsequence a subsequence. */
  lemma {:induction false} SubseqSnoc<T>(a: seq<T>, b: seq<T>, x: T)
    requires IsSubseq(a, b)
    ensures IsSubseq(a, b + [x])
    ensures IsSubseq(a + [x], b + [x])
    decreases |b|
  {
    if b == [] {
      assert a == [];
      assert ([] + [x])[1..] == [] && b + [x] == [x];
      assert [x][1..] == [];
    } else {
      assert (b + [x])[1..] == b[1..] + [x];
      if a == [] {
        SubseqSnoc(a, b[1..], x);
        assert a + [x] == [x];
        ExtendSubseq([x], b + [x]);
      } else if a[0] == b[0] {
        SubseqSnoc(a[1..], b[1..], x);
        assert (a + [x])[1..] == a[1..] + [x];
      } else {
        SubseqSnoc(a, b[1..], x);
        ExtendSubseq(a + [x], b + [x]);
      }
    }
  }

  /** Appending an element to the longer side, and keeping it or not on
      the shorter side, keeps a subsequence a subsequence. */
  lemma SubseqSnocMaybe<T>(a: seq<T>, b: seq<T>, x: T, keep: bool)
    requires IsSubseq(a, b)
    ensures IsSubseq(a + (if keep then [x] else []), b + [x])
  {
    SubseqSnoc(a, b, x);
    assert a + [] == a;
  }

  /** A subsequence of a one-element sequence is empty or that sequence. */
  lemma SubseqOfSingleton<T>(a: seq<T>, x: T)
    requires IsSubseq(a, [x])
    ensures a == [] || a == [x]
  {
    if a != [] {
      assert a[0] == x;
      SubseqLength(a, [x]);
    }
  }

  /** The first element of a sequence, kept alone, is a subsequence of it. */
  lemma HeadIsSubseq<T>(b: seq<T>)
    requires b != []
    ensures IsSubseq([b[0]], b)
  {
    assert [b[0]][1..] == [];
  }
}
