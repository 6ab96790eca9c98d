/**
 * Sequence notions shared by the data-preparation scripts: order-preserving
 * subsequences, stride sampling (`points[i] for i in range(0, n, step)`) and
 * the decimal rendering of a natural number used inside record ids.
 */
module Seqs {

  datatype Option<T> = None | Some(value: T)

  /** `idx` lists, in strictly increasing order, the positions of `b` whose
      elements make up `a`. */
  ghost predicate SubsequenceAt<T>(a: seq<T>, b: seq<T>, idx: seq<nat>)
  {
    && |idx| == |a|
    && (forall k :: 0 <= k < |idx| ==> idx[k] < |b| && a[k] == b[idx[k]])
    && (forall k, l :: 0 <= k < l < |idx| ==> idx[k] < idx[l])
  }

  /** `a` is obtained from `b` by deleting elements, keeping the rest in order. */
  ghost predicate IsSubsequence<T>(a: seq<T>, b: seq<T>)
  {
    exists idx :: SubsequenceAt(a, b, idx)
  }

  lemma EmptySubsequence<T>(b: seq<T>)
    ensures IsSubsequence([], b)
  {
    assert SubsequenceAt([], b, []);
  }

  /** Appending one element to the source keeps a subsequence one; appending it
      to both keeps it too. These are the two steps of every filtering loop. */
  lemma SubsequenceSnoc<T>(a: seq<T>, b: seq<T>, x: T)
    requires IsSubsequence(a, b)
    ensures IsSubsequence(a, b + [x])
    ensures IsSubsequence(a + [x], b + [x])
  {
    var idx: seq<nat> :| SubsequenceAt(a, b, idx);
    assert SubsequenceAt(a, b + [x], idx);
    assert SubsequenceAt(a + [x], b + [x], idx + [|b|]);
  }

  lemma SubsequenceLength<T>(a: seq<T>, b: seq<T>)
    requires IsSubsequence(a, b)
    ensures |a| <= |b|
    ensures forall x :: x in a ==> x in b
  {
    var idx: seq<nat> :| SubsequenceAt(a, b, idx);
    StrictlyIncreasingBound(idx, |b|);
  }

  lemma {:induction false} StrictlyIncreasingBound(idx: seq<nat>, n: nat)
    requires forall k :: 0 <= k < |idx| ==> idx[k] < n
    requires forall k, l :: 0 <= k < l < |idx| ==> idx[k] < idx[l]
    ensures |idx| <= n
    decreases |idx|
  {
    if |idx| > 0 {
      var last := idx[|idx| - 1];
      StrictlyIncreasingBound(idx[..|idx| - 1], last);
    }
  }

  /** `[x for x in s if p(x)]`. */
  function Filter<T(!new)>(s: seq<T>, p: T -> bool): (r: seq<T>)
    ensures |r| <= |s|
    ensures forall x :: x in r <==> x in s && p(x)
  {
    if s == [] then []
    else
      var r := Filter(s[..|s| - 1], p);
      assert s == s[..|s| - 1] + [s[|s| - 1]];
      if p(s[|s| - 1]) then r + [s[|s| - 1]] else r
  }

  /** A filter keeps the surviving elements in their original order. */
  lemma {:induction false} FilterSubsequence<T(!new)>(s: seq<T>, p: T -> bool)
    ensures IsSubsequence(Filter(s, p), s)
  {
    if s == [] {
      EmptySubsequence(s);
    } else {
      var init, last := s[..|s| - 1], s[|s| - 1];
      FilterSubsequence(init, p);
      SubsequenceSnoc(Filter(init, p), init, last);
      assert s == init + [last];
    }
  }

  /** A filter keeps everything when every element passes. */
  lemma {:induction false} FilterAll<T(!new)>(s: seq<T>, p: T -> bool)
    requires forall x :: x in s ==> p(x)
    ensures Filter(s, p) == s
  {
    if s != [] {
      FilterAll(s[..|s| - 1], p);
      assert s == s[..|s| - 1] + [s[|s| - 1]];
    }
  }

  /** The loop "for x in s: y = f(x); if y is not None: out.append(y)". */
  function FilterMap<A(!new), B(!new)>(s: seq<A>, f: A -> Option<B>): (r: seq<B>)
    ensures |r| <= |s|
    ensures forall y :: y in r <==> exists x :: x in s && f(x) == Some(y)
  {
    if s == [] then []
    else
      var init, last := s[..|s| - 1], s[|s| - 1];
      var r := FilterMap(init, f);
      assert s == init + [last];
      assert forall x :: x in s <==> x in init || x == last;
      match f(last)
      case Some(y) => r + [y]
      case None => r
  }

  /** `idx` lists, in strictly increasing order, the positions of `s` whose
      images under `f` make up `r`. */
  ghost predicate PickedAt<A, B>(r: seq<B>, s: seq<A>, f: A -> Option<B>, idx: seq<nat>)
  {
    && |idx| == |r|
    && (forall k :: 0 <= k < |idx| ==> idx[k] < |s| && f(s[idx[k]]) == Some(r[k]))
    && (forall k, l :: 0 <= k < l < |idx| ==> idx[k] < idx[l])
  }

  /** The results of `FilterMap` come in the order of the elements they come
      from. */
  lemma {:induction false} FilterMapInOrder<A(!new), B(!new)>(s: seq<A>, f: A -> Option<B>)
    ensures exists idx: seq<nat> :: PickedAt(FilterMap(s, f), s, f, idx)
  {
    if s == [] {
      var none: seq<nat> := [];
      assert FilterMap(s, f) == [];
      assert PickedAt([], s, f, none);
    } else {
      var init, last := s[..|s| - 1], s[|s| - 1];
      FilterMapInOrder(init, f);
      var r0 := FilterMap(init, f);
      var idx: seq<nat> :| PickedAt(r0, init, f, idx);
      if f(last).Some? {
        var r, idx' := r0 + [f(last).value], idx + [|s| - 1];
        assert FilterMap(s, f) == r;
        forall k | 0 <= k < |idx'|
          ensures idx'[k] < |s| && f(s[idx'[k]]) == Some(r[k])
        {
          if k < |idx| {
            assert idx'[k] == idx[k] && r[k] == r0[k] && s[idx[k]] == init[idx[k]];
          }
        }
        assert PickedAt(r, s, f, idx');
      } else {
        assert FilterMap(s, f) == r0;
        forall k | 0 <= k < |idx|
          ensures idx[k] < |s| && f(s[idx[k]]) == Some(r0[k])
        {
          assert s[idx[k]] == init[idx[k]];
        }
        assert PickedAt(r0, s, f, idx);
      }
    }
  }

  /** The loop "for k, x in enumerate(s): y = f(k, x); if y is not None:
      out.append(y)". */
  function IndexedFilterMap<A(!new), B(!new)>(s: seq<A>, f: (nat, A) -> Option<B>): (r: seq<B>)
    ensures |r| <= |s|
    ensures forall y :: y in r <==> exists k :: 0 <= k < |s| && f(k, s[k]) == Some(y)
  {
    if s == [] then []
    else
      var init, last := s[..|s| - 1], s[|s| - 1];
      var r := IndexedFilterMap(init, f);
      assert forall k :: 0 <= k < |init| ==> init[k] == s[k];
      match f(|s| - 1, last)
      case Some(y) => r + [y]
      case None => r
  }

  /** The nested loop "for x in s: for y in f(x): out.append(y)". */
  function FlatMap<A(!new), B(!new)>(s: seq<A>, f: A -> seq<B>): (r: seq<B>)
    ensures forall y :: y in r <==> exists x :: x in s && y in f(x)
  {
    if s == [] then []
    else
      var init, last := s[..|s| - 1], s[|s| - 1];
      assert forall x :: x in s <==> x in init || x == last;
      FlatMap(init, f) + f(last)
  }

  /** The elements of `s` at positions 0, step, 2*step, ... below |s|
      (`StrideIndices` states this position by position). */
  function Stride<T>(s: seq<T>, step: nat): (r: seq<T>)
    requires step >= 1
    ensures s != [] ==> r != [] && r[0] == s[0]
    ensures step < |s| ==> |r| >= 2
    decreases |s|
  {
    if s == [] then []
    else if |s| <= step then [s[0]]
    else [s[0]] + Stride(s[step..], step)
  }

  /** Element `k` of the sample is element `k * step` of the input, and the
      sample reaches the end of the input. */
  lemma {:induction false} StrideIndices<T>(s: seq<T>, step: nat)
    requires step >= 1
    ensures forall k :: 0 <= k < |Stride(s, step)| ==> k * step < |s| && Stride(s, step)[k] == s[k * step]
    ensures |Stride(s, step)| * step >= |s|
    decreases |s|
  {
    if step < |s| {
      var rest := Stride(s[step..], step);
      StrideIndices(s[step..], step);
      StrideStep(s, step, rest);
      assert Stride(s, step) == [s[0]] + rest;
    }
  }

  /** The index arithmetic of one recursive step of `Stride`. */
  lemma StrideStep<T>(s: seq<T>, step: nat, rest: seq<T>)
    requires 1 <= step < |s|
    requires forall k :: 0 <= k < |rest| ==> k * step < |s| - step && rest[k] == s[step..][k * step]
    requires |rest| * step >= |s| - step
    ensures forall k :: 0 <= k < |rest| + 1 ==> k * step < |s| && ([s[0]] + rest)[k] == s[k * step]
    ensures (|rest| + 1) * step >= |s|
  {
    forall k | 0 <= k < |rest| + 1
      ensures k * step < |s| && ([s[0]] + rest)[k] == s[k * step]
    {
      if k > 0 {
        assert k * step == (k - 1) * step + step;
      }
    }
    assert (|rest| + 1) * step == |rest| * step + step;
  }

  /** The first element followed by a subsequence of the elements from
      position `skip` on is a subsequence. */
  lemma SubsequenceSkip<T>(s: seq<T>, skip: nat, rest: seq<T>)
    requires 1 <= skip < |s|
    requires IsSubsequence(rest, s[skip..])
    ensures IsSubsequence([s[0]] + rest, s)
  {
    var idx: seq<nat> :| SubsequenceAt(rest, s[skip..], idx);
    var shifted: seq<nat> := [0] + seq(|idx|, k requires 0 <= k < |idx| => idx[k] + skip);
    assert SubsequenceAt([s[0]] + rest, s, shifted);
  }

  /** Stride sampling keeps elements in order. */
  lemma {:induction false} StrideSubsequence<T>(s: seq<T>, step: nat)
    requires step >= 1
    ensures IsSubsequence(Stride(s, step), s)
    ensures |Stride(s, step)| <= |s|
    decreases |s|
  {
    if s == [] {
      EmptySubsequence(s);
      assert Stride(s, step) == [];
    } else if |s| <= step {
      assert Stride(s, step) == [s[0]];
      var first: seq<nat> := [0];
      assert SubsequenceAt(Stride(s, step), s, first);
    } else {
      var rest := Stride(s[step..], step);
      StrideSubsequence(s[step..], step);
      SubsequenceSkip(s, step, rest);
      assert Stride(s, step) == [s[0]] + rest;
    }
    SubsequenceLength(Stride(s, step), s);
  }

  /** The character of one decimal digit. */
  function DigitChar(d: nat): (c: char)
    requires d < 10
    ensures '0' <= c <= '9' && c as int - '0' as int == d
  {
    (48 + d) as char
  }

  /** Python's `str(n)` for a non-negative integer. */
  function NatToString(n: nat): (s: string)
    ensures |s| >= 1
    ensures n < 10 <==> |s| == 1
    ensures forall i :: 0 <= i < |s| ==> '0' <= s[i] <= '9'
  {
    if n < 10 then [DigitChar(n)] else NatToString(n / 10) + [DigitChar(n % 10)]
  }

  /** Distinct numbers render as distinct strings. */
  lemma {:induction false} NatToStringInjective(a: nat, b: nat)
    requires NatToString(a) == NatToString(b)
    ensures a == b
  {
    var sa, sb := NatToString(a), NatToString(b);
    if a >= 10 && b >= 10 {
      assert sa[|sa| - 1] == sb[|sb| - 1];
      assert a % 10 == b % 10;
      assert sa[..|sa| - 1] == NatToString(a / 10);
      assert sb[..|sb| - 1] == NatToString(b / 10);
      NatToStringInjective(a / 10, b / 10);
    } else if a < 10 && b < 10 {
      assert sa[0] == sb[0];
    }
  }

  /** A fixed prefix followed by distinct numbers gives distinct strings. */
  lemma PrefixedNatInjective(prefix: string, a: nat, b: nat)
    requires prefix + NatToString(a) == prefix + NatToString(b)
    ensures a == b
  {
    assert NatToString(a) == (prefix + NatToString(a))[|prefix|..];
    assert NatToString(b) == (prefix + NatToString(b))[|prefix|..];
    NatToStringInjective(a, b);
  }
}
