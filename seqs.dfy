/** Order-preserving sub-selection of sequences, flattening and Python's `s[-n:]`. */
module Seqs {

  /** `xs` is `ys` with some elements deleted, the rest kept in order. */
  predicate IsSubseq<T(==)>(xs: seq<T>, ys: seq<T>)
    decreases |ys|
  {
    if xs == [] then true
    else if ys == [] then false
    else (xs[|xs| - 1] == ys[|ys| - 1] && IsSubseq(xs[..|xs| - 1], ys[..|ys| - 1]))
         || IsSubseq(xs, ys[..|ys| - 1])
  }

  lemma SubseqSnoc<T>(xs: seq<T>, ys: seq<T>, x: T)
    requires IsSubseq(xs, ys)
    ensures IsSubseq(xs + [x], ys + [x])
    ensures IsSubseq(xs, ys + [x])
  {
    assert (xs + [x])[..|xs|] == xs;
    assert (ys + [x])[..|ys|] == ys;
  }

  lemma {:induction false} SubseqRefl<T>(xs: seq<T>)
    ensures IsSubseq(xs, xs)
    decreases |xs|
  {
    if xs != [] {
      SubseqRefl(xs[..|xs| - 1]);
    }
  }

  lemma {:induction false} SubseqLength<T>(xs: seq<T>, ys: seq<T>)
    requires IsSubseq(xs, ys)
    ensures |xs| <= |ys|
    decreases |ys|
  {
    if xs != [] {
      if xs[|xs| - 1] == ys[|ys| - 1] && IsSubseq(xs[..|xs| - 1], ys[..|ys| - 1]) {
        SubseqLength(xs[..|xs| - 1], ys[..|ys| - 1]);
      } else {
        SubseqLength(xs, ys[..|ys| - 1]);
      }
    }
  }

  lemma {:induction false} SubseqMembers<T>(xs: seq<T>, ys: seq<T>)
    requires IsSubseq(xs, ys)
    ensures forall x :: x in xs ==> x in ys
    decreases |ys|
  {
    if xs != [] {
      var ys' := ys[..|ys| - 1];
      assert ys == ys' + [ys[|ys| - 1]];
      if xs[|xs| - 1] == ys[|ys| - 1] && IsSubseq(xs[..|xs| - 1], ys') {
        SubseqMembers(xs[..|xs| - 1], ys');
        assert xs == xs[..|xs| - 1] + [xs[|xs| - 1]];
      } else {
        SubseqMembers(xs, ys');
      }
    }
  }

  /** Deleting from the end-part keeps a subsequence of a longer sequence. */
  lemma {:induction false} SubseqAppendRight<T>(xs: seq<T>, ys: seq<T>, zs: seq<T>)
    requires IsSubseq(xs, ys)
    ensures IsSubseq(xs, ys + zs)
    decreases |zs|
  {
    if zs != [] {
      var zs' := zs[..|zs| - 1];
      SubseqAppendRight(xs, ys, zs');
      SubseqSnoc(xs, ys + zs', zs[|zs| - 1]);
      assert ys + zs == (ys + zs') + [zs[|zs| - 1]];
    } else {
      assert ys + zs == ys;
    }
  }

  /** Subsequences of consecutive parts concatenate to a subsequence of the whole. */
  lemma {:induction false} SubseqConcat<T>(a1: seq<T>, b1: seq<T>, a2: seq<T>, b2: seq<T>)
    requires IsSubseq(a1, b1) && IsSubseq(a2, b2)
    ensures IsSubseq(a1 + a2, b1 + b2)
    decreases |b2|
  {
    if a2 == [] {
      assert a1 + a2 == a1;
      SubseqAppendRight(a1, b1, b2);
    } else {
      var a2', b2' := a2[..|a2| - 1], b2[..|b2| - 1];
      var x, y := a2[|a2| - 1], b2[|b2| - 1];
      assert b1 + b2 == (b1 + b2') + [y];
      if x == y && IsSubseq(a2', b2') {
        SubseqConcat(a1, b1, a2', b2');
        assert a1 + a2 == (a1 + a2') + [x];
        SubseqSnoc(a1 + a2', b1 + b2', x);
      } else {
        SubseqConcat(a1, b1, a2, b2');
        SubseqSnoc(a1 + a2, b1 + b2', y);
      }
    }
  }

  /** `[item for part in parts for item in part]` */
  function Flatten<T>(parts: seq<seq<T>>): seq<T>
  {
    if parts == [] then [] else parts[0] + Flatten(parts[1..])
  }

  lemma {:induction false} FlattenSnoc<T>(parts: seq<seq<T>>, last: seq<T>)
    ensures Flatten(parts + [last]) == Flatten(parts) + last
  {
    if parts == [] {
      assert [] + [last] == [last];
    } else {
      assert (parts + [last])[1..] == parts[1..] + [last];
      FlattenSnoc(parts[1..], last);
    }
  }

  lemma {:induction false} FlattenAppend<T>(p1: seq<seq<T>>, p2: seq<seq<T>>)
    ensures Flatten(p1 + p2) == Flatten(p1) + Flatten(p2)
  {
    if p1 == [] {
      assert p1 + p2 == p2;
    } else {
      assert (p1 + p2)[1..] == p1[1..] + p2;
      FlattenAppend(p1[1..], p2);
    }
  }

  /** Part-wise subsequences flatten to a subsequence. */
  lemma {:induction false} FlattenSubseq<T>(sub: seq<seq<T>>, parts: seq<seq<T>>)
    requires |sub| == |parts|
    requires forall k :: 0 <= k < |parts| ==> IsSubseq(sub[k], parts[k])
    ensures IsSubseq(Flatten(sub), Flatten(parts))
  {
    if parts != [] {
      FlattenSubseq(sub[1..], parts[1..]);
      SubseqConcat(sub[0], parts[0], Flatten(sub[1..]), Flatten(parts[1..]));
    }
  }

  /** Python's `s[-n:]` for `n > 0`: the last `n` elements, or all of them. */
  function LastN<T>(s: seq<T>, n: nat): (r: seq<T>)
    requires n > 0
  {
    if |s| <= n then s else s[|s| - n..]
  }

  lemma LastNIsSuffix<T>(s: seq<T>, n: nat)
    requires n > 0
    ensures |LastN(s, n)| == if |s| < n then |s| else n
    ensures s == s[..|s| - |LastN(s, n)|] + LastN(s, n)
  {
  }

  /** A suffix is a subsequence. */
  lemma {:induction false} SuffixSubseq<T>(s: seq<T>, i: nat)
    requires i <= |s|
    ensures IsSubseq(s[i..], s)
  {
    SubseqAppendRightFront(s[i..], s[..i]);
    assert s[..i] + s[i..] == s;
  }

  /** Prepending elements keeps a subsequence. */
  lemma {:induction false} SubseqAppendRightFront<T>(xs: seq<T>, zs: seq<T>)
    ensures IsSubseq(xs, zs + xs)
  {
    SubseqRefl(xs);
    EmptySubseq(zs);
    SubseqConcat([], zs, xs, xs);
    assert [] + xs == xs;
  }

  lemma EmptySubseq<T>(zs: seq<T>)
    ensures IsSubseq([], zs)
  {
  }

  lemma {:induction false} SubseqTrans<T>(xs: seq<T>, ys: seq<T>, zs: seq<T>)
    requires IsSubseq(xs, ys) && IsSubseq(ys, zs)
    ensures IsSubseq(xs, zs)
    decreases |zs|
  {
    if xs != [] {
      SubseqLength(xs, ys);
      var xs', ys', zs' := xs[..|xs| - 1], ys[..|ys| - 1], zs[..|zs| - 1];
      if ys[|ys| - 1] == zs[|zs| - 1] && IsSubseq(ys', zs') {
        if xs[|xs| - 1] == ys[|ys| - 1] && IsSubseq(xs', ys') {
          SubseqTrans(xs', ys', zs');
        } else {
          SubseqTrans(xs, ys', zs');
          SubseqSnoc(xs, zs', zs[|zs| - 1]);
          assert zs == zs' + [zs[|zs| - 1]];
        }
      } else {
        SubseqTrans(xs, ys, zs');
        SubseqSnoc(xs, zs', zs[|zs| - 1]);
        assert zs == zs' + [zs[|zs| - 1]];
      }
    }
  }
}
