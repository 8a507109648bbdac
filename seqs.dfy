/** Regrouping facts about sequence concatenation, stated once over arbitrary
    sequences so that proofs about concrete line lists can use them by name. */
module Seqs {
  lemma Assoc<T>(a: seq<T>, b: seq<T>, c: seq<T>)
    ensures (a + b) + c == a + (b + c)
  {
  }

  lemma Regroup<T>(a: seq<T>, b: seq<T>, c: seq<T>, d: seq<T>)
    ensures (a + (b + c)) + d == a + (b + (c + d))
  {
  }

  lemma Pair<T>(x: T, y: T, s: seq<T>)
    ensures [x, y] + s == [x] + ([y] + s)
  {
  }

  lemma EmptyLeft<T>(a: seq<T>)
    ensures [] + a == a
  {
  }

  lemma EmptyRight<T>(a: seq<T>)
    ensures a + [] == a
  {
  }

  lemma ConsTail<T>(x: T, s: seq<T>)
    ensures ([x] + s)[0] == x && ([x] + s)[1..] == s
  {
  }

  lemma AppendTail<T>(a: seq<T>, b: seq<T>)
    requires a != []
    ensures (a + b)[0] == a[0] && (a + b)[1..] == a[1..] + b
  {
  }

  lemma Split<T>(a: seq<T>)
    requires a != []
    ensures a == [a[0]] + a[1..]
  {
  }

  /** The two parts of a concatenation are recovered by slicing at the seam. */
  lemma Cut<T>(a: seq<T>, b: seq<T>)
    ensures (a + b)[..|a|] == a && (a + b)[|a|..] == b
  {
  }

  lemma Middle<T>(a: seq<T>, b: seq<T>, c: seq<T>)
    ensures (a + b + c)[..|a|] == a
    ensures (a + b + c)[|a|..|a| + |b|] == b
    ensures (a + b + c)[|a| + |b|..] == c
  {
    assert (a + b + c)[|a|..|a| + |b|] == ((a + b) + c)[..|a| + |b|][|a|..];
  }

  lemma DropConcat<T>(a: seq<T>, b: seq<T>, k: nat)
    requires k <= |b|
    ensures (a + b)[|a| + k..] == b[k..]
  {
  }

  lemma RightAssoc5<T>(a: seq<T>, b: seq<T>, c: seq<T>, d: seq<T>, e: seq<T>)
    ensures a + b + c + d + e == a + (b + (c + (d + e)))
  {
  }

  lemma IndexLeft<T>(a: seq<T>, b: seq<T>, k: nat)
    requires k < |a|
    ensures (a + b)[k] == a[k]
  {
  }

  lemma NotInConcat<T>(x: T, a: seq<T>, b: seq<T>)
    requires x !in a && x !in b
    ensures x !in a + b
  {
  }

  lemma RightAssoc4<T>(a: seq<T>, b: seq<T>, c: seq<T>, d: seq<T>)
    ensures a + b + c + d == a + (b + (c + d))
  {
  }

  /** The parts of a one-element head, a middle, a two-element pair and a tail. */
  lemma Block<T>(h: T, a: seq<T>, b: seq<T>, c: seq<T>)
    requires |b| == 2
    ensures ([h] + a + b + c)[0] == h
    ensures ([h] + a + b + c)[1..] == a + (b + c)
    ensures ([h] + a + b + c)[1 + |a|] == b[0] && ([h] + a + b + c)[2 + |a|] == b[1]
    ensures ([h] + a + b + c)[3 + |a|..] == c
  {
    assert ([h] + a + b + c)[1..] == a + b + c;
  }

  /** Dropping the last element of a sequence with a new head. */
  lemma InitLast<T>(x: T, s: seq<T>)
    requires s != []
    ensures ([x] + s)[..|s|] == [x] + s[..|s| - 1]
    ensures ([x] + s)[|s|] == s[|s| - 1]
  {
  }

  /** What `read` finds in each element, in order. */
  function Collect<T, R>(xs: seq<T>, read: T -> seq<R>): seq<R> {
    if xs == [] then [] else read(xs[0]) + Collect(xs[1..], read)
  }

  lemma {:induction false} CollectAppend<T, R>(a: seq<T>, b: seq<T>, read: T -> seq<R>)
    ensures Collect(a + b, read) == Collect(a, read) + Collect(b, read)
  {
    if a == [] {
      assert a + b == b;
    } else {
      assert (a + b)[0] == a[0] && (a + b)[1..] == a[1..] + b;
      CollectAppend(a[1..], b, read);
    }
  }

  /** Elements in which nothing is found contribute nothing. */
  lemma {:induction false} CollectNone<T, R>(xs: seq<T>, read: T -> seq<R>)
    requires forall k :: 0 <= k < |xs| ==> read(xs[k]) == []
    ensures Collect(xs, read) == []
  {
    if xs != [] {
      CollectNone(xs[1..], read);
    }
  }

  /** Elements in each of which exactly one thing is found yield those things in order. */
  lemma {:induction false} CollectOneEach<T, R>(xs: seq<T>, ys: seq<R>, read: T -> seq<R>)
    requires |xs| == |ys|
    requires forall k :: 0 <= k < |xs| ==> read(xs[k]) == [ys[k]]
    ensures Collect(xs, read) == ys
  {
    if xs != [] {
      CollectOneEach(xs[1..], ys[1..], read);
      assert ys == [ys[0]] + ys[1..];
    }
  }

  lemma Regroup5<T>(a: seq<T>, b: seq<T>, c: seq<T>, d: seq<T>, e: seq<T>)
    ensures a + b + c + d + e == a + (b + (c + d)) + e
  {
  }

  /** What is found in six consecutive parts is what is found in each, in order. */
  lemma Collect6<T, R>(a: seq<T>, b: seq<T>, c: seq<T>, d: seq<T>, e: seq<T>, f: seq<T>, read: T -> seq<R>)
    ensures Collect(a + b + c + d + e + f, read)
         == Collect(a, read) + Collect(b, read) + Collect(c, read) + Collect(d, read) + Collect(e, read) + Collect(f, read)
  {
    CollectAppend(a + b + c + d + e, f, read);
    CollectAppend(a + b + c + d, e, read);
    CollectAppend(a + b + c, d, read);
    CollectAppend(a + b, c, read);
    CollectAppend(a, b, read);
  }

  /** Whatever `read` finds in one element is among what it finds in the whole. */
  lemma {:induction false} CollectIn<T, R>(xs: seq<T>, k: nat, read: T -> seq<R>, r: R)
    requires k < |xs| && r in read(xs[k])
    ensures r in Collect(xs, read)
  {
    if k > 0 {
      CollectIn(xs[1..], k - 1, read, r);
    }
  }

  /** What is found in six consecutive parts, given what is found in each. */
  lemma CollectParts<T, R>(a: seq<T>, b: seq<T>, c: seq<T>, d: seq<T>, e: seq<T>, f: seq<T>, read: T -> seq<R>,
                           ra: seq<R>, rb: seq<R>, rc: seq<R>, rd: seq<R>, re: seq<R>, rf: seq<R>)
    requires Collect(a, read) == ra && Collect(b, read) == rb && Collect(c, read) == rc
    requires Collect(d, read) == rd && Collect(e, read) == re && Collect(f, read) == rf
    ensures Collect(a + b + c + d + e + f, read) == ra + rb + rc + rd + re + rf
  {
    Collect6(a, b, c, d, e, f, read);
  }

  lemma EmptyTails<T>(a: seq<T>, b: seq<T>)
    ensures a + b + [] + [] + [] + [] == a + b
    ensures [] + [] + [] + a + b + [] == a + b
    ensures [] + [] + [] + [] + [] + a == a
  {
  }

  /** Regrouping a nested call `a(b(c…)d)e` around its middle part. */
  lemma Nest<T>(a: seq<T>, b: seq<T>, c: seq<T>, m: seq<T>, d: seq<T>, e: seq<T>, f: seq<T>)
    ensures a + (b + (c + (m + d + e))) + f == (a + b + c + m) + d + (e + f)
  {
  }

  /** What is found in six elements is what is found in each, in order. */
  lemma CollectSix<T, R>(a: T, b: T, c: T, d: T, e: T, f: T, read: T -> seq<R>)
    ensures Collect([a, b, c, d, e, f], read) == read(a) + read(b) + read(c) + read(d) + read(e) + read(f)
  {
    assert [a, b, c, d, e, f] == [a] + [b] + [c] + [d] + [e] + [f];
    CollectOne(a, read);
    CollectOne(b, read);
    CollectOne(c, read);
    CollectOne(d, read);
    CollectOne(e, read);
    CollectOne(f, read);
    Collect6([a], [b], [c], [d], [e], [f], read);
  }

  lemma CollectOne<T, R>(x: T, read: T -> seq<R>)
    ensures Collect([x], read) == read(x)
  {
    assert [x][0] == x && [x][1..] == [];
    EmptyRight(read(x));
  }

  /** The element at an offset past the left part of a concatenation. */
  lemma IndexRight<T>(a: seq<T>, b: seq<T>, k: nat)
    requires k < |b|
    ensures (a + b)[|a| + k] == b[k]
  {
  }

  lemma Halve6<T>(a: seq<T>, b: seq<T>, c: seq<T>, d: seq<T>, e: seq<T>, f: seq<T>)
    ensures a + b + c + d + e + f == (a + b + c) + (d + e + f)
  {
  }
}
