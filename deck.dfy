/** Operations on whole card sequences shared by both drafts of the game: the
    permutation that stands for `random.shuffle`, the single-point cut, the
    slices a 4-4-5 deal hands out, and the 4-card stacks of a collected pile. */
module Deck {

  /** The indices 0..n-1 in order. */
  function Range(n: nat): (r: seq<nat>)
    ensures |r| == n
    ensures forall i :: 0 <= i < n ==> r[i] == i
  {
    seq(n, i => i)
  }

  /** The indices 0..n-1, once each. */
  ghost function Indices(n: nat): multiset<nat>
  {
    if n == 0 then multiset{} else Indices(n - 1) + multiset{n - 1}
  }

  lemma IndicesOfRange(n: nat)
    ensures multiset(Range(n)) == Indices(n)
    ensures |Indices(n)| == n
    ensures forall x: nat :: x in Indices(n) <==> x < n
  {
    RangeCounts(n);
    IndicesMembers(n);
  }

  lemma {:induction false} RangeCounts(n: nat)
    ensures multiset(Range(n)) == Indices(n)
  {
    if n > 0 {
      RangeCounts(n - 1);
      assert Range(n) == Range(n - 1) + [n - 1];
    }
  }

  lemma {:induction false} IndicesMembers(n: nat)
    ensures |Indices(n)| == n
    ensures forall x: nat :: x in Indices(n) <==> x < n
  {
    if n > 0 {
      IndicesMembers(n - 1);
      forall x: nat ensures x in Indices(n) <==> x < n {
        assert x in Indices(n) <==> x in Indices(n - 1) || x == n - 1;
      }
    }
  }

  /** `p` lists each of the indices 0..n-1 exactly once: the outcome of a
      `random.shuffle` of an n-element list, taken as a parameter. */
  ghost predicate IsPermutation(p: seq<nat>, n: nat)
  {
    multiset(p) == Indices(n)
  }

  /** Every list of `ps` is a permutation of 0..n-1. */
  ghost predicate AllPermutations(ps: seq<seq<nat>>, n: nat)
  {
    forall t :: 0 <= t < |ps| ==> IsPermutation(ps[t], n)
  }

  lemma PermutationBounds(p: seq<nat>, n: nat)
    requires IsPermutation(p, n)
    ensures |p| == n
    ensures forall i :: 0 <= i < |p| ==> p[i] < n
  {
    IndicesOfRange(n);
    assert |multiset(p)| == |Indices(n)|;
    forall i | 0 <= i < |p| ensures p[i] < n {
      assert p[i] in multiset(p);
    }
  }

  predicate InBounds(p: seq<nat>, n: nat)
  {
    forall i :: 0 <= i < |p| ==> p[i] < n
  }

  /** The list `s` rearranged so that position i holds `s[p[i]]`. */
  function Permute<T>(s: seq<T>, p: seq<nat>): (r: seq<T>)
    requires InBounds(p, |s|)
    ensures |r| == |p|
    ensures forall i :: 0 <= i < |p| ==> r[i] == s[p[i]]
  {
    seq(|p|, i requires 0 <= i < |p| => s[p[i]])
  }

  lemma PermuteAppend<T>(s: seq<T>, a: seq<nat>, b: seq<nat>)
    requires InBounds(a, |s|) && InBounds(b, |s|)
    ensures InBounds(a + b, |s|)
    ensures Permute(s, a + b) == Permute(s, a) + Permute(s, b)
  {
  }

  /** Removing the element at `k` removes one occurrence from the multiset. */
  lemma MultisetRemoveAt<T>(q: seq<T>, k: nat)
    requires k < |q|
    ensures multiset(q) == multiset(q[..k] + q[k + 1..]) + multiset{q[k]}
  {
    var pre, post := q[..k], q[k + 1..];
    assert q == pre + [q[k]] + post;
  }

  lemma PermuteRemoveAt<T>(s: seq<T>, q: seq<nat>, k: nat)
    requires InBounds(q, |s|) && k < |q|
    ensures InBounds(q[..k] + q[k + 1..], |s|)
    ensures multiset(Permute(s, q)) == multiset(Permute(s, q[..k] + q[k + 1..])) + multiset{s[q[k]]}
  {
    var pre, post := q[..k], q[k + 1..];
    assert q == pre + [q[k]] + post;
    PermuteAppend(s, pre + [q[k]], post);
    PermuteAppend(s, pre, [q[k]]);
    PermuteAppend(s, pre, post);
    var a, b, c := Permute(s, pre), Permute(s, [q[k]]), Permute(s, post);
    assert b == [s[q[k]]];
    assert multiset(Permute(s, q)) == multiset(a) + multiset(b) + multiset(c);
  }

  lemma {:induction false} PermuteMultisetInvariant<T>(s: seq<T>, p: seq<nat>, q: seq<nat>)
    requires InBounds(p, |s|) && InBounds(q, |s|)
    requires multiset(p) == multiset(q)
    ensures multiset(Permute(s, p)) == multiset(Permute(s, q))
    decreases |p|
  {
    if p != [] {
      assert p[0] in multiset(q);
      var k :| 0 <= k < |q| && q[k] == p[0];
      MultisetRemoveMatching(p, q, k);
      PermuteRemoveFirst(s, p);
      PermuteRemoveAt(s, q, k);
      PermuteMultisetInvariant(s, p[1..], q[..k] + q[k + 1..]);
    } else {
      assert |multiset(q)| == 0;
    }
  }

  /** Taking equal entries out of two lists with the same entries. */
  lemma MultisetRemoveMatching<T>(p: seq<T>, q: seq<T>, k: nat)
    requires multiset(p) == multiset(q) && p != [] && k < |q| && q[k] == p[0]
    ensures multiset(p[1..]) == multiset(q[..k] + q[k + 1..])
  {
    MultisetRemoveAt(q, k);
    assert p == [p[0]] + p[1..];
    assert multiset(p) == multiset(p[1..]) + multiset{p[0]};
    MultisetCancel(multiset(p[1..]), multiset(q[..k] + q[k + 1..]), multiset{p[0]});
  }

  lemma PermuteRemoveFirst<T>(s: seq<T>, p: seq<nat>)
    requires InBounds(p, |s|) && p != []
    ensures InBounds(p[1..], |s|)
    ensures multiset(Permute(s, p)) == multiset(Permute(s, p[1..])) + multiset{s[p[0]]}
  {
    PermuteRemoveAt(s, p, 0);
    assert p[..0] + p[1..] == p[1..];
  }

  /** Applying a permutation keeps exactly the same cards. */
  lemma PermutePreservesMultiset<T>(s: seq<T>, p: seq<nat>)
    requires IsPermutation(p, |s|)
    ensures InBounds(p, |s|)
    ensures |Permute(s, p)| == |s|
    ensures multiset(Permute(s, p)) == multiset(s)
  {
    PermutationBounds(p, |s|);
    IndicesOfRange(|s|);
    PermuteMultisetInvariant(s, p, Range(|s|));
    assert Permute(s, Range(|s|)) == s;
  }

  /** A single-point cut: the cards from position `k` on, then the first `k`. */
  function Cut<T>(s: seq<T>, k: nat): (r: seq<T>)
    requires k <= |s|
    ensures |r| == |s|
    ensures multiset(r) == multiset(s)
    ensures forall i :: 0 <= i < |s| - k ==> r[i] == s[k + i]
    ensures forall i :: |s| - k <= i < |s| ==> r[i] == s[i - (|s| - k)]
  {
    assert s == s[..k] + s[k..];
    s[k..] + s[..k]
  }

  function Flatten<T>(xs: seq<seq<T>>): seq<T>
  {
    if xs == [] then [] else xs[0] + Flatten(xs[1..])
  }

  lemma {:induction false} FlattenAppend<T>(xs: seq<seq<T>>, ys: seq<seq<T>>)
    ensures Flatten(xs + ys) == Flatten(xs) + Flatten(ys)
  {
    if xs != [] {
      assert (xs + ys)[1..] == xs[1..] + ys;
      FlattenAppend(xs[1..], ys);
    } else {
      assert xs + ys == ys;
    }
  }

  /** Flattening a rearranged list of stacks gives the same cards. */
  lemma {:induction false} FlattenMultisetInvariant<T>(xs: seq<seq<T>>, ys: seq<seq<T>>)
    requires multiset(xs) == multiset(ys)
    ensures multiset(Flatten(xs)) == multiset(Flatten(ys))
    decreases |xs|
  {
    if xs != [] {
      assert xs[0] in multiset(ys);
      var k :| 0 <= k < |ys| && ys[k] == xs[0];
      var ys' := ys[..k] + ys[k + 1..];
      assert ys == ys[..k] + [ys[k]] + ys[k + 1..];
      MultisetRemoveMatching(xs, ys, k);
      FlattenMultisetInvariant(xs[1..], ys');
      FlattenAppend(ys[..k] + [ys[k]], ys[k + 1..]);
      FlattenAppend(ys[..k], [ys[k]]);
      FlattenAppend(ys[..k], ys[k + 1..]);
      assert Flatten([ys[k]]) == ys[k];
    } else {
      assert |multiset(ys)| == 0;
    }
  }

  lemma FlattenSnoc<T>(xs: seq<seq<T>>, x: seq<T>)
    ensures Flatten(xs + [x]) == Flatten(xs) + x
  {
    FlattenAppend(xs, [x]);
    assert Flatten([x]) == x + Flatten([x][1..]);
  }

  /** Replacing one pile changes the cards of all piles by exactly that pile's cards. */
  lemma {:induction false} FlattenUpdate<T>(xs: seq<seq<T>>, k: nat, x: seq<T>)
    requires k < |xs|
    ensures multiset(Flatten(xs[k := x])) + multiset(xs[k]) == multiset(Flatten(xs)) + multiset(x)
  {
    var ys := xs[k := x];
    assert Flatten(xs) == xs[0] + Flatten(xs[1..]);
    assert Flatten(ys) == ys[0] + Flatten(ys[1..]);
    if k == 0 {
      assert ys[1..] == xs[1..];
    } else {
      assert ys[1..] == xs[1..][k - 1 := x];
      assert xs[k] == xs[1..][k - 1];
      FlattenUpdate(xs[1..], k - 1, x);
      assert multiset(Flatten(ys)) == multiset(xs[0]) + multiset(Flatten(ys[1..]));
      assert multiset(Flatten(xs)) == multiset(xs[0]) + multiset(Flatten(xs[1..]));
      calc {
        multiset(Flatten(ys)) + multiset(xs[k]);
        multiset(xs[0]) + (multiset(Flatten(ys[1..])) + multiset(xs[1..][k - 1]));
        multiset(xs[0]) + (multiset(Flatten(xs[1..])) + multiset(x));
        multiset(Flatten(xs)) + multiset(x);
      }
    }
  }

  /** Taking one element `x` out of the k-th list takes it out of the flattening. */
  lemma FlattenRemove<T>(xs: seq<seq<T>>, k: nat, x: T, rest: seq<T>)
    requires k < |xs| && x in xs[k] && multiset(rest) == multiset(xs[k]) - multiset{x}
    ensures multiset(Flatten(xs[k := rest])) + multiset{x} == multiset(Flatten(xs))
  {
    FlattenUpdate(xs, k, rest);
    var a := multiset(Flatten(xs[k := rest]));
    var b := multiset(Flatten(xs));
    assert multiset(xs[k]) == multiset(rest) + multiset{x};
    assert (a + multiset{x}) + multiset(rest) == b + multiset(rest);
    MultisetCancel(a + multiset{x}, b, multiset(rest));
  }

  /** Lists that are all empty flatten to the empty list. */
  lemma {:induction false} FlattenEmpties<T>(xs: seq<seq<T>>)
    requires forall i :: 0 <= i < |xs| ==> xs[i] == []
    ensures Flatten(xs) == []
  {
    if xs != [] {
      FlattenEmpties(xs[1..]);
    }
  }

  /** Moving one element `x` from a pool `a` onto the end of a list keeps the total. */
  lemma MoveOne<T>(r: multiset<T>, a: multiset<T>, xs: seq<T>, x: T, total: multiset<T>)
    requires r + multiset{x} == a && a + multiset(xs) == total
    ensures r + multiset(xs + [x]) == total
  {
    calc {
      r + multiset(xs + [x]);
      r + (multiset(xs) + multiset{x});
      (r + multiset{x}) + multiset(xs);
    }
  }

  /** Moving `d` out of one pool `h1` and into another `c1` keeps the total. */
  lemma Transfer<T>(h2: multiset<T>, h1: multiset<T>, d: multiset<T>, c2: multiset<T>, c1: multiset<T>, total: multiset<T>)
    requires h2 + d == h1 && c2 == c1 + d && h1 + c1 == total
    ensures h2 + c2 == total
  {
  }

  lemma MultisetCancel<T>(a: multiset<T>, b: multiset<T>, c: multiset<T>)
    requires a + c == b + c
    ensures a == b
  {
    forall y ensures a[y] == b[y] {
      assert (a + c)[y] == (b + c)[y];
    }
  }

  /** Appending to a list leaves its prefixes alone. */
  lemma PrefixesOfSnoc<T>(s: seq<T>, x: T)
    ensures forall m :: 0 <= m <= |s| ==> (s + [x])[..m] == s[..m]
  {
    forall m | 0 <= m <= |s| ensures (s + [x])[..m] == s[..m] {
      assert (s + [x])[..m] == s[..m];
    }
  }

  lemma FlattenFour<T>(xs: seq<seq<T>>)
    requires |xs| == 4
    ensures Flatten(xs) == xs[0] + xs[1] + xs[2] + xs[3]
  {
    assert Flatten(xs) == xs[0] + Flatten(xs[1..]);
    assert Flatten(xs[1..]) == xs[1] + Flatten(xs[2..]) by { assert xs[1..][1..] == xs[2..]; }
    assert Flatten(xs[2..]) == xs[2] + Flatten(xs[3..]) by { assert xs[2..][1..] == xs[3..]; }
    assert Flatten(xs[3..]) == xs[3] + Flatten(xs[4..]) by { assert xs[3..][1..] == xs[4..]; }
  }

  lemma FourMultiset<T>(xs: seq<seq<T>>)
    requires |xs| == 4
    ensures multiset(Flatten(xs)) == multiset(xs[0]) + multiset(xs[1]) + multiset(xs[2]) + multiset(xs[3])
  {
    FlattenFour(xs);
  }

  /** `s[i:i+4]` for i = 0, 4, 8, ...: consecutive stacks of four, the last one
      possibly shorter. */
  function Chunks<T>(s: seq<T>): (r: seq<seq<T>>)
    ensures Flatten(r) == s
    ensures |r| == (|s| + 3) / 4
    decreases |s|
  {
    if s == [] then []
    else if |s| <= 4 then
      assert Flatten([s]) == s + Flatten([s][1..]);
      [s]
    else
      var rest := Chunks(s[4..]);
      assert s == s[..4] + s[4..];
      assert ([s[..4]] + rest)[1..] == rest;
      [s[..4]] + rest
  }

  /** The k-th stack is the slice `s[4k:4k+4]`. */
  lemma {:induction false} ChunkAt<T>(s: seq<T>, k: nat)
    requires k < |Chunks(s)|
    ensures Chunks(s)[k] == Slice(s, 4 * k, 4)
    ensures 0 < |Chunks(s)[k]| <= 4
    decreases |s|
  {
    if |s| > 4 && k > 0 {
      ChunkAt(s[4..], k - 1);
    }
  }

  /** A pile whose size is a multiple of four splits into stacks of exactly four. */
  lemma ChunksOfWholeTricks<T>(s: seq<T>)
    requires |s| % 4 == 0
    ensures |Chunks(s)| == |s| / 4
    ensures forall k :: 0 <= k < |Chunks(s)| ==> |Chunks(s)[k]| == 4
  {
    forall k | 0 <= k < |Chunks(s)| ensures |Chunks(s)[k]| == 4 {
      ChunkAt(s, k);
    }
  }

  /** The stacks of all players' collected piles, player by player. */
  function Stacks<T>(piles: seq<seq<T>>): (r: seq<seq<T>>)
    ensures Flatten(r) == Flatten(piles)
  {
    if piles == [] then []
    else
      var last := piles[|piles| - 1];
      var front := piles[..|piles| - 1];
      var rest := Stacks(front);
      FlattenAppend(rest, Chunks(last));
      FlattenSnoc(front, last);
      assert piles == front + [last];
      rest + Chunks(last)
  }

  /** Python's clamped slice `s[lo:lo+k]`. */
  function Slice<T>(s: seq<T>, lo: nat, k: nat): (r: seq<T>)
    ensures lo + k <= |s| ==> r == s[lo..lo + k]
    ensures |r| <= k
  {
    var a := if lo <= |s| then lo else |s|;
    var b := if lo + k <= |s| then lo + k else |s|;
    s[a..b]
  }

  /** Cards per receiver in the three passes of a deal. */
  const DealCounts: seq<nat> := [4, 4, 5]

  /** Position in the deck where pass `r` of a deal to n receivers starts. */
  function PassStart(n: nat, r: nat): nat
    requires r <= 3
  {
    if r == 0 then 0 else PassStart(n, r - 1) + DealCounts[r - 1] * n
  }

  /** The cards the i-th of n receivers gets in the first r passes of a deal. */
  function DealShareUpTo<T>(cards: seq<T>, n: nat, i: nat, r: nat): seq<T>
    requires r <= 3
  {
    if r == 0 then []
    else DealShareUpTo(cards, n, i, r - 1) + Slice(cards, PassStart(n, r - 1) + DealCounts[r - 1] * i, DealCounts[r - 1])
  }

  /** Pass `r` adds one slice of `DealCounts[r]` cards to a receiver's share. */
  lemma DealShareStep<T>(cards: seq<T>, n: nat, i: nat, r: nat)
    requires r < 3
    ensures DealShareUpTo(cards, n, i, r + 1)
         == DealShareUpTo(cards, n, i, r) + Slice(cards, PassStart(n, r) + DealCounts[r] * i, DealCounts[r])
  {
  }

  /** The cards the i-th of n receivers gets in a 4-4-5 deal from the top of
      `cards`: four in the first pass, four in the second, five in the third. */
  function DealShare<T>(cards: seq<T>, n: nat, i: nat): seq<T>
  {
    DealShareUpTo(cards, n, i, 3)
  }

  lemma DealShareOfFour<T>(c: seq<T>, i: nat)
    requires |c| >= 52 && i < 4
    ensures DealShare(c, 4, i) == c[4 * i..4 * i + 4] + c[16 + 4 * i..20 + 4 * i] + c[32 + 5 * i..37 + 5 * i]
  {
    assert PassStart(4, 1) == 16 && PassStart(4, 2) == 32;
    assert DealShareUpTo(c, 4, i, 1) == c[4 * i..4 * i + 4];
    assert DealShareUpTo(c, 4, i, 2) == c[4 * i..4 * i + 4] + c[16 + 4 * i..20 + 4 * i];
  }

  /** With four receivers and at least 52 cards, everyone gets 13 cards and the
      four shares together are exactly the first 52 cards. */
  lemma DealFourPartition<T>(cards: seq<T>)
    requires |cards| >= 52
    ensures forall i :: 0 <= i < 4 ==> |DealShare(cards, 4, i)| == 13
    ensures multiset(DealShare(cards, 4, 0)) + multiset(DealShare(cards, 4, 1))
          + multiset(DealShare(cards, 4, 2)) + multiset(DealShare(cards, 4, 3))
         == multiset(cards[..52])
  {
    var c := cards;
    assert multiset(DealShare(c, 4, 0)) == multiset(c[0..4]) + multiset(c[16..20]) + multiset(c[32..37]) by {
      ShareOfFourMultiset(c, 0);
    }
    assert multiset(DealShare(c, 4, 1)) == multiset(c[4..8]) + multiset(c[20..24]) + multiset(c[37..42]) by {
      ShareOfFourMultiset(c, 1);
    }
    assert multiset(DealShare(c, 4, 2)) == multiset(c[8..12]) + multiset(c[24..28]) + multiset(c[42..47]) by {
      ShareOfFourMultiset(c, 2);
    }
    assert multiset(DealShare(c, 4, 3)) == multiset(c[12..16]) + multiset(c[28..32]) + multiset(c[47..52]) by {
      ShareOfFourMultiset(c, 3);
    }
    forall i | 0 <= i < 4 ensures |DealShare(c, 4, i)| == 13 {
      ShareOfFourMultiset(c, i);
    }
    FirstFiftyTwo(c);
    Regroup(multiset(c[0..4]), multiset(c[4..8]), multiset(c[8..12]), multiset(c[12..16]),
            multiset(c[16..20]), multiset(c[20..24]), multiset(c[24..28]), multiset(c[28..32]),
            multiset(c[32..37]), multiset(c[37..42]), multiset(c[42..47]), multiset(c[47..52]));
  }

  /** Twelve slices taken pass by pass or receiver by receiver. */
  lemma Regroup<T>(a0: multiset<T>, a1: multiset<T>, a2: multiset<T>, a3: multiset<T>,
                   b0: multiset<T>, b1: multiset<T>, b2: multiset<T>, b3: multiset<T>,
                   d0: multiset<T>, d1: multiset<T>, d2: multiset<T>, d3: multiset<T>)
    ensures (a0 + b0 + d0) + (a1 + b1 + d1) + (a2 + b2 + d2) + (a3 + b3 + d3)
         == a0 + a1 + a2 + a3 + b0 + b1 + b2 + b3 + d0 + d1 + d2 + d3
  {
    var lhs := (a0 + b0 + d0) + (a1 + b1 + d1) + (a2 + b2 + d2) + (a3 + b3 + d3);
    var rhs := a0 + a1 + a2 + a3 + b0 + b1 + b2 + b3 + d0 + d1 + d2 + d3;
    forall y ensures lhs[y] == rhs[y] {
    }
  }

  lemma ShareOfFourMultiset<T>(c: seq<T>, i: nat)
    requires |c| >= 52 && i < 4
    ensures |DealShare(c, 4, i)| == 13
    ensures multiset(DealShare(c, 4, i))
         == multiset(c[4 * i..4 * i + 4]) + multiset(c[16 + 4 * i..20 + 4 * i]) + multiset(c[32 + 5 * i..37 + 5 * i])
  {
    DealShareOfFour(c, i);
  }

  /** The first 52 cards as the twelve slices of a 4-4-5 deal to four. */
  lemma FirstFiftyTwo<T>(c: seq<T>)
    requires |c| >= 52
    ensures multiset(c[..52])
         == multiset(c[0..4]) + multiset(c[4..8]) + multiset(c[8..12]) + multiset(c[12..16])
          + multiset(c[16..20]) + multiset(c[20..24]) + multiset(c[24..28]) + multiset(c[28..32])
          + multiset(c[32..37]) + multiset(c[37..42]) + multiset(c[42..47]) + multiset(c[47..52])
  {
    assert c[..52] == c[0..4] + c[4..8] + c[8..12] + c[12..16]
                    + c[16..20] + c[20..24] + c[24..28] + c[28..32]
                    + c[32..37] + c[37..42] + c[42..47] + c[47..52];
  }
}
