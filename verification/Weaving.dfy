/** Sequences with a block of the same length between any two neighbours. */
module Weaving {

  /** The first `count` values of `f`. */
  function Tabulate<T>(f: nat -> T, count: nat): (r: seq<T>)
    ensures |r| == count
  {
    if count == 0 then [] else Tabulate(f, count - 1) + [f(count - 1)]
  }

  lemma {:induction false} TabulateAt<T>(f: nat -> T, count: nat, k: nat)
    requires k < count
    ensures Tabulate(f, count)[k] == f(k)
  {
    if k < count - 1 { TabulateAt(f, count - 1, k); }
  }

  /** The first `n` entries with the blocks between them. */
  function Woven<T>(entries: seq<T>, blocks: seq<seq<T>>, n: nat): seq<T>
    requires n <= |entries| == |blocks|
  {
    if n == 0 then []
    else if n == 1 then [entries[0]]
    else Woven(entries, blocks, n - 1) + blocks[n - 2] + [entries[n - 1]]
  }

  /** Where entry `i` lands. */
  function Offset(i: nat, gap: nat): nat {
    if i == 0 then 0 else Offset(i - 1, gap) + gap + 1
  }

  lemma {:induction false} OffsetIs(i: nat, gap: nat)
    ensures Offset(i, gap) == i + gap * i
  {
    if i > 0 {
      OffsetIs(i - 1, gap);
      assert gap * i == gap * (i - 1) + gap;
    }
  }

  lemma {:induction false} OffsetGrows(a: nat, b: nat, gap: nat)
    requires a < b
    ensures Offset(a, gap) + gap < Offset(b, gap)
  {
    if a < b - 1 { OffsetGrows(a, b - 1, gap); }
  }

  ghost predicate Uniform<T>(blocks: seq<seq<T>>, gap: nat) {
    forall i :: 0 <= i < |blocks| ==> |blocks[i]| == gap
  }

  lemma {:induction false} WovenLength<T>(entries: seq<T>, blocks: seq<seq<T>>, n: nat, gap: nat)
    requires n <= |entries| == |blocks| && Uniform(blocks, gap)
    ensures |Woven(entries, blocks, n)| == if n == 0 then 0 else Offset(n - 1, gap) + 1
  {
    if n > 1 { WovenLength(entries, blocks, n - 1, gap); }
  }

  lemma ConcatAt<T>(a: seq<T>, b: seq<T>, last: T, p: nat)
    requires p <= |a| + |b|
    ensures |a + b + [last]| == |a| + |b| + 1
    ensures (a + b + [last])[p] == if p < |a| then a[p] else if p < |a| + |b| then b[p - |a|] else last
  {
  }

  /** Entry i is followed by its block. */
  lemma {:induction false} WovenAt<T>(entries: seq<T>, blocks: seq<seq<T>>, n: nat, gap: nat, i: nat, j: nat)
    requires i < n <= |entries| == |blocks| && Uniform(blocks, gap) && j <= gap && (j > 0 ==> i + 1 < n)
    ensures Offset(i, gap) + j < |Woven(entries, blocks, n)|
    ensures Woven(entries, blocks, n)[Offset(i, gap) + j] == if j == 0 then entries[i] else blocks[i][j - 1]
    decreases n
  {
    if n > 1 {
      var woven, block := Woven(entries, blocks, n - 1), blocks[n - 2];
      WovenLength(entries, blocks, n - 1, gap);
      if i < n - 2 || (i == n - 2 && j == 0) { WovenAt(entries, blocks, n - 1, gap, i, j); }
      ConcatAt(woven, block, entries[n - 1], Offset(i, gap) + j);
    }
  }

  /** Without a gap nothing is woven in. */
  lemma {:induction false} WovenEmpty<T>(entries: seq<T>, blocks: seq<seq<T>>, n: nat)
    requires n <= |entries| == |blocks| && Uniform(blocks, 0)
    ensures Woven(entries, blocks, n) == entries[..n]
  {
    if n == 1 {
      assert entries[..1] == [entries[0]];
    } else if n > 1 {
      WovenEmpty(entries, blocks, n - 1);
      assert blocks[n - 2] == [];
      assert entries[..n] == entries[..n - 1] + [entries[n - 1]];
    }
  }

  /** Every place is an entry's, or one of the gap after it. */
  lemma {:induction false} Place(p: nat, gap: nat) returns (i: nat, j: nat)
    ensures p == Offset(i, gap) + j && j <= gap
    decreases p
  {
    if p <= gap {
      i, j := 0, p;
    } else {
      i, j := Place(p - gap - 1, gap);
      i := i + 1;
    }
  }

  /** So is every place of a woven sequence. */
  lemma PlaceInside(n: nat, gap: nat, p: nat) returns (i: nat, j: nat)
    requires n > 0 && p < Offset(n - 1, gap) + 1
    ensures p == Offset(i, gap) + j && j <= gap && i < n && (j > 0 ==> i + 1 < n)
  {
    i, j := Place(p, gap);
    if i >= n { OffsetGrows(n - 1, i, gap); }
  }
}
