/** The edit alignment that `Blob` asks of `rapidfuzz.distance.Levenshtein.opcodes`.
    Only the shape of its answer matters to httpdiff: blocks of
    (tag, l1, l2, r1, r2) that cover both token lists left to right, with
    `equal` blocks covering equal tokens. `Opcodes` below is a stand-in with
    exactly that contract (a common prefix, one middle edit, a common suffix);
    it is not a minimal Levenshtein alignment. */
module Alignment {

  datatype Tag = Equal | Replace | Delete | Insert

  /** One opcode: a[l1..l2] of the reference is turned into b[r1..r2]. */
  datatype Block = Block(tag: Tag, l1: int, l2: int, r1: int, r2: int)

  /** A block stays inside lists of lengths na and nb. */
  predicate Fits(k: Block, na: int, nb: int) {
    0 <= k.l1 <= k.l2 <= na && 0 <= k.r1 <= k.r2 <= nb
  }

  predicate AllFit(bs: seq<Block>, na: int, nb: int) {
    forall n :: 0 <= n < |bs| ==> Fits(bs[n], na, nb)
  }

  /** A block stays inside both lists and its ranges fit its tag. */
  predicate Sound(a: seq<string>, b: seq<string>, k: Block) {
    Fits(k, |a|, |b|) &&
    match k.tag
    case Equal => k.l2 - k.l1 == k.r2 - k.r1 && a[k.l1..k.l2] == b[k.r1..k.r2]
    case Replace => k.l1 < k.l2 && k.r1 < k.r2
    case Delete => k.l1 < k.l2 && k.r1 == k.r2
    case Insert => k.l1 == k.l2 && k.r1 < k.r2
  }

  /** The blocks start at a[i], b[j] and cover the rest of both lists in order. */
  predicate TilesFrom(a: seq<string>, b: seq<string>, bs: seq<Block>, i: int, j: int)
    decreases |bs|
  {
    if bs == [] then i == |a| && j == |b|
    else bs[0].l1 == i && bs[0].r1 == j && Sound(a, b, bs[0]) &&
         TilesFrom(a, b, bs[1..], bs[0].l2, bs[0].r2)
  }

  predicate Tiles(a: seq<string>, b: seq<string>, bs: seq<Block>) {
    TilesFrom(a, b, bs, 0, 0)
  }

  predicate AllSound(a: seq<string>, b: seq<string>, bs: seq<Block>) {
    forall n :: 0 <= n < |bs| ==> Sound(a, b, bs[n])
  }

  /** Every block of a tiling is sound, and the blocks are consecutive. */
  lemma {:induction false} TilesSound(a: seq<string>, b: seq<string>, bs: seq<Block>, i: int, j: int)
    requires TilesFrom(a, b, bs, i, j)
    ensures AllSound(a, b, bs)
    ensures forall n :: 0 < n < |bs| ==> bs[n].l1 == bs[n - 1].l2 && bs[n].r1 == bs[n - 1].r2
    decreases |bs|
  {
    if bs != [] {
      TilesSound(a, b, bs[1..], bs[0].l2, bs[0].r2);
      forall n | 0 <= n < |bs| ensures Sound(a, b, bs[n]) {
        if n > 0 { assert bs[n] == bs[1..][n - 1]; }
      }
      forall n | 0 < n < |bs| ensures bs[n].l1 == bs[n - 1].l2 && bs[n].r1 == bs[n - 1].r2 {
        if n > 1 { assert bs[n] == bs[1..][n - 1] && bs[n - 1] == bs[1..][n - 2]; }
      }
    }
  }

  /** Length of the common prefix. */
  function Prefix(a: seq<string>, b: seq<string>): (p: nat)
    ensures p <= |a| && p <= |b|
  {
    if a == [] || b == [] || a[0] != b[0] then 0
    else 1 + Prefix(a[1..], b[1..])
  }

  /** The prefix is common, and the lists differ right after it. */
  lemma {:induction false} PrefixMeans(a: seq<string>, b: seq<string>)
    ensures a[..Prefix(a, b)] == b[..Prefix(a, b)]
    ensures Prefix(a, b) < |a| && Prefix(a, b) < |b| ==> a[Prefix(a, b)] != b[Prefix(a, b)]
  {
    if !(a == [] || b == [] || a[0] != b[0]) {
      PrefixMeans(a[1..], b[1..]);
      var p := Prefix(a[1..], b[1..]);
      assert a[..p + 1] == [a[0]] + a[1..][..p];
      assert b[..p + 1] == [b[0]] + b[1..][..p];
    }
  }

  /** Length of the common suffix. */
  function Suffix(a: seq<string>, b: seq<string>): (s: nat)
    ensures s <= |a| && s <= |b|
  {
    if a == [] || b == [] || a[|a| - 1] != b[|b| - 1] then 0
    else 1 + Suffix(a[..|a| - 1], b[..|b| - 1])
  }

  /** The suffix is common. */
  lemma {:induction false} SuffixMeans(a: seq<string>, b: seq<string>)
    ensures a[|a| - Suffix(a, b)..] == b[|b| - Suffix(a, b)..]
  {
    if !(a == [] || b == [] || a[|a| - 1] != b[|b| - 1]) {
      SuffixMeans(a[..|a| - 1], b[..|b| - 1]);
      var s := Suffix(a[..|a| - 1], b[..|b| - 1]);
      assert a[|a| - 1 - s..] == a[..|a| - 1][|a| - 1 - s..] + [a[|a| - 1]];
      assert b[|b| - 1 - s..] == b[..|b| - 1][|b| - 1 - s..] + [b[|b| - 1]];
    }
  }

  /** Drops a block that covers nothing on either side. */
  function Emit(k: Block, rest: seq<Block>): seq<Block> {
    if k.l1 == k.l2 && k.r1 == k.r2 then rest else [k] + rest
  }

  lemma EmitTiles(a: seq<string>, b: seq<string>, k: Block, rest: seq<Block>)
    requires TilesFrom(a, b, rest, k.l2, k.r2)
    requires (k.l1 == k.l2 && k.r1 == k.r2) || Sound(a, b, k)
    ensures TilesFrom(a, b, Emit(k, rest), k.l1, k.r1)
  {
    if !(k.l1 == k.l2 && k.r1 == k.r2) {
      assert Emit(k, rest)[1..] == rest;
    }
  }

  /** Drops the blocks that cover nothing. */
  function Compact(ks: seq<Block>): seq<Block> {
    if ks == [] then [] else Emit(ks[0], Compact(ks[1..]))
  }

  /** Like `TilesFrom`, but blocks that cover nothing are allowed anywhere. */
  predicate ChainFrom(a: seq<string>, b: seq<string>, ks: seq<Block>, i: int, j: int)
    decreases |ks|
  {
    if ks == [] then i == |a| && j == |b|
    else ks[0].l1 == i && ks[0].r1 == j &&
         ((ks[0].l1 == ks[0].l2 && ks[0].r1 == ks[0].r2) || Sound(a, b, ks[0])) &&
         ChainFrom(a, b, ks[1..], ks[0].l2, ks[0].r2)
  }

  lemma {:induction false} CompactTiles(a: seq<string>, b: seq<string>, ks: seq<Block>, i: int, j: int)
    requires ChainFrom(a, b, ks, i, j)
    ensures TilesFrom(a, b, Compact(ks), i, j)
    decreases |ks|
  {
    if ks != [] {
      CompactTiles(a, b, ks[1..], ks[0].l2, ks[0].r2);
      EmitTiles(a, b, ks[0], Compact(ks[1..]));
    }
  }

  /** The alignment of reference tokens `a` with candidate tokens `b`: the
      common prefix is `equal`, the middle is a `replace` of the shorter side
      followed by a `delete` or an `insert` of the rest, the common suffix is
      `equal`; blocks that cover nothing are dropped. */
  function Opcodes(a: seq<string>, b: seq<string>): seq<Block> {
    var p := Prefix(a, b);
    Compact(Layout(|a|, |b|, p, Suffix(a[p..], b[p..])))
  }

  lemma LayoutTiles(a: seq<string>, b: seq<string>, p: nat, s: nat)
    requires p <= |a| && p <= |b| && a[..p] == b[..p]
    requires s <= |a| - p && s <= |b| - p && a[p..][|a| - p - s..] == b[p..][|b| - p - s..]
    ensures Tiles(a, b, Compact(Layout(|a|, |b|, p, s)))
  {
    TailSuffix(a, p, s);
    TailSuffix(b, p, s);
    LayoutChains(a, b, p, s);
    CompactTiles(a, b, Layout(|a|, |b|, p, s), 0, 0);
  }

  /** The five candidate blocks for lists of lengths na and nb with a common
      prefix of length `p` and a common suffix of length `s`. */
  function Layout(na: int, nb: int, p: int, s: int): seq<Block> {
    var ea, eb := na - s, nb - s;
    var m := if ea - p < eb - p then ea - p else eb - p;
    [Block(Equal, 0, p, 0, p),
     Block(Replace, p, p + m, p, p + m),
     Block(Delete, p + m, ea, p + m, p + m),
     Block(Insert, ea, ea, p + m, eb),
     Block(Equal, ea, na, eb, nb)]
  }

  lemma LayoutChains(a: seq<string>, b: seq<string>, p: nat, s: nat)
    requires p + s <= |a| && p + s <= |b|
    requires a[..p] == b[..p]
    requires a[|a| - s..] == b[|b| - s..]
    ensures ChainFrom(a, b, Layout(|a|, |b|, p, s), 0, 0)
  {
    var ks := Layout(|a|, |b|, p, s);
    assert a[0..p] == a[..p] && b[0..p] == b[..p];
    assert a[|a| - s..|a|] == a[|a| - s..] && b[|b| - s..|b|] == b[|b| - s..];
    assert ChainFrom(a, b, ks[5..], |a|, |b|);
    assert ChainFrom(a, b, ks[4..], ks[3].l2, ks[3].r2);
    assert ChainFrom(a, b, ks[3..], ks[2].l2, ks[2].r2);
    assert ChainFrom(a, b, ks[2..], ks[1].l2, ks[1].r2);
    assert ChainFrom(a, b, ks[1..], ks[0].l2, ks[0].r2);
  }

  /** The last s tokens of a list are the last s tokens of any tail of it
      that still has them. */
  lemma TailSuffix(a: seq<string>, p: int, s: int)
    requires 0 <= p && 0 <= s && p + s <= |a|
    ensures a[|a| - s..] == a[p..][|a| - p - s..]
  {
  }

  /** Blocks that cover nothing compact to nothing. */
  lemma {:induction false} CompactEmpty(ks: seq<Block>)
    requires forall n :: 0 <= n < |ks| ==> ks[n].l1 == ks[n].l2 && ks[n].r1 == ks[n].r2
    ensures Compact(ks) == []
  {
    if ks != [] {
      CompactEmpty(ks[1..]);
    }
  }

  /** A list aligned with itself gives `equal` blocks only. */
  lemma IdenticalAllEqual(a: seq<string>)
    ensures forall n :: 0 <= n < |Opcodes(a, a)| ==> Opcodes(a, a)[n].tag == Equal
  {
    var p := Prefix(a, a);
    PrefixMeans(a, a);
    assert p == |a|;
    assert a[p..] == [];
    var s := Suffix(a[p..], a[p..]);
    assert s == 0;
    var ks := Layout(|a|, |a|, p, s);
    CompactEmpty(ks[1..]);
    assert Opcodes(a, a) == Emit(ks[0], []);
  }

  /** Every block of the alignment stays inside both token lists. */
  lemma OpcodesFit(a: seq<string>, b: seq<string>)
    ensures AllFit(Opcodes(a, b), |a|, |b|)
  {
    OpcodesTile(a, b);
  }

  /** The alignment covers both token lists left to right with sound blocks,
      and identical lists align with `equal` blocks only. */
  lemma OpcodesTile(a: seq<string>, b: seq<string>)
    ensures Tiles(a, b, Opcodes(a, b))
    ensures AllSound(a, b, Opcodes(a, b))
    ensures AllFit(Opcodes(a, b), |a|, |b|)
    ensures a == b ==> forall n :: 0 <= n < |Opcodes(a, b)| ==> Opcodes(a, b)[n].tag == Equal
  {
    var p := Prefix(a, b);
    PrefixMeans(a, b);
    SuffixMeans(a[p..], b[p..]);
    LayoutTiles(a, b, p, Suffix(a[p..], b[p..]));
    TilesSound(a, b, Opcodes(a, b), 0, 0);
    if a == b {
      IdenticalAllEqual(a);
    }
  }
}
