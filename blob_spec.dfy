/** The value-level behaviour of `Blob` in httpdiff/blob.py: what calibration
    learns from a payload (`Learn`, folded over all payloads by `Replay`) and
    what a comparison reports (`Report`). The class that keeps this state in
    place is `Blobs.Blob`. */
module BlobSpec {
  import opened Text
  import opened Alignment
  import opened ItemSpec

  /** The values an Item has been given: the line it was created with and,
      in order, every line later passed to its `add_line`. */
  datatype Trace = Trace(seed: string, added: seq<string>)

  /** `add_line` called on an Item once for each value, in order. */
  function AddAll(it: ItemState, values: seq<string>): ItemState {
    if values == [] then it
    else Add(AddAll(it, values[..|values| - 1]), values[|values| - 1])
  }

  /** The state of the Item a trace describes. */
  function ItemOf(t: Trace): ItemState {
    AddAll(Seed(t.seed), t.added)
  }

  function Extend(t: Trace, v: string): Trace {
    t.(added := t.added + [v])
  }

  /** Extending a trace is one more `add_line`. */
  lemma ExtendAdds(t: Trace, v: string)
    ensures ItemOf(Extend(t, v)) == Add(ItemOf(t), v)
  {
    assert (t.added + [v])[..|t.added|] == t.added;
  }

  /** What a Blob has learned: `original_lines`, and the trace of the Item at
      each key of `items` (reference positions) and `appended_items`
      (anchors). */
  datatype BlobState = BlobState(orig: seq<string>, positions: map<int, Trace>, anchors: map<int, Trace>)

  function Empty(): BlobState {
    BlobState([], map[], map[])
  }

  /** `items[k].add_line(value)`, creating `Item(original_lines[k])` first
      when there is none. */
  function FeedPosition(st: BlobState, k: int, value: string): BlobState
    requires 0 <= k < |st.orig|
  {
    var t := if k in st.positions then st.positions[k] else Trace(st.orig[k], []);
    st.(positions := st.positions[k := Extend(t, value)])
  }

  /** `appended_items[a].add_line(value)`, creating `Item(value)` first when
      there is none. */
  function FeedAnchor(st: BlobState, a: int, value: string): BlobState {
    var t := if a in st.anchors then st.anchors[a] else Trace(value, []);
    st.(anchors := st.anchors[a := Extend(t, value)])
  }

  /** How many values a block routes: the zipped pairs of a replace, the
      deleted positions, the inserted tokens. */
  function Span(k: Block): int {
    match k.tag
    case Replace => if k.l2 - k.l1 < k.r2 - k.r1 then k.l2 - k.l1 else k.r2 - k.r1
    case Delete => k.l2 - k.l1
    case Insert => k.r2 - k.r1
    case Equal => 0
  }

  /** The value the i-th step of a replace or delete block feeds. */
  function Fed(k: Block, tokens: seq<string>, i: int): string
    requires k.tag == Replace ==> 0 <= k.r1 + i < |tokens|
  {
    if k.tag == Replace then tokens[k.r1 + i] else ""
  }

  /** The first n steps of the loop over one block (blob.py:216-233). */
  function LearnSteps(st: BlobState, k: Block, tokens: seq<string>, n: nat): (r: BlobState)
    requires Fits(k, |st.orig|, |tokens|) && n <= Span(k)
    ensures r.orig == st.orig
  {
    if n == 0 then st
    else
      var prev := LearnSteps(st, k, tokens, n - 1);
      match k.tag
      case Replace => FeedPosition(prev, k.l1 + n - 1, tokens[k.r1 + n - 1])
      case Delete => FeedPosition(prev, k.l1 + n - 1, "")
      case Insert => FeedAnchor(prev, k.l1, tokens[k.r1 + n - 1])
      case Equal => prev
  }

  function LearnBlock(st: BlobState, k: Block, tokens: seq<string>): (r: BlobState)
    requires Fits(k, |st.orig|, |tokens|)
    ensures r.orig == st.orig
  {
    LearnSteps(st, k, tokens, Span(k))
  }

  /** Step n + 1 of a replace or delete block feeds position `l1 + n`. */
  lemma PositionStepNext(st: BlobState, k: Block, tokens: seq<string>, n: nat)
    requires Fits(k, |st.orig|, |tokens|) && n < Span(k) && (k.tag == Replace || k.tag == Delete)
    ensures 0 <= k.l1 + n < |st.orig|
    ensures LearnSteps(st, k, tokens, n + 1) == FeedPosition(LearnSteps(st, k, tokens, n), k.l1 + n, Fed(k, tokens, n))
  {
  }

  /** Step n + 1 of an insert block feeds anchor `l1` with the next token. */
  lemma AnchorStepNext(st: BlobState, k: Block, tokens: seq<string>, n: nat)
    requires Fits(k, |st.orig|, |tokens|) && n < Span(k) && k.tag == Insert
    ensures 0 <= k.r1 + n < |tokens|
    ensures LearnSteps(st, k, tokens, n + 1) == FeedAnchor(LearnSteps(st, k, tokens, n), k.l1, tokens[k.r1 + n])
  {
  }

  /** The loop over all blocks, one block after the other. */
  function LearnBlocks(st: BlobState, bs: seq<Block>, tokens: seq<string>): (r: BlobState)
    requires AllFit(bs, |st.orig|, |tokens|)
    ensures r.orig == st.orig
  {
    if bs == [] then st
    else
      var prev := LearnBlocks(st, bs[..|bs| - 1], tokens);
      LearnBlock(prev, bs[|bs| - 1], tokens)
  }

  /** One more block is learned after the ones before it. */
  lemma LearnBlocksNext(st: BlobState, bs: seq<Block>, tokens: seq<string>, b: nat)
    requires AllFit(bs, |st.orig|, |tokens|) && b < |bs|
    ensures AllFit(bs[..b], |st.orig|, |tokens|) && AllFit(bs[..b + 1], |st.orig|, |tokens|)
    ensures LearnBlocks(st, bs[..b + 1], tokens) == LearnBlock(LearnBlocks(st, bs[..b], tokens), bs[b], tokens)
  {
    assert bs[..b + 1][..b] == bs[..b];
  }

  /** `Blob.add_line` (blob.py:198-234): the first payload becomes
      `original_lines`; later ones are aligned against it and routed. */
  function Learn(st: BlobState, line: string): BlobState {
    if st.orig == [] then st.(orig := Split(line))
    else
      var tokens := Split(line);
      OpcodesFit(st.orig, tokens);
      LearnBlocks(st, Opcodes(st.orig, tokens), tokens)
  }

  /** What a new `Blob()` has learned after the payloads of `history`. */
  function Replay(history: seq<string>): BlobState {
    if history == [] then Empty()
    else Learn(Replay(history[..|history| - 1]), history[|history| - 1])
  }

  /** One more payload is learned on top of the ones before it. */
  lemma ReplayNext(history: seq<string>, line: string)
    ensures Replay(history + [line]) == Learn(Replay(history), line)
  {
    assert (history + [line])[..|history|] == history;
  }

  /** `original_lines` is set once, by the first payload, to its (never
      empty) token list, and the first payload creates no Items. */
  lemma {:induction false} OriginalSetOnce(history: seq<string>)
    ensures history == [] ==> Replay(history) == Empty()
    ensures history != [] ==> Replay(history).orig == Split(history[0]) && Replay(history).orig != []
    ensures |history| == 1 ==> Replay(history).positions == map[] && Replay(history).anchors == map[]
  {
    if history != [] {
      var h := history[..|history| - 1];
      OriginalSetOnce(h);
      if h != [] {
        assert h[0] == history[0];
      }
    }
  }

  /** Item keys stay inside the reference: positions in [0, |orig|),
      anchors in [0, |orig|]. */
  predicate KeysInRange(st: BlobState) {
    (forall k :: k in st.positions ==> 0 <= k < |st.orig|) &&
    (forall k :: k in st.anchors ==> 0 <= k <= |st.orig|)
  }

  lemma {:induction false} LearnStepsInRange(st: BlobState, k: Block, tokens: seq<string>, n: nat)
    requires Fits(k, |st.orig|, |tokens|) && n <= Span(k) && KeysInRange(st)
    ensures KeysInRange(LearnSteps(st, k, tokens, n))
  {
    if n > 0 {
      LearnStepsInRange(st, k, tokens, n - 1);
      var prev := LearnSteps(st, k, tokens, n - 1);
      FeedInRange(prev, k, tokens, n);
    }
  }

  lemma FeedInRange(prev: BlobState, k: Block, tokens: seq<string>, n: nat)
    requires Fits(k, |prev.orig|, |tokens|) && 0 < n <= Span(k) && KeysInRange(prev)
    ensures k.tag == Insert ==> KeysInRange(FeedAnchor(prev, k.l1, tokens[k.r1 + n - 1]))
    ensures k.tag == Replace ==> KeysInRange(FeedPosition(prev, k.l1 + n - 1, tokens[k.r1 + n - 1]))
    ensures k.tag == Delete ==> KeysInRange(FeedPosition(prev, k.l1 + n - 1, ""))
  {
  }

  lemma {:induction false} LearnBlocksInRange(st: BlobState, bs: seq<Block>, tokens: seq<string>)
    requires AllFit(bs, |st.orig|, |tokens|) && KeysInRange(st)
    ensures KeysInRange(LearnBlocks(st, bs, tokens))
  {
    if bs != [] {
      var prev := LearnBlocks(st, bs[..|bs| - 1], tokens);
      LearnBlocksInRange(st, bs[..|bs| - 1], tokens);
      LearnStepsInRange(prev, bs[|bs| - 1], tokens, Span(bs[|bs| - 1]));
    }
  }

  /** Whatever the payloads, the keys of `items` stay in [0, |original_lines|)
      and those of `appended_items` in [0, |original_lines|]. */
  lemma {:induction false} ReplayInRange(history: seq<string>)
    ensures KeysInRange(Replay(history))
  {
    if history != [] {
      var h := history[..|history| - 1];
      ReplayInRange(h);
      var st := Replay(h);
      if st.orig != [] {
        var tokens := Split(history[|history| - 1]);
        OpcodesFit(st.orig, tokens);
        LearnBlocksInRange(st, Opcodes(st.orig, tokens), tokens);
      }
    }
  }

  lemma FeedPositionEffect(st: BlobState, q: int, v: string)
    requires 0 <= q < |st.orig|
    ensures var r := FeedPosition(st, q, v);
      r.anchors == st.anchors && q in r.positions &&
      r.positions[q] == Extend(if q in st.positions then st.positions[q] else Trace(st.orig[q], []), v) &&
      (forall p :: p in r.positions && p != q ==> p in st.positions && r.positions[p] == st.positions[p]) &&
      (forall p :: p in st.positions ==> p in r.positions)
  {
  }

  lemma FeedAnchorEffect(st: BlobState, a: int, v: string)
    ensures var r := FeedAnchor(st, a, v);
      r.positions == st.positions && a in r.anchors &&
      r.anchors[a] == Extend(if a in st.anchors then st.anchors[a] else Trace(v, []), v) &&
      (forall p :: p in r.anchors && p != a ==> p in st.anchors && r.anchors[p] == st.anchors[p]) &&
      (forall p :: p in st.anchors ==> p in r.anchors)
  {
  }

  /** The positions the first n steps of a block touch. */
  function Covered(k: Block, n: int): set<int> {
    if n <= 0 then {} else Covered(k, n - 1) + {k.l1 + n - 1}
  }

  lemma {:induction false} CoveredMeans(k: Block, n: int)
    ensures forall p :: p in Covered(k, n) <==> k.l1 <= p < k.l1 + n
  {
    if n > 0 {
      CoveredMeans(k, n - 1);
    }
  }

  /** Updating a key and then setting it aside keeps two maps that agree
      outside `c` agreeing outside `c + {q}`. */
  lemma MinusUpdate(m: map<int, Trace>, s: map<int, Trace>, c: set<int>, q: int, x: Trace)
    requires m - c == s - c
    ensures m[q := x] - (c + {q}) == s - (c + {q})
  {
    var a, b := m[q := x] - (c + {q}), s - (c + {q});
    forall p | p in a ensures p in b && a[p] == b[p] {
      assert p in m - c;
    }
    forall p | p in b ensures p in a {
      assert p in s - c;
    }
    assert a.Keys == b.Keys;
  }

  /** After the first n steps of a replace or delete block, the i-th
      position of the block holds its old trace (or a new one seeded with the
      reference token) extended by `Fed(k, tokens, i)`; every other position
      and all anchors are as they were. */
  predicate RoutedPositions(st: BlobState, r: BlobState, k: Block, tokens: seq<string>, n: nat)
    requires Fits(k, |st.orig|, |tokens|) && n <= Span(k) && (k.tag == Replace || k.tag == Delete)
  {
    r.anchors == st.anchors &&
    r.positions - Covered(k, n) == st.positions - Covered(k, n) &&
    forall p :: k.l1 <= p < k.l1 + n ==>
      (p in r.positions &&
       r.positions[p] == Extend(if p in st.positions then st.positions[p] else Trace(st.orig[p], []), Fed(k, tokens, p - k.l1)))
  }

  lemma PositionStep(st: BlobState, prev: BlobState, k: Block, tokens: seq<string>, n: nat)
    requires Fits(k, |st.orig|, |tokens|) && 0 < n <= Span(k) && (k.tag == Replace || k.tag == Delete)
    requires prev.orig == st.orig && RoutedPositions(st, prev, k, tokens, n - 1)
    ensures RoutedPositions(st, FeedPosition(prev, k.l1 + n - 1, Fed(k, tokens, n - 1)), k, tokens, n)
  {
    var q := k.l1 + n - 1;
    var r := FeedPosition(prev, q, Fed(k, tokens, n - 1));
    CoveredMeans(k, n - 1);
    assert q !in Covered(k, n - 1);
    assert q in prev.positions - Covered(k, n - 1) <==> q in st.positions - Covered(k, n - 1);
    MinusUpdate(prev.positions, st.positions, Covered(k, n - 1), q, r.positions[q]);
    forall p | k.l1 <= p < k.l1 + n
      ensures p in r.positions
      ensures r.positions[p] == Extend(if p in st.positions then st.positions[p] else Trace(st.orig[p], []), Fed(k, tokens, p - k.l1))
    {
      if p == q {
        assert q in st.positions ==> prev.positions[q] == (prev.positions - Covered(k, n - 1))[q];
      } else {
        assert r.positions[p] == prev.positions[p];
      }
    }
  }

  /** Routing of one replace or delete block: the i-th position of the block
      gets `Fed(k, tokens, i)` added to its Item, which is created seeded with
      the reference token when missing; every other position and all anchors
      are left as they were. */
  lemma {:induction false} PositionRouting(st: BlobState, k: Block, tokens: seq<string>, n: nat)
    requires Fits(k, |st.orig|, |tokens|) && n <= Span(k) && (k.tag == Replace || k.tag == Delete)
    ensures RoutedPositions(st, LearnSteps(st, k, tokens, n), k, tokens, n)
  {
    if n > 0 {
      PositionRouting(st, k, tokens, n - 1);
      var prev := LearnSteps(st, k, tokens, n - 1);
      assert LearnSteps(st, k, tokens, n) == FeedPosition(prev, k.l1 + n - 1, Fed(k, tokens, n - 1));
      PositionStep(st, prev, k, tokens, n);
    }
  }

  /** After the first n steps of an insert block, the anchor `l1` holds
      its old trace (or a new one seeded with the first inserted token)
      extended by the first n inserted tokens, in order; positions and the
      other anchors are as they were. */
  predicate RoutedAnchor(st: BlobState, r: BlobState, k: Block, tokens: seq<string>, n: nat)
    requires Fits(k, |st.orig|, |tokens|) && n <= Span(k) && k.tag == Insert
  {
    r.positions == st.positions &&
    r.anchors - {k.l1} == st.anchors - {k.l1} &&
    (n == 0 ==> r.anchors == st.anchors) &&
    (n > 0 ==>
      (k.l1 in r.anchors &&
       var t := if k.l1 in st.anchors then st.anchors[k.l1] else Trace(tokens[k.r1], []);
       r.anchors[k.l1] == t.(added := t.added + tokens[k.r1..k.r1 + n])))
  }

  lemma AnchorStep(st: BlobState, prev: BlobState, k: Block, tokens: seq<string>, n: nat)
    requires Fits(k, |st.orig|, |tokens|) && 0 < n <= Span(k) && k.tag == Insert
    requires RoutedAnchor(st, prev, k, tokens, n - 1)
    ensures RoutedAnchor(st, FeedAnchor(prev, k.l1, tokens[k.r1 + n - 1]), k, tokens, n)
  {
    var v := tokens[k.r1 + n - 1];
    var r := FeedAnchor(prev, k.l1, v);
    MinusUpdate(prev.anchors, st.anchors, {k.l1}, k.l1, r.anchors[k.l1]);
    assert {k.l1} + {k.l1} == {k.l1};
    assert tokens[k.r1..k.r1 + n] == tokens[k.r1..k.r1 + n - 1] + [v];
    if n == 1 {
      assert tokens[k.r1..k.r1] == [];
    }
  }

  /** Routing of one insert block: every inserted token, in order, is added
      to the single Item at anchor `l1`, which is created seeded with the
      first inserted token when missing; positions and other anchors are left
      as they were. */
  lemma {:induction false} AnchorRouting(st: BlobState, k: Block, tokens: seq<string>, n: nat)
    requires Fits(k, |st.orig|, |tokens|) && n <= Span(k) && k.tag == Insert
    ensures RoutedAnchor(st, LearnSteps(st, k, tokens, n), k, tokens, n)
  {
    if n > 0 {
      AnchorRouting(st, k, tokens, n - 1);
      var prev := LearnSteps(st, k, tokens, n - 1);
      assert LearnSteps(st, k, tokens, n) == FeedAnchor(prev, k.l1, tokens[k.r1 + n - 1]);
      AnchorStep(st, prev, k, tokens, n);
    }
  }

  /** Every Item a trace describes is consistent. */
  lemma {:induction false} ItemOfConsistent(t: Trace)
    ensures Consistent(ItemOf(t))
    decreases |t.added|
  {
    if t.added != [] {
      var u := Trace(t.seed, t.added[..|t.added| - 1]);
      ItemOfConsistent(u);
      assert Extend(u, t.added[|t.added| - 1]) == t;
      ExtendAdds(u, t.added[|t.added| - 1]);
      AddConsistent(ItemOf(u), t.added[|t.added| - 1]);
    }
  }

  /** Each Item state is the one its trace describes. The trigger keeps a
      lookup in `states` from unfolding the trace behind it. */
  predicate Tracks(states: map<int, ItemState>, traces: map<int, Trace>) {
    states.Keys == traces.Keys &&
    forall q {:trigger ItemOf(traces[q])} :: q in traces ==> states[q] == ItemOf(traces[q])
  }

  /** Feeding one trace is one `add_line` on the Item it describes. */
  lemma TracksFeed(states: map<int, ItemState>, traces: map<int, Trace>, q: int, t: Trace, v: string)
    requires Tracks(states, traces)
    requires q in traces ==> t == traces[q]
    ensures Tracks(states[q := Add(ItemOf(t), v)], traces[q := Extend(t, v)])
  {
    ExtendAdds(t, v);
    var s2, t2 := states[q := Add(ItemOf(t), v)], traces[q := Extend(t, v)];
    forall p | p in t2 ensures s2[p] == ItemOf(t2[p]) {
      if p != q {
        assert ItemOf(traces[p]) == states[p];
      }
    }
  }

  /** Every Item state a map of traces describes is consistent. */
  lemma TracksConsistent(states: map<int, ItemState>, traces: map<int, Trace>)
    requires Tracks(states, traces)
    ensures forall q :: q in states ==> Consistent(states[q])
  {
    forall q | q in states ensures Consistent(states[q]) {
      ItemOfConsistent(traces[q]);
    }
  }

  // ----- Comparison (blob.py:243-296) -----

  /** What `Blob.is_diff` reads: the Blob (for the identity of its Items)
      and the states of `items` and `appended_items`. */
  datatype View = View(blob: object, items: map<int, ItemState>, appended: map<int, ItemState>)

  /** Every Item that can be asked has seen a sample if it has a mode. */
  predicate ViewOk(v: View) {
    (forall k :: k in v.items ==> Checkable(v.items[k])) &&
    (forall k :: k in v.appended ==> Checkable(v.appended[k]))
  }

  /** What `is_diff` reads of a Blob `blob` that has learned `st`: the
      state of the Item each learned trace describes. */
  function ViewOf(blob: object, st: BlobState): View {
    View(blob, map q | q in st.positions :: ItemOf(st.positions[q]),
         map a | a in st.anchors :: ItemOf(st.anchors[a]))
  }

  /** Whatever has been learned, every Item that can be asked is
      consistent. */
  lemma ViewOfOk(blob: object, st: BlobState)
    ensures ViewOk(ViewOf(blob, st))
  {
    var v := ViewOf(blob, st);
    forall q | q in v.items ensures Checkable(v.items[q]) {
      ItemOfConsistent(st.positions[q]);
    }
    forall a | a in v.appended ensures Checkable(v.appended[a]) {
      ItemOfConsistent(st.anchors[a]);
    }
  }

  /** The opcode name the source yields for a block tag. */
  function OpName(tag: Tag): string {
    match tag
    case Equal => "equal"
    case Replace => "replace"
    case Delete => "delete"
    case Insert => "insert"
  }

  /** One step at reference position `key` (replace, delete): the learned
      Item's findings, or one `op + "2"` finding against the placeholder. */
  function AtPosition(v: View, op: string, key: int, cand: string): seq<Diff>
    requires ViewOk(v)
  {
    if key in v.items then Check(v.items[key], Unit(v.blob, Position(key)), op, cand)
    else [Diff(Named(op + "2"), Unit(v.blob, Placeholder(key)), cand)]
  }

  /** One step at anchor `key` (insert), likewise. */
  function AtAnchor(v: View, op: string, key: int, cand: string): seq<Diff>
    requires ViewOk(v)
  {
    if key in v.appended then Check(v.appended[key], Unit(v.blob, Anchor(key)), op, cand)
    else [Diff(Named(op + "2"), Unit(v.blob, Placeholder(key)), cand)]
  }

  /** The candidate value the i-th step of a block is checked with. */
  function Asked(k: Block, tokens: seq<string>, i: int): string
    requires k.tag != Delete ==> 0 <= k.r1 + i < |tokens|
  {
    if k.tag == Delete then "" else tokens[k.r1 + i]
  }

  /** The findings of the first n steps of one block. */
  function BlockFindings(v: View, na: int, tokens: seq<string>, k: Block, n: nat): seq<Diff>
    requires ViewOk(v) && Fits(k, na, |tokens|) && n <= Span(k)
  {
    if n == 0 || k.tag == Equal then []
    else
      BlockFindings(v, na, tokens, k, n - 1) +
      if k.tag == Insert then AtAnchor(v, OpName(k.tag), k.l1, Asked(k, tokens, n - 1))
      else AtPosition(v, OpName(k.tag), k.l1 + n - 1, Asked(k, tokens, n - 1))
  }

  /** The findings of a list of blocks, in order. */
  function Report(v: View, na: int, tokens: seq<string>, bs: seq<Block>): seq<Diff>
    requires ViewOk(v) && AllFit(bs, na, |tokens|)
  {
    if bs == [] then []
    else
      var k := bs[|bs| - 1];
      Report(v, na, tokens, bs[..|bs| - 1]) + BlockFindings(v, na, tokens, k, Span(k))
  }

  /** One more block is reported, and its missing keys filed, after the
      ones before it. */
  lemma ReportNext(v: View, na: int, tokens: seq<string>, bs: seq<Block>, b: nat)
    requires ViewOk(v) && AllFit(bs, na, |tokens|) && b < |bs|
    ensures AllFit(bs[..b], na, |tokens|) && AllFit(bs[..b + 1], na, |tokens|)
    ensures Report(v, na, tokens, bs[..b + 1]) == Report(v, na, tokens, bs[..b]) + BlockFindings(v, na, tokens, bs[b], Span(bs[b]))
    ensures Missing(v, bs[..b + 1]) == Missing(v, bs[..b]) + BlockMissing(v, bs[b], Span(bs[b]))
  {
    assert bs[..b + 1][..b] == bs[..b];
  }

  /** `Blob.is_diff(line)` with the default hook, which adds nothing. */
  function Compare(v: View, orig: seq<string>, line: string): seq<Diff>
    requires ViewOk(v)
  {
    var tokens := Split(line);
    OpcodesFit(orig, tokens);
    Report(v, |orig|, tokens, Opcodes(orig, tokens))
  }

  /** The keys the first n steps of a block look up without finding a
      learned Item: those get a placeholder. */
  function BlockMissing(v: View, k: Block, n: int): set<int> {
    match k.tag
    case Equal => {}
    case Insert => if n > 0 && k.l1 !in v.appended then {k.l1} else {}
    case _ => set p | k.l1 <= p < k.l1 + n && p !in v.items
  }

  /** Step n + 1 of a block asks the Item at its key, or files the key when
      there is none. */
  lemma BlockStep(v: View, na: int, tokens: seq<string>, k: Block, n: nat)
    requires ViewOk(v) && Fits(k, na, |tokens|) && n < Span(k)
    ensures k.tag != Delete ==> 0 <= k.r1 + n < |tokens|
    ensures k.tag == Insert ==>
      BlockFindings(v, na, tokens, k, n + 1) == BlockFindings(v, na, tokens, k, n) + AtAnchor(v, "insert", k.l1, Asked(k, tokens, n)) &&
      BlockMissing(v, k, n + 1) == BlockMissing(v, k, n) + (if k.l1 in v.appended then {} else {k.l1})
    ensures k.tag != Insert ==>
      BlockFindings(v, na, tokens, k, n + 1) == BlockFindings(v, na, tokens, k, n) + AtPosition(v, OpName(k.tag), k.l1 + n, Asked(k, tokens, n)) &&
      BlockMissing(v, k, n + 1) == BlockMissing(v, k, n) + (if k.l1 + n in v.items then {} else {k.l1 + n})
  {
  }

  function Missing(v: View, bs: seq<Block>): set<int> {
    if bs == [] then {}
    else
      var k := bs[|bs| - 1];
      Missing(v, bs[..|bs| - 1]) + BlockMissing(v, k, Span(k))
  }

  /** The keys `is_diff(line)` files under `previous_static_items`. */
  function MissingFor(v: View, orig: seq<string>, line: string): set<int> {
    Missing(v, Opcodes(orig, Split(line)))
  }

  /** Equal blocks report nothing and need no placeholder. */
  lemma {:induction false} EqualQuiet(v: View, na: int, tokens: seq<string>, bs: seq<Block>)
    requires ViewOk(v) && AllFit(bs, na, |tokens|)
    requires forall n :: 0 <= n < |bs| ==> bs[n].tag == Equal
    ensures Report(v, na, tokens, bs) == [] && Missing(v, bs) == {}
  {
    if bs != [] {
      EqualQuiet(v, na, tokens, bs[..|bs| - 1]);
    }
  }

  /** A candidate that splits into exactly the reference tokens gives no
      finding and creates no placeholder, whatever has been learned. */
  lemma BaselineQuiet(v: View, orig: seq<string>, line: string)
    requires ViewOk(v) && Split(line) == orig
    ensures Compare(v, orig, line) == [] && MissingFor(v, orig, line) == {}
  {
    OpcodesTile(orig, orig);
    EqualQuiet(v, |orig|, orig, Opcodes(orig, orig));
  }

  /** A replace or delete block over positions that have no learned Item
      gives one `op + "2"` finding per step, against each position's
      placeholder. */
  lemma {:induction false} NovelPositions(v: View, na: int, tokens: seq<string>, k: Block, n: nat)
    requires ViewOk(v) && Fits(k, na, |tokens|) && n <= Span(k)
    requires k.tag == Replace || k.tag == Delete
    requires forall p :: k.l1 <= p < k.l1 + n ==> p !in v.items
    ensures BlockFindings(v, na, tokens, k, n) ==
      seq(n, i requires 0 <= i < n => Diff(Named(OpName(k.tag) + "2"), Unit(v.blob, Placeholder(k.l1 + i)), Asked(k, tokens, i)))
  {
    if n > 0 {
      NovelPositions(v, na, tokens, k, n - 1);
    }
  }

  /** An insert block at an anchor with no learned Item gives one
      `"insert2"` finding per inserted token, all against the same
      placeholder, so any two of them are the same difference. */
  lemma {:induction false} NovelAnchor(v: View, na: int, tokens: seq<string>, k: Block, n: nat)
    requires ViewOk(v) && Fits(k, na, |tokens|) && n <= Span(k)
    requires k.tag == Insert && k.l1 !in v.appended
    ensures BlockFindings(v, na, tokens, k, n) ==
      seq(n, i requires 0 <= i < n => Diff(Named("insert2"), Unit(v.blob, Placeholder(k.l1)), tokens[k.r1 + i]))
    ensures forall i, j :: 0 <= i < n && 0 <= j < n ==>
      Same(BlockFindings(v, na, tokens, k, n)[i], BlockFindings(v, na, tokens, k, n)[j])
  {
    if n > 0 {
      NovelAnchor(v, na, tokens, k, n - 1);
      assert OpName(k.tag) + "2" == "insert2";
    }
  }

  /** A key with no learned Item is reported against one placeholder per
      Blob and key: two comparisons of the same Blob, whatever they learned
      in between and whatever the candidates, give findings that are the
      same difference, and an insert at that key as an anchor names the
      same placeholder. */
  lemma PlaceholderReused(v: View, w: View, op: string, key: int, c: string, d: string)
    requires ViewOk(v) && ViewOk(w) && v.blob == w.blob
    requires key !in v.items && key !in w.items
    ensures AtPosition(v, op, key, c) == [Diff(Named(op + "2"), Unit(v.blob, Placeholder(key)), c)]
    ensures Same(AtPosition(v, op, key, c)[0], AtPosition(w, op, key, d)[0])
    ensures key !in v.appended ==> AtAnchor(v, "insert", key, c)[0].unit == AtPosition(w, op, key, d)[0].unit
  {
  }
}
