/** The classes of httpdiff/blob.py that learn in place: `Item`, `Blob` and
    `ResponseTimeBlob`. Each is proved to hold exactly the state the
    value-level model (modules ItemSpec and BlobSpec) computes from what it
    was fed. */
module Blobs {
  import opened Text
  import opened Alignment
  import opened ItemSpec
  import opened BlobSpec

  /** `Item` (blob.py:30-161): the distinct samples in the order first seen,
      the active modes and the square of `std_dev`. `tag` names the facet
      whose Blob owns the Item. */
  class Item {
    var lines: seq<string>
    var modes: set<Mode>
    var variance: real
    ghost const tag: int

    function State(): ItemState
      reads this
    {
      ItemState(lines, modes, variance)
    }

    /** `Item()`: no sample, no mode. */
    constructor (ghost tag: int)
      ensures State() == Blank() && this.tag == tag
    {
      lines, modes, variance := [], {}, 0.0;
      this.tag := tag;
    }

    /** `Item(line)`: the line is stored without classifying it. */
    constructor Seeded(line: string, ghost tag: int)
      ensures State() == Seed(line) && this.tag == tag
    {
      lines, modes, variance := [line], {}, 0.0;
      this.tag := tag;
    }

    /** `Item.add_line` (blob.py:75-102). */
    method AddLine(line: string)
      modifies this
      ensures State() == Add(old(State()), line)
    {
      lines := AddSample(lines, line);
      if Range in modes {
        match Refit(lines) {
          case Some(v) => variance := v;
          case None =>
        }
      } else {
        modes := Classify(lines);
      }
    }
  }

  /** The `previous_static_items` dictionary of a Blob: the keys under
      which `is_diff` has filed a placeholder Item. */
  class Placeholders {
    var keys: set<int>

    constructor ()
      ensures keys == {}
    {
      keys := {};
    }
  }

  /** `Blob()` (blob.py:166-296): `original_lines`, the states of the Items
      at reference positions (`items`) and at anchors (`appended_items`),
      the keys of `previous_static_items`, and the never-fed `item`. */
  class Blob {
    ghost const facet: int
    var orig: seq<string>
    var items: map<int, ItemState>
    var appended: map<int, ItemState>
    const previous: Placeholders
    const item: Item
    ghost var positions: map<int, Trace>
    ghost var anchors: map<int, Trace>

    /** The learned state, as the value-level model sees it. */
    ghost function Model(): BlobState
      reads this`orig, this`positions, this`anchors
    {
      BlobState(orig, positions, anchors)
    }

    /** Each stored Item state is the one its trace describes. */
    ghost predicate Tied()
      reads this`items, this`appended, this`positions, this`anchors
    {
      Tracks(items, positions) && Tracks(appended, anchors)
    }

    /** The stored Item states are the ones the learned traces describe,
        and `item` belongs to this Blob's facet. */
    ghost predicate Valid()
      reads this`items, this`appended, this`positions, this`anchors
    {
      item.tag == facet && Tied()
    }

    /** What `is_diff` reads. */
    function View(): View
      reads this`items, this`appended
    {
      BlobSpec.View(this, items, appended)
    }

    /** Nothing learned, nothing filed. */
    ghost predicate Blank()
      reads this, item, previous
    {
      orig == [] && items == map[] && appended == map[] && positions == map[] && anchors == map[] &&
      previous.keys == {} && item.tag == facet && item.lines == []
    }

    /** A Blob that has learned nothing is valid. */
    lemma BlankValid()
      requires Blank()
      ensures Valid() && Model() == Empty()
    {
    }

    lemma ViewIsOk()
      requires Tied()
      ensures ViewOk(View())
    {
      TracksConsistent(items, positions);
      TracksConsistent(appended, anchors);
    }

    /** What `is_diff` reads is fixed by what has been learned. */
    lemma ViewIsModel()
      requires Tied()
      ensures View() == ViewOf(this, Model())
    {
      var v := ViewOf(this, Model());
      forall q | q in items ensures items[q] == v.items[q] {
        assert v.items[q] == ItemOf(positions[q]);
      }
      forall a | a in appended ensures appended[a] == v.appended[a] {
        assert v.appended[a] == ItemOf(anchors[a]);
      }
    }

    /** `Blob()`: nothing learned yet. */
    constructor (ghost facet: int)
      ensures fresh(item) && fresh(previous) && this.facet == facet && Blank()
    {
      this.facet := facet;
      orig, items, appended := [], map[], map[];
      positions, anchors := map[], map[];
      item := new Item(facet);
      previous := new Placeholders();
    }

    /** `Blob(line)`: the tokens of `line` become the original tokens at
        once, which is what `Blob()` followed by `add_line(line)` learns. */
    constructor Seeded(line: string, ghost facet: int)
      ensures fresh(item) && fresh(previous) && this.facet == facet
      ensures Valid() && Model() == BlobState(Split(line), map[], map[]) && previous.keys == {}
      ensures Model() == Replay([line])
    {
      this.facet := facet;
      orig, items, appended := Split(line), map[], map[];
      positions, anchors := map[], map[];
      item := new Item(facet);
      previous := new Placeholders();
      new;
      assert [line][..0] == [];
    }

    /** `items[q].add_line(v)`, creating `Item(original_lines[q])` first when
        there is none. */
    method FeedPosition(q: int, v: string)
      requires Tied() && 0 <= q < |orig|
      modifies this`items, this`positions
      ensures Tied() && Model() == BlobSpec.FeedPosition(old(Model()), q, v)
    {
      ghost var t := if q in positions then positions[q] else Trace(orig[q], []);
      var it := if q in items then items[q] else Seed(orig[q]);
      assert it == ItemOf(t);
      TracksFeed(items, positions, q, t, v);
      items := items[q := Add(it, v)];
      positions := positions[q := Extend(t, v)];
    }

    /** `appended_items[a].add_line(v)`, creating `Item(v)` first when there
        is none. */
    method FeedAnchor(a: int, v: string)
      requires Tied()
      modifies this`appended, this`anchors
      ensures Tied() && Model() == BlobSpec.FeedAnchor(old(Model()), a, v)
    {
      ghost var t := if a in anchors then anchors[a] else Trace(v, []);
      var it := if a in appended then appended[a] else Seed(v);
      assert it == ItemOf(t);
      TracksFeed(appended, anchors, a, t, v);
      appended := appended[a := Add(it, v)];
      anchors := anchors[a := Extend(t, v)];
    }

    /** The replace and delete loops of `add_line` (blob.py:222-233): the
        i-th position of the block is fed `Fed(k, tokens, i)`. */
    method FeedPositions(k: Block, tokens: seq<string>)
      requires Tied() && Fits(k, |orig|, |tokens|) && (k.tag == Replace || k.tag == Delete)
      modifies this`items, this`positions
      ensures Tied() && Model() == LearnBlock(old(Model()), k, tokens)
    {
      ghost var st := Model();
      var n := 0;
      while n < Span(k)
        invariant 0 <= n <= Span(k)
        invariant Tied() && Model() == LearnSteps(st, k, tokens, n)
      {
        PositionStepNext(st, k, tokens, n);
        FeedPosition(k.l1 + n, Fed(k, tokens, n));
        n := n + 1;
      }
    }

    /** The insert loop of `add_line` (blob.py:216-220): every inserted token
        is fed to the Item at anchor `l1`. */
    method FeedAnchors(k: Block, tokens: seq<string>)
      requires Tied() && Fits(k, |orig|, |tokens|) && k.tag == Insert
      modifies this`appended, this`anchors
      ensures Tied() && Model() == LearnBlock(old(Model()), k, tokens)
    {
      ghost var st := Model();
      var n := 0;
      while n < Span(k)
        invariant 0 <= n <= Span(k)
        invariant Tied() && Model() == LearnSteps(st, k, tokens, n)
      {
        AnchorStepNext(st, k, tokens, n);
        FeedAnchor(k.l1, tokens[k.r1 + n]);
        n := n + 1;
      }
    }

    /** The loop over one opcode block of `add_line` (blob.py:215-233). */
    method FeedBlock(k: Block, tokens: seq<string>)
      requires Tied() && Fits(k, |orig|, |tokens|)
      modifies this`items, this`positions, this`appended, this`anchors
      ensures Tied() && Model() == LearnBlock(old(Model()), k, tokens)
    {
      if k.tag == Insert {
        FeedAnchors(k, tokens);
      } else if k.tag != Equal {
        FeedPositions(k, tokens);
      }
    }

    /** The loop over the opcodes of `add_line` (blob.py:211-233): the
        payload is split and aligned with `original_lines`, and every block
        is routed in turn. */
    method Route(line: string)
      requires Tied() && orig != []
      modifies this`items, this`positions, this`appended, this`anchors
      ensures Tied() && Model() == Learn(old(Model()), line)
    {
      var tokens := Split(line);
      OpcodesFit(orig, tokens);
      var bs := Opcodes(orig, tokens);
      ghost var st := Model();
      var b := 0;
      while b < |bs|
        invariant 0 <= b <= |bs|
        invariant Tied() && Model() == LearnBlocks(st, bs[..b], tokens)
      {
        LearnBlocksNext(st, bs, tokens, b);
        FeedBlock(bs[b], tokens);
        b := b + 1;
      }
      assert bs[..b] == bs;
    }

    /** `Blob.add_line` (blob.py:198-234): the first line becomes
        `original_lines`; later ones are aligned and routed. */
    method AddLine(line: string)
      requires Valid()
      modifies this
      ensures Valid() && Model() == Learn(old(Model()), line)
      ensures previous.keys == old(previous.keys)
    {
      if orig == [] {
        orig := Split(line);
      } else {
        Route(line);
      }
    }

    /** The loop over one opcode block of `is_diff` (blob.py:252-295): each
        step asks the learned Item, or reports against the placeholder and
        notes its key for `previous_static_items`. */
    method AskBlock(k: Block, tokens: seq<string>) returns (found: seq<Diff>, missing: set<int>)
      requires ViewOk(View()) && Fits(k, |orig|, |tokens|)
      ensures found == BlockFindings(View(), |orig|, tokens, k, Span(k))
      ensures missing == BlockMissing(View(), k, Span(k))
    {
      var op := OpName(k.tag);
      found, missing := [], {};
      var n := 0;
      while n < Span(k)
        invariant 0 <= n <= Span(k)
        invariant found == BlockFindings(View(), |orig|, tokens, k, n)
        invariant missing == BlockMissing(View(), k, n)
      {
        BlockStep(View(), |orig|, tokens, k, n);
        var key := if k.tag == Insert then k.l1 else k.l1 + n;
        var cand := Asked(k, tokens, n);
        if k.tag == Insert && key in appended {
          found := found + Check(appended[key], Unit(this, Anchor(key)), op, cand);
        } else if k.tag != Insert && key in items {
          found := found + Check(items[key], Unit(this, Position(key)), op, cand);
        } else {
          missing := missing + {key};
          found := found + [Diff(Named(op + "2"), Unit(this, Placeholder(key)), cand)];
        }
        n := n + 1;
      }
    }

    /** The loop over the opcodes of `is_diff` (blob.py:252-295), without
        filing the missing keys. */
    method Scan(tokens: seq<string>, bs: seq<Block>) returns (out: seq<Diff>, missing: set<int>)
      requires ViewOk(View()) && AllFit(bs, |orig|, |tokens|)
      ensures out == Report(View(), |orig|, tokens, bs)
      ensures missing == Missing(View(), bs)
    {
      out, missing := [], {};
      var b := 0;
      while b < |bs|
        invariant 0 <= b <= |bs|
        invariant out == Report(View(), |orig|, tokens, bs[..b])
        invariant missing == Missing(View(), bs[..b])
      {
        ReportNext(View(), |orig|, tokens, bs, b);
        var found, keys := AskBlock(bs[b], tokens);
        out, missing := out + found, missing + keys;
        b := b + 1;
      }
      assert bs[..b] == bs;
    }

    /** Splits and aligns the candidate line against `original_lines`, then
        asks every block (blob.py:245-295). */
    method Ask(line: string) returns (out: seq<Diff>, missing: set<int>)
      requires ViewOk(View())
      ensures out == Compare(View(), orig, line)
      ensures missing == MissingFor(View(), orig, line)
    {
      var tokens := Split(line);
      OpcodesFit(orig, tokens);
      out, missing := Scan(tokens, Opcodes(orig, tokens));
    }

    /** The comparison of `is_diff`, filing the keys that had no learned
        Item under `previous_static_items`. */
    method Compared(line: string) returns (out: seq<Diff>)
      requires ViewOk(View())
      modifies previous
      ensures out == Compare(View(), orig, line)
      ensures previous.keys == old(previous.keys) + MissingFor(View(), orig, line)
    {
      var missing;
      out, missing := Ask(line);
      previous.keys := previous.keys + missing;
    }

    /** `Blob.is_diff` (blob.py:243-296): compares without learning; only
        `previous_static_items` gains the keys that had no learned Item. */
    method IsDiff(line: string) returns (out: seq<Diff>)
      requires Valid()
      modifies previous
      ensures Valid() && ViewOk(View()) && out == Compare(View(), orig, line)
      ensures previous.keys == old(previous.keys) + MissingFor(View(), orig, line)
    {
      ViewIsOk();
      out := Compared(line);
    }

    /** A Blob calibrated on one line finds nothing in that same line. */
    lemma SingleCalibrationQuiet(line: string)
      requires Valid() && Model() == Learn(Empty(), line)
      ensures ViewOk(View()) && Compare(View(), orig, line) == []
    {
      ViewIsOk();
      BaselineQuiet(View(), orig, line);
    }
  }

  /** `ResponseTimeBlob()` (blob.py:299-341): one sample set in `item.lines`
      and the square of `std_dev`. */
  class ResponseTimeBlob {
    ghost const facet: int
    const item: Item
    var variance: real
    ghost var history: seq<string>

    ghost predicate Valid()
      reads this, item
    {
      item.tag == facet && TimeState(item.lines, variance) == TimeReplay(history)
    }

    constructor (ghost facet: int)
      ensures Valid() && fresh(item) && this.facet == facet && history == []
      ensures item.tag == facet && item.lines == [] && variance == 0.0
    {
      this.facet := facet;
      item := new Item(facet);
      variance := 0.0;
      history := [];
    }

    /** `ResponseTimeBlob.add_line` (blob.py:309-320). */
    method AddLine(line: string)
      requires Valid()
      modifies this, item
      ensures Valid() && history == old(history) + [line]
    {
      item.lines := AddSample(item.lines, line);
      match Refit(item.lines) {
        case Some(v) => variance := v;
        case None =>
      }
      history := history + [line];
      assert history[..|history| - 1] == old(history);
    }

    /** `ResponseTimeBlob.is_diff` (blob.py:322-341). */
    function IsDiff(line: string): seq<Diff>
      reads this, item
    {
      TimeCheck(TimeState(item.lines, variance), Unit(this, Whole), line)
    }

    /** One digit calibration time is not a difference from itself. */
    lemma SingleCalibrationQuiet(line: string)
      requires Valid() && history == [line] && IsDigits(Strip(line))
      ensures IsDiff(line) == []
    {
      TimeSingleSampleQuiet(line, Unit(this, Whole));
    }
  }
}
