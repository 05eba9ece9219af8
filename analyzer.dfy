/** `Analyzer` of httpdiff/analyzer.py: twelve facet Blobs fed one line each
    per calibration response and asked in a fixed order per candidate
    response. The order and the lines are stated as functions of the
    response (`FeedFor`, `Queries`); the class is proved to follow them. */
module Analyzers {
  import opened Text
  import opened ItemSpec
  import opened BlobSpec
  import opened Blobs

  /** The parts of a `requests` response httpdiff reads: status code,
      reason, headers (as their text) and body. */
  datatype Message = Message(statusCode: int, reason: string, headers: string, content: string)

  /** A response and the redirect responses that led to it, first one first. */
  datatype Response = Response(main: Message, history: seq<Message>)

  /** The twelve facets, in the order `Analyzer.__init__` creates their Blobs. */
  datatype Facet =
    | Errors | ResponseTime | Status | Reason | Headers | Body | BodyLength
    | RedirStatus | RedirReason | RedirHeaders | RedirBody | RedirBodyLength

  /** The creation rank of a facet, used to tell its Blob and Items apart. */
  function Rank(f: Facet): int {
    match f
    case Errors => 0
    case ResponseTime => 1
    case Status => 2
    case Reason => 3
    case Headers => 4
    case Body => 5
    case BodyLength => 6
    case RedirStatus => 7
    case RedirReason => 8
    case RedirHeaders => 9
    case RedirBody => 10
    case RedirBodyLength => 11
  }

  /** The facet of a creation rank: `FacetAt(Rank(f)) == f`. */
  function FacetAt(rank: int): Facet {
    if rank == 0 then Errors else if rank == 1 then ResponseTime else if rank == 2 then Status
    else if rank == 3 then Reason else if rank == 4 then Headers else if rank == 5 then Body
    else if rank == 6 then BodyLength else if rank == 7 then RedirStatus else if rank == 8 then RedirReason
    else if rank == 9 then RedirHeaders else if rank == 10 then RedirBody else RedirBodyLength
  }

  /** One value for each facet that has a text Blob (every facet but the
      response time). */
  datatype PerFacet<T> = PerFacet(
    errors: T, status: T, reason: T, headers: T, body: T, bodyLength: T,
    redirStatus: T, redirReason: T, redirHeaders: T, redirBody: T, redirBodyLength: T)
  {
    function At(f: Facet): T
      requires f != ResponseTime
    {
      match f
      case Errors => errors
      case Status => status
      case Reason => reason
      case Headers => headers
      case Body => body
      case BodyLength => bodyLength
      case RedirStatus => redirStatus
      case RedirReason => redirReason
      case RedirHeaders => redirHeaders
      case RedirBody => redirBody
      case RedirBodyLength => redirBodyLength
    }

    /** The same values, but `v` for facet `f`. */
    function With(f: Facet, v: T): PerFacet<T>
      requires f != ResponseTime
    {
      match f
      case Errors => this.(errors := v)
      case Status => this.(status := v)
      case Reason => this.(reason := v)
      case Headers => this.(headers := v)
      case Body => this.(body := v)
      case BodyLength => this.(bodyLength := v)
      case RedirStatus => this.(redirStatus := v)
      case RedirReason => this.(redirReason := v)
      case RedirHeaders => this.(redirHeaders := v)
      case RedirBody => this.(redirBody := v)
      case RedirBodyLength => this.(redirBodyLength := v)
    }
  }

  /** `With` sets the value of its own facet and of no other. */
  lemma AtWith<T>(p: PerFacet<T>, f: Facet, v: T, g: Facet)
    requires f != ResponseTime && g != ResponseTime
    ensures p.With(f, v).At(g) == if g == f then v else p.At(g)
  {
  }

  /** The same value for every text facet. */
  function All<T>(v: T): PerFacet<T> {
    PerFacet(v, v, v, v, v, v, v, v, v, v, v)
  }

  /** One `is_diff` call on the Blob of a facet, with its line. */
  datatype Query = Query(facet: Facet, line: string)

  /** The line `add_response` (analyzer.py:67-96) feeds the Blob of facet
      `f`, if any: with no response only the error text and the time; with
      a response, the first redirect's parts or the sentinels "-1", "",
      "", "", "-1" when there was no redirect, then the response's parts. */
  function FeedFor(f: Facet, r: Option<Response>, time: string, error: string): Option<string> {
    match r
    case None =>
      if f == Errors then Some(error) else if f == ResponseTime then Some(time) else None
    case Some(resp) =>
      var h := resp.history;
      match f
      case Errors => Some(error)
      case ResponseTime => Some(time)
      case Status => Some(IntToString(resp.main.statusCode))
      case Reason => Some(resp.main.reason)
      case Headers => Some(resp.main.headers)
      case Body => Some(resp.main.content)
      case BodyLength => Some(IntToString(|resp.main.content|))
      case RedirStatus => Some(if h != [] then IntToString(h[0].statusCode) else "-1")
      case RedirReason => Some(if h != [] then h[0].reason else "")
      case RedirHeaders => Some(if h != [] then h[0].headers else "")
      case RedirBody => Some(if h != [] then h[0].content else "")
      case RedirBodyLength => Some(if h != [] then IntToString(|h[0].content|) else "-1")
  }

  /** The redirect Blobs `is_diff` asks (analyzer.py:141-176): with the
      first redirect's parts, comparing its body or only its length, or
      with the sentinels when there was no redirect. */
  function RedirectQueries(h: seq<Message>, lengthOnly: bool): seq<Query> {
    if h != [] then FirstQueries(h[0], lengthOnly)
    else
      [Query(RedirStatus, "-1"), Query(RedirReason, ""), Query(RedirBody, ""),
       Query(RedirBodyLength, "-1"), Query(RedirHeaders, "")]
  }

  /** The redirect Blobs asked with the parts of the first redirect. */
  function FirstQueries(first: Message, lengthOnly: bool): seq<Query> {
    [Query(RedirStatus, IntToString(first.statusCode)),
     Query(RedirReason, first.reason),
     if lengthOnly then Query(RedirBodyLength, IntToString(|first.content|))
     else Query(RedirBody, first.content),
     Query(RedirHeaders, first.headers)]
  }

  /** The Blobs of the response's own parts `is_diff` asks
      (analyzer.py:178-200). */
  function PartQueries(m: Message, lengthOnly: bool): seq<Query> {
    [Query(Status, IntToString(m.statusCode)),
     Query(Reason, m.reason),
     if lengthOnly then Query(BodyLength, IntToString(|m.content|)) else Query(Body, m.content),
     Query(Headers, m.headers)]
  }

  /** The Blobs of the response itself `is_diff` asks (analyzer.py:178-206). */
  function MainQueries(m: Message, time: string, error: string, lengthOnly: bool): seq<Query> {
    PartQueries(m, lengthOnly) + [Query(ResponseTime, time), Query(Errors, error)]
  }

  /** The Blobs `is_diff` (analyzer.py:123-207) asks, in order, given the
      values the two body-length-only flags have when a body is asked. */
  function Queries(r: Option<Response>, time: string, error: string,
                   lengthOnly: bool, redirLengthOnly: bool): seq<Query> {
    match r
    case None => [Query(Errors, error), Query(ResponseTime, time)]
    case Some(resp) =>
      RedirectQueries(resp.history, redirLengthOnly) + MainQueries(resp.main, time, error, lengthOnly)
  }

  /** With both flags off, `is_diff` asks every Blob with exactly the line
      `add_response` feeds it for the same response, and the body itself
      rather than its length is compared. */
  lemma QueriesFed(r: Option<Response>, time: string, error: string)
    ensures var qs := Queries(r, time, error, false, false);
      forall i :: 0 <= i < |qs| ==> FeedFor(qs[i].facet, r, time, error) == Some(qs[i].line)
    ensures var qs := Queries(r, time, error, false, false);
      r.Some? ==> exists i :: 0 <= i < |qs| && qs[i].facet == Body
    ensures var qs := Queries(r, time, error, false, false);
      forall i :: 0 <= i < |qs| ==> qs[i].facet != BodyLength
  {
    var qs := Queries(r, time, error, false, false);
    if r.Some? {
      var n := if r.value.history != [] then 4 else 5;
      assert qs[n + 2].facet == Body;
    }
  }

  /** The learned state of a facet Blob after one more optional line. */
  function Step(st: BlobState, line: Option<string>): BlobState {
    match line
    case None => st
    case Some(l) => Learn(st, l)
  }

  /** What `is_diff` reads of the twelve facets: what each text facet's
      Blob has learned and the Blob itself (the owner of its Items), and
      the samples and spread of the response-time Blob with its identity. */
  datatype Board = Board(learned: PerFacet<BlobState>, owners: PerFacet<object>, time: TimeState, clock: object)

  /** The findings of one query. */
  function Answer(b: Board, q: Query): seq<Diff> {
    if q.facet == ResponseTime then TimeCheck(b.time, Unit(b.clock, Whole), q.line)
    else
      var st := b.learned.At(q.facet);
      var v := ViewOf(b.owners.At(q.facet), st);
      ViewOfOk(b.owners.At(q.facet), st);
      Compare(v, st.orig, q.line)
  }

  /** The findings of each query, in order. */
  function Answers(b: Board, qs: seq<Query>): (r: seq<seq<Diff>>)
    ensures |r| == |qs|
  {
    seq(|qs|, i requires 0 <= i < |qs| => Answer(b, qs[i]))
  }

  /** `if out := ...: yield out`: a list of findings is yielded only when
      it is not empty. */
  function Keep(found: seq<Diff>): seq<seq<Diff>> {
    if found == [] then [] else [found]
  }

  /** What `is_diff` yields for the findings of its queries, in order. */
  function NonEmpty(found: seq<seq<Diff>>): seq<seq<Diff>> {
    if found == [] then []
    else NonEmpty(found[..|found| - 1]) + Keep(found[|found| - 1])
  }

  lemma NonEmptyNext(found: seq<seq<Diff>>, a: seq<Diff>)
    ensures NonEmpty(found + [a]) == NonEmpty(found) + Keep(a)
  {
    assert (found + [a])[..|found|] == found;
  }

  /** Only non-empty lists are yielded, and no more than there were
      queries. */
  lemma {:induction false} NonEmptyKeeps(found: seq<seq<Diff>>)
    ensures forall i :: 0 <= i < |NonEmpty(found)| ==> NonEmpty(found)[i] != []
    ensures |NonEmpty(found)| <= |found|
  {
    if found != [] {
      NonEmptyKeeps(found[..|found| - 1]);
    }
  }

  /** Nothing is yielded exactly when every query finds nothing. */
  lemma {:induction false} NonEmptyQuiet(found: seq<seq<Diff>>)
    ensures NonEmpty(found) == [] <==> forall i :: 0 <= i < |found| ==> found[i] == []
  {
    if found != [] {
      var init := found[..|found| - 1];
      NonEmptyQuiet(init);
      if NonEmpty(found) == [] {
        forall i | 0 <= i < |found| ensures found[i] == [] {
          if i < |init| { assert found[i] == init[i]; }
        }
      } else if NonEmpty(init) == [] {
        assert found[|found| - 1] != [];
      }
    }
  }

  /** With no response, at most the error findings and then the
      response-time findings are yielded. */
  lemma NoResponseYields(b: Board, time: string, error: string, lengthOnly: bool, redirLengthOnly: bool)
    ensures NonEmpty(Answers(b, Queries(None, time, error, lengthOnly, redirLengthOnly))) ==
      Keep(Answer(b, Query(Errors, error))) + Keep(Answer(b, Query(ResponseTime, time)))
  {
    var found := Answers(b, Queries(None, time, error, lengthOnly, redirLengthOnly));
    assert found == [] + [found[0]] + [found[1]];
    NonEmptyNext([] + [found[0]], found[1]);
    NonEmptyNext([], found[0]);
  }

  /** The guard of analyzer.py:146-150 and 182-186: not `analyze_all`, one
      sample in the length Blob's `item`, and that sample above 2000. */
  function LengthOnlyGuard(analyzeAll: bool, samples: seq<string>): bool {
    !analyzeAll && |samples| == 1 &&
    match ParseInt(samples[0]) case Some(n) => n > 2000 case None => false
  }

  /** The policy flag after the guard: switched on when the guard holds,
      switched off otherwise (analyzer.py:146-158, 182-194). */
  function NextFlag(guard: bool, flag: bool): bool {
    if guard then true else if flag then false else flag
  }

  /** The lines `add_response` feeds the Blob of a text facet: the one
      `FeedFor` names, or none. */
  function Lines(f: Facet, r: Option<Response>, time: string, error: string): seq<string> {
    match FeedFor(f, r, time, error)
    case None => []
    case Some(l) => [l]
  }

  /** The lines of the facets of the first redirect and of the response's
      own parts once `add_response` has fed them a response. */
  function Parted(before: PerFacet<seq<string>>, resp: Response): PerFacet<seq<string>> {
    var h := resp.history;
    var m := resp.main;
    before.(status := before.status + [IntToString(m.statusCode)],
            reason := before.reason + [m.reason],
            headers := before.headers + [m.headers],
            body := before.body + [m.content],
            bodyLength := before.bodyLength + [IntToString(|m.content|)],
            redirStatus := before.redirStatus + [if h != [] then IntToString(h[0].statusCode) else "-1"],
            redirReason := before.redirReason + [if h != [] then h[0].reason else ""],
            redirHeaders := before.redirHeaders + [if h != [] then h[0].headers else ""],
            redirBody := before.redirBody + [if h != [] then h[0].content else ""],
            redirBodyLength := before.redirBodyLength + [if h != [] then IntToString(|h[0].content|) else "-1"])
  }

  /** The lines of every text facet once `add_response` has fed them. */
  function Added(before: PerFacet<seq<string>>, r: Option<Response>, time: string, error: string): PerFacet<seq<string>> {
    match r
    case None => before.(errors := before.errors + [error])
    case Some(resp) => Parted(before, resp).(errors := before.errors + [error])
  }

  /** `Added` gives each text facet the line `FeedFor` names for it, and
      nothing else. */
  lemma AddedLines(before: PerFacet<seq<string>>, r: Option<Response>, time: string, error: string)
    ensures forall f :: f != ResponseTime ==> Added(before, r, time, error).At(f) == before.At(f) + Lines(f, r, time, error)
  {
  }

  /** The facets of the first redirect. */
  predicate Redirected(f: Facet) {
    f == RedirStatus || f == RedirReason || f == RedirHeaders || f == RedirBody || f == RedirBodyLength
  }

  /** The facets of the response itself that have a text Blob, but its error. */
  predicate InMessage(f: Facet) {
    f == Status || f == Reason || f == Headers || f == Body || f == BodyLength
  }

  /** The findings of two lists of queries, one after the other. */
  lemma AnswersAppend(b: Board, qs: seq<Query>, rs: seq<Query>)
    ensures Answers(b, qs + rs) == Answers(b, qs) + Answers(b, rs)
  {
    var both, parts := Answers(b, qs + rs), Answers(b, qs) + Answers(b, rs);
    forall i | 0 <= i < |both| ensures both[i] == parts[i] {
      if i < |qs| {
        assert (qs + rs)[i] == qs[i];
      } else {
        assert (qs + rs)[i] == rs[i - |qs|];
      }
    }
  }

  /** Each text facet's learned state is what its fed lines teach a new Blob. */
  predicate Replayed(learned: PerFacet<BlobState>, fed: PerFacet<seq<string>>) {
    forall f {:trigger Replay(fed.At(f))} :: f != ResponseTime ==> learned.At(f) == Replay(fed.At(f))
  }

  /** Feeding one facet one more line keeps the learned states in step. */
  lemma ReplayedNext(learned: PerFacet<BlobState>, fed: PerFacet<seq<string>>, f: Facet, line: string)
    requires Replayed(learned, fed) && f != ResponseTime
    ensures Replayed(learned.With(f, Learn(learned.At(f), line)), fed.With(f, fed.At(f) + [line]))
  {
    var nextLearned := learned.With(f, Learn(learned.At(f), line));
    var nextFed := fed.With(f, fed.At(f) + [line]);
    forall g | g != ResponseTime ensures nextLearned.At(g) == Replay(nextFed.At(g)) {
      AtWith(learned, f, Learn(learned.At(f), line), g);
      AtWith(fed, f, fed.At(f) + [line], g);
      if g == f {
        ReplayNext(fed.At(f), line);
      } else {
        assert Replay(fed.At(g)) == learned.At(g);
      }
    }
  }

  /** Nothing is learned from no lines. */
  lemma UnfedReplayed()
    ensures Replayed(All(Empty()), All([]))
  {
  }

  /** `Analyzer` (analyzer.py:7-207). */
  class Analyzer {
    var analyzeAll: bool
    var bodyLengthOnly: bool
    var redirBodyLengthOnly: bool
    const errors: Blob
    const responseTime: ResponseTimeBlob
    const status: Blob
    const reason: Blob
    const headers: Blob
    const body: Blob
    const bodyLength: Blob
    const redirStatus: Blob
    const redirReason: Blob
    const redirHeaders: Blob
    const redirBody: Blob
    const redirBodyLength: Blob
    /** The lines each text facet's Blob has been fed, oldest first. */
    ghost var fed: PerFacet<seq<string>>
    /** What each text facet's Blob has learned. */
    ghost var learned: PerFacet<BlobState>

    /** The Blob of a text facet. */
    function BlobFor(f: Facet): Blob
      requires f != ResponseTime
    {
      match f
      case Errors => errors
      case Status => status
      case Reason => reason
      case Headers => headers
      case Body => body
      case BodyLength => bodyLength
      case RedirStatus => redirStatus
      case RedirReason => redirReason
      case RedirHeaders => redirHeaders
      case RedirBody => redirBody
      case RedirBodyLength => redirBodyLength
    }

    /** The Blobs of the text facets. */
    ghost function Blobs(): set<Blob> {
      {errors, status, reason, headers, body, bodyLength,
       redirStatus, redirReason, redirHeaders, redirBody, redirBodyLength}
    }

    /** The `previous_static_items` of each text facet's Blob. */
    ghost function Filed(): set<Placeholders> {
      {errors.previous, status.previous, reason.previous, headers.previous, body.previous,
       bodyLength.previous, redirStatus.previous, redirReason.previous, redirHeaders.previous,
       redirBody.previous, redirBodyLength.previous}
    }

    /** The never-fed `item` of each text facet's Blob. */
    ghost function Items(): set<Item> {
      {errors.item, status.item, reason.item, headers.item, body.item, bodyLength.item,
       redirStatus.item, redirReason.item, redirHeaders.item, redirBody.item, redirBodyLength.item}
    }

    /** The never-fed `item`s the two body-length policies read. */
    ghost function LengthItems(): set<Item> {
      {bodyLength.item, redirBodyLength.item}
    }

    /** Every Blob and its `item` carry the rank of their facet, so no two
        facets share one. */
    ghost predicate Apart() {
      (forall f {:trigger BlobFor(f)} :: f != ResponseTime ==>
        FacetAt(BlobFor(f).facet) == f && FacetAt(BlobFor(f).item.tag) == f) &&
      FacetAt(responseTime.item.tag) == ResponseTime
    }

    /** Every text facet's Blob is valid and has learned what its fed lines
        teach a new Blob. */
    ghost predicate Linked()
      reads this`fed, this`learned, Blobs()`items, Blobs()`appended, Blobs()`positions, Blobs()`anchors, Blobs()`orig
    {
      (forall f {:trigger BlobFor(f).Valid()} :: f != ResponseTime ==> BlobFor(f).Valid()) &&
      (forall f {:trigger BlobFor(f).Model()} :: f != ResponseTime ==> BlobFor(f).Model() == learned.At(f)) &&
      Replayed(learned, fed)
    }

    /** The Blobs of the text facets are apart and linked to their fed
        lines, the `item`s of the body-length Blobs have never been fed,
        and the two flags are off. */
    ghost predicate TextValid()
      reads this, Blobs(), LengthItems()
    {
      Apart() && Linked() && bodyLength.item.lines == [] && redirBodyLength.item.lines == [] &&
      !bodyLengthOnly && !redirBodyLengthOnly
    }

    /** The text facets are in order and the response-time Blob is valid. */
    ghost predicate Valid()
      reads this, Blobs(), LengthItems(), responseTime, responseTime.item
    {
      TextValid() && responseTime.Valid()
    }

    /** The Blobs of the text facets, as the owners of their Items. */
    function Owners(): PerFacet<object> {
      PerFacet(errors, status, reason, headers, body, bodyLength,
               redirStatus, redirReason, redirHeaders, redirBody, redirBodyLength)
    }

    /** What `is_diff` reads: what the text facets have learned, and the
        response-time samples and spread. */
    ghost function Current(): Board
      reads this`learned, responseTime`variance, responseTime.item`lines
    {
      Board(learned, Owners(), TimeState(responseTime.item.lines, responseTime.variance), responseTime)
    }

    static method NewMain() returns (e: Blob, t: ResponseTimeBlob, s: Blob, r: Blob, h: Blob, c: Blob, n: Blob)
      ensures fresh(e) && fresh(t) && fresh(t.item) && fresh(s) && fresh(r) && fresh(h) && fresh(c) && fresh(n)
      ensures fresh(e.previous) && fresh(s.previous) && fresh(r.previous) && fresh(h.previous)
      ensures fresh(c.previous) && fresh(n.previous)
      ensures e.facet == Rank(Errors) && e.Blank()
      ensures t.facet == Rank(ResponseTime) && t.Valid() && t.history == []
      ensures s.facet == Rank(Status) && s.Blank()
      ensures r.facet == Rank(Reason) && r.Blank()
      ensures h.facet == Rank(Headers) && h.Blank()
      ensures c.facet == Rank(Body) && c.Blank()
      ensures n.facet == Rank(BodyLength) && n.Blank()
    {
      e := new Blob(Rank(Errors));
      t := new ResponseTimeBlob(Rank(ResponseTime));
      s := new Blob(Rank(Status));
      r := new Blob(Rank(Reason));
      h := new Blob(Rank(Headers));
      c := new Blob(Rank(Body));
      n := new Blob(Rank(BodyLength));
    }

    static method NewRedirects() returns (s: Blob, r: Blob, h: Blob, c: Blob, n: Blob)
      ensures fresh(s) && fresh(r) && fresh(h) && fresh(c) && fresh(n)
      ensures fresh(s.previous) && fresh(r.previous) && fresh(h.previous) && fresh(c.previous) && fresh(n.previous)
      ensures s.facet == Rank(RedirStatus) && s.Blank()
      ensures r.facet == Rank(RedirReason) && r.Blank()
      ensures h.facet == Rank(RedirHeaders) && h.Blank()
      ensures c.facet == Rank(RedirBody) && c.Blank()
      ensures n.facet == Rank(RedirBodyLength) && n.Blank()
    {
      s := new Blob(Rank(RedirStatus));
      r := new Blob(Rank(RedirReason));
      h := new Blob(Rank(RedirHeaders));
      c := new Blob(Rank(RedirBody));
      n := new Blob(Rank(RedirBodyLength));
    }

    lemma BlobValid(f: Facet)
      requires TextValid() && f != ResponseTime
      ensures BlobFor(f).Valid()
    {
    }

    /** What the Blob of a text facet has learned is what its fed lines
        teach a new Blob. */
    lemma Learned(f: Facet)
      requires TextValid() && f != ResponseTime
      ensures learned.At(f) == Replay(fed.At(f))
    {
      assert Linked();
      assert Replayed(learned, fed);
    }

    /** What the Blob of a text facet reads when asked is what it has
        learned. */
    lemma Shows(f: Facet)
      requires TextValid() && f != ResponseTime
      ensures BlobFor(f).Valid() && BlobFor(f).View() == ViewOf(Owners().At(f), learned.At(f))
      ensures BlobFor(f).orig == learned.At(f).orig
    {
      BlobValid(f);
      assert Linked();
      BlobFor(f).ViewIsModel();
    }

    /** A Blob whose fields and `item` did not change is still valid and
        has learned nothing new. */
    twostate lemma Kept(g: Facet)
      requires old(TextValid()) && g != ResponseTime
      requires unchanged(BlobFor(g))
      ensures BlobFor(g).Valid() && BlobFor(g).Model() == old(BlobFor(g).Model())
    {
      assert old(BlobFor(g).Valid());
    }

    /** The text facets stay in order while neither the Analyzer nor their
        Blobs nor the `item`s of the body-length Blobs change. */
    twostate lemma Untouched()
      requires old(TextValid())
      requires unchanged(this) && unchanged(Blobs()) && unchanged(LengthItems())
      ensures TextValid()
    {
    }

    /** The response-time Blob is still valid, and has been fed nothing
        more, if neither it nor its `item` changed. */
    twostate lemma TimeKept()
      requires old(responseTime.Valid())
      requires unchanged(responseTime, responseTime.item)
      ensures responseTime.Valid() && responseTime.history == old(responseTime.history)
    {
    }

    /** Placeholder keys are only ever added: each text facet's
        `previous_static_items` holds at least what it held before. */
    twostate predicate Grown()
      reads Filed()
    {
      forall f :: f != ResponseTime ==> old(BlobFor(f).previous.keys) <= BlobFor(f).previous.keys
    }

    /** `add_line` on the Blob of one text facet. */
    method Feed(f: Facet, line: string)
      requires TextValid() && f != ResponseTime
      modifies BlobFor(f), this`fed, this`learned
      ensures TextValid() && fed == old(fed).With(f, old(fed).At(f) + [line])
    {
      BlobValid(f);
      BlobFor(f).AddLine(line);
      ReplayedNext(learned, fed, f, line);
      learned := learned.With(f, Learn(learned.At(f), line));
      fed := fed.With(f, fed.At(f) + [line]);
      forall g | g != ResponseTime && g != f
        ensures BlobFor(g).Valid() && BlobFor(g).Model() == learned.At(g)
      {
        assert BlobFor(g) != BlobFor(f);
        Kept(g);
        AtWith(old(learned), f, Learn(old(learned).At(f), line), g);
      }
      assert Linked();
    }

    /** `add_line` on the Blobs of two text facets, one after the other. */
    method FeedPair(f: Facet, line: string, g: Facet, next: string)
      requires TextValid() && f != ResponseTime && g != ResponseTime && f != g
      modifies BlobFor(f), BlobFor(g), this`fed, this`learned
      ensures TextValid()
      ensures fed == old(fed).With(f, old(fed).At(f) + [line]).With(g, old(fed).At(g) + [next])
    {
      Feed(f, line);
      AtWith(old(fed), f, old(fed).At(f) + [line], g);
      Feed(g, next);
    }

    /** The response-time Blob's `item` is not one the body-length
        policies read. */
    lemma TimeApart()
      requires Apart()
      ensures responseTime.item !in LengthItems()
    {
      assert FacetAt(BlobFor(BodyLength).item.tag) == BodyLength;
      assert FacetAt(BlobFor(RedirBodyLength).item.tag) == RedirBodyLength;
    }

    /** `response_time_item.add_line(str(response_time))`. */
    method FeedTime(time: string)
      requires Valid()
      modifies responseTime, responseTime.item
      ensures Valid()
      ensures responseTime.history == old(responseTime.history) + [time]
    {
      TimeApart();
      label Before:
      responseTime.AddLine(time);
      Untouched@Before();
    }

    /** `add_line` on the five Blobs of the first redirect, in the order of
        analyzer.py:78-82 and 84-88. */
    method FeedRedirect(status: string, reason: string, headers: string, content: string, length: string)
      requires TextValid()
      modifies redirStatus, redirReason, redirHeaders, redirBody, redirBodyLength, this`fed, this`learned
      ensures TextValid()
      ensures fed == old(fed).(redirStatus := old(fed).redirStatus + [status],
                               redirReason := old(fed).redirReason + [reason],
                               redirHeaders := old(fed).redirHeaders + [headers],
                               redirBody := old(fed).redirBody + [content],
                               redirBodyLength := old(fed).redirBodyLength + [length])
    {
      FeedPair(RedirStatus, status, RedirReason, reason);
      FeedRedirectBodies(headers, content, length);
    }

    /** The headers, body and body length of the first redirect. */
    method FeedRedirectBodies(headers: string, content: string, length: string)
      requires TextValid()
      modifies redirHeaders, redirBody, redirBodyLength, this`fed, this`learned
      ensures TextValid()
      ensures fed == old(fed).(redirHeaders := old(fed).redirHeaders + [headers],
                               redirBody := old(fed).redirBody + [content],
                               redirBodyLength := old(fed).redirBodyLength + [length])
    {
      FeedPair(RedirHeaders, headers, RedirBody, content);
      Feed(RedirBodyLength, length);
    }

    /** `add_line` on the five Blobs of the response's own parts
        (analyzer.py:90-94). */
    method FeedMessage(m: Message)
      requires TextValid()
      modifies status, reason, headers, body, bodyLength, this`fed, this`learned
      ensures TextValid()
      ensures fed == old(fed).(status := old(fed).status + [IntToString(m.statusCode)],
                               reason := old(fed).reason + [m.reason],
                               headers := old(fed).headers + [m.headers],
                               body := old(fed).body + [m.content],
                               bodyLength := old(fed).bodyLength + [IntToString(|m.content|)])
    {
      FeedPair(Status, IntToString(m.statusCode), Reason, m.reason);
      FeedBodies(m);
    }

    /** The headers, body and body length of the response itself. */
    method FeedBodies(m: Message)
      requires TextValid()
      modifies headers, body, bodyLength, this`fed, this`learned
      ensures TextValid()
      ensures fed == old(fed).(headers := old(fed).headers + [m.headers],
                               body := old(fed).body + [m.content],
                               bodyLength := old(fed).bodyLength + [IntToString(|m.content|)])
    {
      FeedPair(Headers, m.headers, Body, m.content);
      Feed(BodyLength, IntToString(|m.content|));
    }

    /** `add_line` on the Blobs of the first redirect and of the response's
        own parts (analyzer.py:77-94). */
    method FeedParts(resp: Response)
      requires TextValid()
      modifies status, reason, headers, body, bodyLength, redirStatus, redirReason, redirHeaders, redirBody
      modifies redirBodyLength, this`fed, this`learned
      ensures TextValid()
      ensures fed == Parted(old(fed), resp)
    {
      var h := resp.history;
      if |h| > 0 {
        var first := h[0];
        FeedRedirect(IntToString(first.statusCode), first.reason, first.headers, first.content,
                     IntToString(|first.content|));
      } else {
        FeedRedirect("-1", "", "", "", "-1");
      }
      FeedMessage(resp.main);
    }

    /** `add_response` for a response (analyzer.py:77-96). */
    method FeedResponse(resp: Response, time: string, error: string)
      requires Valid()
      modifies errors, responseTime, responseTime.item, status, reason, headers, body, bodyLength
      modifies redirStatus, redirReason, redirHeaders, redirBody, redirBodyLength, this`fed, this`learned
      ensures Valid() && fed == Added(old(fed), Some(resp), time, error)
      ensures responseTime.history == old(responseTime.history) + [time]
    {
      FeedParts(resp);
      FeedTime(time);
      label Timed:
      Feed(Errors, error);
      TimeKept@Timed();
    }

    /** `add_response` (analyzer.py:67-96): the Blob of every facet is fed
        the line `FeedFor` names for it, once, and the others are fed
        nothing. */
    method AddResponse(r: Option<Response>, time: string, error: string)
      requires Valid()
      modifies errors, responseTime, responseTime.item, status, reason, headers, body, bodyLength
      modifies redirStatus, redirReason, redirHeaders, redirBody, redirBodyLength, this`fed, this`learned
      ensures Valid()
      ensures forall f :: f != ResponseTime ==> fed.At(f) == old(fed).At(f) + Lines(f, r, time, error)
      ensures responseTime.history == old(responseTime.history) + [time]
    {
      match r {
        case None =>
          Feed(Errors, error);
          FeedTime(time);
        case Some(resp) =>
          FeedResponse(resp, time, error);
      }
      AddedLines(old(fed), r, time, error);
    }

    /** `is_diff` on the Blob of one text facet: it files placeholders and
        learns nothing. */
    method Probe(f: Facet, line: string) returns (found: seq<Diff>)
      requires TextValid() && f != ResponseTime
      modifies BlobFor(f).previous
      ensures Grown()
      ensures TextValid() && found == Answer(Current(), Query(f, line))
    {
      Shows(f);
      label Before:
      found := BlobFor(f).IsDiff(line);
      Untouched@Before();
    }

    /** One more query answered after the ones before it. */
    method Ask(ghost b: Board, ghost asked: seq<Query>, found: seq<seq<Diff>>, f: Facet, line: string)
      returns (more: seq<seq<Diff>>)
      requires TextValid() && f != ResponseTime && b == Current() && found == Answers(b, asked)
      modifies BlobFor(f).previous
      ensures Grown()
      ensures TextValid()
      ensures more == Answers(b, asked + [Query(f, line)])
    {
      var a := Probe(f, line);
      AnswersAppend(b, asked, [Query(f, line)]);
      more := found + [a];
    }

    /** Two more queries answered after the ones before them. */
    method AskPair(ghost b: Board, ghost asked: seq<Query>, found: seq<seq<Diff>>,
                   f: Facet, line: string, g: Facet, next: string) returns (more: seq<seq<Diff>>)
      requires TextValid() && f != ResponseTime && g != ResponseTime
      requires b == Current() && found == Answers(b, asked)
      modifies BlobFor(f).previous, BlobFor(g).previous
      ensures Grown()
      ensures TextValid()
      ensures more == Answers(b, asked + [Query(f, line), Query(g, next)])
    {
      more := Ask(b, asked, found, f, line);
      more := Ask(b, asked + [Query(f, line)], more, g, next);
      assert asked + [Query(f, line)] + [Query(g, next)] == asked + [Query(f, line), Query(g, next)];
    }

    /** The redirect body-length policy (analyzer.py:146-158): the guard
        never holds, since the length Blob's `item` is never fed, so the
        flag stays off. */
    method RedirPolicy()
      requires TextValid()
      modifies this`redirBodyLengthOnly
      ensures TextValid()
    {
      redirBodyLengthOnly := NextFlag(LengthOnlyGuard(analyzeAll, redirBodyLength.item.lines), redirBodyLengthOnly);
    }

    /** The body-length policy of the response itself (analyzer.py:182-194),
        which likewise never switches on. */
    method BodyPolicy()
      requires TextValid()
      modifies this`bodyLengthOnly
      ensures TextValid()
    {
      bodyLengthOnly := NextFlag(LengthOnlyGuard(analyzeAll, bodyLength.item.lines), bodyLengthOnly);
    }

    /** The redirect Blobs asked with the parts of the first redirect
        (analyzer.py:141-166). */
    method AskFirst(ghost b: Board, first: Message) returns (found: seq<seq<Diff>>)
      requires TextValid() && b == Current()
      modifies this`redirBodyLengthOnly, redirStatus.previous, redirReason.previous
      modifies redirHeaders.previous, redirBody.previous, redirBodyLength.previous
      ensures Grown()
      ensures TextValid()
      ensures found == Answers(b, FirstQueries(first, false))
    {
      var code := IntToString(first.statusCode);
      found := AskPair(b, [], [], RedirStatus, code, RedirReason, first.reason);
      found := AskRedirectRest(b, [Query(RedirStatus, code), Query(RedirReason, first.reason)], found, first);
    }

    /** The redirect body-length policy, then the body (or its length) and
        the headers of the first redirect (analyzer.py:146-166). */
    method AskRedirectRest(ghost b: Board, ghost asked: seq<Query>, found: seq<seq<Diff>>, first: Message)
      returns (more: seq<seq<Diff>>)
      requires TextValid() && b == Current() && found == Answers(b, asked)
      modifies this`redirBodyLengthOnly, redirHeaders.previous, redirBody.previous, redirBodyLength.previous
      ensures Grown()
      ensures TextValid()
      ensures more == Answers(b, asked + [Query(RedirBody, first.content), Query(RedirHeaders, first.headers)])
    {
      RedirPolicy();
      var q := if redirBodyLengthOnly then Query(RedirBodyLength, IntToString(|first.content|))
               else Query(RedirBody, first.content);
      more := AskPair(b, asked, found, q.facet, q.line, RedirHeaders, first.headers);
    }

    /** The redirect Blobs asked with the sentinels when there was no
        redirect (analyzer.py:167-177). */
    method AskSentinels(ghost b: Board) returns (found: seq<seq<Diff>>)
      requires TextValid() && b == Current()
      modifies redirStatus.previous, redirReason.previous
      modifies redirHeaders.previous, redirBody.previous, redirBodyLength.previous
      ensures Grown()
      ensures TextValid()
      ensures found == Answers(b, RedirectQueries([], false))
    {
      found := AskPair(b, [], [], RedirStatus, "-1", RedirReason, "");
      found := AskSentinelBodies(b, found);
    }

    /** The sentinels of the body, its length and the headers. */
    method AskSentinelBodies(ghost b: Board, found: seq<seq<Diff>>) returns (more: seq<seq<Diff>>)
      requires TextValid() && b == Current()
      requires found == Answers(b, [Query(RedirStatus, "-1"), Query(RedirReason, "")])
      modifies redirHeaders.previous, redirBody.previous, redirBodyLength.previous
      ensures Grown()
      ensures TextValid()
      ensures more == Answers(b, RedirectQueries([], false))
    {
      ghost var asked := [Query(RedirStatus, "-1"), Query(RedirReason, "")];
      more := AskPair(b, asked, found, RedirBody, "", RedirBodyLength, "-1");
      asked := asked + [Query(RedirBody, ""), Query(RedirBodyLength, "-1")];
      more := Ask(b, asked, more, RedirHeaders, "");
      asked := asked + [Query(RedirHeaders, "")];
      assert asked == RedirectQueries([], false);
    }

    /** The redirect part of `is_diff` (analyzer.py:141-176), before the
        empty lists are dropped. */
    method AskRedirects(ghost b: Board, h: seq<Message>) returns (found: seq<seq<Diff>>)
      requires TextValid() && b == Current()
      modifies this`redirBodyLengthOnly, redirStatus.previous, redirReason.previous
      modifies redirHeaders.previous, redirBody.previous, redirBodyLength.previous
      ensures Grown()
      ensures TextValid()
      ensures found == Answers(b, RedirectQueries(h, false))
      ensures unchanged(this`fed, this`learned, responseTime, responseTime.item)
    {
      if |h| > 0 {
        found := AskFirst(b, h[0]);
      } else {
        found := AskSentinels(b);
      }
    }

    /** The rest of `is_diff` (analyzer.py:178-206), before the empty
        lists are dropped. */
    method AskMain(ghost b: Board, m: Message, time: string, error: string) returns (found: seq<seq<Diff>>)
      requires TextValid() && b == Current()
      modifies this`bodyLengthOnly, status.previous, reason.previous
      modifies body.previous, bodyLength.previous, headers.previous, errors.previous
      ensures Grown()
      ensures TextValid()
      ensures found == Answers(b, MainQueries(m, time, error, false))
      ensures unchanged(this`fed, this`learned, responseTime, responseTime.item)
    {
      found := AskParts(b, m);
      ghost var asked := PartQueries(m, false);
      AnswersAppend(b, asked, [Query(ResponseTime, time)]);
      found := found + [responseTime.IsDiff(time)];
      asked := asked + [Query(ResponseTime, time)];
      found := Ask(b, asked, found, Errors, error);
      asked := asked + [Query(Errors, error)];
      assert asked == MainQueries(m, time, error, false);
    }

    /** The status, reason, body (or its length) and headers of the
        response itself (analyzer.py:178-200). */
    method AskParts(ghost b: Board, m: Message) returns (found: seq<seq<Diff>>)
      requires TextValid() && b == Current()
      modifies this`bodyLengthOnly, status.previous, reason.previous
      modifies body.previous, bodyLength.previous, headers.previous
      ensures Grown()
      ensures TextValid()
      ensures found == Answers(b, PartQueries(m, false))
    {
      var code := IntToString(m.statusCode);
      found := AskPair(b, [], [], Status, code, Reason, m.reason);
      found := AskRest(b, [Query(Status, code), Query(Reason, m.reason)], found, m);
    }

    /** The body-length policy, then the body (or its length) and the
        headers of the response itself (analyzer.py:182-200). */
    method AskRest(ghost b: Board, ghost asked: seq<Query>, found: seq<seq<Diff>>, m: Message)
      returns (more: seq<seq<Diff>>)
      requires TextValid() && b == Current() && found == Answers(b, asked)
      modifies this`bodyLengthOnly, body.previous, bodyLength.previous, headers.previous
      ensures Grown()
      ensures TextValid()
      ensures more == Answers(b, asked + [Query(Body, m.content), Query(Headers, m.headers)])
    {
      BodyPolicy();
      var q := if bodyLengthOnly then Query(BodyLength, IntToString(|m.content|)) else Query(Body, m.content);
      more := AskPair(b, asked, found, q.facet, q.line, Headers, m.headers);
    }

    /** `is_diff` (analyzer.py:123-207): the non-empty findings of the
        Blobs `Queries` names, in that order; the flags stay off and
        nothing is learned. */
    method IsDiff(r: Option<Response>, time: string, error: string) returns (out: seq<seq<Diff>>)
      requires Valid()
      modifies this`bodyLengthOnly, this`redirBodyLengthOnly
      modifies errors.previous, status.previous, reason.previous, headers.previous
      modifies body.previous, bodyLength.previous, redirStatus.previous
      modifies redirReason.previous, redirHeaders.previous, redirBody.previous
      modifies redirBodyLength.previous
      ensures Grown()
      ensures Valid() && out == NonEmpty(Answers(old(Current()), Queries(r, time, error, false, false)))
      ensures fed == old(fed) && learned == old(learned) && responseTime.history == old(responseTime.history)
    {
      ghost var b := Current();
      var found;
      match r {
        case None =>
          found := Ask(b, [], [], Errors, error);
          AnswersAppend(b, [Query(Errors, error)], [Query(ResponseTime, time)]);
          found := found + [responseTime.IsDiff(time)];
          assert [Query(Errors, error)] + [Query(ResponseTime, time)] == Queries(r, time, error, false, false);
          assert found == Answers(b, Queries(r, time, error, false, false));
        case Some(resp) =>
          var before := AskRedirects(b, resp.history);
          var after := AskMain(b, resp.main, time, error);
          AnswersAppend(b, RedirectQueries(resp.history, false), MainQueries(resp.main, time, error, false));
          found := before + after;
          assert found == Answers(b, Queries(r, time, error, false, false));
      }
      out := NonEmpty(found);
    }

    /** An Analyzer calibrated on one response finds nothing in that same
        response, provided its time is written in digits. */
    lemma CalibratedQuiet(r: Option<Response>, time: string, error: string)
      requires Valid()
      requires forall f :: f != ResponseTime ==> fed.At(f) == Lines(f, r, time, error)
      requires responseTime.history == [time] && IsDigits(Strip(time))
      ensures NonEmpty(Answers(Current(), Queries(r, time, error, false, false))) == []
    {
      var b := Current();
      var qs := Queries(r, time, error, false, false);
      QueriesFed(r, time, error);
      forall i | 0 <= i < |qs| ensures Answers(b, qs)[i] == [] {
        var q := qs[i];
        if q.facet == ResponseTime {
          responseTime.SingleCalibrationQuiet(time);
        } else {
          Learned(q.facet);
          ReplayNext([], q.line);
          assert [] + [q.line] == fed.At(q.facet);
          var v := ViewOf(Owners().At(q.facet), learned.At(q.facet));
          ViewOfOk(Owners().At(q.facet), learned.At(q.facet));
          BaselineQuiet(v, learned.At(q.facet).orig, q.line);
        }
      }
      NonEmptyQuiet(Answers(b, qs));
    }

    /** Nothing learned yet: every Blob is blank and tagged with its
        facet, and the flags are off. */
    ghost predicate Fresh()
      reads this, Blobs(), Items(), Filed(), responseTime, responseTime.item
    {
      errors.facet == Rank(Errors) && errors.Blank() &&
      responseTime.facet == Rank(ResponseTime) && responseTime.Valid() && responseTime.history == [] &&
      status.facet == Rank(Status) && status.Blank() &&
      reason.facet == Rank(Reason) && reason.Blank() &&
      headers.facet == Rank(Headers) && headers.Blank() &&
      body.facet == Rank(Body) && body.Blank() &&
      bodyLength.facet == Rank(BodyLength) && bodyLength.Blank() &&
      redirStatus.facet == Rank(RedirStatus) && redirStatus.Blank() &&
      redirReason.facet == Rank(RedirReason) && redirReason.Blank() &&
      redirHeaders.facet == Rank(RedirHeaders) && redirHeaders.Blank() &&
      redirBody.facet == Rank(RedirBody) && redirBody.Blank() &&
      redirBodyLength.facet == Rank(RedirBodyLength) && redirBodyLength.Blank() &&
      fed == All([]) && learned == All(Empty()) && !analyzeAll && !bodyLengthOnly && !redirBodyLengthOnly
    }

    /** A new Analyzer is valid and its Blobs have learned nothing. */
    lemma FreshValid()
      requires Fresh()
      ensures Valid()
      ensures forall f :: f != ResponseTime ==> fed.At(f) == [] && BlobFor(f).Model() == Empty()
    {
      errors.BlankValid(); status.BlankValid(); reason.BlankValid(); headers.BlankValid();
      body.BlankValid(); bodyLength.BlankValid(); redirStatus.BlankValid();
      redirReason.BlankValid(); redirHeaders.BlankValid(); redirBody.BlankValid();
      redirBodyLength.BlankValid();
      UnfedReplayed();
    }

    /** `Analyzer()` (analyzer.py:12-33): twelve new Blobs, flags off. */
    constructor ()
      ensures Fresh()
      ensures fresh(errors) && fresh(status) && fresh(reason) && fresh(headers)
      ensures fresh(body) && fresh(bodyLength) && fresh(redirStatus) && fresh(redirReason)
      ensures fresh(redirHeaders) && fresh(redirBody) && fresh(redirBodyLength)
      ensures fresh(responseTime) && fresh(responseTime.item)
      ensures fresh(errors.previous) && fresh(status.previous) && fresh(reason.previous)
      ensures fresh(headers.previous) && fresh(body.previous) && fresh(bodyLength.previous)
      ensures fresh(redirStatus.previous) && fresh(redirReason.previous) && fresh(redirHeaders.previous)
      ensures fresh(redirBody.previous) && fresh(redirBodyLength.previous)
    {
      var e, t, s, r, h, c, n := NewMain();
      var rs, rr, rh, rc, rn := NewRedirects();
      analyzeAll, bodyLengthOnly, redirBodyLengthOnly := false, false, false;
      fed, learned := All([]), All(Empty());
      errors, responseTime, status, reason, headers, body, bodyLength := e, t, s, r, h, c, n;
      redirStatus, redirReason, redirHeaders, redirBody, redirBodyLength := rs, rr, rh, rc, rn;
    }
  }

  /** Calibrating a new Analyzer on one response and comparing the same
      response again finds nothing, provided the response time is written
      in digits. */
  method Idempotent(r: Option<Response>, time: string, error: string) returns (out: seq<seq<Diff>>)
    requires IsDigits(Strip(time))
    ensures out == []
  {
    var a := new Analyzer();
    a.FreshValid();
    a.AddResponse(r, time, error);
    a.CalibratedQuiet(r, time, error);
    out := a.IsDiff(r, time, error);
  }
}
