/**
  Order and repetition do not matter to what a turn shows: a rendering depends
  on the events only as a multiset.
 */
module ClientConvergence {
  import opened Wrappers
  import opened Sequences
  import opened Sorting
  import opened ClientFold

  /**
    Positions tell events of a turn apart, and a call has at most one start, one
    completion and one failure.
   */
  ghost predicate Coherent(es: seq<Event>) {
    && (forall d <- es, e <- es | KeyOf(d).Some? && KeyOf(e).Some? && PositionOf(d) == PositionOf(e) :: d == e)
    && (forall d <- es, e <- es | KeyOf(d).Some? && KeyOf(d) == KeyOf(e) :: OnePerCall(d, e))
  }

  predicate OnePerCall(d: Event, e: Event) {
    || d == e
    || d.Delta? || d.ToolChunk?
    || (d.ToolStarted? && !e.ToolStarted?)
    || (d.ToolCompleted? && !e.ToolCompleted?)
    || (d.ToolFailed? && !e.ToolFailed?)
  }

  // ---- what an assembled block holds ----

  function DeltaSlice(e: Event): Option<Slice> {
    if e.Delta? && e.text != "" then Some(Slice(PositionOf(e), e.text)) else None
  }

  function ChunkSlice(s: Stream): Event -> Option<Slice> {
    (e: Event) => if e.ToolChunk? && e.stream == s then Some(Slice(PositionOf(e), e.text)) else None
  }

  /** The block starts where its earliest event does. */
  ghost predicate StartsAt(position: int, ts: seq<Event>)
    requires forall e <- ts :: KeyOf(e).Some?
  {
    && (exists e <- ts :: PositionOf(e) == position)
    && forall e <- ts :: position <= PositionOf(e)
  }

  lemma {:induction false} AssembledPosition(key: BlockKey, ts: seq<Event>)
    requires AllTouch(key, ts) && ts != []
    ensures StartsAt(Assemble(key, ts).position, ts)
  {
    var init, last := ts[..|ts| - 1], ts[|ts| - 1];
    assert ts == init + [last];
    assert last in ts;
    if init != [] {
      AssembledPosition(key, init);
      var b := Assemble(key, init);
      var e :| e in init && PositionOf(e) == b.position;
      assert e in ts;
    }
  }

  lemma {:induction false} AssembledText(key: BlockKey, ts: seq<Event>)
    requires AllTouch(key, ts) && ts != [] && key.OfText?
    ensures var b := Assemble(key, ts);
            b == Text(b.position, key.kind, key.iterationIndex, Collect(DeltaSlice, ts))
  {
    var init, last := ts[..|ts| - 1], ts[|ts| - 1];
    assert ts == init + [last];
    assert KeyOf(last) == Some(key);
    if init != [] {
      AssembledText(key, init);
    }
  }

  lemma {:induction false} AssembledChunks(key: BlockKey, ts: seq<Event>)
    requires AllTouch(key, ts) && ts != [] && key.OfTool?
    ensures var b := Assemble(key, ts);
            b.stdout == Collect(ChunkSlice(Out), ts) && b.stderr == Collect(ChunkSlice(Err), ts)
  {
    var init, last := ts[..|ts| - 1], ts[|ts| - 1];
    assert ts == init + [last];
    assert KeyOf(last) == Some(key);
    if init != [] {
      AssembledChunks(key, init);
    }
  }

  /** What the start, the completion and the failure of a call say, each left at its default until it comes. */
  ghost predicate Tells(b: Block, ts: seq<Event>)
    requires b.Tool?
  {
    TellsStart(b, ts) && TellsCompletion(b, ts) && TellsFailure(b, ts) && TellsEnd(b, ts)
  }

  lemma {:induction false} AssembledTells(key: BlockKey, ts: seq<Event>)
    requires AllTouch(key, ts) && ts != [] && key.OfTool? && Coherent(ts)
    ensures Tells(Assemble(key, ts), ts)
  {
    var init, last := ts[..|ts| - 1], ts[|ts| - 1];
    assert ts == init + [last];
    assert KeyOf(last) == Some(key);
    assert last in ts;
    if init != [] {
      AssembledTells(key, init);
      TellsNext(Assemble(key, init), init, last);
    }
  }

  /** The start's part of what a call's events tell, and so on for the completion and the failure. */
  ghost predicate TellsStart(b: Block, ts: seq<Event>)
    requires b.Tool?
  {
    && (forall e <- ts | e.ToolStarted? :: b.command == e.command)
    && ((forall e <- ts :: !e.ToolStarted?) ==> b.command == "")
  }

  ghost predicate TellsCompletion(b: Block, ts: seq<Event>)
    requires b.Tool?
  {
    && (forall e <- ts | e.ToolCompleted? ::
          b.exitCode == e.exitCode && b.timedOut == e.timedOut && b.durationMs == e.durationMs)
    && ((forall e <- ts :: !e.ToolCompleted?) ==> b.exitCode == None && !b.timedOut && b.durationMs == 0)
  }

  ghost predicate TellsFailure(b: Block, ts: seq<Event>)
    requires b.Tool?
  {
    && (forall e <- ts | e.ToolFailed? :: b.failure == e.error)
    && ((forall e <- ts :: !e.ToolFailed?) ==> b.failure == "")
  }

  ghost predicate TellsEnd(b: Block, ts: seq<Event>)
    requires b.Tool?
  {
    b.done <==> exists e <- ts :: e.ToolCompleted? || e.ToolFailed?
  }

  lemma StartNext(b: Block, init: seq<Event>, last: Event)
    requires KeyOf(last) == Some(b.Key()) && b.Tool? && TellsStart(b, init)
    requires forall e <- init :: KeyOf(e) == KeyOf(last) && OnePerCall(last, e)
    ensures TellsStart(Put(b, last), init + [last])
  {
  }

  lemma CompletionNext(b: Block, init: seq<Event>, last: Event)
    requires KeyOf(last) == Some(b.Key()) && b.Tool? && TellsCompletion(b, init)
    requires forall e <- init :: KeyOf(e) == KeyOf(last) && OnePerCall(last, e)
    ensures TellsCompletion(Put(b, last), init + [last])
  {
  }

  lemma FailureNext(b: Block, init: seq<Event>, last: Event)
    requires KeyOf(last) == Some(b.Key()) && b.Tool? && TellsFailure(b, init)
    requires forall e <- init :: KeyOf(e) == KeyOf(last) && OnePerCall(last, e)
    ensures TellsFailure(Put(b, last), init + [last])
  {
  }

  lemma EndNext(b: Block, init: seq<Event>, last: Event)
    requires KeyOf(last) == Some(b.Key()) && b.Tool? && TellsEnd(b, init)
    ensures TellsEnd(Put(b, last), init + [last])
  {
    assert last in init + [last] && forall e <- init :: e in init + [last];
  }

  lemma TellsNext(b: Block, init: seq<Event>, last: Event)
    requires KeyOf(last) == Some(b.Key()) && b.Tool? && Tells(b, init)
    requires forall e <- init :: KeyOf(e) == KeyOf(last) && OnePerCall(last, e)
    ensures Tells(Put(b, last), init + [last])
  {
    StartNext(b, init, last);
    CompletionNext(b, init, last);
    FailureNext(b, init, last);
    EndNext(b, init, last);
  }

  lemma SameMembers<T>(xs: seq<T>, ys: seq<T>)
    requires multiset(xs) == multiset(ys)
    ensures forall x :: x in xs <==> x in ys
  {
    forall x
      ensures x in xs <==> x in ys
    {
      assert x in multiset(xs) <==> x in multiset(ys);
    }
  }

  lemma SlicesShowAlike(xs: seq<Slice>, ys: seq<Slice>)
    requires multiset(xs) == multiset(ys)
    requires forall a <- xs, b <- xs | a.position == b.position :: a == b
    ensures TextOf(xs) == TextOf(ys)
  {
    SortSorts(SliceLeq, xs);
    SortSorts(SliceLeq, ys);
    SortSameElements(SliceLeq, xs);
    SortedIsUnique(SliceLeq, Sort(SliceLeq, xs), Sort(SliceLeq, ys));
  }

  lemma CollectedShowAlike(f: Event -> Option<Slice>, ts: seq<Event>, us: seq<Event>)
    requires multiset(ts) == multiset(us)
    requires forall e <- ts | f(e).Some? :: KeyOf(e).Some? && f(e).value.position == PositionOf(e)
    requires Coherent(ts)
    ensures TextOf(Collect(f, ts)) == TextOf(Collect(f, us))
  {
    CollectMembers(f, ts);
    CollectPermutes(f, ts, us);
    forall a <- Collect(f, ts), b <- Collect(f, ts) | a.position == b.position
      ensures a == b
    {
      var d :| d in ts && f(d) == Some(a);
      var e :| e in ts && f(e) == Some(b);
    }
    SlicesShowAlike(Collect(f, ts), Collect(f, us));
  }

  lemma PositionsAgree(p: int, q: int, ts: seq<Event>, us: seq<Event>)
    requires forall x :: x in ts <==> x in us
    requires forall e <- ts :: KeyOf(e).Some?
    requires StartsAt(p, ts) && StartsAt(q, us)
    ensures p == q
  {
    var d :| d in ts && PositionOf(d) == p;
    var e :| e in us && PositionOf(e) == q;
    assert d in us && e in ts;
  }

  lemma TellingsAgree(b: Block, c: Block, ts: seq<Event>, us: seq<Event>)
    requires forall x :: x in ts <==> x in us
    requires b.Tool? && c.Tool? && Tells(b, ts) && Tells(c, us)
    ensures b.command == c.command && b.failure == c.failure && b.done == c.done
    ensures b.exitCode == c.exitCode && b.timedOut == c.timedOut && b.durationMs == c.durationMs
  {
  }

  lemma TextsShowAlike(key: BlockKey, ts: seq<Event>, us: seq<Event>)
    requires AllTouch(key, ts) && ts != [] && AllTouch(key, us) && us != [] && multiset(ts) == multiset(us)
    requires key.OfText? && Coherent(ts) && Assemble(key, ts).position == Assemble(key, us).position
    ensures Render(Assemble(key, ts)) == Render(Assemble(key, us))
  {
    AssembledText(key, ts);
    AssembledText(key, us);
    CollectedShowAlike(DeltaSlice, ts, us);
  }

  lemma ToolsShowAlike(key: BlockKey, ts: seq<Event>, us: seq<Event>)
    requires AllTouch(key, ts) && ts != [] && AllTouch(key, us) && us != [] && multiset(ts) == multiset(us)
    requires key.OfTool? && Coherent(ts) && Assemble(key, ts).position == Assemble(key, us).position
    ensures Render(Assemble(key, ts)) == Render(Assemble(key, us))
  {
    SameMembers(ts, us);
    AssembledTells(key, ts);
    AssembledTells(key, us);
    TellingsAgree(Assemble(key, ts), Assemble(key, us), ts, us);
    AssembledChunks(key, ts);
    AssembledChunks(key, us);
    CollectedShowAlike(ChunkSlice(Out), ts, us);
    CollectedShowAlike(ChunkSlice(Err), ts, us);
  }

  lemma AssembledShowAlike(key: BlockKey, ts: seq<Event>, us: seq<Event>)
    requires AllTouch(key, ts) && ts != [] && AllTouch(key, us) && us != [] && multiset(ts) == multiset(us)
    requires Coherent(ts)
    ensures Render(Assemble(key, ts)) == Render(Assemble(key, us))
  {
    SameMembers(ts, us);
    AssembledPosition(key, ts);
    AssembledPosition(key, us);
    PositionsAgree(Assemble(key, ts).position, Assemble(key, us).position, ts, us);
    if key.OfText? {
      TextsShowAlike(key, ts, us);
    } else {
      ToolsShowAlike(key, ts, us);
    }
  }

  // ---- blocks in order ----

  predicate ShownLeq(a: Shown, b: Shown) {
    a.position <= b.position
  }

  function Rendered(b: Block): Option<Shown> {
    Some(Render(b))
  }

  /** The view is the renderings, sorted. */
  lemma ViewSorts(blocks: seq<Block>)
    ensures Sorted(ShownLeq, View(blocks))
    ensures multiset(View(blocks)) == multiset(Collect(Rendered, blocks))
  {
    SortSorts(BlockLeq, blocks);
    var sorted := BlocksOf(blocks);
    CollectAll(Rendered, sorted);
    assert Collect(Rendered, sorted) == View(blocks);
    CollectPermutes(Rendered, sorted, blocks);
    forall i, j | 0 <= i < j < |sorted|
      ensures ShownLeq(View(blocks)[i], View(blocks)[j])
    {
      assert BlockLeq(sorted[i], sorted[j]);
    }
  }

  lemma FoldPositions(es: seq<Event>)
    requires Coherent(es)
    ensures forall b <- FoldBlocks(es), c <- FoldBlocks(es) | b.position == c.position :: b == c
  {
    FoldIsFold(es);
    forall b <- FoldBlocks(es), c <- FoldBlocks(es) | b.position == c.position
      ensures b == c
    {
      var d := FirstOf(b, es);
      var e := FirstOf(c, es);
      FindsMember(FoldBlocks(es), b);
      FindsMember(FoldBlocks(es), c);
    }
  }

  lemma FirstOf(b: Block, es: seq<Event>) returns (e: Event)
    requires IsAssembled(b, es)
    ensures e in es && KeyOf(e) == Some(b.Key()) && PositionOf(e) == b.position
  {
    var ts := Collect(Touching(b.Key()), es);
    AssembledPosition(b.Key(), ts);
    TouchedTouch(b.Key(), es);
    e :| e in ts && PositionOf(e) == b.position;
  }

  lemma ShowsAlikeIn(b: Block, es: seq<Event>, fs: seq<Event>)
    requires IsAssembled(b, es) && IsFold(FoldBlocks(fs), fs) && multiset(es) == multiset(fs) && Coherent(es)
    ensures exists c <- FoldBlocks(fs) :: Render(c) == Render(b)
  {
    var key := b.Key();
    var ts, us := Collect(Touching(key), es), Collect(Touching(key), fs);
    TouchedTouch(key, es);
    TouchedTouch(key, fs);
    CollectPermutes(Touching(key), es, fs);
    SameMembers(ts, us);
    assert ts[0] in us;
    var i := Find(FoldBlocks(fs), key);
    assert KeyOf(ts[0]) == Some(key) && ts[0] in fs;
    var c := FoldBlocks(fs)[i];
    assert IsAssembled(c, fs);
    AssembledShowAlike(key, ts, us);
  }

  lemma RenderingsDiffer(blocks: seq<Block>)
    requires KeysDiffer(blocks)
    ensures NoDups(Collect(Rendered, blocks))
  {
    CollectAll(Rendered, blocks);
  }

  lemma RenderingsIncluded(es: seq<Event>, fs: seq<Event>, x: Shown)
    requires multiset(es) == multiset(fs) && Coherent(es)
    requires x in Collect(Rendered, FoldBlocks(es))
    ensures x in Collect(Rendered, FoldBlocks(fs))
  {
    FoldIsFold(es);
    FoldIsFold(fs);
    CollectMembers(Rendered, FoldBlocks(es));
    var b :| b in FoldBlocks(es) && Rendered(b) == Some(x);
    ShowsAlikeIn(b, es, fs);
    CollectMembers(Rendered, FoldBlocks(fs));
    var c :| c in FoldBlocks(fs) && Render(c) == Render(b);
    assert Rendered(c).value in Collect(Rendered, FoldBlocks(fs));
  }

  lemma CoherentPermutes(es: seq<Event>, fs: seq<Event>)
    requires multiset(es) == multiset(fs) && Coherent(es)
    ensures Coherent(fs)
  {
    SameMembers(es, fs);
  }

  /** A permutation of a turn's events shows the same blocks, in the same order, with the same contents. */
  lemma FoldsConverge(es: seq<Event>, fs: seq<Event>)
    requires multiset(es) == multiset(fs) && Coherent(es)
    ensures View(FoldBlocks(es)) == View(FoldBlocks(fs))
  {
    CoherentPermutes(es, fs);
    var xs, ys := Collect(Rendered, FoldBlocks(es)), Collect(Rendered, FoldBlocks(fs));
    FoldIsFold(es);
    FoldIsFold(fs);
    RenderingsDiffer(FoldBlocks(es));
    RenderingsDiffer(FoldBlocks(fs));
    forall x
      ensures x in xs <==> x in ys
    {
      if x in xs { RenderingsIncluded(es, fs, x); }
      if x in ys { RenderingsIncluded(fs, es, x); }
    }
    SameElementsPermute(xs, ys);
    ViewSorts(FoldBlocks(es));
    ViewSorts(FoldBlocks(fs));
    ViewHasNoTies(es);
    SortedIsUnique(ShownLeq, View(FoldBlocks(es)), View(FoldBlocks(fs)));
  }

  lemma ViewHasNoTies(es: seq<Event>)
    requires Coherent(es)
    ensures NoTies(ShownLeq, View(FoldBlocks(es)))
  {
    var blocks := FoldBlocks(es);
    FoldPositions(es);
    SortSameElements(BlockLeq, blocks);
    forall a, b | a in View(blocks) && b in View(blocks) && ShownLeq(a, b) && ShownLeq(b, a)
      ensures a == b
    {
      var i :| 0 <= i < |View(blocks)| && View(blocks)[i] == a;
      var j :| 0 <= j < |View(blocks)| && View(blocks)[j] == b;
      assert BlocksOf(blocks)[i] in blocks && BlocksOf(blocks)[j] in blocks;
    }
  }
}
