/** What the screen shows of a turn, told by its events: texts read in the order of their positions, calls as they went. */
module ClientShown {
  import opened Wrappers
  import opened Sequences
  import opened Sorting
  import opened ClientFold
  import opened ClientConvergence
  import opened ClientSession

  // ---- reading a text off the events ----

  function PlaceOf(e: Event): int {
    if KeyOf(e).Some? then PositionOf(e) else 0
  }

  predicate NoLater(a: Event, b: Event) {
    PlaceOf(a) <= PlaceOf(b)
  }

  function TextIn(e: Event): string {
    if e.Delta? || e.ToolChunk? then e.text else ""
  }

  function TextsIn(es: seq<Event>): string {
    if es == [] then "" else TextIn(es[0]) + TextsIn(es[1..])
  }

  /** The text is that of the picked events, all of them, put one after another by position. */
  ghost predicate IsRead(text: string, es: seq<Event>, pick: Event -> Option<Event>) {
    exists order :: Sorted(NoLater, order) && multiset(order) == multiset(Collect(pick, es)) && text == TextsIn(order)
  }

  function Deltas(kind: TextKind, iterationIndex: int): Event -> Option<Event> {
    (e: Event) =>
      if e.Delta? && e.text != "" && e.kind == kind && e.iterationIndex == iterationIndex then Some(e) else None
  }

  function Chunks(call: string, s: Stream): Event -> Option<Event> {
    (e: Event) => if e.ToolChunk? && e.toolCallKey == call && e.stream == s then Some(e) else None
  }

  function SliceIn(e: Event): Option<Slice> {
    Some(Slice(PlaceOf(e), TextIn(e)))
  }

  lemma {:induction false} JoinedAreTexts(order: seq<Event>)
    ensures Join(Collect(SliceIn, order)) == TextsIn(order)
  {
    CollectAll(SliceIn, order);
    if order != [] {
      JoinedAreTexts(order[1..]);
      CollectAll(SliceIn, order[1..]);
      assert Collect(SliceIn, order)[1..] == Collect(SliceIn, order[1..]);
    }
  }

  lemma SlicesAreRead(es: seq<Event>, pick: Event -> Option<Event>, f: Event -> Option<Slice>)
    requires Coherent(es) && forall e | pick(e).Some? :: pick(e) == Some(e) && KeyOf(e).Some?
    requires forall e :: f(e) == if pick(e).Some? then SliceIn(e) else None
    ensures IsRead(TextOf(Collect(f, es)), es, pick)
  {
    var picked := Collect(pick, es);
    var order := Sort(NoLater, picked);
    SortSorts(NoLater, picked);
    OrderedAreSorted(order);
    CollectPermutes(SliceIn, order, picked);
    CollectChain(pick, SliceIn, es);
    CollectAlike(Chain(pick, SliceIn), f, es);
    var slices := Collect(f, es);
    SlicesDoNotTie(es, pick, f);
    SortSorts(SliceLeq, slices);
    TiesPermute(SliceLeq, slices, Sort(SliceLeq, slices));
    SortedIsUnique(SliceLeq, Sort(SliceLeq, slices), Collect(SliceIn, order));
    JoinedAreTexts(order);
  }

  lemma OrderedAreSorted(order: seq<Event>)
    requires Sorted(NoLater, order)
    ensures Sorted(SliceLeq, Collect(SliceIn, order))
  {
    CollectAll(SliceIn, order);
    forall i, j | 0 <= i < j < |order|
      ensures SliceLeq(Collect(SliceIn, order)[i], Collect(SliceIn, order)[j])
    {
      assert NoLater(order[i], order[j]);
    }
  }

  lemma SlicesDoNotTie(es: seq<Event>, pick: Event -> Option<Event>, f: Event -> Option<Slice>)
    requires Coherent(es) && forall e | pick(e).Some? :: pick(e) == Some(e) && KeyOf(e).Some?
    requires forall e :: f(e) == if pick(e).Some? then SliceIn(e) else None
    ensures NoTies(SliceLeq, Collect(f, es))
  {
    CollectMembers(f, es);
    forall a, b | a in Collect(f, es) && b in Collect(f, es) && SliceLeq(a, b) && SliceLeq(b, a)
      ensures a == b
    {
      var d :| d in es && f(d) == Some(a);
      var e :| e in es && f(e) == Some(b);
    }
  }

  // ---- a shown block ----

  predicate IsAbout(e: Event, key: BlockKey) {
    match key
    case OfText(kind, iterationIndex) => e.Delta? && e.text != "" && e.kind == kind && e.iterationIndex == iterationIndex
    case OfTool(call) => (e.ToolStarted? || e.ToolChunk? || e.ToolCompleted? || e.ToolFailed?) && e.toolCallKey == call
  }

  /** It stands at the earliest position of its events. */
  ghost predicate StandsFirst(position: int, es: seq<Event>, key: BlockKey) {
    && (exists e <- es :: IsAbout(e, key) && PlaceOf(e) == position)
    && forall e <- es | IsAbout(e, key) :: position <= PlaceOf(e)
  }

  /** How a call went, by its one start, completion and failure; the defaults until they come. */
  ghost predicate WentSo(shown: Shown, es: seq<Event>)
    requires shown.ShownTool?
  {
    var call := shown.toolCallKey;
    && (forall e <- es | e.ToolStarted? && e.toolCallKey == call :: shown.command == e.command)
    && (forall e <- es | e.ToolCompleted? && e.toolCallKey == call ::
          shown.exitCode == e.exitCode && shown.timedOut == e.timedOut && shown.durationMs == e.durationMs)
    && (forall e <- es | e.ToolFailed? && e.toolCallKey == call :: shown.failure == e.error)
    && ((forall e <- es :: !(e.ToolStarted? && e.toolCallKey == call)) ==> shown.command == "")
    && ((forall e <- es :: !(e.ToolCompleted? && e.toolCallKey == call)) ==>
          shown.exitCode.None? && !shown.timedOut && shown.durationMs == 0)
    && ((forall e <- es :: !(e.ToolFailed? && e.toolCallKey == call)) ==> shown.failure == "")
    && (shown.done <==> exists e <- es :: (e.ToolCompleted? || e.ToolFailed?) && e.toolCallKey == call)
  }

  function ShownKey(shown: Shown): BlockKey {
    match shown
    case ShownText(_, kind, iterationIndex, _) => OfText(kind, iterationIndex)
    case ShownTool(_, call, _, _, _, _, _, _, _, _) => OfTool(call)
  }

  /** A shown block says what the events about it say, and no more. */
  ghost predicate ShowsEvents(shown: Shown, es: seq<Event>) {
    && StandsFirst(shown.position, es, ShownKey(shown))
    && match shown
       case ShownText(_, kind, iterationIndex, text) => IsRead(text, es, Deltas(kind, iterationIndex))
       case ShownTool(_, call, _, stdout, stderr, _, _, _, _, _) =>
         IsRead(stdout, es, Chunks(call, Out)) && IsRead(stderr, es, Chunks(call, Err)) && WentSo(shown, es)
  }

  lemma AboutIsTouching(key: BlockKey, e: Event)
    ensures IsAbout(e, key) <==> KeyOf(e) == Some(key)
  {
  }

  lemma TextShowsEvents(es: seq<Event>, b: Block)
    requires Coherent(es) && IsAssembled(b, es) && b.Text?
    ensures IsRead(TextOf(b.slices), es, Deltas(b.kind, b.iterationIndex))
  {
    var ts := Collect(Touching(b.Key()), es);
    AssembledText(b.Key(), ts);
    var f := Chain(Touching(b.Key()), DeltaSlice);
    CollectChain(Touching(b.Key()), DeltaSlice, es);
    assert forall e :: f(e) == if Deltas(b.kind, b.iterationIndex)(e).Some? then SliceIn(e) else None;
    SlicesAreRead(es, Deltas(b.kind, b.iterationIndex), f);
  }

  lemma StreamShowsEvents(es: seq<Event>, b: Block, s: Stream)
    requires Coherent(es) && IsAssembled(b, es) && b.Tool?
    ensures IsRead(TextOf(if s.Out? then b.stdout else b.stderr), es, Chunks(b.toolCallKey, s))
  {
    var ts := Collect(Touching(b.Key()), es);
    AssembledChunks(b.Key(), ts);
    var f := Chain(Touching(b.Key()), ChunkSlice(s));
    CollectChain(Touching(b.Key()), ChunkSlice(s), es);
    assert forall e :: f(e) == if Chunks(b.toolCallKey, s)(e).Some? then SliceIn(e) else None;
    SlicesAreRead(es, Chunks(b.toolCallKey, s), f);
  }

  lemma CallShowsEvents(es: seq<Event>, b: Block)
    requires Coherent(es) && IsAssembled(b, es) && b.Tool?
    ensures WentSo(Render(b), es)
  {
    var ts := Collect(Touching(b.Key()), es);
    TouchedTouch(b.Key(), es);
    AssembledTells(b.Key(), ts);
    assert forall e <- es :: IsAbout(e, b.Key()) <==> e in ts;
  }

  lemma BlockStandsFirst(es: seq<Event>, b: Block)
    requires IsAssembled(b, es)
    ensures StandsFirst(b.position, es, b.Key())
  {
    var ts := Collect(Touching(b.Key()), es);
    TouchedTouch(b.Key(), es);
    AssembledPosition(b.Key(), ts);
    forall e
      ensures IsAbout(e, b.Key()) <==> KeyOf(e) == Some(b.Key())
    {
      AboutIsTouching(b.Key(), e);
    }
    var e :| e in ts && PositionOf(e) == b.position;
    assert e in es && IsAbout(e, b.Key()) && PlaceOf(e) == b.position;
  }

  lemma BlockShowsEvents(es: seq<Event>, b: Block)
    requires Coherent(es) && IsAssembled(b, es)
    ensures ShowsEvents(Render(b), es)
  {
    BlockStandsFirst(es, b);
    if b.Text? {
      TextShowsEvents(es, b);
    } else {
      StreamShowsEvents(es, b, Out);
      StreamShowsEvents(es, b, Err);
      CallShowsEvents(es, b);
    }
  }

  /** In the order of their positions, one for every text and every call that events name, and no other. */
  ghost predicate IsViewOf(shown: seq<Shown>, es: seq<Event>) {
    && (forall i | 0 <= i < |shown| :: ShowsEvents(shown[i], es))
    && (forall i, j | 0 <= i < j < |shown| :: shown[i].position <= shown[j].position && ShownKey(shown[i]) != ShownKey(shown[j]))
    && (forall e <- es, key | IsAbout(e, key) :: HasShown(shown, key))
  }

  ghost predicate HasShown(shown: seq<Shown>, key: BlockKey) {
    exists i :: 0 <= i < |shown| && ShownKey(shown[i]) == key
  }

  lemma EachShowsEvents(es: seq<Event>)
    requires Coherent(es)
    ensures var shown := View(FoldBlocks(es)); forall i | 0 <= i < |shown| :: ShowsEvents(shown[i], es)
  {
    var blocks := FoldBlocks(es);
    var sorted, shown := BlocksOf(blocks), View(blocks);
    FoldIsFold(es);
    SortSameElements(BlockLeq, blocks);
    forall i | 0 <= i < |shown|
      ensures ShowsEvents(shown[i], es)
    {
      assert sorted[i] in blocks;
      BlockShowsEvents(es, sorted[i]);
    }
  }

  lemma ShownInOrder(blocks: seq<Block>)
    requires KeysDiffer(blocks)
    ensures var shown := View(blocks);
            forall i, j | 0 <= i < j < |shown| ::
              shown[i].position <= shown[j].position && ShownKey(shown[i]) != ShownKey(shown[j])
  {
    var sorted, shown := BlocksOf(blocks), View(blocks);
    SortSorts(BlockLeq, blocks);
    SortedKeysDiffer(blocks);
    forall i, j | 0 <= i < j < |shown|
      ensures shown[i].position <= shown[j].position && ShownKey(shown[i]) != ShownKey(shown[j])
    {
      assert BlockLeq(sorted[i], sorted[j]) && sorted[i].Key() != sorted[j].Key();
    }
  }

  lemma NamedIsShown(es: seq<Event>, e: Event, key: BlockKey)
    requires e in es && IsAbout(e, key)
    ensures HasShown(View(FoldBlocks(es)), key)
  {
    var blocks := FoldBlocks(es);
    FoldIsFold(es);
    AboutIsTouching(key, e);
    SortSameElements(BlockLeq, blocks);
    assert Find(blocks, KeyOf(e).value) < |blocks|;
    var b := blocks[Find(blocks, key)];
    assert b in blocks && b in BlocksOf(blocks);
    var i :| 0 <= i < |BlocksOf(blocks)| && BlocksOf(blocks)[i] == b;
    assert ShownKey(View(blocks)[i]) == key;
  }

  /** What is shown of a turn says what its events say, whatever their order. */
  lemma ViewShowsEvents(es: seq<Event>)
    requires Coherent(es)
    ensures IsViewOf(View(FoldBlocks(es)), es)
  {
    EachShowsEvents(es);
    FoldIsFold(es);
    ShownInOrder(FoldBlocks(es));
    forall e <- es, key | IsAbout(e, key)
      ensures HasShown(View(FoldBlocks(es)), key)
    {
      NamedIsShown(es, e, key);
    }
  }

  function KeyIn(b: Block): Option<BlockKey> {
    Some(b.Key())
  }

  lemma SortedKeysDiffer(blocks: seq<Block>)
    requires KeysDiffer(blocks)
    ensures KeysDiffer(BlocksOf(blocks))
  {
    var sorted := BlocksOf(blocks);
    SortSorts(BlockLeq, blocks);
    CollectAll(KeyIn, blocks);
    CollectAll(KeyIn, sorted);
    CollectPermutes(KeyIn, blocks, sorted);
    NoDupsPermutes(Collect(KeyIn, blocks), Collect(KeyIn, sorted));
    forall i, j | 0 <= i < j < |sorted|
      ensures sorted[i].Key() != sorted[j].Key()
    {
      assert Collect(KeyIn, sorted)[i] != Collect(KeyIn, sorted)[j];
    }
  }

  /** And so what any delivery puts on screen of a turn is what the events delivered say. */
  lemma DeliveryShowsEvents(delivery: seq<Envelope>, turnKey: string)
    requires Numbered(FirstEvents(turnKey, delivery)) && Coherent(FirstEvents(turnKey, delivery))
    ensures IsViewOf(ScreenOf(Received(delivery), turnKey).shown, FirstEvents(turnKey, delivery))
  {
    TurnIsItsFold(delivery, turnKey);
    ViewShowsEvents(FirstEvents(turnKey, delivery));
  }
}
