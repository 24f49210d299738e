/**
  The transcript a screen shows, folded from events in whatever order and
  however often they arrive.
 */
module ClientFold {
  import opened Wrappers
  import opened Sequences
  import opened Sorting

  datatype TextKind = Reasoning | Message

  datatype Stream = Out | Err

  /** The client actions. `position` is absent on events recorded before emitters numbered them. */
  datatype Event =
    | SessionOpened(workspace: string)
    | TurnStarted(turnKey: string, prompt: string)
    | IterationStarted(turnKey: string, iterationIndex: int)
    | Delta(turnKey: string, position: Option<int>, kind: TextKind, iterationIndex: int, text: string)
    | ToolStarted(turnKey: string, position: Option<int>, toolCallKey: string, command: string)
    | ToolChunk(turnKey: string, position: Option<int>, toolCallKey: string, stream: Stream, text: string)
    | ToolCompleted(turnKey: string, position: Option<int>, toolCallKey: string, exitCode: Option<int>, timedOut: bool,
                    durationMs: int)
    | ToolFailed(turnKey: string, position: Option<int>, toolCallKey: string, error: string)
    | TurnFinal(turnKey: string, answer: string)

  datatype Slice = Slice(position: int, text: string)

  datatype BlockKey = OfText(kind: TextKind, iterationIndex: int) | OfTool(toolCallKey: string)

  datatype Block =
    | Text(position: int, kind: TextKind, iterationIndex: int, slices: seq<Slice>)
    | Tool(position: int, toolCallKey: string, command: string, stdout: seq<Slice>, stderr: seq<Slice>,
           exitCode: Option<int>, timedOut: bool, durationMs: int, done: bool, failure: string)
  {
    function Key(): BlockKey {
      match this
      case Text(_, kind, iterationIndex, _) => OfText(kind, iterationIndex)
      case Tool(_, toolCallKey, _, _, _, _, _, _, _, _) => OfTool(toolCallKey)
    }

    /** The block with one more event at a position: it starts at the earliest. */
    function Reaching(position: int): (b: Block)
      ensures b.Key() == Key()
    {
      this.(position := if position < this.position then position else this.position)
    }
  }

  /** The block an event belongs to. An empty delta belongs to none. */
  function KeyOf(e: Event): Option<BlockKey> {
    match e
    case Delta(_, _, kind, iterationIndex, text) => if text == "" then None else Some(OfText(kind, iterationIndex))
    case ToolStarted(_, _, toolCallKey, _) => Some(OfTool(toolCallKey))
    case ToolChunk(_, _, toolCallKey, _, _) => Some(OfTool(toolCallKey))
    case ToolCompleted(_, _, toolCallKey, _, _, _) => Some(OfTool(toolCallKey))
    case ToolFailed(_, _, toolCallKey, _) => Some(OfTool(toolCallKey))
    case _ => None
  }

  function PositionOf(e: Event): int
    requires KeyOf(e).Some?
  {
    e.position.GetOr(0)
  }

  function Empty(key: BlockKey, position: int): (b: Block)
    ensures b.Key() == key
  {
    match key
    case OfText(kind, iterationIndex) => Text(position, kind, iterationIndex, [])
    case OfTool(toolCallKey) => Tool(position, toolCallKey, "", [], [], None, false, 0, false, "")
  }

  function Put(b: Block, e: Event): (r: Block)
    requires KeyOf(e) == Some(b.Key())
    ensures r.Key() == b.Key()
  {
    var b := b.Reaching(PositionOf(e));
    match e
    case Delta(_, _, _, _, text) => b.(slices := b.slices + [Slice(PositionOf(e), text)])
    case ToolStarted(_, _, _, command) => b.(command := command)
    case ToolChunk(_, _, _, Out, text) => b.(stdout := b.stdout + [Slice(PositionOf(e), text)])
    case ToolChunk(_, _, _, Err, text) => b.(stderr := b.stderr + [Slice(PositionOf(e), text)])
    case ToolCompleted(_, _, _, exitCode, timedOut, durationMs) =>
      b.(done := true, exitCode := exitCode, timedOut := timedOut, durationMs := durationMs)
    case ToolFailed(_, _, _, error) => b.(done := true, failure := error)
  }

  /** The first block with a key, or the length when there is none. */
  function Find(blocks: seq<Block>, key: BlockKey): (i: nat)
    ensures i <= |blocks|
    ensures i < |blocks| ==> blocks[i].Key() == key
    ensures forall j | 0 <= j < i :: blocks[j].Key() != key
  {
    if blocks == [] then 0 else if blocks[0].Key() == key then 0 else 1 + Find(blocks[1..], key)
  }

  /** Whichever event of a block comes first opens it. */
  function Touch(blocks: seq<Block>, e: Event): seq<Block> {
    match KeyOf(e)
    case None => blocks
    case Some(key) =>
      var i := Find(blocks, key);
      if i < |blocks| then blocks[i := Put(blocks[i], e)] else blocks + [Put(Empty(key, PositionOf(e)), e)]
  }

  function FoldBlocks(es: seq<Event>): seq<Block> {
    if es == [] then [] else Touch(FoldBlocks(es[..|es| - 1]), es[|es| - 1])
  }

  // ---- what is shown ----

  predicate SliceLeq(a: Slice, b: Slice) {
    a.position <= b.position
  }

  predicate BlockLeq(a: Block, b: Block) {
    a.position <= b.position
  }

  function Join(slices: seq<Slice>): string {
    if slices == [] then "" else slices[0].text + Join(slices[1..])
  }

  function TextOf(slices: seq<Slice>): string {
    Join(Sort(SliceLeq, slices))
  }

  function BlocksOf(blocks: seq<Block>): seq<Block> {
    Sort(BlockLeq, blocks)
  }

  datatype Shown =
    | ShownText(position: int, kind: TextKind, iterationIndex: int, text: string)
    | ShownTool(position: int, toolCallKey: string, command: string, stdout: string, stderr: string,
                exitCode: Option<int>, timedOut: bool, durationMs: int, done: bool, failure: string)

  function Render(b: Block): Shown {
    match b
    case Text(position, kind, iterationIndex, slices) => ShownText(position, kind, iterationIndex, TextOf(slices))
    case Tool(position, toolCallKey, command, stdout, stderr, exitCode, timedOut, durationMs, done, failure) =>
      ShownTool(position, toolCallKey, command, TextOf(stdout), TextOf(stderr), exitCode, timedOut, durationMs, done, failure)
  }

  /** What a reader sees of a turn: its blocks in order, their texts assembled. */
  function View(blocks: seq<Block>): (shown: seq<Shown>)
    ensures |shown| == |BlocksOf(blocks)|
  {
    var sorted := BlocksOf(blocks);
    seq(|sorted|, i requires 0 <= i < |sorted| => Render(sorted[i]))
  }

  // ---- a block is assembled from the events of its key, and nothing else ----

  function Touching(key: BlockKey): Event -> Option<Event> {
    e => if KeyOf(e) == Some(key) then Some(e) else None
  }

  ghost predicate AllTouch(key: BlockKey, ts: seq<Event>) {
    forall e <- ts :: KeyOf(e) == Some(key)
  }

  function Assemble(key: BlockKey, ts: seq<Event>): (b: Block)
    requires AllTouch(key, ts) && ts != []
    ensures b.Key() == key
  {
    var init, last := ts[..|ts| - 1], ts[|ts| - 1];
    Put(if init == [] then Empty(key, PositionOf(last)) else Assemble(key, init), last)
  }

  ghost predicate KeysDiffer(blocks: seq<Block>) {
    forall i, j | 0 <= i < j < |blocks| :: blocks[i].Key() != blocks[j].Key()
  }

  ghost predicate IsAssembled(b: Block, es: seq<Event>) {
    var ts := Collect(Touching(b.Key()), es);
    AllTouch(b.Key(), ts) && ts != [] && b == Assemble(b.Key(), ts)
  }

  lemma TouchedTouch(key: BlockKey, es: seq<Event>)
    ensures AllTouch(key, Collect(Touching(key), es))
    ensures forall e <- Collect(Touching(key), es) :: e in es
    ensures forall e <- es :: KeyOf(e) == Some(key) <==> e in Collect(Touching(key), es)
    ensures (forall e <- es :: KeyOf(e) != Some(key)) ==> Collect(Touching(key), es) == []
  {
    CollectMembers(Touching(key), es);
    if Collect(Touching(key), es) != [] {
      assert Collect(Touching(key), es)[0] in Collect(Touching(key), es);
      var e :| e in es && Touching(key)(e) == Some(Collect(Touching(key), es)[0]);
      assert KeyOf(e) == Some(key);
    }
    forall e <- es
      ensures KeyOf(e) == Some(key) ==> e in Collect(Touching(key), es)
    {
      if KeyOf(e) == Some(key) {
        assert Touching(key)(e) == Some(e);
      }
    }
  }

  lemma StaysAssembled(b: Block, es: seq<Event>, e: Event)
    requires IsAssembled(b, es) && KeyOf(e) != Some(b.Key())
    ensures IsAssembled(b, es + [e])
  {
    CollectNext(Touching(b.Key()), es, e);
    assert Collect(Touching(b.Key()), es + [e]) == Collect(Touching(b.Key()), es);
  }

  lemma GrowsAssembled(b: Block, es: seq<Event>, e: Event)
    requires IsAssembled(b, es) && KeyOf(e) == Some(b.Key())
    ensures IsAssembled(Put(b, e), es + [e])
  {
    CollectNext(Touching(b.Key()), es, e);
    var us := Collect(Touching(b.Key()), es + [e]);
    assert us[..|us| - 1] == Collect(Touching(b.Key()), es);
  }

  lemma OpensAssembled(es: seq<Event>, e: Event, key: BlockKey)
    requires KeyOf(e) == Some(key) && forall d <- es :: KeyOf(d) != Some(key)
    ensures IsAssembled(Put(Empty(key, PositionOf(e)), e), es + [e])
  {
    TouchedTouch(key, es);
    CollectNext(Touching(key), es, e);
  }

  /** The blocks are exactly those the events name, each assembled from its own events. */
  ghost predicate IsFold(blocks: seq<Block>, es: seq<Event>) {
    && KeysDiffer(blocks)
    && (forall b <- blocks :: IsAssembled(b, es))
    && (forall e <- es | KeyOf(e).Some? :: Find(blocks, KeyOf(e).value) < |blocks|)
  }

  lemma FindsMember(blocks: seq<Block>, b: Block)
    requires b in blocks && KeysDiffer(blocks)
    ensures Find(blocks, b.Key()) < |blocks| && blocks[Find(blocks, b.Key())] == b
  {
    var i :| 0 <= i < |blocks| && blocks[i] == b;
    var j := Find(blocks, b.Key());
    assert j <= i;
  }

  lemma TouchKeepsFold(blocks: seq<Block>, es: seq<Event>, e: Event)
    requires IsFold(blocks, es)
    ensures IsFold(Touch(blocks, e), es + [e])
  {
    var after := Touch(blocks, e);
    assert KeysDiffer(after);
    forall i | 0 <= i < |after|
      ensures IsAssembled(after[i], es + [e])
    {
      TouchAssembles(blocks, es, e, i);
    }
    forall d <- es + [e] | KeyOf(d).Some?
      ensures Find(after, KeyOf(d).value) < |after|
    {
      var i := Find(blocks, KeyOf(d).value);
      assert i < |after| && after[i].Key() == KeyOf(d).value;
    }
  }

  lemma TouchAssembles(blocks: seq<Block>, es: seq<Event>, e: Event, i: nat)
    requires IsFold(blocks, es) && i < |Touch(blocks, e)|
    ensures IsAssembled(Touch(blocks, e)[i], es + [e])
  {
    var b := Touch(blocks, e)[i];
    if KeyOf(e) != Some(b.Key()) {
      assert b == blocks[i];
      StaysAssembled(b, es, e);
    } else {
      var at := Find(blocks, b.Key());
      if at < |blocks| {
        assert i == at;
        GrowsAssembled(blocks[at], es, e);
      } else {
        OpensAssembled(es, e, b.Key());
      }
    }
  }

  lemma {:induction false} FoldIsFold(es: seq<Event>)
    ensures IsFold(FoldBlocks(es), es)
  {
    if es != [] {
      var init, last := es[..|es| - 1], es[|es| - 1];
      FoldIsFold(init);
      TouchKeepsFold(FoldBlocks(init), init, last);
      assert es == init + [last];
    }
  }
}
