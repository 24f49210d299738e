/** The read model: turn rows and block rows, upserted from facts and the log they point into. */
module Projection {
  import opened Wrappers
  import opened Whitespace
  import opened Sequences
  import opened Sorting
  import opened ClientFold

  /** The facts of a session, as logged. The first four are projected; the rest are only read back. */
  datatype Fact =
    | Opened(turnKey: string, position: int, prompt: string)
    | Replied(turnKey: string, position: int, iterationIndex: int)
    | Ended(turnKey: string, position: int, iterationIndex: int, toolCallKey: string, exitCode: Option<int>,
            timedOut: bool, durationMs: int)
    | Closed(turnKey: string, position: int, stoppedBy: string, answer: string)
    | Streamed(event: Event)

  datatype RowKind = TextRow(kind: TextKind) | ToolRow

  datatype BlockRow = BlockRow(turnKey: string, position: int, kind: RowKind, iterationIndex: int, toolCallKey: string,
                               command: string, body: string, exitCode: Option<int>, timedOut: bool, durationMs: int)

  datatype TurnRow = TurnRow(position: int, prompt: string, phase: string, answer: string, error: string,
                             iterations: int, toolCalls: nat, endedAt: Option<int>)

  datatype Tables = Tables(turns: map<string, TurnRow>, blocks: seq<BlockRow>)

  // ---- reads of the log ----

  /** The streamed events a query selects. */
  function DeltasOf(turnKey: string, iterationIndex: int): Fact -> Option<Event> {
    (fact: Fact) =>
      if fact.Streamed? && fact.event.Delta? && fact.event.turnKey == turnKey
         && fact.event.iterationIndex == iterationIndex
      then Some(fact.event) else None
  }

  function OutputOf(turnKey: string, toolCallKey: string): Fact -> Option<Event> {
    (fact: Fact) =>
      if fact.Streamed? && (fact.event.ToolStarted? || fact.event.ToolChunk?) && fact.event.turnKey == turnKey
         && fact.event.toolCallKey == toolCallKey
      then Some(fact.event) else None
  }

  /** Rows come in the order of their positions, those without one last. */
  predicate PositionLeq(a: Event, b: Event) {
    HasPosition(b) ==> HasPosition(a) && PositionOr0(a) <= PositionOr0(b)
  }

  predicate HasPosition(e: Event) {
    e.Delta? || e.ToolStarted? || e.ToolChunk? || e.ToolCompleted? || e.ToolFailed? ==> e.position.Some?
  }

  function PositionOr0(e: Event): int {
    if e.Delta? || e.ToolStarted? || e.ToolChunk? || e.ToolCompleted? || e.ToolFailed? then e.position.GetOr(0) else 0
  }

  function Spoken(kind: TextKind): Event -> Option<Slice> {
    (e: Event) => if e.Delta? && e.kind == kind then Some(Slice(PositionOr0(e), e.text)) else None
  }

  function Chunked(s: Stream): Event -> Option<Slice> {
    (e: Event) => if e.ToolChunk? && e.stream == s then Some(Slice(PositionOr0(e), e.text)) else None
  }

  function StartOf(e: Event): Option<Event> {
    if e.ToolStarted? then Some(e) else None
  }

  // ---- what a fact projects to ----

  /** The two streams, leaving out one that trims to nothing. */
  function Body(out: string, err: string): string {
    if Trim(out) == "" then if Trim(err) == "" then "" else err
    else if Trim(err) == "" then out
    else out + "\n" + err
  }

  /** Each stream that has more than white space to it, whole, standard output first. */
  lemma BodySays(out: string, err: string)
    ensures !IsBlank(out) && !IsBlank(err) ==> Body(out, err) == out + "\n" + err
    ensures !IsBlank(out) && IsBlank(err) ==> Body(out, err) == out
    ensures IsBlank(out) ==> Body(out, err) == if IsBlank(err) then "" else err
  {
    TrimmedAway(out);
    TrimmedAway(err);
  }

  /** One kind of an iteration's text: no row when there is none. */
  function TextRows(log: seq<Fact>, turnKey: string, iterationIndex: int, kind: TextKind): seq<BlockRow> {
    var spoken := Collect(Spoken(kind), Sort(PositionLeq, Collect(DeltasOf(turnKey, iterationIndex), log)));
    var body := Join(spoken);
    if body == "" then []
    else [BlockRow(turnKey, if spoken == [] then 0 else spoken[0].position, TextRow(kind), iterationIndex, "", "", body,
                   None, false, 0)]
  }

  function ToolRowOf(log: seq<Fact>, ended: Fact): BlockRow
    requires ended.Ended?
  {
    var rows := Sort(PositionLeq, Collect(OutputOf(ended.turnKey, ended.toolCallKey), log));
    var starts := Collect(StartOf, rows);
    var startedAt := if starts == [] then 0 else PositionOr0(starts[0]);
    BlockRow(ended.turnKey,
             if startedAt != 0 then startedAt else if rows == [] then 0 else PositionOr0(rows[0]),
             ToolRow, ended.iterationIndex, ended.toolCallKey,
             if starts != [] && starts[0].ToolStarted? then starts[0].command else "",
             Body(Join(Collect(Chunked(Out), rows)), Join(Collect(Chunked(Err), rows))),
             ended.exitCode, ended.timedOut, ended.durationMs)
  }

  function RowsOf(log: seq<Fact>, fact: Fact): seq<BlockRow> {
    match fact
    case Replied(turnKey, _, i) => TextRows(log, turnKey, i, Reasoning) + TextRows(log, turnKey, i, Message)
    case Ended(_, _, _, _, _, _, _) => [ToolRowOf(log, fact)]
    case _ => []
  }

  // ---- the writes ----

  function FindRow(blocks: seq<BlockRow>, turnKey: string, position: int): (i: nat)
    ensures i <= |blocks|
    ensures i < |blocks| ==> blocks[i].turnKey == turnKey && blocks[i].position == position
    ensures forall j | 0 <= j < i :: !(blocks[j].turnKey == turnKey && blocks[j].position == position)
  {
    if blocks == [] then 0
    else if blocks[0].turnKey == turnKey && blocks[0].position == position then 0
    else 1 + FindRow(blocks[1..], turnKey, position)
  }

  /** A row already at the position keeps its identity and takes the new contents. */
  function Upsert(blocks: seq<BlockRow>, row: BlockRow): seq<BlockRow> {
    var i := FindRow(blocks, row.turnKey, row.position);
    if i < |blocks| then
      blocks[i := blocks[i].(body := row.body, command := row.command, exitCode := row.exitCode,
                             timedOut := row.timedOut, durationMs := row.durationMs)]
    else blocks + [row]
  }

  function PutAll(blocks: seq<BlockRow>, rows: seq<BlockRow>): seq<BlockRow> {
    if rows == [] then blocks else Upsert(PutAll(blocks, rows[..|rows| - 1]), rows[|rows| - 1])
  }

  function CountToolRows(blocks: seq<BlockRow>, turnKey: string): nat {
    if blocks == [] then 0
    else
      var last := blocks[|blocks| - 1];
      CountToolRows(blocks[..|blocks| - 1], turnKey) + if last.turnKey == turnKey && last.kind.ToolRow? then 1 else 0
  }

  function Max(a: int, b: int): int {
    if a < b then b else a
  }

  function OpenedRow(turns: map<string, TurnRow>, turnKey: string, position: int, prompt: string): TurnRow {
    if turnKey in turns then turns[turnKey].(prompt := prompt, position := position)
    else TurnRow(position, prompt, "running", "", "", 0, 0, None)
  }

  function ClosedRow(row: TurnRow, stoppedBy: string, answer: string, now: int): TurnRow {
    var failed := stoppedBy != "" && stoppedBy != "final";
    row.(phase := if failed then "failed" else "done", answer := answer,
         error := if failed then "stopped by " + stoppedBy else "", endedAt := Some(now))
  }

  /** A turn's row after one of its facts; only its opening can make one. */
  function TurnsAfter(turns: map<string, TurnRow>, blocks: seq<BlockRow>, fact: Fact, now: int): map<string, TurnRow> {
    match fact
    case Opened(turnKey, position, prompt) => turns[turnKey := OpenedRow(turns, turnKey, position, prompt)]
    case Replied(turnKey, _, i) =>
      if turnKey in turns then turns[turnKey := turns[turnKey].(iterations := Max(turns[turnKey].iterations, i + 1))]
      else turns
    case Ended(turnKey, _, _, _, _, _, _) =>
      if turnKey in turns then turns[turnKey := turns[turnKey].(toolCalls := CountToolRows(blocks, turnKey))] else turns
    case Closed(turnKey, _, stoppedBy, answer) =>
      if turnKey in turns then turns[turnKey := ClosedRow(turns[turnKey], stoppedBy, answer, now)] else turns
    case Streamed(_) => turns
  }

  function Project(log: seq<Fact>, tables: Tables, fact: Fact, now: int): Tables {
    var blocks := PutAll(tables.blocks, RowsOf(log, fact));
    Tables(TurnsAfter(tables.turns, blocks, fact, now), blocks)
  }

  // ---- rebuilding ----

  predicate FactLeq(a: Fact, b: Fact) {
    FactPosition(a) <= FactPosition(b)
  }

  function FactPosition(fact: Fact): int {
    if fact.Streamed? then PositionOr0(fact.event) else fact.position
  }

  /** The facts a rebuild replays; one without a turn it steps over. */
  function Replayed(fact: Fact): Option<Fact> {
    if fact.Streamed? then None else Some(fact)
  }

  function Step(log: seq<Fact>, tables: Tables, fact: Fact, now: int): Tables {
    if fact.Streamed? || fact.turnKey == "" then tables else Project(log, tables, fact, now)
  }

  function Replay(log: seq<Fact>, tables: Tables, facts: seq<Fact>, now: int): Tables {
    if facts == [] then tables
    else Step(log, Replay(log, tables, facts[..|facts| - 1], now), facts[|facts| - 1], now)
  }

  function Rebuilt(log: seq<Fact>, tables: Tables, now: int): Tables {
    Replay(log, tables, Sort(FactLeq, Collect(Replayed, log)), now)
  }

  predicate RowLeq(a: BlockRow, b: BlockRow) {
    a.position <= b.position
  }

  function InTurn(turnKey: string): BlockRow -> Option<BlockRow> {
    (row: BlockRow) => if row.turnKey == turnKey then Some(row) else None
  }

  /** A turn's bodies, as read when somebody opens it. */
  function Read(tables: Tables, turnKey: string): seq<BlockRow> {
    Sort(RowLeq, Collect(InTurn(turnKey), tables.blocks))
  }

  class ViewStore {
    var turns: map<string, TurnRow>
    var blocks: seq<BlockRow>

    constructor ()
      ensures Value() == Tables(map[], [])
    {
      turns, blocks := map[], [];
    }

    function Value(): Tables
      reads this
    {
      Tables(turns, blocks)
    }

    method StartTurn(turnKey: string, position: int, prompt: string)
      modifies this
      ensures blocks == old(blocks)
      ensures turns == old(turns)[turnKey := OpenedRow(old(turns), turnKey, position, prompt)]
    {
      if turnKey in turns {
        turns := turns[turnKey := turns[turnKey].(prompt := prompt, position := position)];
      } else {
        turns := turns[turnKey := TurnRow(position, prompt, "running", "", "", 0, 0, None)];
      }
    }

    method FinishTurn(turnKey: string, phase: string, answer: string, error: string, now: int)
      modifies this
      ensures blocks == old(blocks)
      ensures turnKey !in old(turns) ==> turns == old(turns)
      ensures turnKey in old(turns) ==> turns == old(turns)[turnKey := old(turns)[turnKey].(
                                                              phase := phase, answer := answer, error := error,
                                                              endedAt := Some(now))]
    {
      if turnKey in turns {
        var row := turns[turnKey];
        turns := turns[turnKey := row.(phase := phase, answer := answer, error := error, endedAt := Some(now))];
      }
    }

    method PutBlock(row: BlockRow)
      modifies this`blocks
      ensures blocks == Upsert(old(blocks), row)
    {
      var i := 0;
      while i < |blocks| && !(blocks[i].turnKey == row.turnKey && blocks[i].position == row.position)
        invariant i <= |blocks|
        invariant forall j | 0 <= j < i :: !(blocks[j].turnKey == row.turnKey && blocks[j].position == row.position)
      {
        i := i + 1;
      }
      var found := FindRow(blocks, row.turnKey, row.position);
      assert !(found < i) && !(i < found);
      if i < |blocks| {
        blocks := blocks[i := blocks[i].(body := row.body, command := row.command, exitCode := row.exitCode,
                                         timedOut := row.timedOut, durationMs := row.durationMs)];
      } else {
        blocks := blocks + [row];
      }
    }

    method PutText(log: seq<Fact>, turnKey: string, iterationIndex: int, kind: TextKind)
      modifies this`blocks
      ensures blocks == PutAll(old(blocks), TextRows(log, turnKey, iterationIndex, kind))
    {
      var spoken := Collect(Spoken(kind), Sort(PositionLeq, Collect(DeltasOf(turnKey, iterationIndex), log)));
      var body := Join(spoken);
      if body != "" {
        PutBlock(BlockRow(turnKey, if spoken == [] then 0 else spoken[0].position, TextRow(kind), iterationIndex, "", "",
                          body, None, false, 0));
      }
    }

    method ProjectIteration(log: seq<Fact>, turnKey: string, position: int, iterationIndex: int, now: int)
      modifies this
      ensures Value() == Project(log, old(Value()), Replied(turnKey, position, iterationIndex), now)
    {
      PutText(log, turnKey, iterationIndex, Reasoning);
      PutText(log, turnKey, iterationIndex, Message);
      PutAllInTurn(old(blocks), TextRows(log, turnKey, iterationIndex, Reasoning),
                   TextRows(log, turnKey, iterationIndex, Message));
      if turnKey in turns {
        turns := turns[turnKey := turns[turnKey].(iterations := Max(turns[turnKey].iterations, iterationIndex + 1))];
      }
    }

    method ProjectTool(log: seq<Fact>, ended: Fact, now: int)
      requires ended.Ended?
      modifies this
      ensures Value() == Project(log, old(Value()), ended, now)
    {
      var row := ToolRowOf(log, ended);
      PutBlock(row);
      assert PutAll(old(blocks), [row][..0]) == old(blocks);
      if ended.turnKey in turns {
        turns := turns[ended.turnKey := turns[ended.turnKey].(toolCalls := CountToolRows(blocks, ended.turnKey))];
      }
    }

    /** Replays a session's facts in the order their emitters gave them. */
    method Rebuild(log: seq<Fact>, now: int) returns (count: nat)
      modifies this
      ensures Value() == Rebuilt(log, old(Value()), now)
      ensures count == |Sort(FactLeq, Collect(Replayed, log))|
    {
      var rows := Sort(FactLeq, Collect(Replayed, log));
      for i := 0 to |rows|
        invariant Value() == Replay(log, old(Value()), rows[..i], now)
      {
        var fact := rows[i];
        assert rows[..i + 1][..i] == rows[..i];
        if !fact.Streamed? && fact.turnKey != "" {
          match fact {
            case Opened(turnKey, position, prompt) => StartTurn(turnKey, position, prompt);
            case Replied(turnKey, position, index) => ProjectIteration(log, turnKey, position, index, now);
            case Ended(_, _, _, _, _, _, _) => ProjectTool(log, fact, now);
            case Closed(turnKey, _, stoppedBy, answer) =>
              var failed := stoppedBy != "" && stoppedBy != "final";
              FinishTurn(turnKey, if failed then "failed" else "done", answer,
                         if failed then "stopped by " + stoppedBy else "", now);
          }
        }
      }
      assert rows[..|rows|] == rows;
      count := |rows|;
    }
  }

  lemma {:induction false} PutAllInTurn(blocks: seq<BlockRow>, xs: seq<BlockRow>, ys: seq<BlockRow>)
    ensures PutAll(PutAll(blocks, xs), ys) == PutAll(blocks, xs + ys)
  {
    if ys == [] {
      assert xs + ys == xs;
    } else {
      PutAllInTurn(blocks, xs, ys[..|ys| - 1]);
      assert (xs + ys)[..|xs + ys| - 1] == xs + ys[..|ys| - 1];
    }
  }
}
