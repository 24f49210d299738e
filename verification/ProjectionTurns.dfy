/** What the row of a rebuilt turn says, told by the facts of the turn. */
module ProjectionTurns {
  import opened Wrappers
  import opened Sequences
  import opened Sorting
  import opened ClientFold
  import opened Projection
  import opened ProjectionAgrees
  import opened ProjectionRebuild
  import opened ProjectionAgain

  /** The turn was opened, and this is what its opening says. */
  ghost predicate OpensAs(row: TurnRow, facts: seq<Fact>, turnKey: string) {
    forall o <- facts | IsOf(o, turnKey) && o.Opened? :: row.prompt == o.prompt && row.position == o.position
  }

  /** One more than the highest iteration that was replied to, or none. */
  ghost predicate CountsReplies(row: TurnRow, facts: seq<Fact>, turnKey: string) {
    && row.iterations >= 0
    && (forall f <- facts | IsOf(f, turnKey) && f.Replied? :: f.iterationIndex + 1 <= row.iterations)
    && (row.iterations > 0 ==> exists f <- facts :: IsOf(f, turnKey) && f.Replied? && f.iterationIndex + 1 == row.iterations)
  }

  /** How a turn ended: done with a final answer, failed when anything else stopped it. */
  predicate EndsAs(row: TurnRow, closing: Fact, now: int)
    requires closing.Closed?
  {
    && row.answer == closing.answer && row.endedAt == Some(now)
    && (if closing.stoppedBy == "" || closing.stoppedBy == "final" then row.phase == "done" && row.error == ""
        else row.phase == "failed" && row.error == "stopped by " + closing.stoppedBy)
  }

  predicate IsRunning(row: TurnRow) {
    row.phase == "running" && row.answer == "" && row.error == "" && row.endedAt.None?
  }

  ghost predicate IsClosed(facts: seq<Fact>, turnKey: string) {
    exists c <- facts :: IsOf(c, turnKey) && c.Closed?
  }

  ghost predicate IsOpened(facts: seq<Fact>, turnKey: string) {
    exists o <- facts :: IsOf(o, turnKey) && o.Opened?
  }

  ghost predicate RowTells(row: TurnRow, facts: seq<Fact>, turnKey: string, now: int) {
    && OpensAs(row, facts, turnKey) && CountsReplies(row, facts, turnKey)
    && (forall c <- facts | IsOf(c, turnKey) && c.Closed? :: EndsAs(row, c, now))
    && (!IsClosed(facts, turnKey) ==> IsRunning(row))
  }

  /** The turn has a row exactly when it was opened; the row tells of it, and counts the calls that have rows. */
  ghost predicate Tells(tables: Tables, facts: seq<Fact>, turnKey: string, now: int) {
    && (turnKey in tables.turns <==> IsOpened(facts, turnKey))
    && (turnKey in tables.turns ==>
          RowTells(tables.turns[turnKey], facts, turnKey, now)
          && tables.turns[turnKey].toolCalls == CountToolRows(tables.blocks, turnKey))
  }

  // ---- one fact more ----

  lemma OtherTurnTells(log: seq<Fact>, tables: Tables, facts: seq<Fact>, f: Fact, now: int, turnKey: string)
    requires !f.Streamed? && f.turnKey != turnKey && PlacesDiffer(tables.blocks) && Tells(tables, facts, turnKey, now)
    ensures Tells(Step(log, tables, f, now), facts + [f], turnKey, now)
  {
    var after := Step(log, tables, f, now);
    OtherTurnCounts(log, tables, f, now, turnKey);
    assert forall g | IsOf(g, turnKey) :: g in facts + [f] <==> g in facts;
    assert turnKey in tables.turns ==> after.turns[turnKey] == tables.turns[turnKey];
    if turnKey in tables.turns {
      SameFactsTell(tables.turns[turnKey], facts, facts + [f], turnKey, now);
    }
  }

  lemma OtherTurnCounts(log: seq<Fact>, tables: Tables, f: Fact, now: int, turnKey: string)
    requires !f.Streamed? && f.turnKey != turnKey && PlacesDiffer(tables.blocks)
    ensures CountToolRows(Step(log, tables, f, now).blocks, turnKey) == CountToolRows(tables.blocks, turnKey)
  {
    if f.turnKey != "" {
      RowsAreOfTurn(log, f);
      PutAllElsewhere(tables.blocks, RowsOf(log, f), turnKey);
    }
    CountIsWithin(tables.blocks, turnKey);
    CountIsWithin(Step(log, tables, f, now).blocks, turnKey);
  }

  /** Only the facts of the turn matter, and not how often or in which order they come. */
  lemma SameFactsTell(row: TurnRow, facts: seq<Fact>, others: seq<Fact>, turnKey: string, now: int)
    requires RowTells(row, facts, turnKey, now) && forall g | IsOf(g, turnKey) :: g in others <==> g in facts
    ensures RowTells(row, others, turnKey, now)
  {
  }

  /** A turn without rows has no calls to count. */
  lemma {:induction false} NoneIsCounted(blocks: seq<BlockRow>, turnKey: string)
    requires forall row <- blocks :: row.turnKey != turnKey
    ensures CountToolRows(blocks, turnKey) == 0
  {
    if blocks != [] {
      NoneIsCounted(blocks[..|blocks| - 1], turnKey);
    }
  }

  lemma OpeningTells(log: seq<Fact>, tables: Tables, facts: seq<Fact>, f: Fact, now: int)
    requires f.Opened? && f.turnKey != "" && Tells(tables, facts, f.turnKey, now)
    requires Holds(tables.blocks, log, facts, f.turnKey)
    requires forall g <- facts | IsOf(g, f.turnKey) :: g == f
    ensures Tells(Project(log, tables, f, now), facts + [f], f.turnKey, now)
  {
    var after := Project(log, tables, f, now);
    assert RowsOf(log, f) == [] && after.blocks == tables.blocks;
    assert f in facts + [f];
    NoneIsCounted(tables.blocks, f.turnKey);
    assert forall g <- facts + [f] | IsOf(g, f.turnKey) :: g == f;
    assert !IsClosed(facts, f.turnKey) && !IsClosed(facts + [f], f.turnKey);
  }

  lemma ReplyTells(row: TurnRow, facts: seq<Fact>, f: Fact, now: int)
    requires f.Replied? && RowTells(row, facts, f.turnKey, now)
    ensures RowTells(row.(iterations := Max(row.iterations, f.iterationIndex + 1)), facts + [f], f.turnKey, now)
  {
    var longer := facts + [f];
    assert f in longer && forall g <- facts :: g in longer;
    assert forall g <- longer | g != f :: g in facts;
    assert IsClosed(longer, f.turnKey) <==> IsClosed(facts, f.turnKey);
  }

  lemma EndTells(row: TurnRow, calls: nat, facts: seq<Fact>, f: Fact, now: int)
    requires f.Ended? && RowTells(row, facts, f.turnKey, now)
    ensures RowTells(row.(toolCalls := calls), facts + [f], f.turnKey, now)
  {
    var longer := facts + [f];
    assert forall g <- facts :: g in longer;
    assert forall g <- longer | g != f :: g in facts;
    assert IsClosed(longer, f.turnKey) <==> IsClosed(facts, f.turnKey);
  }

  lemma ClosingTells(row: TurnRow, facts: seq<Fact>, f: Fact, now: int)
    requires f.Closed? && RowTells(row, facts, f.turnKey, now)
    requires forall g <- facts | IsOf(g, f.turnKey) && g.Closed? :: g == f
    ensures RowTells(ClosedRow(row, f.stoppedBy, f.answer, now), facts + [f], f.turnKey, now)
  {
    var longer := facts + [f];
    assert f in longer && forall g <- facts :: g in longer;
    assert forall g <- longer | g != f :: g in facts;
    assert IsClosed(longer, f.turnKey);
  }

  lemma LaterTells(log: seq<Fact>, tables: Tables, facts: seq<Fact>, f: Fact, now: int)
    requires f in log && !f.Streamed? && !f.Opened? && FromLog(log, facts) && WellLogged(log, f.turnKey)
    requires Tells(tables, facts, f.turnKey, now) && Holds(tables.blocks, log, facts, f.turnKey)
    requires forall g <- facts | IsOf(g, f.turnKey) && g.Closed? && f.Closed? :: g == f
    ensures Tells(Project(log, tables, f, now), facts + [f], f.turnKey, now)
  {
    var k := f.turnKey;
    if !f.Ended? {
      CountGrowsByEnds(log, tables.blocks, facts, f);
    }
    assert IsOpened(facts + [f], k) <==> IsOpened(facts, k) by {
      OpeningStays(facts, f, k);
    }
    if k in tables.turns {
      match f
      case Replied(_, _, _) => ReplyTells(tables.turns[k], facts, f, now);
      case Ended(_, _, _, _, _, _, _) =>
        EndTells(tables.turns[k], CountToolRows(PutAll(tables.blocks, RowsOf(log, f)), k), facts, f, now);
      case Closed(_, _, _, _) => ClosingTells(tables.turns[k], facts, f, now);
    }
  }

  // ---- the whole rebuild ----

  /** The next fact to replay, and those before it: if it opens the turn, none of the others is of the turn. */
  lemma NthInOrder(log: seq<Fact>, n: nat, turnKey: string) returns (facts: seq<Fact>, f: Fact)
    requires n < |InOrder(log)| && Orderly(log, turnKey)
    ensures facts == InOrder(log)[..n] && InOrder(log)[..n + 1] == facts + [f]
    ensures f in log && !f.Streamed? && FromLog(log, facts)
    ensures f.Opened? && f.turnKey == turnKey ==> forall g <- facts | IsOf(g, turnKey) :: g == f
  {
    InOrderIsFromLog(log);
    facts, f := InOrder(log)[..n], InOrder(log)[n];
    assert f in InOrder(log);
    if f.Opened? && f.turnKey == turnKey {
      OpeningComesFirst(log, n, f);
    }
  }

  lemma {:induction false} ReplayTells(log: seq<Fact>, n: nat, now: int, turnKey: string)
    requires n <= |InOrder(log)| && turnKey != "" && WellLogged(log, turnKey) && Orderly(log, turnKey)
    ensures Tells(Replay(log, EMPTY, InOrder(log)[..n], now), InOrder(log)[..n], turnKey, now)
  {
    if n > 0 {
      ReplayTells(log, n - 1, now, turnKey);
      var facts, f := NthInOrder(log, n - 1, turnKey);
      ReplayHolds(log, facts, now, turnKey);
      ReplayNext(log, facts, f, now);
      StepTells(log, Replay(log, EMPTY, facts, now), facts, f, now, turnKey);
    }
  }

  lemma ReplayNext(log: seq<Fact>, facts: seq<Fact>, f: Fact, now: int)
    ensures Replay(log, EMPTY, facts + [f], now) == Step(log, Replay(log, EMPTY, facts, now), f, now)
  {
    assert (facts + [f])[..|facts|] == facts;
  }

  lemma StepTells(log: seq<Fact>, tables: Tables, facts: seq<Fact>, f: Fact, now: int, turnKey: string)
    requires f in log && !f.Streamed? && turnKey != "" && FromLog(log, facts)
    requires WellLogged(log, turnKey) && Orderly(log, turnKey)
    requires Tells(tables, facts, turnKey, now) && Holds(tables.blocks, log, facts, turnKey)
    requires f.Opened? && f.turnKey == turnKey ==> forall g <- facts | IsOf(g, turnKey) :: g == f
    ensures Tells(Step(log, tables, f, now), facts + [f], turnKey, now)
  {
    if f.turnKey != turnKey {
      OtherTurnTells(log, tables, facts, f, now, turnKey);
    } else if f.Opened? {
      OpeningTells(log, tables, facts, f, now);
    } else {
      LaterTells(log, tables, facts, f, now);
    }
  }

  function ToolKeys(blocks: seq<BlockRow>, turnKey: string): set<string> {
    set row <- blocks | row.turnKey == turnKey && row.kind.ToolRow? :: row.toolCallKey
  }

  /** The calls of the turn that ended. */
  function CallsEnded(log: seq<Fact>, turnKey: string): set<string> {
    set f <- log | IsOf(f, turnKey) && f.Ended? :: f.toolCallKey
  }

  ghost predicate CallsDiffer(blocks: seq<BlockRow>, turnKey: string) {
    forall i, j | 0 <= i < j < |blocks| && blocks[i].turnKey == turnKey == blocks[j].turnKey
                  && blocks[i].kind.ToolRow? && blocks[j].kind.ToolRow? :: blocks[i].toolCallKey != blocks[j].toolCallKey
  }

  lemma {:induction false} CountIsOfKeys(blocks: seq<BlockRow>, turnKey: string)
    requires CallsDiffer(blocks, turnKey)
    ensures CountToolRows(blocks, turnKey) == |ToolKeys(blocks, turnKey)|
  {
    if blocks != [] {
      var init, last := blocks[..|blocks| - 1], blocks[|blocks| - 1];
      CountIsOfKeys(init, turnKey);
      assert blocks == init + [last];
      OneMoreKey(init, last, turnKey);
      assert last.turnKey == turnKey && last.kind.ToolRow? ==> last.toolCallKey !in ToolKeys(init, turnKey);
    }
  }

  lemma OneMoreKey(init: seq<BlockRow>, last: BlockRow, turnKey: string)
    ensures ToolKeys(init + [last], turnKey)
         == ToolKeys(init, turnKey) + if last.turnKey == turnKey && last.kind.ToolRow? then {last.toolCallKey} else {}
  {
    var blocks := init + [last];
    assert forall row :: row in blocks <==> row in init || row == last;
  }

  /** A call's row is that of the one fact that ended it. */
  lemma ToolRowIsOfEnd(log: seq<Fact>, facts: seq<Fact>, blocks: seq<BlockRow>, turnKey: string, row: BlockRow) returns (f: Fact)
    requires Holds(blocks, log, facts, turnKey) && row in blocks && row.turnKey == turnKey && row.kind.ToolRow?
    ensures f in facts && IsOf(f, turnKey) && f.Ended? && f.toolCallKey == row.toolCallKey && RowsOf(log, f) == [row]
  {
    f :| f in facts && IsOf(f, turnKey) && row in RowsOf(log, f);
    if f.Replied? {
      TextRowIsTold(log, f, row);
    }
  }

  lemma CountIsOfCalls(log: seq<Fact>, blocks: seq<BlockRow>, turnKey: string)
    requires WellLogged(log, turnKey) && Holds(blocks, log, InOrder(log), turnKey)
    ensures CountToolRows(blocks, turnKey) == |CallsEnded(log, turnKey)|
  {
    HeldCallsDiffer(log, blocks, turnKey);
    CountIsOfKeys(blocks, turnKey);
    HeldCallsEnded(log, blocks, turnKey);
  }

  lemma HeldCallsDiffer(log: seq<Fact>, blocks: seq<BlockRow>, turnKey: string)
    requires WellLogged(log, turnKey) && Holds(blocks, log, InOrder(log), turnKey)
    ensures CallsDiffer(blocks, turnKey)
  {
    InOrderIsFromLog(log);
    forall i, j | 0 <= i < j < |blocks| && blocks[i].turnKey == turnKey == blocks[j].turnKey
                  && blocks[i].kind.ToolRow? && blocks[j].kind.ToolRow?
      ensures blocks[i].toolCallKey != blocks[j].toolCallKey
    {
      var f := ToolRowIsOfEnd(log, InOrder(log), blocks, turnKey, blocks[i]);
      var g := ToolRowIsOfEnd(log, InOrder(log), blocks, turnKey, blocks[j]);
      assert !SamePlace(blocks[i], blocks[j]);
    }
  }

  lemma HeldCallsEnded(log: seq<Fact>, blocks: seq<BlockRow>, turnKey: string)
    requires WellLogged(log, turnKey) && Holds(blocks, log, InOrder(log), turnKey)
    ensures ToolKeys(blocks, turnKey) == CallsEnded(log, turnKey)
  {
    InOrderIsFromLog(log);
    forall call <- ToolKeys(blocks, turnKey)
      ensures call in CallsEnded(log, turnKey)
    {
      var row :| row in blocks && row.turnKey == turnKey && row.kind.ToolRow? && row.toolCallKey == call;
      var f := ToolRowIsOfEnd(log, InOrder(log), blocks, turnKey, row);
    }
    forall call <- CallsEnded(log, turnKey)
      ensures call in ToolKeys(blocks, turnKey)
    {
      var f :| f in log && IsOf(f, turnKey) && f.Ended? && f.toolCallKey == call;
      assert ToolRowOf(log, f) in RowsOf(log, f);
    }
  }

  /**
    The row of a rebuilt turn. There is one exactly when the turn was opened. It
    has the opening's prompt and position; one more than the highest iteration
    replied to; as many calls as have ended; and it is running until the turn's
    closing makes it done or failed, with that closing's answer.
   */
  lemma RebuiltRowTells(log: seq<Fact>, turnKey: string, now: int)
    requires turnKey != "" && WellLogged(log, turnKey) && Orderly(log, turnKey)
    ensures var turns := Rebuilt(log, EMPTY, now).turns;
            && (turnKey in turns <==> IsOpened(log, turnKey))
            && (turnKey in turns ==>
                  RowTells(turns[turnKey], log, turnKey, now) && turns[turnKey].toolCalls == |CallsEnded(log, turnKey)|)
  {
    InOrderIsFromLog(log);
    var facts, tables := InOrder(log), Rebuilt(log, EMPTY, now);
    assert facts[..|facts|] == facts;
    ReplayTells(log, |facts|, now, turnKey);
    ReplayHolds(log, facts, now, turnKey);
    CountIsOfCalls(log, tables.blocks, turnKey);
    assert forall g | IsOf(g, turnKey) :: g in facts <==> g in log;
    if turnKey in tables.turns {
      SameFactsTell(tables.turns[turnKey], facts, log, turnKey, now);
    }
  }

  // ---- block rows ----

  /** What a row is of: this stays when the row is written again. */
  predicate SameSubject(a: BlockRow, b: BlockRow) {
    a.kind == b.kind && a.iterationIndex == b.iterationIndex && a.toolCallKey == b.toolCallKey
  }

  predicate SameContents(a: BlockRow, b: BlockRow) {
    && a.body == b.body && a.command == b.command
    && a.exitCode == b.exitCode && a.timedOut == b.timedOut && a.durationMs == b.durationMs
  }

  /**
    Writing a row. At its place there is then one row with its contents, which
    stays a row of what it was of if there was one before; rows anywhere else are
    as they were.
   */
  lemma UpsertTakesContents(blocks: seq<BlockRow>, row: BlockRow)
    requires PlacesDiffer(blocks)
    ensures PlacesDiffer(Upsert(blocks, row))
    ensures exists r <- Upsert(blocks, row) :: SamePlace(r, row) && SameContents(r, row)
    ensures forall r <- Upsert(blocks, row), q <- blocks | SamePlace(r, row) && SamePlace(q, row) :: SameSubject(r, q)
    ensures (forall q <- blocks :: !SamePlace(q, row)) ==> row in Upsert(blocks, row)
    ensures forall r | !SamePlace(r, row) :: r in Upsert(blocks, row) <==> r in blocks
  {
    var i, after := FindRow(blocks, row.turnKey, row.position), Upsert(blocks, row);
    assert SamePlace(after[i], row) && SameContents(after[i], row) && after[i] in after;
    assert i < |blocks| ==> blocks[i] in blocks && SamePlace(blocks[i], row);
    assert i == |blocks| ==> after == blocks + [row];
    assert forall j | 0 <= j < |blocks| && j != i :: after[j] == blocks[j];
  }

  /** Every call row of a rebuilt turn is that of a call that ended, with its iteration and its outcome; no call is left out. */
  lemma RebuiltCallTells(log: seq<Fact>, turnKey: string, now: int)
    requires turnKey != "" && WellLogged(log, turnKey)
    ensures var blocks := Rebuilt(log, EMPTY, now).blocks;
            && (forall row <- blocks | row.turnKey == turnKey && row.kind.ToolRow? ::
                  exists f <- log :: IsOf(f, turnKey) && f.Ended? && EndedSo(row, f))
            && (forall f <- log | IsOf(f, turnKey) && f.Ended? ::
                  exists row <- blocks :: row.turnKey == turnKey && row.kind.ToolRow? && EndedSo(row, f))
  {
    InOrderIsFromLog(log);
    ReplayHolds(log, InOrder(log), now, turnKey);
    var blocks := Rebuilt(log, EMPTY, now).blocks;
    forall row <- blocks | row.turnKey == turnKey && row.kind.ToolRow?
      ensures exists f <- log :: IsOf(f, turnKey) && f.Ended? && EndedSo(row, f)
    {
      var f := ToolRowIsOfEnd(log, InOrder(log), blocks, turnKey, row);
      assert f in log && EndedSo(row, f);
    }
    forall f <- log | IsOf(f, turnKey) && f.Ended?
      ensures exists row <- blocks :: row.turnKey == turnKey && row.kind.ToolRow? && EndedSo(row, f)
    {
      assert ToolRowOf(log, f) in RowsOf(log, f);
    }
  }

  predicate EndedSo(row: BlockRow, f: Fact)
    requires f.Ended?
  {
    && row.toolCallKey == f.toolCallKey && row.iterationIndex == f.iterationIndex
    && row.exitCode == f.exitCode && row.timedOut == f.timedOut && row.durationMs == f.durationMs
  }
}
