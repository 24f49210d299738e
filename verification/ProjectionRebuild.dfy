/** What rebuilding leaves in the tables, and that doing any of it again changes nothing. */
module ProjectionRebuild {
  import opened Wrappers
  import opened Sequences
  import opened Sorting
  import opened ClientFold
  import opened ClientConvergence
  import opened ClientSession
  import opened Projection
  import opened ProjectionAgrees

  // ---- one upsert ----

  predicate SamePlace(r: BlockRow, q: BlockRow) {
    r.turnKey == q.turnKey && r.position == q.position
  }

  ghost predicate PlacesDiffer(blocks: seq<BlockRow>) {
    forall i, j | 0 <= i < j < |blocks| :: !SamePlace(blocks[i], blocks[j])
  }

  /** Nothing but the row itself may already be where it goes. */
  ghost predicate Fits(blocks: seq<BlockRow>, row: BlockRow) {
    forall r <- blocks | SamePlace(r, row) :: r == row
  }

  lemma UpsertFits(blocks: seq<BlockRow>, row: BlockRow)
    requires PlacesDiffer(blocks) && Fits(blocks, row)
    ensures PlacesDiffer(Upsert(blocks, row))
    ensures Upsert(blocks, row) == if row in blocks then blocks else blocks + [row]
  {
    var i := FindRow(blocks, row.turnKey, row.position);
    if i < |blocks| {
      assert blocks[i] in blocks && SamePlace(blocks[i], row);
    }
  }

  /** The rows of one turn. */
  function Within(turnKey: string, blocks: seq<BlockRow>): seq<BlockRow> {
    Collect(InTurn(turnKey), blocks)
  }

  lemma {:induction false} UpdateElsewhere(blocks: seq<BlockRow>, i: nat, row: BlockRow, turnKey: string)
    requires i < |blocks| && blocks[i].turnKey != turnKey && row.turnKey != turnKey
    ensures Within(turnKey, blocks[i := row]) == Within(turnKey, blocks)
  {
    if i < |blocks| - 1 {
      UpdateElsewhere(blocks[..|blocks| - 1], i, row, turnKey);
      assert blocks[i := row][..|blocks| - 1] == blocks[..|blocks| - 1][i := row];
    } else {
      assert blocks[i := row][..|blocks| - 1] == blocks[..|blocks| - 1];
    }
  }

  lemma UpsertElsewhere(blocks: seq<BlockRow>, row: BlockRow, turnKey: string)
    requires row.turnKey != turnKey && PlacesDiffer(blocks)
    ensures Within(turnKey, Upsert(blocks, row)) == Within(turnKey, blocks) && PlacesDiffer(Upsert(blocks, row))
  {
    var i := FindRow(blocks, row.turnKey, row.position);
    if i < |blocks| {
      UpdateElsewhere(blocks, i, Upsert(blocks, row)[i], turnKey);
    } else {
      CollectNext(InTurn(turnKey), blocks, row);
      assert Within(turnKey, blocks + [row]) == Within(turnKey, blocks);
    }
  }

  lemma WithinMembers(turnKey: string, blocks: seq<BlockRow>)
    ensures forall r :: r in Within(turnKey, blocks) <==> r in blocks && r.turnKey == turnKey
  {
    CollectMembers(InTurn(turnKey), blocks);
    forall r
      ensures r in Within(turnKey, blocks) <==> r in blocks && r.turnKey == turnKey
    {
      if r in blocks && r.turnKey == turnKey {
        assert InTurn(turnKey)(r) == Some(r);
      }
    }
  }

  // ---- the rows of a turn's facts ----

  lemma RowsAreOfTurn(log: seq<Fact>, fact: Fact)
    requires !fact.Streamed?
    ensures forall row <- RowsOf(log, fact) :: row.turnKey == fact.turnKey
  {
  }

  /** The block a row tells of. */
  lemma RowHasBlock(log: seq<Fact>, fact: Fact, row: BlockRow) returns (b: Block)
    requires fact in log && !fact.Streamed? && WellLogged(log, fact.turnKey) && row in RowsOf(log, fact)
    ensures b in FoldBlocks(EventsOf(log, fact.turnKey)) && ByScreen(Render(b)) == ByRow(row)
  {
    var es := EventsOf(log, fact.turnKey);
    var key := match fact
      case Ended(_, _, _, call, _, _, _) => OfTool(call)
      case Replied(_, _, i) => OfText(if row in TextRows(log, fact.turnKey, i, Reasoning) then Reasoning else Message, i)
      case _ => OfTool("");
    var ts := Collect(Touching(key), es);
    if fact.Ended? {
      ToolRowTells(log, fact);
    } else {
      TextRowTells(log, fact.turnKey, key);
    }
    b := KeyHasBlock(es, key);
  }

  lemma KeyHasBlock(es: seq<Event>, key: BlockKey) returns (b: Block)
    requires Collect(Touching(key), es) != []
    ensures b in FoldBlocks(es) && AllTouch(key, Collect(Touching(key), es)) && b == Assemble(key, Collect(Touching(key), es))
  {
    FoldIsFold(es);
    TouchedTouch(key, es);
    var e := Collect(Touching(key), es)[0];
    assert e in Collect(Touching(key), es);
    assert KeyOf(e) == Some(key) && e in es;
    b := FoldBlocks(es)[Find(FoldBlocks(es), key)];
    assert IsAssembled(b, es);
  }

  lemma TextRowIsTold(log: seq<Fact>, f: Fact, r: BlockRow)
    requires f.Replied? && r in RowsOf(log, f)
    ensures r.kind.TextRow?
    ensures r == BlockRow(f.turnKey, r.position, r.kind, r.iterationIndex, "", "", r.body, None, false, 0)
  {
  }

  /** Rows of a turn that meet in one place are one row. */
  lemma RowsFit(log: seq<Fact>, f: Fact, g: Fact, r: BlockRow, q: BlockRow)
    requires f in log && g in log && !f.Streamed? && !g.Streamed? && f.turnKey == g.turnKey && WellLogged(log, f.turnKey)
    requires r in RowsOf(log, f) && q in RowsOf(log, g) && r.position == q.position
    ensures r == q
  {
    assert ByRow(r) == ByRow(q) by {
      var b := RowHasBlock(log, f, r);
      var c := RowHasBlock(log, g, q);
      FoldPositions(EventsOf(log, f.turnKey));
    }
    if f.Replied? {
      TextRowIsTold(log, f, r);
      if g.Replied? {
        TextRowIsTold(log, g, q);
      }
    } else if g.Replied? {
      TextRowIsTold(log, g, q);
    } else {
      assert f == g;
    }
  }

  // ---- the tables after part of a replay ----

  /** The turn's rows are exactly those of its facts replayed so far. */
  ghost predicate Holds(blocks: seq<BlockRow>, log: seq<Fact>, facts: seq<Fact>, turnKey: string) {
    && PlacesDiffer(blocks)
    && (forall f <- facts | IsOf(f, turnKey) :: forall row <- RowsOf(log, f) :: row in blocks)
    && (forall row <- blocks | row.turnKey == turnKey :: exists f <- facts :: IsOf(f, turnKey) && row in RowsOf(log, f))
  }

  ghost predicate FromLog(log: seq<Fact>, facts: seq<Fact>) {
    forall f <- facts :: f in log && !f.Streamed?
  }

  lemma {:induction false} PutAllElsewhere(blocks: seq<BlockRow>, rows: seq<BlockRow>, turnKey: string)
    requires PlacesDiffer(blocks) && forall r <- rows :: r.turnKey != turnKey
    ensures Within(turnKey, PutAll(blocks, rows)) == Within(turnKey, blocks) && PlacesDiffer(PutAll(blocks, rows))
  {
    if rows != [] {
      PutAllElsewhere(blocks, rows[..|rows| - 1], turnKey);
      UpsertElsewhere(PutAll(blocks, rows[..|rows| - 1]), rows[|rows| - 1], turnKey);
    }
  }

  lemma LastFits(blocks: seq<BlockRow>, before: seq<BlockRow>, rows: seq<BlockRow>)
    requires rows != [] && forall r :: r in before <==> r in blocks || r in rows[..|rows| - 1]
    requires forall r <- rows :: Fits(blocks, r) && forall q <- rows | SamePlace(q, r) :: q == r
    ensures Fits(before, rows[|rows| - 1])
  {
    var last := rows[|rows| - 1];
    assert last in rows && Fits(blocks, last);
    forall r <- before | SamePlace(r, last)
      ensures r == last
    {
      if r !in blocks {
        assert r in rows[..|rows| - 1] && r in rows;
      }
    }
  }

  /** Rows that fit the table and one another are added where they are missing, and nothing else changes. */
  lemma {:induction false} PutAllFits(blocks: seq<BlockRow>, rows: seq<BlockRow>)
    requires PlacesDiffer(blocks)
    requires forall r <- rows :: Fits(blocks, r) && forall q <- rows | SamePlace(q, r) :: q == r
    ensures PlacesDiffer(PutAll(blocks, rows)) && blocks <= PutAll(blocks, rows)
    ensures forall r :: r in PutAll(blocks, rows) <==> r in blocks || r in rows
    ensures (forall r <- rows :: r in blocks) ==> PutAll(blocks, rows) == blocks
  {
    if rows != [] {
      var init, last := rows[..|rows| - 1], rows[|rows| - 1];
      assert rows == init + [last];
      PutAllFits(blocks, init);
      LastFits(blocks, PutAll(blocks, init), rows);
      UpsertFits(PutAll(blocks, init), last);
    }
  }

  lemma SomeFactFits(blocks: seq<BlockRow>, log: seq<Fact>, facts: seq<Fact>, f: Fact)
    requires f in log && !f.Streamed? && FromLog(log, facts) && WellLogged(log, f.turnKey)
    requires Holds(blocks, log, facts, f.turnKey)
    ensures forall r <- RowsOf(log, f) :: Fits(blocks, r) && forall q <- RowsOf(log, f) | SamePlace(q, r) :: q == r
  {
    RowsAreOfTurn(log, f);
    forall r <- RowsOf(log, f), q | (q in blocks || q in RowsOf(log, f)) && SamePlace(q, r)
      ensures q == r
    {
      var g := f;
      if q in blocks {
        g :| g in facts && IsOf(g, f.turnKey) && q in RowsOf(log, g);
      }
      RowsFit(log, g, f, q, r);
    }
  }

  lemma OwnStepHolds(log: seq<Fact>, blocks: seq<BlockRow>, facts: seq<Fact>, f: Fact)
    requires f in log && !f.Streamed? && FromLog(log, facts) && WellLogged(log, f.turnKey)
    requires Holds(blocks, log, facts, f.turnKey)
    ensures Holds(PutAll(blocks, RowsOf(log, f)), log, facts + [f], f.turnKey)
    ensures blocks <= PutAll(blocks, RowsOf(log, f))
  {
    var after := PutAll(blocks, RowsOf(log, f));
    SomeFactFits(blocks, log, facts, f);
    PutAllFits(blocks, RowsOf(log, f));
    forall row <- after | row.turnKey == f.turnKey
      ensures exists g <- facts + [f] :: IsOf(g, f.turnKey) && row in RowsOf(log, g)
    {
      if row in blocks {
        var g :| g in facts && IsOf(g, f.turnKey) && row in RowsOf(log, g);
        assert g in facts + [f];
      } else {
        assert f in facts + [f];
      }
    }
  }

  lemma StepHolds(log: seq<Fact>, tables: Tables, facts: seq<Fact>, f: Fact, now: int, turnKey: string)
    requires turnKey != "" && f in log && !f.Streamed? && FromLog(log, facts) && WellLogged(log, turnKey)
    requires Holds(tables.blocks, log, facts, turnKey)
    ensures Holds(Step(log, tables, f, now).blocks, log, facts + [f], turnKey)
  {
    if f.turnKey == turnKey {
      OwnStepHolds(log, tables.blocks, facts, f);
    } else {
      forall g <- facts | IsOf(g, turnKey)
        ensures forall row <- RowsOf(log, g) :: row.turnKey == turnKey
      {
        RowsAreOfTurn(log, g);
      }
      if f.turnKey != "" {
        RowsAreOfTurn(log, f);
        PutAllElsewhere(tables.blocks, RowsOf(log, f), turnKey);
      }
      HoldsElsewhere(tables.blocks, Step(log, tables, f, now).blocks, log, facts, f, turnKey);
    }
  }

  lemma HoldsElsewhere(blocks: seq<BlockRow>, after: seq<BlockRow>, log: seq<Fact>, facts: seq<Fact>, f: Fact, turnKey: string)
    requires Holds(blocks, log, facts, turnKey) && !IsOf(f, turnKey) && PlacesDiffer(after)
    requires Within(turnKey, after) == Within(turnKey, blocks)
    requires forall g <- facts | IsOf(g, turnKey) :: forall row <- RowsOf(log, g) :: row.turnKey == turnKey
    ensures Holds(after, log, facts + [f], turnKey)
  {
    WithinMembers(turnKey, blocks);
    WithinMembers(turnKey, after);
    forall row <- after | row.turnKey == turnKey
      ensures exists g <- facts + [f] :: IsOf(g, turnKey) && row in RowsOf(log, g)
    {
      assert row in blocks;
      var g :| g in facts && IsOf(g, turnKey) && row in RowsOf(log, g);
      assert g in facts + [f];
    }
  }

  const EMPTY := Tables(map[], [])

  lemma {:induction false} ReplayHolds(log: seq<Fact>, facts: seq<Fact>, now: int, turnKey: string)
    requires turnKey != "" && FromLog(log, facts) && WellLogged(log, turnKey)
    ensures Holds(Replay(log, EMPTY, facts, now).blocks, log, facts, turnKey)
  {
    if facts != [] {
      var init, last := facts[..|facts| - 1], facts[|facts| - 1];
      assert facts == init + [last];
      var before := Replay(log, EMPTY, init, now);
      assert Replay(log, EMPTY, facts, now) == Step(log, before, last, now);
      ReplayHolds(log, init, now, turnKey);
      StepHolds(log, before, init, last, now, turnKey);
    }
  }

  /** The facts a rebuild replays, in their order. */
  function InOrder(log: seq<Fact>): seq<Fact> {
    Sort(FactLeq, Collect(Replayed, log))
  }

  lemma InOrderIsFromLog(log: seq<Fact>)
    ensures FromLog(log, InOrder(log))
    ensures forall f <- log | !f.Streamed? :: f in InOrder(log)
    ensures Sorted(FactLeq, InOrder(log))
  {
    CollectMembers(Replayed, log);
    SortSorts(FactLeq, Collect(Replayed, log));
    SortSameElements(FactLeq, Collect(Replayed, log));
    forall f <- log | !f.Streamed?
      ensures f in InOrder(log)
    {
      assert Replayed(f) == Some(f);
    }
    forall f <- InOrder(log)
      ensures f in log && !f.Streamed?
    {
      var g :| g in log && Replayed(g) == Some(f);
    }
  }

  // ---- the read model and the screen tell the same ----

  predicate ToldLeq(a: Told, b: Told) {
    a.position <= b.position
  }

  lemma BlockHasEvent(es: seq<Event>, b: Block) returns (e: Event)
    requires b in FoldBlocks(es)
    ensures e in es && KeyOf(e) == Some(b.Key())
    ensures var ts := Collect(Touching(b.Key()), es); ts != [] && AllTouch(b.Key(), ts) && b == Assemble(b.Key(), ts)
  {
    FoldIsFold(es);
    assert IsAssembled(b, es);
    TouchedTouch(b.Key(), es);
    e := Collect(Touching(b.Key()), es)[0];
    assert e in Collect(Touching(b.Key()), es);
  }

  /** The fact whose row tells of a block. */
  lemma BlockHasRow(log: seq<Fact>, turnKey: string, b: Block) returns (f: Fact, row: BlockRow)
    requires WellLogged(log, turnKey) && b in FoldBlocks(EventsOf(log, turnKey))
    ensures f in log && IsOf(f, turnKey) && row in RowsOf(log, f) && ByRow(row) == ByScreen(Render(b))
  {
    var e := BlockHasEvent(EventsOf(log, turnKey), b);
    if b.Text? {
      f :| f in log && IsOf(f, turnKey) && f.Replied? && f.iterationIndex == e.iterationIndex;
      TextRowTells(log, turnKey, b.Key());
      row := TextRows(log, turnKey, b.iterationIndex, b.kind)[0];
      assert row in TextRows(log, turnKey, b.iterationIndex, b.kind);
    } else {
      f :| f in log && IsOf(f, turnKey) && f.Ended? && Some(OfTool(f.toolCallKey)) == KeyOf(e);
      ToolRowTells(log, f);
      row := ToolRowOf(log, f);
    }
  }

  function RowsTold(blocks: seq<BlockRow>, turnKey: string): seq<Told> {
    Collect(ByRow, Within(turnKey, blocks))
  }

  function BlocksTold(blocks: seq<Block>): seq<Told> {
    Collect(ByScreen, Collect(Rendered, blocks))
  }

  lemma RowsToldMembers(blocks: seq<BlockRow>, turnKey: string)
    ensures forall t :: t in RowsTold(blocks, turnKey) <==> exists r <- blocks :: r.turnKey == turnKey && ByRow(r) == Some(t)
  {
    WithinMembers(turnKey, blocks);
    CollectMembers(ByRow, Within(turnKey, blocks));
  }

  lemma BlocksToldMembers(blocks: seq<Block>)
    ensures forall t :: t in BlocksTold(blocks) <==> exists b <- blocks :: ByScreen(Render(b)) == Some(t)
  {
    CollectAll(Rendered, blocks);
    CollectAll(ByScreen, Collect(Rendered, blocks));
    forall t
      ensures t in BlocksTold(blocks) <==> exists b <- blocks :: ByScreen(Render(b)) == Some(t)
    {
      if t in BlocksTold(blocks) {
        var i :| 0 <= i < |blocks| && BlocksTold(blocks)[i] == t;
        assert blocks[i] in blocks;
      }
      if b :| b in blocks && ByScreen(Render(b)) == Some(t) {
        var i :| 0 <= i < |blocks| && blocks[i] == b;
        assert BlocksTold(blocks)[i] == t;
      }
    }
  }

  lemma SameIsTold(log: seq<Fact>, facts: seq<Fact>, blocks: seq<BlockRow>, turnKey: string)
    requires WellLogged(log, turnKey) && Holds(blocks, log, facts, turnKey) && FromLog(log, facts)
    requires forall f <- log | IsOf(f, turnKey) :: f in facts
    ensures forall t :: t in RowsTold(blocks, turnKey) <==> t in BlocksTold(FoldBlocks(EventsOf(log, turnKey)))
  {
    var folded := FoldBlocks(EventsOf(log, turnKey));
    RowsToldMembers(blocks, turnKey);
    BlocksToldMembers(folded);
    forall t
      ensures t in RowsTold(blocks, turnKey) <==> t in BlocksTold(folded)
    {
      if r :| r in blocks && r.turnKey == turnKey && ByRow(r) == Some(t) {
        var f :| f in facts && IsOf(f, turnKey) && r in RowsOf(log, f);
        var b := RowHasBlock(log, f, r);
      }
      if b :| b in folded && ByScreen(Render(b)) == Some(t) {
        var f, row := BlockHasRow(log, turnKey, b);
        RowsAreOfTurn(log, f);
        assert row in blocks;
      }
    }
  }

  lemma {:induction false} WithinPlacesDiffer(blocks: seq<BlockRow>, turnKey: string)
    requires PlacesDiffer(blocks)
    ensures forall i, j | 0 <= i < j < |Within(turnKey, blocks)| ::
              Within(turnKey, blocks)[i].position != Within(turnKey, blocks)[j].position
  {
    if blocks != [] {
      var init, last := blocks[..|blocks| - 1], blocks[|blocks| - 1];
      WithinPlacesDiffer(init, turnKey);
      WithinMembers(turnKey, init);
      if last.turnKey == turnKey {
        forall r <- Within(turnKey, init)
          ensures r.position != last.position
        {
          var i :| 0 <= i < |init| && init[i] == r;
          assert !SamePlace(blocks[i], last);
        }
      }
    }
  }

  lemma ToldOnce(blocks: seq<BlockRow>, turnKey: string, folded: seq<Block>)
    requires PlacesDiffer(blocks) && KeysDiffer(folded)
    ensures NoDups(RowsTold(blocks, turnKey)) && NoDups(BlocksTold(folded))
  {
    WithinPlacesDiffer(blocks, turnKey);
    CollectAll(ByRow, Within(turnKey, blocks));
    CollectAll(Rendered, folded);
    CollectAll(ByScreen, Collect(Rendered, folded));
  }

  lemma ReadTells(tables: Tables, turnKey: string)
    ensures Sorted(ToldLeq, Collect(ByRow, Read(tables, turnKey)))
    ensures multiset(Collect(ByRow, Read(tables, turnKey))) == multiset(RowsTold(tables.blocks, turnKey))
  {
    SortSorts(RowLeq, Within(turnKey, tables.blocks));
    CollectKeepsOrder(ByRow, RowLeq, ToldLeq, Read(tables, turnKey));
    CollectPermutes(ByRow, Read(tables, turnKey), Within(turnKey, tables.blocks));
  }

  lemma ViewTells(blocks: seq<Block>)
    ensures Sorted(ToldLeq, Collect(ByScreen, View(blocks)))
    ensures multiset(Collect(ByScreen, View(blocks))) == multiset(BlocksTold(blocks))
  {
    ViewSorts(blocks);
    CollectKeepsOrder(ByScreen, ShownLeq, ToldLeq, View(blocks));
    CollectPermutes(ByScreen, View(blocks), Collect(Rendered, blocks));
  }

  lemma ToldDoNotTie(es: seq<Event>)
    requires Coherent(es)
    ensures NoTies(ToldLeq, BlocksTold(FoldBlocks(es)))
  {
    FoldPositions(es);
    BlocksToldMembers(FoldBlocks(es));
  }

  lemma ToldAlike(log: seq<Fact>, turnKey: string, now: int)
    requires turnKey != "" && WellLogged(log, turnKey)
    ensures multiset(RowsTold(Rebuilt(log, EMPTY, now).blocks, turnKey))
         == multiset(BlocksTold(FoldBlocks(EventsOf(log, turnKey))))
  {
    var blocks, folded := Rebuilt(log, EMPTY, now).blocks, FoldBlocks(EventsOf(log, turnKey));
    InOrderIsFromLog(log);
    ReplayHolds(log, InOrder(log), now, turnKey);
    SameIsTold(log, InOrder(log), blocks, turnKey);
    FoldIsFold(EventsOf(log, turnKey));
    ToldOnce(blocks, turnKey, folded);
    SameElementsPermute(RowsTold(blocks, turnKey), BlocksTold(folded));
  }

  /**
    Rebuilt from empty tables, a turn reads as the fold of its facts shows it:
    the same blocks in the same order with the same contents.
   */
  lemma RebuiltTellsTheFold(log: seq<Fact>, turnKey: string, now: int)
    requires turnKey != "" && WellLogged(log, turnKey)
    ensures Collect(ByRow, Read(Rebuilt(log, EMPTY, now), turnKey))
         == Collect(ByScreen, View(FoldBlocks(EventsOf(log, turnKey))))
  {
    var tables, folded := Rebuilt(log, EMPTY, now), FoldBlocks(EventsOf(log, turnKey));
    ToldAlike(log, turnKey, now);
    ReadTells(tables, turnKey);
    ViewTells(folded);
    ToldDoNotTie(EventsOf(log, turnKey));
    var read, view := Collect(ByRow, Read(tables, turnKey)), Collect(ByScreen, View(folded));
    TiesPermute(ToldLeq, BlocksTold(folded), view);
    SortedIsUnique(ToldLeq, view, read);
  }

  /** So the read model tells what any delivery of those facts put on screen. */
  lemma RebuiltTellsTheScreen(log: seq<Fact>, turnKey: string, now: int, delivery: seq<Envelope>)
    requires turnKey != "" && WellLogged(log, turnKey)
    requires multiset(FirstEvents(turnKey, delivery)) == multiset(EventsOf(log, turnKey))
    ensures Collect(ByRow, Read(Rebuilt(log, EMPTY, now), turnKey))
         == Collect(ByScreen, ScreenOf(Received(delivery), turnKey).shown)
  {
    SameMembers(FirstEvents(turnKey, delivery), EventsOf(log, turnKey));
    RebuiltTellsTheFold(log, turnKey, now);
    TurnIsItsFold(delivery, turnKey);
    FoldsConverge(EventsOf(log, turnKey), FirstEvents(turnKey, delivery));
  }
}
