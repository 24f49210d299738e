/** Facts arrive more than once: projecting any of them again changes nothing but when the turn ended. */
module ProjectionAgain {
  import opened Wrappers
  import opened Sequences
  import opened Sorting
  import opened Projection
  import opened ProjectionAgrees
  import opened ProjectionRebuild

  /** A turn is opened and closed by one fact each, and its opening comes before everything else of it. */
  ghost predicate Orderly(log: seq<Fact>, turnKey: string) {
    && (forall f <- log, g <- log | IsOf(f, turnKey) && IsOf(g, turnKey) && f.Opened? :: g == f || f.position < g.position)
    && (forall f <- log, g <- log | IsOf(f, turnKey) && IsOf(g, turnKey) && f.Closed? && g.Closed? :: g == f)
  }

  /** The same tables, whenever their turns ended. */
  ghost predicate SameButEnd(a: Tables, b: Tables) {
    && a.blocks == b.blocks
    && a.turns.Keys == b.turns.Keys
    && forall k <- a.turns :: a.turns[k].(endedAt := b.turns[k].endedAt) == b.turns[k]
  }

  /** The turn's row already says what the fact would have it say, given how many calls have rows. */
  predicate RowReflects(turns: map<string, TurnRow>, calls: nat, f: Fact)
    requires !f.Streamed?
  {
    match f
    case Opened(k, position, prompt) => k in turns && turns[k].position == position && turns[k].prompt == prompt
    case Replied(k, _, i) => k in turns ==> i + 1 <= turns[k].iterations
    case Ended(k, _, _, _, _, _, _) => k in turns ==> turns[k].toolCalls == calls
    case Closed(k, _, stoppedBy, answer) =>
      k in turns ==> turns[k] == ClosedRow(turns[k], stoppedBy, answer, 0).(endedAt := turns[k].endedAt)
  }

  ghost predicate Reflects(log: seq<Fact>, tables: Tables, f: Fact)
    requires !f.Streamed?
  {
    && (forall row <- RowsOf(log, f) :: row in tables.blocks)
    && RowReflects(tables.turns, CountToolRows(tables.blocks, f.turnKey), f)
  }

  lemma PresentRowsStay(blocks: seq<BlockRow>, rows: seq<BlockRow>)
    requires PlacesDiffer(blocks) && forall r <- rows :: r in blocks
    ensures PutAll(blocks, rows) == blocks
  {
    forall r <- rows, q <- blocks | SamePlace(q, r)
      ensures q == r
    {
      var i :| 0 <= i < |blocks| && blocks[i] == q;
      var j :| 0 <= j < |blocks| && blocks[j] == r;
      assert i == j;
    }
    PutAllFits(blocks, rows);
  }

  /** What is already reflected can be projected again. */
  lemma AgainChangesNothing(log: seq<Fact>, tables: Tables, f: Fact, later: int)
    requires !f.Streamed? && PlacesDiffer(tables.blocks) && Reflects(log, tables, f)
    ensures SameButEnd(Project(log, tables, f, later), tables)
  {
    PresentRowsStay(tables.blocks, RowsOf(log, f));
  }

  lemma ReflectionStays(log: seq<Fact>, a: Tables, b: Tables, f: Fact)
    requires !f.Streamed? && SameButEnd(a, b) && Reflects(log, a, f)
    ensures Reflects(log, b, f)
  {
  }

  // ---- a rebuild reflects every fact ----

  lemma {:induction false} TextsAreNotCounted(blocks: seq<BlockRow>, rows: seq<BlockRow>, turnKey: string)
    requires PlacesDiffer(blocks) && forall r <- rows :: !r.kind.ToolRow?
    requires forall r <- rows :: Fits(blocks, r) && forall q <- rows | SamePlace(q, r) :: q == r
    ensures CountToolRows(PutAll(blocks, rows), turnKey) == CountToolRows(blocks, turnKey)
  {
    if rows != [] {
      var init, last := rows[..|rows| - 1], rows[|rows| - 1];
      assert rows == init + [last];
      TextsAreNotCounted(blocks, init, turnKey);
      PutAllFits(blocks, init);
      var before := PutAll(blocks, init);
      LastFits(blocks, before, rows);
      UpsertFits(before, last);
      assert (before + [last])[..|before|] == before;
    }
  }

  lemma {:induction false} CountIsWithin(blocks: seq<BlockRow>, turnKey: string)
    ensures CountToolRows(blocks, turnKey) == CountToolRows(Within(turnKey, blocks), turnKey)
  {
    if blocks != [] {
      var init, last := blocks[..|blocks| - 1], blocks[|blocks| - 1];
      CountIsWithin(init, turnKey);
      if last.turnKey == turnKey {
        assert Within(turnKey, blocks)[..|Within(turnKey, init)|] == Within(turnKey, init);
      } else {
        assert Within(turnKey, blocks) == Within(turnKey, init);
      }
    }
  }

  /** Everything of a turn replayed so far is reflected, and a turn has a row just when it was opened. */
  ghost predicate AllReflected(log: seq<Fact>, tables: Tables, facts: seq<Fact>, turnKey: string)
    requires FromLog(log, facts)
  {
    && Holds(tables.blocks, log, facts, turnKey)
    && (forall f <- facts | IsOf(f, turnKey) :: RowReflects(tables.turns, CountToolRows(tables.blocks, turnKey), f))
    && (turnKey in tables.turns ==> exists f <- facts :: IsOf(f, turnKey) && f.Opened?)
  }

  lemma OtherTurnReflects(log: seq<Fact>, tables: Tables, facts: seq<Fact>, f: Fact, now: int, turnKey: string)
    requires f in log && !f.Streamed? && FromLog(log, facts) && turnKey != "" && f.turnKey != turnKey
    requires WellLogged(log, turnKey) && AllReflected(log, tables, facts, turnKey)
    ensures AllReflected(log, Step(log, tables, f, now), facts + [f], turnKey)
  {
    var after := Step(log, tables, f, now);
    StepHolds(log, tables, facts, f, now, turnKey);
    assert CountToolRows(after.blocks, turnKey) == CountToolRows(tables.blocks, turnKey) by {
      if f.turnKey != "" {
        RowsAreOfTurn(log, f);
        PutAllElsewhere(tables.blocks, RowsOf(log, f), turnKey);
      }
      CountIsWithin(tables.blocks, turnKey);
      CountIsWithin(after.blocks, turnKey);
    }
    assert turnKey in after.turns <==> turnKey in tables.turns;
    assert turnKey in tables.turns ==> after.turns[turnKey] == tables.turns[turnKey];
    OpeningStays(facts, f, turnKey);
  }

  lemma OpeningStays(facts: seq<Fact>, f: Fact, turnKey: string)
    ensures (exists g <- facts :: IsOf(g, turnKey) && g.Opened?) ==> exists g <- facts + [f] :: IsOf(g, turnKey) && g.Opened?
  {
    if g :| g in facts && IsOf(g, turnKey) && g.Opened? {
      assert g in facts + [f];
    }
  }

  /** Only a call's end changes how many calls have rows. */
  lemma CountGrowsByEnds(log: seq<Fact>, blocks: seq<BlockRow>, facts: seq<Fact>, f: Fact)
    requires f in log && !f.Streamed? && !f.Ended? && FromLog(log, facts) && WellLogged(log, f.turnKey)
    requires Holds(blocks, log, facts, f.turnKey)
    ensures CountToolRows(PutAll(blocks, RowsOf(log, f)), f.turnKey) == CountToolRows(blocks, f.turnKey)
  {
    SomeFactFits(blocks, log, facts, f);
    if f.Replied? {
      forall r <- RowsOf(log, f)
        ensures !r.kind.ToolRow?
      {
        TextRowIsTold(log, f, r);
      }
      TextsAreNotCounted(blocks, RowsOf(log, f), f.turnKey);
    }
  }

  /** A later fact of a turn leaves what the earlier ones had it say. */
  lemma RowStays(turns: map<string, TurnRow>, calls: nat, blocks: seq<BlockRow>, f: Fact, g: Fact, now: int)
    requires !f.Streamed? && !g.Streamed? && f.turnKey == g.turnKey && !f.Opened? && (f.Closed? && g.Closed? ==> f == g)
    requires RowReflects(turns, calls, g) || g == f
    requires f.Ended? || calls == CountToolRows(blocks, f.turnKey)
    ensures RowReflects(TurnsAfter(turns, blocks, f, now), CountToolRows(blocks, f.turnKey), g)
  {
  }

  lemma OpeningReflects(log: seq<Fact>, tables: Tables, facts: seq<Fact>, f: Fact, now: int)
    requires f in log && f.Opened? && f.turnKey != "" && FromLog(log, facts) && WellLogged(log, f.turnKey)
    requires AllReflected(log, tables, facts, f.turnKey)
    requires forall g <- facts | IsOf(g, f.turnKey) :: g == f
    ensures AllReflected(log, Project(log, tables, f, now), facts + [f], f.turnKey)
  {
    OwnStepHolds(log, tables.blocks, facts, f);
    assert f in facts + [f];
  }

  lemma LaterReflects(log: seq<Fact>, tables: Tables, facts: seq<Fact>, f: Fact, now: int)
    requires f in log && !f.Streamed? && !f.Opened? && f.turnKey != "" && FromLog(log, facts)
    requires WellLogged(log, f.turnKey) && Orderly(log, f.turnKey) && AllReflected(log, tables, facts, f.turnKey)
    ensures AllReflected(log, Project(log, tables, f, now), facts + [f], f.turnKey)
  {
    var after := Project(log, tables, f, now);
    OwnStepHolds(log, tables.blocks, facts, f);
    OpeningStays(facts, f, f.turnKey);
    if !f.Ended? {
      CountGrowsByEnds(log, tables.blocks, facts, f);
    }
    forall g <- facts + [f] | IsOf(g, f.turnKey)
      ensures RowReflects(after.turns, CountToolRows(after.blocks, f.turnKey), g)
    {
      EarlierReflects(log, tables, facts, f, g, now);
    }
  }

  lemma EarlierReflects(log: seq<Fact>, tables: Tables, facts: seq<Fact>, f: Fact, g: Fact, now: int)
    requires f in log && !f.Streamed? && !f.Opened? && FromLog(log, facts) && Orderly(log, f.turnKey)
    requires AllReflected(log, tables, facts, f.turnKey) && g in facts + [f] && IsOf(g, f.turnKey)
    requires var blocks := PutAll(tables.blocks, RowsOf(log, f));
             f.Ended? || CountToolRows(tables.blocks, f.turnKey) == CountToolRows(blocks, f.turnKey)
    ensures var after := Project(log, tables, f, now);
            RowReflects(after.turns, CountToolRows(after.blocks, f.turnKey), g)
  {
    var blocks := PutAll(tables.blocks, RowsOf(log, f));
    assert g == f || (g in facts && g in log);
    RowStays(tables.turns, CountToolRows(tables.blocks, f.turnKey), blocks, f, g, now);
  }

  /** In order, nothing of a turn comes before its opening, and everything after. */
  lemma OpeningComesFirst(log: seq<Fact>, n: nat, f: Fact)
    requires n < |InOrder(log)| && InOrder(log)[n] == f && f.Opened? && Orderly(log, f.turnKey)
    ensures forall g <- InOrder(log)[..n] | IsOf(g, f.turnKey) :: g == f
  {
    InOrderIsFromLog(log);
    forall g <- InOrder(log)[..n] | IsOf(g, f.turnKey)
      ensures g == f
    {
      var i :| 0 <= i < n && InOrder(log)[i] == g;
      assert FactLeq(g, f);
      assert f in InOrder(log) && g in InOrder(log);
    }
  }

  lemma {:induction false} ReplayReflects(log: seq<Fact>, n: nat, now: int, turnKey: string)
    requires n <= |InOrder(log)| && turnKey != "" && WellLogged(log, turnKey) && Orderly(log, turnKey)
    ensures FromLog(log, InOrder(log)[..n])
    ensures AllReflected(log, Replay(log, EMPTY, InOrder(log)[..n], now), InOrder(log)[..n], turnKey)
  {
    InOrderIsFromLog(log);
    if n > 0 {
      ReplayReflects(log, n - 1, now, turnKey);
      var facts, f := InOrder(log)[..n - 1], InOrder(log)[n - 1];
      assert InOrder(log)[..n] == facts + [f] && f in InOrder(log);
      var tables := Replay(log, EMPTY, facts, now);
      assert Replay(log, EMPTY, InOrder(log)[..n], now) == Step(log, tables, f, now);
      if f.turnKey != turnKey {
        OtherTurnReflects(log, tables, facts, f, now, turnKey);
      } else if f.Opened? {
        OpeningComesFirst(log, n - 1, f);
        OpeningReflects(log, tables, facts, f, now);
      } else {
        LaterReflects(log, tables, facts, f, now);
      }
    }
  }

  lemma RebuildReflects(log: seq<Fact>, now: int, f: Fact)
    requires f in log && !f.Streamed? && f.turnKey != "" && WellLogged(log, f.turnKey) && Orderly(log, f.turnKey)
    ensures PlacesDiffer(Rebuilt(log, EMPTY, now).blocks) && Reflects(log, Rebuilt(log, EMPTY, now), f)
  {
    InOrderIsFromLog(log);
    ReplayReflects(log, |InOrder(log)|, now, f.turnKey);
    assert InOrder(log)[..|InOrder(log)|] == InOrder(log);
  }

  /** Any fact of a rebuilt turn can be projected again: only the time the turn ended may move. */
  lemma ProjectingAgainChangesNothing(log: seq<Fact>, now: int, f: Fact, later: int)
    requires f in log && !f.Streamed? && f.turnKey != "" && WellLogged(log, f.turnKey) && Orderly(log, f.turnKey)
    ensures SameButEnd(Project(log, Rebuilt(log, EMPTY, now), f, later), Rebuilt(log, EMPTY, now))
  {
    RebuildReflects(log, now, f);
    AgainChangesNothing(log, Rebuilt(log, EMPTY, now), f, later);
  }

  lemma {:induction false} ReplayAgain(log: seq<Fact>, tables: Tables, facts: seq<Fact>, later: int)
    requires PlacesDiffer(tables.blocks)
    requires forall f <- facts | !f.Streamed? && f.turnKey != "" :: Reflects(log, tables, f)
    ensures SameButEnd(Replay(log, tables, facts, later), tables)
  {
    if facts != [] {
      var init, last := facts[..|facts| - 1], facts[|facts| - 1];
      assert facts == init + [last];
      ReplayAgain(log, tables, init, later);
      var before := Replay(log, tables, init, later);
      if !last.Streamed? && last.turnKey != "" {
        assert last in facts;
        ReflectionStays(log, tables, before, last);
        AgainChangesNothing(log, before, last, later);
      }
    }
  }

  /** Rebuilding what was rebuilt changes nothing but when turns ended. */
  lemma RebuildingAgainChangesNothing(log: seq<Fact>, now: int, later: int)
    requires forall k: string :: k != "" ==> WellLogged(log, k) && Orderly(log, k)
    ensures SameButEnd(Rebuilt(log, Rebuilt(log, EMPTY, now), later), Rebuilt(log, EMPTY, now))
  {
    var tables := Rebuilt(log, EMPTY, now);
    InOrderIsFromLog(log);
    ReplayHolds(log, InOrder(log), now, "turn");
    forall f <- InOrder(log) | !f.Streamed? && f.turnKey != ""
      ensures Reflects(log, tables, f)
    {
      RebuildReflects(log, now, f);
    }
    ReplayAgain(log, tables, InOrder(log), later);
  }
}
