/**
  The read model tells of a turn what the screen tells: rebuilding from the log
  yields, block for block, what folding the same facts yields.
 */
module ProjectionAgrees {
  import opened Wrappers
  import opened Sequences
  import opened Sorting
  import opened ClientFold
  import opened ClientConvergence
  import opened Projection

  /** The client's side of a fact. */
  function EventOf(fact: Fact): Option<Event> {
    match fact
    case Opened(turnKey, _, prompt) => Some(TurnStarted(turnKey, prompt))
    case Replied(_, _, _) => None
    case Ended(turnKey, position, _, call, exitCode, timedOut, durationMs) =>
      Some(ToolCompleted(turnKey, Some(position), call, exitCode, timedOut, durationMs))
    case Closed(turnKey, _, _, answer) => Some(TurnFinal(turnKey, answer))
    case Streamed(e) => Some(e)
  }

  function TurnEvent(turnKey: string): Fact -> Option<Event> {
    (fact: Fact) =>
      var e := EventOf(fact);
      if e.Some? && !e.value.SessionOpened? && e.value.turnKey == turnKey then e else None
  }

  function EventsOf(log: seq<Fact>, turnKey: string): seq<Event> {
    Collect(TurnEvent(turnKey), log)
  }

  predicate IsOf(fact: Fact, turnKey: string) {
    !fact.Streamed? && fact.turnKey == turnKey
  }

  /** The call's start comes first. */
  ghost predicate StartedFirst(es: seq<Event>, e: Event)
    requires KeyOf(e).Some?
  {
    exists s <- es :: s.ToolStarted? && KeyOf(s) == KeyOf(e)
                      && forall d <- es | KeyOf(d) == KeyOf(e) :: PositionOf(s) <= PositionOf(d)
  }

  /**
    The turn's facts as the reactors leave them: everything has its position, every
    delta says something and its iteration was replied to, every call was started
    first and has ended.
   */
  ghost predicate WellLogged(log: seq<Fact>, turnKey: string) {
    var es := EventsOf(log, turnKey);
    && Coherent(es)
    && (forall e <- es | KeyOf(e).Some? :: e.position.Some?)
    && (forall e <- es | e.Delta? ::
          e.text != "" && exists f <- log :: IsOf(f, turnKey) && f.Replied? && f.iterationIndex == e.iterationIndex)
    && (forall e <- es | KeyOf(e).Some? && !e.Delta? ::
          && StartedFirst(es, e)
          && exists f <- log :: IsOf(f, turnKey) && f.Ended? && Some(OfTool(f.toolCallKey)) == KeyOf(e))
    && (forall f <- log, g <- log | IsOf(f, turnKey) && IsOf(g, turnKey) && f.Ended? && g.Ended? && f.toolCallKey == g.toolCallKey ::
          f == g)
  }

  // ---- a query of the log selects the events of a block ----

  lemma {:induction false} CollectKeepsOrder<T(!new), U(!new)>(
    f: T -> Option<U>, leqT: (T, T) -> bool, leqU: (U, U) -> bool, xs: seq<T>)
    requires Sorted(leqT, xs)
    requires forall a <- xs, b <- xs | f(a).Some? && f(b).Some? && leqT(a, b) :: leqU(f(a).value, f(b).value)
    ensures Sorted(leqU, Collect(f, xs))
  {
    if xs != [] {
      var init, last := xs[..|xs| - 1], xs[|xs| - 1];
      assert forall x <- init :: x in xs;
      CollectKeepsOrder(f, leqT, leqU, init);
      CollectMembers(f, init);
      if f(last).Some? {
        forall u <- Collect(f, init)
          ensures leqU(u, f(last).value)
        {
          var x :| x in init && f(x) == Some(u);
          var i :| 0 <= i < |init| && init[i] == x;
          assert leqT(xs[i], last);
        }
      }
    }
  }

  /** A block's slices, straight from the log. */
  function LogSlices(turnKey: string, key: BlockKey, pick: Event -> Option<Slice>): Fact -> Option<Slice> {
    Chain(Chain(TurnEvent(turnKey), Touching(key)), pick)
  }

  lemma SlicesAreLogged(log: seq<Fact>, turnKey: string, key: BlockKey, pick: Event -> Option<Slice>)
    ensures Collect(pick, Collect(Touching(key), EventsOf(log, turnKey))) == Collect(LogSlices(turnKey, key, pick), log)
  {
    CollectChain(TurnEvent(turnKey), Touching(key), log);
    CollectChain(Chain(TurnEvent(turnKey), Touching(key)), pick, log);
  }

  lemma DeltaIsTouching(f: Fact, turnKey: string, key: BlockKey)
    requires key.OfText?
    requires TurnEvent(turnKey)(f).Some? && TurnEvent(turnKey)(f).value.Delta? ==> TurnEvent(turnKey)(f).value.text != ""
    ensures Chain(DeltasOf(turnKey, key.iterationIndex), Spoken(key.kind))(f) == LogSlices(turnKey, key, DeltaSlice)(f)
  {
    if f.Streamed? && f.event.Delta? && f.event.turnKey == turnKey {
      assert TurnEvent(turnKey)(f) == Some(f.event);
      var same := f.event.kind == key.kind && f.event.iterationIndex == key.iterationIndex;
      assert key == OfText(key.kind, key.iterationIndex);
      assert Touching(key)(f.event) == if same then Some(f.event) else None;
      assert LogSlices(turnKey, key, DeltaSlice)(f) == if same then DeltaSlice(f.event) else None;
    }
  }

  lemma DeltasAreTouching(log: seq<Fact>, turnKey: string, key: BlockKey)
    requires key.OfText?
    requires forall e <- EventsOf(log, turnKey) | e.Delta? :: e.text != ""
    ensures Collect(Spoken(key.kind), Collect(DeltasOf(turnKey, key.iterationIndex), log))
         == Collect(DeltaSlice, Collect(Touching(key), EventsOf(log, turnKey)))
  {
    var picked, logged := Chain(DeltasOf(turnKey, key.iterationIndex), Spoken(key.kind)), LogSlices(turnKey, key, DeltaSlice);
    SlicesAreLogged(log, turnKey, key, DeltaSlice);
    CollectChain(DeltasOf(turnKey, key.iterationIndex), Spoken(key.kind), log);
    CollectMembers(TurnEvent(turnKey), log);
    forall f <- log
      ensures picked(f) == logged(f)
    {
      DeltaIsTouching(f, turnKey, key);
    }
    CollectAlike(picked, logged, log);
  }

  lemma ChunkIsTouching(f: Fact, turnKey: string, call: string, s: Stream)
    ensures Chain(OutputOf(turnKey, call), Chunked(s))(f) == LogSlices(turnKey, OfTool(call), ChunkSlice(s))(f)
  {
  }

  lemma ChunksAreTouching(log: seq<Fact>, turnKey: string, call: string, s: Stream)
    ensures Collect(Chunked(s), Collect(OutputOf(turnKey, call), log))
         == Collect(ChunkSlice(s), Collect(Touching(OfTool(call)), EventsOf(log, turnKey)))
  {
    var picked, logged := Chain(OutputOf(turnKey, call), Chunked(s)), LogSlices(turnKey, OfTool(call), ChunkSlice(s));
    SlicesAreLogged(log, turnKey, OfTool(call), ChunkSlice(s));
    CollectChain(OutputOf(turnKey, call), Chunked(s), log);
    forall f <- log
      ensures picked(f) == logged(f)
    {
      ChunkIsTouching(f, turnKey, call, s);
    }
    CollectAlike(picked, logged, log);
  }

  /** Sorting the rows and then picking slices is picking slices and then sorting them. */
  lemma PickedIsSorted(pick: Event -> Option<Slice>, selected: seq<Event>, slices: seq<Slice>)
    requires Collect(pick, selected) == slices && NoTies(SliceLeq, slices)
    requires forall e <- selected | pick(e).Some? :: pick(e).value.position == PositionOr0(e)
    requires forall e <- selected :: HasPosition(e)
    ensures Collect(pick, Sort(PositionLeq, selected)) == Sort(SliceLeq, slices)
  {
    var rows := Sort(PositionLeq, selected);
    SortSorts(PositionLeq, selected);
    SortSameElements(PositionLeq, selected);
    CollectPermutes(pick, rows, selected);
    CollectKeepsOrder(pick, PositionLeq, SliceLeq, rows);
    SortSorts(SliceLeq, slices);
    SortSameElements(SliceLeq, slices);
    assert forall x :: x in multiset(Collect(pick, rows)) <==> x in multiset(slices);
    assert NoTies(SliceLeq, Sort(SliceLeq, slices));
    SortedIsUnique(SliceLeq, Sort(SliceLeq, slices), Collect(pick, rows));
  }

  lemma SlicesDoNotTie(f: Event -> Option<Slice>, ts: seq<Event>)
    requires Coherent(ts)
    requires forall e <- ts | f(e).Some? :: KeyOf(e).Some? && f(e).value.position == PositionOf(e)
    ensures NoTies(SliceLeq, Collect(f, ts))
  {
    CollectMembers(f, ts);
    forall a, b | a in Collect(f, ts) && b in Collect(f, ts) && SliceLeq(a, b) && SliceLeq(b, a)
      ensures a == b
    {
      var d :| d in ts && f(d) == Some(a);
      var e :| e in ts && f(e) == Some(b);
    }
  }

  // ---- what rows and blocks tell ----

  datatype Told =
    | ToldText(position: int, kind: TextKind, iterationIndex: int, text: string)
    | ToldTool(position: int, toolCallKey: string, command: string, body: string, exitCode: Option<int>, timedOut: bool,
               durationMs: int)

  function ByRow(row: BlockRow): Option<Told> {
    Some(match row.kind
         case TextRow(kind) => ToldText(row.position, kind, row.iterationIndex, row.body)
         case ToolRow => ToldTool(row.position, row.toolCallKey, row.command, row.body, row.exitCode, row.timedOut,
                                  row.durationMs))
  }

  function ByScreen(shown: Shown): Option<Told> {
    Some(match shown
         case ShownText(position, kind, iterationIndex, text) => ToldText(position, kind, iterationIndex, text)
         case ShownTool(position, call, command, stdout, stderr, exitCode, timedOut, durationMs, _, _) =>
           ToldTool(position, call, command, Body(stdout, stderr), exitCode, timedOut, durationMs))
  }

  lemma JoinNonEmpty(slices: seq<Slice>)
    requires slices != [] && slices[0].text != ""
    ensures Join(slices) != ""
  {
  }

  /** Sorted, the earliest delta's slice comes first. */
  lemma FirstIsEarliest(ts: seq<Event>, position: int)
    requires forall e <- ts :: KeyOf(e).Some? && e.Delta?
    requires ts != [] && StartsAt(position, ts)
    ensures var sorted := Sort(SliceLeq, Collect(DeltaSlice, ts));
            sorted != [] && sorted[0].position == position && sorted[0].text != ""
  {
    var slices := Collect(DeltaSlice, ts);
    var sorted := Sort(SliceLeq, slices);
    CollectMembers(DeltaSlice, ts);
    var e :| e in ts && PositionOf(e) == position;
    assert DeltaSlice(e).value in slices;
    SortedFirst(slices, DeltaSlice(e).value);
    var d :| d in ts && DeltaSlice(d) == Some(sorted[0]);
  }

  lemma SortedFirst(slices: seq<Slice>, x: Slice)
    requires x in slices
    ensures var sorted := Sort(SliceLeq, slices); sorted != [] && sorted[0] in slices && SliceLeq(sorted[0], x)
  {
    var sorted := Sort(SliceLeq, slices);
    SortSorts(SliceLeq, slices);
    SortSameElements(SliceLeq, slices);
    var i :| 0 <= i < |sorted| && sorted[i] == x;
    assert i == 0 || SliceLeq(sorted[0], sorted[i]);
  }

  lemma CoherentPart(key: BlockKey, es: seq<Event>)
    requires Coherent(es)
    ensures AllTouch(key, Collect(Touching(key), es)) && Coherent(Collect(Touching(key), es))
  {
    TouchedTouch(key, es);
  }

  lemma DeltasHavePositions(log: seq<Fact>, turnKey: string, iterationIndex: int)
    requires WellLogged(log, turnKey)
    ensures forall e <- Collect(DeltasOf(turnKey, iterationIndex), log) :: HasPosition(e)
  {
    CollectMembers(DeltasOf(turnKey, iterationIndex), log);
    CollectMembers(TurnEvent(turnKey), log);
    forall e <- Collect(DeltasOf(turnKey, iterationIndex), log)
      ensures HasPosition(e)
    {
      var f :| f in log && DeltasOf(turnKey, iterationIndex)(f) == Some(e);
      assert TurnEvent(turnKey)(f) == Some(e) && e in EventsOf(log, turnKey);
    }
  }

  lemma OutputHasPositions(log: seq<Fact>, turnKey: string, call: string)
    requires WellLogged(log, turnKey)
    ensures forall e <- Collect(OutputOf(turnKey, call), log) :: HasPosition(e)
  {
    SelectedOutput(log, turnKey, call);
  }

  /** An iteration's text row, when there is one, is the text block. */
  lemma TextRowTells(log: seq<Fact>, turnKey: string, key: BlockKey)
    requires WellLogged(log, turnKey) && key.OfText?
    ensures var ts := Collect(Touching(key), EventsOf(log, turnKey));
            var rows := TextRows(log, turnKey, key.iterationIndex, key.kind);
            && AllTouch(key, ts)
            && (ts == [] ==> rows == [])
            && (ts != [] ==> |rows| == 1 && rows[0].turnKey == turnKey
                             && ByRow(rows[0]) == ByScreen(Render(Assemble(key, ts))))
  {
    var es := EventsOf(log, turnKey);
    var ts := Collect(Touching(key), es);
    CoherentPart(key, es);
    TouchedTouch(key, es);
    var slices := Collect(DeltaSlice, ts);
    DeltasAreTouching(log, turnKey, key);
    DeltasHavePositions(log, turnKey, key.iterationIndex);
    SlicesDoNotTie(DeltaSlice, ts);
    PickedIsSorted(Spoken(key.kind), Collect(DeltasOf(turnKey, key.iterationIndex), log), slices);
    if ts != [] {
      AssembledText(key, ts);
      AssembledPosition(key, ts);
      FirstIsEarliest(ts, Assemble(key, ts).position);
      JoinNonEmpty(Sort(SliceLeq, slices));
    }
  }

  function IsOutput(call: string): Event -> Option<Event> {
    (e: Event) => if KeyOf(e) == Some(OfTool(call)) && (e.ToolStarted? || e.ToolChunk?) then Some(e) else None
  }

  lemma OutputIsOfTurn(log: seq<Fact>, turnKey: string, call: string)
    ensures Collect(OutputOf(turnKey, call), log) == Collect(IsOutput(call), EventsOf(log, turnKey))
  {
    CollectChain(TurnEvent(turnKey), IsOutput(call), log);
    CollectAlike(OutputOf(turnKey, call), Chain(TurnEvent(turnKey), IsOutput(call)), log);
  }

  lemma SelectedOutput(log: seq<Fact>, turnKey: string, call: string)
    ensures forall e :: e in Collect(OutputOf(turnKey, call), log)
                        <==> e in EventsOf(log, turnKey) && IsOutput(call)(e) == Some(e)
  {
    OutputIsOfTurn(log, turnKey, call);
    CollectMembers(IsOutput(call), EventsOf(log, turnKey));
  }

  /** What a call's rows start with: its start, wherever the sort puts it. */
  lemma StartIsFound(selected: seq<Event>, s: Event)
    requires s in selected && s.ToolStarted? && forall e <- selected | e.ToolStarted? :: e == s
    ensures var starts := Collect(StartOf, Sort(PositionLeq, selected)); starts != [] && starts[0] == s
  {
    var rows := Sort(PositionLeq, selected);
    SortSameElements(PositionLeq, selected);
    CollectMembers(StartOf, rows);
    var starts := Collect(StartOf, rows);
    assert StartOf(s).value in starts;
    assert starts[0] in starts;
    var e :| e in rows && StartOf(e) == Some(starts[0]);
  }

  lemma RowsStartAt(selected: seq<Event>, s: Event)
    requires s in selected && forall e <- selected :: HasPosition(e) && PositionOr0(s) <= PositionOr0(e)
    ensures var rows := Sort(PositionLeq, selected); rows != [] && PositionOr0(rows[0]) == PositionOr0(s)
  {
    var rows := Sort(PositionLeq, selected);
    SortSorts(PositionLeq, selected);
    SortSameElements(PositionLeq, selected);
    var i :| 0 <= i < |rows| && rows[i] == s;
    assert i == 0 || PositionLeq(rows[0], rows[i]);
    assert rows[0] in selected;
  }

  /** The stored start and position of a call, given the start that came first. */
  lemma ToolRowStarts(log: seq<Fact>, ended: Fact, s: Event)
    requires ended.Ended? && WellLogged(log, ended.turnKey)
    requires s in EventsOf(log, ended.turnKey) && s.ToolStarted? && KeyOf(s) == Some(OfTool(ended.toolCallKey))
    requires forall d <- EventsOf(log, ended.turnKey) | KeyOf(d) == KeyOf(s) :: PositionOf(s) <= PositionOf(d)
    ensures ToolRowOf(log, ended).command == s.command && ToolRowOf(log, ended).position == PositionOf(s)
  {
    var selected := Collect(OutputOf(ended.turnKey, ended.toolCallKey), log);
    OnlyStart(log, ended, s);
    OutputHasPositions(log, ended.turnKey, ended.toolCallKey);
    StartIsFound(selected, s);
    RowsStartAt(selected, s);
  }

  /** The start is among what is selected for the call, and the only start there. */
  lemma OnlyStart(log: seq<Fact>, ended: Fact, s: Event)
    requires ended.Ended? && WellLogged(log, ended.turnKey)
    requires s in EventsOf(log, ended.turnKey) && s.ToolStarted? && KeyOf(s) == Some(OfTool(ended.toolCallKey))
    requires forall d <- EventsOf(log, ended.turnKey) | KeyOf(d) == KeyOf(s) :: PositionOf(s) <= PositionOf(d)
    ensures var selected := Collect(OutputOf(ended.turnKey, ended.toolCallKey), log);
            && s in selected && (forall e <- selected | e.ToolStarted? :: e == s)
            && forall e <- selected :: KeyOf(e) == KeyOf(s) && PositionOf(s) <= PositionOf(e)
  {
    var selected := Collect(OutputOf(ended.turnKey, ended.toolCallKey), log);
    SelectedOutput(log, ended.turnKey, ended.toolCallKey);
    assert IsOutput(ended.toolCallKey)(s) == Some(s);
    forall e <- selected | e.ToolStarted?
      ensures e == s
    {
      assert OnePerCall(e, s);
    }
  }

  lemma ToolRowChunks(log: seq<Fact>, ended: Fact, s: Stream)
    requires ended.Ended? && WellLogged(log, ended.turnKey)
    ensures var ts := Collect(Touching(OfTool(ended.toolCallKey)), EventsOf(log, ended.turnKey));
            Join(Collect(Chunked(s), Sort(PositionLeq, Collect(OutputOf(ended.turnKey, ended.toolCallKey), log))))
            == TextOf(Collect(ChunkSlice(s), ts))
  {
    var ts := Collect(Touching(OfTool(ended.toolCallKey)), EventsOf(log, ended.turnKey));
    CoherentPart(OfTool(ended.toolCallKey), EventsOf(log, ended.turnKey));
    ChunksAreTouching(log, ended.turnKey, ended.toolCallKey, s);
    OutputHasPositions(log, ended.turnKey, ended.toolCallKey);
    SlicesDoNotTie(ChunkSlice(s), ts);
    PickedIsSorted(Chunked(s), Collect(OutputOf(ended.turnKey, ended.toolCallKey), log), Collect(ChunkSlice(s), ts));
  }

  lemma BlockStarts(key: BlockKey, ts: seq<Event>, s: Event)
    requires AllTouch(key, ts) && s in ts && forall d <- ts :: PositionOf(s) <= PositionOf(d)
    ensures Assemble(key, ts).position == PositionOf(s)
  {
    AssembledPosition(key, ts);
    var e :| e in ts && PositionOf(e) == Assemble(key, ts).position;
  }

  lemma EndedIsTouched(log: seq<Fact>, ended: Fact)
    requires ended.Ended? && ended in log
    ensures EventOf(ended).value in EventsOf(log, ended.turnKey)
    ensures EventOf(ended).value in Collect(Touching(OfTool(ended.toolCallKey)), EventsOf(log, ended.turnKey))
  {
    CollectMembers(TurnEvent(ended.turnKey), log);
    assert TurnEvent(ended.turnKey)(ended) == EventOf(ended);
    TouchedTouch(OfTool(ended.toolCallKey), EventsOf(log, ended.turnKey));
  }

  lemma CallStarts(log: seq<Fact>, ended: Fact) returns (s: Event)
    requires ended.Ended? && ended in log && WellLogged(log, ended.turnKey)
    ensures s in EventsOf(log, ended.turnKey) && s.ToolStarted? && KeyOf(s) == Some(OfTool(ended.toolCallKey))
    ensures forall d <- EventsOf(log, ended.turnKey) | KeyOf(d) == KeyOf(s) :: PositionOf(s) <= PositionOf(d)
  {
    EndedIsTouched(log, ended);
    var e, es := EventOf(ended).value, EventsOf(log, ended.turnKey);
    assert StartedFirst(es, e);
    s :| s in es && s.ToolStarted? && KeyOf(s) == KeyOf(e)
         && forall d <- es | KeyOf(d) == KeyOf(e) :: PositionOf(s) <= PositionOf(d);
  }

  /** A call's row is its block. */
  lemma ToolRowTells(log: seq<Fact>, ended: Fact)
    requires ended.Ended? && ended in log && WellLogged(log, ended.turnKey)
    ensures var key := OfTool(ended.toolCallKey);
            var ts := Collect(Touching(key), EventsOf(log, ended.turnKey));
            && AllTouch(key, ts) && ts != []
            && ByRow(ToolRowOf(log, ended)) == ByScreen(Render(Assemble(key, ts)))
  {
    var key, es := OfTool(ended.toolCallKey), EventsOf(log, ended.turnKey);
    var ts := Collect(Touching(key), es);
    EndedIsTouched(log, ended);
    TouchedTouch(key, es);
    var s := CallStarts(log, ended);
    BlockStarts(key, ts, s);
    ToolRowStarts(log, ended, s);
    ToolBlockTells(log, ended, ts, s);
    ToolRowChunks(log, ended, Out);
    ToolRowChunks(log, ended, Err);
  }

  lemma ToolBlockTells(log: seq<Fact>, ended: Fact, ts: seq<Event>, s: Event)
    requires ended.Ended? && EventOf(ended).value in ts && s in ts && s.ToolStarted?
    requires AllTouch(OfTool(ended.toolCallKey), ts) && Coherent(EventsOf(log, ended.turnKey))
    requires ts == Collect(Touching(OfTool(ended.toolCallKey)), EventsOf(log, ended.turnKey))
    ensures var b := Assemble(OfTool(ended.toolCallKey), ts);
            && b.command == s.command && b.exitCode == ended.exitCode && b.timedOut == ended.timedOut
            && b.durationMs == ended.durationMs
            && b.stdout == Collect(ChunkSlice(Out), ts) && b.stderr == Collect(ChunkSlice(Err), ts)
  {
    CoherentPart(OfTool(ended.toolCallKey), EventsOf(log, ended.turnKey));
    AssembledTells(OfTool(ended.toolCallKey), ts);
    AssembledChunks(OfTool(ended.toolCallKey), ts);
  }
}
