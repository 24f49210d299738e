/**
  The loop that turns recorded facts into work: it tails the log by action, puts
  a copy of each fact on every queue its action is mapped to, and saves how far
  it got after the sends.

  The log grows under the loop at any moment, and the loop may stop between any
  two statements, keeping only what it saved.
 */
module ReactionEnqueue {
  import opened Wrappers
  import opened Events
  import opened LogRead
  import E = EventStore
  import X = ExecutionStore

  type Table = map<string, seq<string>>

  /** A row that was sent to a queue; the message itself is `MessageOf`. */
  datatype Sent = Sent(queue: string, row: Row)

  function MessageOf(item: Sent): Ingress {
    Work(FactOf(item.row.event), item.queue)
  }

  /** A fact something reacts to. The record of a message being picked up is a command, never a fact. */
  predicate IsFact(table: Table, row: Row) {
    row.event.action in table && !row.event.kind.CommandKind?
  }

  function Facts(table: Table): Row -> bool {
    (row: Row) => IsFact(table, row)
  }

  /**
    Every pair of a fact and a queue is a transaction of its own, since the log
    has one row an event id; and each copy is one consumers count on, made from
    the row stored under the fact's id.
   */
  lemma PairsAreTransactions(table: Table, log: seq<Row>, a: Sent, b: Sent)
    requires E.DistinctEvents(log) && a.row in log && b.row in log && IsFact(table, a.row)
    ensures forall stored: map<EventId, Envelope> | a.row.event.id in stored && stored[a.row.event.id] == a.row.event ::
              Genuine(stored, MessageOf(a))
    ensures MessageOf(a).tx == MessageOf(b).tx <==> a == b
    ensures MessageOf(a).id == MessageOf(b).id <==> a == b
  {
    var i :| 0 <= i < |log| && log[i] == a.row;
    var j :| 0 <= j < |log| && log[j] == b.row;
    if a.row.event.id == b.row.event.id {
      assert i == j;
    }
  }

  /** The copies of a fact that are owed to its queues. */
  predicate Dispatched(table: Table, sent: set<Sent>, row: Row)
    requires IsFact(table, row)
  {
    forall queue <- table[row.event.action] :: Sent(queue, row) in sent
  }

  /** Every fact after `base` and up to `positions` went to all of its queues. */
  ghost predicate Covered(table: Table, log: seq<Row>, sent: set<Sent>, base: Positions, positions: Positions) {
    forall row {:trigger CoveredAt(table, sent, base, positions, row)} | row in log ::
      CoveredAt(table, sent, base, positions, row)
  }

  predicate CoveredAt(table: Table, sent: set<Sent>, base: Positions, positions: Positions, row: Row) {
    IsFact(table, row) && At(base, row.event.stream) < row.sequence <= At(positions, row.event.stream) ==>
      Dispatched(table, sent, row)
  }

  /** Nothing is sent that is not a copy of a recorded fact, for a queue its action is mapped to. */
  ghost predicate Honest(table: Table, log: seq<Row>, sent: set<Sent>) {
    forall item {:trigger IsHonest(table, log, item)} | item in sent :: IsHonest(table, log, item)
  }

  predicate IsHonest(table: Table, log: seq<Row>, item: Sent) {
    item.row in log && IsFact(table, item.row) && item.queue in table[item.row.event.action]
  }

  lemma CoverSurvivesGrowth(table: Table, before: seq<Row>, log: seq<Row>, sent: set<Sent>, base: Positions, positions: Positions)
    requires before <= log && LogGood(log) && Behind(before, positions) && Covered(table, before, sent, base, positions)
    ensures Covered(table, log, sent, base, positions) && Behind(log, positions)
  {
    forall row | row in log
      ensures CoveredAt(table, sent, base, positions, row)
    {
      GrownRowIsCovered(table, before, log, sent, base, positions, row);
    }
    forall stream
      ensures At(positions, stream) <= E.Count(log, stream)
    {
      E.CountGrows(log, |before|, |log|, stream);
      assert log[..|before|] == before && log[..|log|] == log;
    }
  }

  lemma GrownRowIsCovered(table: Table, before: seq<Row>, log: seq<Row>, sent: set<Sent>, base: Positions, positions: Positions,
                          row: Row)
    requires before <= log && LogGood(log) && Behind(before, positions) && Covered(table, before, sent, base, positions)
    requires row in log
    ensures CoveredAt(table, sent, base, positions, row)
  {
    var k :| 0 <= k < |log| && log[k] == row;
    if k < |before| {
      assert row == before[k] && CoveredAt(table, sent, base, positions, before[k]);
    } else {
      LateRowIsAbove(before, log, k);
    }
  }

  function Advance(positions: Positions, page: seq<Row>): Positions {
    if page == [] then positions
    else Advance(positions, page[..|page| - 1])[page[|page| - 1].event.stream := page[|page| - 1].sequence]
  }

  /** Where a stream's position comes from after part of a page. */
  lemma {:induction false} AdvanceFrom(positions: Positions, page: seq<Row>, stream: string)
    ensures At(Advance(positions, page), stream) == At(positions, stream)
            || exists k | 0 <= k < |page| :: page[k].event.stream == stream && page[k].sequence == At(Advance(positions, page), stream)
  {
    if page != [] {
      AdvanceFrom(positions, page[..|page| - 1], stream);
      if page[|page| - 1].event.stream == stream {
        assert page[|page| - 1].sequence == At(Advance(positions, page), stream);
      } else if At(Advance(positions, page), stream) != At(positions, stream) {
        var k :| 0 <= k < |page| - 1 && page[k].event.stream == stream
                 && page[k].sequence == At(Advance(positions, page[..|page| - 1]), stream);
        assert page[k].event.stream == stream && page[k].sequence == At(Advance(positions, page), stream);
      }
    }
  }

  /** Sending a page covers everything up to it. */
  lemma PageIsCovered(table: Table, log: seq<Row>, sent: set<Sent>, base: Positions, start: Positions, page: seq<Row>)
    requires LogGood(log) && Covered(table, log, sent, base, start) && Behind(log, start)
    requires GoodPage(Facts(table), log, start, page) && forall row <- page :: Dispatched(table, sent, row)
    ensures Covered(table, log, sent, base, Advance(start, page)) && Behind(log, Advance(start, page))
  {
    var next := Advance(start, page);
    forall row | row in log
      ensures CoveredAt(table, sent, base, next, row)
    {
      AdvanceFrom(start, page, row.event.stream);
      assert CoveredAt(table, sent, base, start, row);
      if IsFact(table, row) && At(start, row.event.stream) < row.sequence <= At(next, row.event.stream) {
        var k :| 0 <= k < |page| && page[k].event.stream == row.event.stream && page[k].sequence == At(next, row.event.stream);
        RowsUpToAreOn(table, log, start, page, k, row);
      }
    }
    PrefixIsBehind(log, start, page);
  }

  lemma PrefixIsBehind(log: seq<Row>, positions: Positions, rows: seq<Row>)
    requires LogGood(log) && Behind(log, positions) && forall row <- rows :: row in log
    ensures Behind(log, Advance(positions, rows))
  {
    var next := Advance(positions, rows);
    forall stream
      ensures At(next, stream) <= E.Count(log, stream)
    {
      AdvanceFrom(positions, rows, stream);
      if At(next, stream) != At(positions, stream) {
        var k :| 0 <= k < |rows| && rows[k].event.stream == stream && rows[k].sequence == At(next, stream);
        assert rows[k] in log;
        var j :| 0 <= j < |log| && log[j] == rows[k];
        RowIsCounted(log, j);
      }
    }
  }

  lemma RowsUpToAreOn(table: Table, log: seq<Row>, start: Positions, page: seq<Row>, k: nat, row: Row)
    requires LogGood(log) && GoodPage(Facts(table), log, start, page) && row in log && IsFact(table, row)
    requires k < |page| && page[k].event.stream == row.event.stream
    requires At(start, row.event.stream) < row.sequence <= page[k].sequence
    ensures row in page
  {
    if row.sequence == page[k].sequence {
      assert page[k] in page;
      OneRowASequence(log, row, page[k]);
    }
  }

  /** The facts still ahead of a position. */
  function Ahead(table: Table, log: seq<Row>, positions: Positions): set<Row> {
    set row <- log | IsFact(table, row) && At(positions, row.event.stream) < row.sequence
  }

  /** No stream's position goes back. */
  ghost predicate Forward(before: Positions, after: Positions) {
    forall stream :: IsForward(before, after, stream)
  }

  predicate IsForward(before: Positions, after: Positions, stream: string) {
    At(before, stream) <= At(after, stream)
  }

  /** What passes sent before the loop last started at the end of the log was behind that end; the rest is past it. */
  ghost predicate SplitAt(base: Positions, before: set<Sent>, ever: set<Sent>) {
    before <= ever && forall item {:trigger IsSplit(base, before, item)} | item in ever :: IsSplit(base, before, item)
  }

  predicate IsSplit(base: Positions, before: set<Sent>, item: Sent) {
    item in before <==> item.row.sequence <= At(base, item.row.event.stream)
  }

  /** The copy of a fact for a queue has been sent by a pass exactly when the fact is past the start, or was sent before it. */
  ghost predicate SentExactly(table: Table, log: seq<Row>, base: Positions, before: set<Sent>, ever: set<Sent>) {
    forall row <- log, queue | IsFact(table, row) && queue in table[row.event.action] ::
      Sent(queue, row) in ever <==> At(base, row.event.stream) < row.sequence || Sent(queue, row) in before
  }

  /** A recorded copy the passes have not sent and, the start being past its fact, will not. */
  predicate IsLeftBehind(table: Table, log: seq<Row>, base: Positions, ever: set<Sent>, item: Sent) {
    IsHonest(table, log, item) && item.row.sequence <= At(base, item.row.event.stream) && item !in ever
  }

  lemma LeftBehindStays(table: Table, log: seq<Row>, base: Positions, before: set<Sent>, ever: set<Sent>, sent: set<Sent>)
    requires SplitAt(base, before, sent) && before <= ever
    ensures forall item | IsLeftBehind(table, log, base, ever, item) :: item !in sent
  {
    forall item | IsLeftBehind(table, log, base, ever, item)
      ensures item !in sent
    {
      assert item in sent ==> IsSplit(base, before, item);
    }
  }

  lemma EndLeavesBehind(table: Table, seen: seq<Row>, log: seq<Row>, base: Positions, ever: set<Sent>)
    requires log <= seen
    ensures forall item | IsLeftBehind(table, log, base, ever, item) ::
              IsLeftBehind(table, log, HighWater(Facts(table), seen), ever, item)
  {
    forall item | IsLeftBehind(table, log, base, ever, item)
      ensures item.row.sequence <= At(HighWater(Facts(table), seen), item.row.event.stream)
    {
      var k :| 0 <= k < |log| && log[k] == item.row;
      assert seen[k] == item.row;
    }
  }

  lemma AllCoveredIsExact(table: Table, log: seq<Row>, base: Positions, before: set<Sent>, ever: set<Sent>)
    requires SplitAt(base, before, ever)
    requires forall row <- log | IsFact(table, row) && At(base, row.event.stream) < row.sequence :: Dispatched(table, ever, row)
    ensures SentExactly(table, log, base, before, ever)
  {
    forall row <- log, queue | IsFact(table, row) && queue in table[row.event.action]
      ensures Sent(queue, row) in ever <==> At(base, row.event.stream) < row.sequence || Sent(queue, row) in before
    {
      assert Sent(queue, row) in ever ==> IsSplit(base, before, Sent(queue, row));
    }
  }

  /** Sending more uncovers nothing, and stays honest about what is recorded. */
  lemma SendingKeeps(table: Table, log: seq<Row>, sent: set<Sent>, item: Sent)
    ensures forall base, positions | Covered(table, log, sent, base, positions) ::
              Covered(table, log, sent + {item}, base, positions)
    ensures Honest(table, log, sent) && IsHonest(table, log, item) ==> Honest(table, log, sent + {item})
  {
    forall base, positions | Covered(table, log, sent, base, positions)
      ensures Covered(table, log, sent + {item}, base, positions)
    {
      forall row | row in log
        ensures CoveredAt(table, sent + {item}, base, positions, row)
      {
        assert CoveredAt(table, sent, base, positions, row);
      }
    }
    if Honest(table, log, sent) && IsHonest(table, log, item) {
      forall other | other in sent + {item}
        ensures IsHonest(table, log, other)
      {
        assert other in sent ==> IsHonest(table, log, other);
      }
    }
  }

  lemma HonestSurvivesGrowth(table: Table, before: seq<Row>, log: seq<Row>, sent: set<Sent>)
    requires before <= log && Honest(table, before, sent)
    ensures Honest(table, log, sent)
  {
    forall item | item in sent
      ensures IsHonest(table, log, item)
    {
      assert IsHonest(table, before, item);
    }
  }

  lemma SplitGrows(base: Positions, before: set<Sent>, ever: set<Sent>, item: Sent)
    requires SplitAt(base, before, ever) && At(base, item.row.event.stream) < item.row.sequence
    ensures SplitAt(base, before, ever + {item})
  {
    assert item in ever ==> IsSplit(base, before, item);
    forall other | other in ever + {item}
      ensures IsSplit(base, before, other)
    {
      assert other in ever ==> IsSplit(base, before, other);
    }
  }

  /** What is covered up to a position and sent past it is sent. */
  lemma CaughtUp(table: Table, seen: seq<Row>, log: seq<Row>, ever: set<Sent>, base: Positions, start: Positions)
    requires seen <= log && Covered(table, log, ever, base, start)
    requires forall row <- seen | IsFact(table, row) && At(start, row.event.stream) < row.sequence :: Dispatched(table, ever, row)
    ensures forall row <- seen | IsFact(table, row) && At(base, row.event.stream) < row.sequence :: Dispatched(table, ever, row)
  {
    forall row <- seen | IsFact(table, row) && At(base, row.event.stream) < row.sequence
      ensures Dispatched(table, ever, row)
    {
      assert row in log && CoveredAt(table, ever, base, start, row);
    }
  }

  class ReactionEnqueue {
    const table: Table
    const batchSize: nat
    /** Nothing fails and nothing dies. */
    const reliable: bool
    /** Nobody appends to the log while the loop waits. */
    const quiet: bool
    var log: seq<Row>
    var saved: Positions
    var positions: Option<Positions>
    var sent: set<Sent>
    /** Where the loop last started at the end of the log; what passes sent until then, and what they sent in all. */
    ghost var base: Positions
    ghost var before: set<Sent>
    ghost var ever: set<Sent>

    constructor (table: Table, batchSize: nat, reliable: bool, quiet: bool)
      requires batchSize >= 1
      ensures this.table == table && this.batchSize == batchSize && this.reliable == reliable && this.quiet == quiet
      ensures Valid() && log == [] && saved == map[] && positions == None && sent == {} && before == {}
    {
      this.table, this.batchSize, this.reliable, this.quiet := table, batchSize, reliable, quiet;
      log, saved, positions, sent, base, before, ever := [], map[], None, {}, map[], {}, {};
    }

    ghost predicate Valid()
      reads this
    {
      && batchSize >= 1 && LogGood(log) && Honest(table, log, sent)
      && ever <= sent && SplitAt(base, before, ever)
      && Reaches(saved) && (positions.Some? ==> Reaches(positions.value))
    }

    /** A position that may be saved: everything from the start up to it is sent, and it is not past the log. */
    ghost predicate Reaches(position: Positions)
      reads this
    {
      Forward(base, position) && Covered(table, log, ever, base, position) && Behind(log, position)
    }

    /** Time goes by. Once a position is saved, the start stays where it is. */
    twostate predicate Onward()
      reads this
    {
      && old(log) <= log && old(sent) <= sent && old(ever) <= ever && (quiet ==> log == old(log))
      && (old(saved) != map[] ==> saved != map[] && base == old(base) && before == old(before))
    }

    /** Other processes append to the log while the loop waits for an answer. */
    method LogMayGrow()
      requires Valid()
      modifies this`log
      ensures Valid() && old(log) <= log && (quiet ==> log == old(log))
    {
    }

    /** Somebody appends. */
    method Append(rows: seq<Row>)
      requires Valid() && LogGood(log + rows)
      modifies this`log
      ensures Valid() && log == old(log) + rows
    {
      HonestSurvivesGrowth(table, log, log + rows, sent);
      CoverSurvivesGrowth(table, log, log + rows, ever, base, saved);
      if positions.Some? {
        CoverSurvivesGrowth(table, log, log + rows, ever, base, positions.value);
      }
      log := log + rows;
    }

    /** The process dies: only what was saved is left. */
    method Crash()
      requires Valid()
      modifies this`positions
      ensures Valid() && positions == None
    {
      positions := None;
    }

    /** Whether something goes wrong here, and if so whether the process goes with it. */
    method Trouble() returns (pass: Option<Pass>)
      requires Valid()
      modifies this`positions
      ensures Valid() && (reliable ==> pass.None?)
      ensures pass.Some? ==> pass.value.Died? || pass.value.Errored?
      ensures positions == if pass == Some(Died) then None else old(positions)
    {
      if reliable {
        return None;
      }
      if * {
        Crash();
        return Some(Died);
      } else if * {
        return Some(Errored);
      }
      return None;
    }

    /**
      Resumes a saved position; without one, reads where the log ends, saves that
      and starts there. `seen` is the log as it was when it was read.
     */
    method Seed() returns (pass: Pass, ghost seen: seq<Row>)
      requires Valid() && positions.None?
      modifies this
      ensures Valid() && Onward() && sent == old(sent) && ever == old(ever) && old(log) <= seen <= log
      ensures reliable ==> pass.Finished?
      ensures if pass.Finished? then pass.complete && positions == Some(saved) else positions.None?
      ensures old(saved) != map[] ==> saved == old(saved)
      ensures old(saved) == map[] && pass.Finished? ==> saved == base == HighWater(Facts(table), seen) && before == ever
    {
      LogMayGrow();
      seen := log;
      var trouble := Trouble();
      if trouble.Some? {
        return trouble.value, seen;
      }
      if saved == map[] {
        pass := SeedAtEnd();
        if !pass.Finished? {
          return;
        }
      }
      positions := Some(saved);
      return Finished(true), seen;
    }

    /** Saves the end of the log, as it was a moment ago; the save may fail before or after it took effect. */
    method SeedAtEnd() returns (pass: Pass)
      requires Valid() && positions.None? && saved == map[]
      modifies this
      ensures Valid() && Onward() && sent == old(sent) && ever == old(ever) && positions.None?
      ensures reliable ==> pass.Finished?
      ensures pass.Finished? ==> pass.complete && saved == base == HighWater(Facts(table), old(log)) && before == ever
    {
      var now := HighWater(Facts(table), log);
      LogMayGrow();
      var trouble := Trouble();
      if trouble.Some? {
        return trouble.value;
      }
      EndIsGood(table, old(log), log, ever);
      saved, base, before := now, now, ever;
      trouble := Trouble();
      return if trouble.Some? then trouble.value else Finished(true);
    }

    /**
      A restart. A fact the passes had yet to come to is behind the new start, and
      so is never sent by a pass, exactly when no position had been saved.
     */
    method Restart() returns (pass: Pass, ghost seen: seq<Row>)
      requires Valid()
      modifies this
      ensures Valid() && Onward() && sent == old(sent) && ever == old(ever) && old(log) <= seen <= log
      ensures reliable ==> pass.Finished?
      ensures pass.Finished? ==> pass.complete && positions == Some(saved)
      ensures old(saved) == map[] && pass.Finished? ==> saved == base == HighWater(Facts(table), seen) && before == ever
      ensures pass.Finished? ==>
                forall row <- seen | IsFact(table, row) && At(old(base), row.event.stream) < row.sequence ::
                  row.sequence <= At(base, row.event.stream) <==> old(saved) == map[]
    {
      Crash();
      pass, seen := Seed();
      if pass.Finished? && old(saved) == map[] {
        forall row <- seen | IsFact(table, row)
          ensures row.sequence <= At(base, row.event.stream)
        {
          var k :| 0 <= k < |seen| && seen[k] == row;
        }
      }
    }

    method Send(queue: string, row: Row)
      requires Valid() && row in log && IsFact(table, row) && queue in table[row.event.action]
      modifies this`sent
      ensures Valid() && sent == old(sent) + {Sent(queue, row)}
    {
      SendingKeeps(table, log, sent, Sent(queue, row));
      sent := sent + {Sent(queue, row)};
    }

    /** A pass sends what is past the start. */
    method SendOnPass(queue: string, row: Row)
      requires Valid() && row in log && IsFact(table, row) && queue in table[row.event.action]
      requires At(base, row.event.stream) < row.sequence
      modifies this`sent, this`ever
      ensures Valid() && sent == old(sent) + {Sent(queue, row)} && ever == old(ever) + {Sent(queue, row)}
    {
      Send(queue, row);
      SendingKeeps(table, log, ever, Sent(queue, row));
      SplitGrows(base, before, ever, Sent(queue, row));
      ever := ever + {Sent(queue, row)};
    }

    /** Sends a fact to each of its queues, unless a send fails or the process dies. */
    method Dispatch(row: Row) returns (pass: Pass)
      requires Valid() && row in log && IsFact(table, row) && At(base, row.event.stream) < row.sequence
      modifies this`log, this`positions, this`sent, this`ever
      ensures Valid() && Onward()
      ensures positions == if pass.Died? then None else old(positions)
      ensures reliable ==> pass.Finished?
      ensures pass.Finished? ==> pass.complete && Dispatched(table, ever, row)
      ensures sent == old(sent) + ever
    {
      var queues := table[row.event.action];
      for q := 0 to |queues|
        invariant Valid() && Onward() && row in log && positions == old(positions) && sent == old(sent) + ever
        invariant forall i | 0 <= i < q :: Sent(queues[i], row) in ever
      {
        var trouble := Trouble();
        if trouble.Some? {
          return trouble.value;
        }
        LogMayGrow();
        SendOnPass(queues[q], row);
      }
      return Finished(true);
    }

    method SendPage(page: seq<Row>, start: Positions) returns (pass: Pass, advanced: Positions)
      requires Valid()
      requires forall row <- page :: row in log && IsFact(table, row) && At(base, row.event.stream) < row.sequence
      modifies this`log, this`positions, this`sent, this`ever
      ensures Valid() && Onward()
      ensures positions == if pass.Died? then None else old(positions)
      ensures reliable ==> pass.Finished?
      ensures pass.Finished? ==> advanced == Advance(start, page) && forall row <- page :: Dispatched(table, ever, row)
      ensures sent == old(sent) + ever
    {
      advanced := start;
      pass := Finished(true);
      for k := 0 to |page|
        invariant Valid() && Onward() && positions == old(positions) && pass == Finished(true)
        invariant sent == old(sent) + ever
        invariant advanced == Advance(start, page[..k])
        invariant forall row <- page[..k] :: Dispatched(table, ever, row)
      {
        assert page[k] in page;
        pass := Dispatch(page[k]);
        if !pass.Finished? {
          return;
        }
        advanced := advanced[page[k].event.stream := page[k].sequence];
        assert page[..k + 1] == page[..k] + [page[k]];
      }
      assert page[..|page|] == page;
    }

    /**
      One pass over the log. The process may die between any two statements, and
      any statement may fail, the save included: before or after it took effect.
      When it says it is caught up, passes have sent exactly the copies of what is
      past the start, and what they had sent before that start.
     */
    method Drain() returns (pass: Pass, ghost start: Positions)
      requires Valid()
      modifies this
      ensures Valid() && Onward()
      ensures reliable ==> pass.Finished?
      ensures pass.Died? ==> positions.None?
      ensures old(positions).Some? || old(saved) != map[] ==>
                base == old(base) && before == old(before) && start == old(positions).GetOr(old(saved))
      ensures pass == Finished(true) ==> SentExactly(table, old(log), base, before, ever)
      ensures forall item | IsLeftBehind(table, old(log), old(base), old(ever), item) :: item !in ever
      ensures pass == Finished(false) ==> positions == Some(saved) && Ahead(table, log, saved) < Ahead(table, log, start)
      ensures sent == old(sent) + ever
    {
      start := positions.GetOr(saved);
      LeftBehindStays(table, log, base, before, ever, ever);
      if table == map[] {
        return Finished(true), start;
      }
      if positions.None? {
        ghost var seen;
        pass, seen := Seed();
        if !pass.Finished? {
          return;
        }
        start := saved;
        EndLeavesBehind(table, seen, old(log), old(base), ever);
      }
      pass := DrainFrom(positions.value);
      LeftBehindStays(table, old(log), base, before, old(ever), ever);
      if pass == Finished(true) {
        AllCoveredIsExact(table, old(log), base, before, ever);
      }
    }

    /** Saves the cursor; only then does the position in memory move. */
    method Save(advanced: Positions) returns (pass: Pass)
      requires Valid() && advanced != map[] && Reaches(advanced)
      modifies this`saved, this`positions
      ensures Valid() && (saved == old(saved) || saved == advanced)
      ensures reliable ==> pass.Finished?
      ensures pass.Died? ==> positions.None?
      ensures pass.Finished? ==> pass.complete && saved == advanced && positions == Some(advanced)
    {
      var trouble := Trouble();
      if trouble.Some? {
        return trouble.value;
      }
      saved := advanced;
      trouble := Trouble();
      if trouble.Some? {
        return trouble.value;
      }
      positions := Some(advanced);
      return Finished(true);
    }

    /** The two queries of a pass: how far the log goes, and a page of what is unread up to there. */
    method Read(start: Positions) returns (page: seq<Row>, complete: bool)
      requires Valid()
      modifies this`log
      ensures Valid() && Onward() && GoodPage(Facts(table), log, start, page) && (!complete ==> page != [])
      ensures complete ==> forall row <- old(log) | IsFact(table, row) && At(start, row.event.stream) < row.sequence
                :: row in page
    {
      LogMayGrow();
      var marks := HighWater(Facts(table), log);
      if marks == map[] {
        return [], true;
      }
      ghost var bounded := log;
      LogMayGrow();
      ReadIsGood(Facts(table), log, start, marks, batchSize);
      var read := Page(Facts(table), log, start, marks, batchSize);
      page, complete := read.0, read.1;
      forall row <- old(log) | IsFact(table, row) && At(start, row.event.stream) < row.sequence
        ensures row in log && Unread(Facts(table), start, marks, row)
      {
        var k :| 0 <= k < |old(log)| && old(log)[k] == row;
        assert bounded[k] == row && log[k] == row;
      }
    }

    method DrainFrom(start: Positions) returns (pass: Pass)
      requires Valid() && positions == Some(start)
      modifies this`log, this`saved, this`positions, this`sent, this`ever
      ensures Valid() && Onward()
      ensures reliable ==> pass.Finished?
      ensures pass.Died? ==> positions.None?
      ensures pass == Finished(true) ==>
                forall row <- old(log) | IsFact(table, row) && At(base, row.event.stream) < row.sequence
                  :: Dispatched(table, ever, row)
      ensures pass == Finished(false) ==>
                positions == Some(saved) && Ahead(table, log, saved) < Ahead(table, log, start)
      ensures sent == old(sent) + ever
    {
      var page, complete := Read(start);
      if page == [] {
        CaughtUp(table, old(log), log, ever, base, start);
        return Finished(true);
      }
      ghost var seen := log;
      var advanced;
      PageIsPast(base, start, page);
      pass, advanced := SendPage(page, start);
      if pass.Finished? {
        PageStaysCovered(table, seen, log, ever, base, start, page);
        PageMovesForward(base, start, page);
        if complete {
          CaughtUp(table, old(log), log, ever, base, start);
        }
        pass := Save(advanced);
        if pass.Finished? {
          PageShrinksAhead(table, log, start, page);
          pass := Finished(complete);
        }
      }
    }

    /**
      The sweep: facts old enough to have been reacted to, whose reaction has not
      settled, are sent again under the same identities.
     */
    method Reconcile(executions: X.ExecutionStore, candidates: seq<Row>) returns (pass: Pass, ghost settled: set<TxKey>)
      requires Valid() && forall row <- candidates :: row in log && IsFact(table, row)
      modifies this`log, this`positions, this`sent
      ensures Valid() && Onward() && ever == old(ever)
      ensures reliable ==> pass.Finished?
      ensures settled == set tx | tx in KeysOf(CopiesOf(table, candidates)) && tx in executions.rows
                                  && !executions.rows[tx].status.Running?
      ensures pass.Finished? ==> forall row <- candidates :: Resent(table, sent, settled, row)
      ensures forall item <- sent | item !in old(sent) :: item.row in candidates && MessageOf(item).tx !in settled
    {
      var wanted := CopiesOf(table, candidates);
      var keys := KeysOf(wanted);
      settled := set tx | tx in keys && tx in executions.rows && !executions.rows[tx].status.Running?;
      var answered := executions.Settled(keys);
      pass := Sweep(candidates, wanted, answered);
      if pass.Finished? {
        SweptIsResent(table, candidates, wanted, sent, settled);
      }
    }

    method Sweep(ghost candidates: seq<Row>, wanted: seq<Sent>, answered: set<TxKey>) returns (pass: Pass)
      requires Valid() && forall item <- wanted :: IsHonest(table, log, item) && item.row in candidates
      modifies this`log, this`positions, this`sent
      ensures Valid() && Onward() && ever == old(ever)
      ensures reliable ==> pass.Finished?
      ensures pass.Finished? ==> forall item <- wanted :: MessageOf(item).tx in answered || item in sent
      ensures forall item <- sent | item !in old(sent) :: item.row in candidates && MessageOf(item).tx !in answered
    {
      pass := Finished(true);
      for k := 0 to |wanted|
        invariant Valid() && Onward() && ever == old(ever) && pass == Finished(true)
        invariant forall j | 0 <= j < k :: MessageOf(wanted[j]).tx in answered || wanted[j] in sent
        invariant forall item <- sent | item !in old(sent) :: item.row in candidates && MessageOf(item).tx !in answered
      {
        assert wanted[k] in wanted;
        if MessageOf(wanted[k]).tx !in answered {
          var trouble := Trouble();
          if trouble.Some? {
            return trouble.value;
          }
          LogMayGrow();
          Send(wanted[k].queue, wanted[k].row);
        }
      }
    }
  }

  lemma SweptIsResent(table: Table, candidates: seq<Row>, wanted: seq<Sent>, sent: set<Sent>, settled: set<TxKey>)
    requires (forall row <- candidates :: IsFact(table, row)) && wanted == CopiesOf(table, candidates)
    requires forall item <- wanted :: MessageOf(item).tx in settled || item in sent
    ensures forall row <- candidates :: Resent(table, sent, settled, row)
  {
    forall row <- candidates, queue | queue in table[row.event.action]
      ensures MessageOf(Sent(queue, row)).tx in settled || Sent(queue, row) in sent
    {
      assert Sent(queue, row) in wanted;
    }
  }

  function KeysOf(copies: seq<Sent>): (keys: seq<TxKey>)
    ensures |keys| == |copies| && forall k | 0 <= k < |copies| :: keys[k] == MessageOf(copies[k]).tx
    ensures forall item <- copies :: MessageOf(item).tx in keys
    ensures forall tx <- keys :: exists item <- copies :: MessageOf(item).tx == tx
  {
    if copies == [] then []
    else
      assert copies == copies[..|copies| - 1] + [copies[|copies| - 1]];
      KeysOf(copies[..|copies| - 1]) + [MessageOf(copies[|copies| - 1]).tx]
  }

  /** The copies a sweep looks at, each once. */
  function CopiesOf(table: Table, candidates: seq<Row>): (copies: seq<Sent>)
    requires forall row <- candidates :: IsFact(table, row)
    ensures forall item :: item in copies <==> item.row in candidates && IsFact(table, item.row) && item.queue in table[item.row.event.action]
  {
    if candidates == [] then []
    else
      var init, last := candidates[..|candidates| - 1], candidates[|candidates| - 1];
      assert candidates == init + [last] && last in candidates;
      assert IsFact(table, last);
      var rest := CopiesOf(table, init);
      rest + if last in init then [] else CopiesFor(table[last.event.action], last)
  }

  function CopiesFor(queues: seq<string>, row: Row): (copies: seq<Sent>)
    ensures forall item :: item in copies <==> item.row == row && item.queue in queues
  {
    if queues == [] then []
    else
      var init, last := queues[..|queues| - 1], queues[|queues| - 1];
      assert queues == init + [last];
      CopiesFor(init, row) + if last in init then [] else [Sent(last, row)]
  }

  datatype Pass = Finished(complete: bool) | Errored | Died

  predicate Resent(table: Table, sent: set<Sent>, settled: set<TxKey>, row: Row)
    requires IsFact(table, row)
  {
    forall queue <- table[row.event.action] ::
      MessageOf(Sent(queue, row)).tx in settled || Sent(queue, row) in sent
  }

  /** A page sent while the log grew behind it. */
  lemma PageStaysCovered(table: Table, seen: seq<Row>, log: seq<Row>, sent: set<Sent>, base: Positions, start: Positions,
                         page: seq<Row>)
    requires seen <= log && LogGood(seen) && LogGood(log) && Behind(seen, start) && Covered(table, log, sent, base, start)
    requires GoodPage(Facts(table), seen, start, page) && forall row <- page :: Dispatched(table, sent, row)
    ensures Covered(table, log, sent, base, Advance(start, page)) && Behind(log, Advance(start, page))
  {
    PageIsCovered(table, seen, sent, base, start, page);
    CoverSurvivesGrowth(table, seen, log, sent, base, Advance(start, page));
  }

  lemma {:induction false} AdvanceIsForward(positions: Positions, page: seq<Row>, stream: string)
    requires forall row <- page :: At(positions, row.event.stream) < row.sequence
    ensures At(Advance(positions, page), stream) >= At(positions, stream)
  {
    AdvanceFrom(positions, page, stream);
  }

  lemma PageIsPast(base: Positions, start: Positions, page: seq<Row>)
    requires Forward(base, start) && forall row <- page :: At(start, row.event.stream) < row.sequence
    ensures forall row <- page :: At(base, row.event.stream) < row.sequence
  {
    forall row <- page
      ensures At(base, row.event.stream) < row.sequence
    {
      assert IsForward(base, start, row.event.stream);
    }
  }

  lemma PageMovesForward(base: Positions, start: Positions, page: seq<Row>)
    requires Forward(base, start) && page != [] && forall row <- page :: At(start, row.event.stream) < row.sequence
    ensures Forward(base, Advance(start, page)) && Advance(start, page) != map[]
  {
    forall stream
      ensures IsForward(base, Advance(start, page), stream)
    {
      assert IsForward(base, start, stream);
      AdvanceIsForward(start, page, stream);
    }
    assert page[|page| - 1].event.stream in Advance(start, page);
  }

  /** Every page that is not empty leaves strictly less to read. */
  lemma PageShrinksAhead(table: Table, log: seq<Row>, start: Positions, page: seq<Row>)
    requires page != [] && forall row <- page :: row in log && IsFact(table, row) && At(start, row.event.stream) < row.sequence
    ensures Ahead(table, log, Advance(start, page)) < Ahead(table, log, start)
  {
    var next := Advance(start, page);
    forall stream
      ensures At(next, stream) >= At(start, stream)
    {
      AdvanceIsForward(start, page, stream);
    }
    var last := page[|page| - 1];
    assert last in page;
    assert last in Ahead(table, log, start) && last !in Ahead(table, log, next);
  }

  /** The end of the log is a good place to start: everything sent so far is behind it, and it stays behind the log. */
  lemma EndIsGood(table: Table, seen: seq<Row>, log: seq<Row>, ever: set<Sent>)
    requires seen <= log && LogGood(seen) && LogGood(log) && Honest(table, seen, ever)
    ensures var now := HighWater(Facts(table), seen);
            && SplitAt(now, ever, ever) && Forward(now, now)
            && Covered(table, log, ever, now, now) && Behind(log, now)
  {
    var now := HighWater(Facts(table), seen);
    forall item | item in ever
      ensures IsSplit(now, ever, item)
    {
      assert IsHonest(table, seen, item);
      var k :| 0 <= k < |seen| && seen[k] == item.row;
    }
    HighWaterIsBehind(Facts(table), seen);
    CoverSurvivesGrowth(table, seen, log, ever, now, now);
  }

  /**
    The gap, at its smallest. The loop starts on a log without facts, one fact is
    recorded, the process dies before it saved anything and starts again. Nothing
    fails after that, a pass says it is caught up, and the fact has gone nowhere.
   */
  method RestartLosesAFact(table: Table, fact: Row) returns (loop: ReactionEnqueue, pass: Pass)
    requires IsFact(table, fact) && fact.sequence == 1
    ensures loop.Valid() && loop.table == table && loop.reliable && loop.log == [fact]
    ensures pass == Finished(true) && loop.sent == {} && fact.sequence <= At(loop.base, fact.event.stream)
  {
    loop := StartedTooEarly(table, fact);
    ghost var seen, start;
    pass, seen := loop.Restart();
    NothingIsAhead(table, [fact], loop.saved);
    pass, start := loop.Drain();
    NothingWasSent(table, loop.log, loop.base, loop.before, loop.ever);
  }

  /** Started on an empty log, with one fact recorded since. */
  method StartedTooEarly(table: Table, fact: Row) returns (loop: ReactionEnqueue)
    requires IsFact(table, fact) && fact.sequence == 1
    ensures fresh(loop) && loop.Valid() && loop.table == table && loop.reliable && loop.quiet
    ensures loop.log == [fact] && loop.saved == map[] && loop.sent == loop.ever == {}
  {
    loop := new ReactionEnqueue(table, 1, true, true);
    ghost var seen;
    var pass;
    pass, seen := loop.Seed();
    assert loop.saved == HighWater(Facts(table), []) == map[];
    OneRowIsGood(fact);
    loop.Append([fact]);
  }

  lemma NothingIsAhead(table: Table, log: seq<Row>, start: Positions)
    requires start == HighWater(Facts(table), log)
    ensures Ahead(table, log, start) == {}
  {
    forall row <- log | IsFact(table, row)
      ensures row.sequence <= At(start, row.event.stream)
    {
      var k :| 0 <= k < |log| && log[k] == row;
    }
  }

  lemma SentIsAhead(table: Table, log: seq<Row>, base: Positions, ever: set<Sent>, item: Sent)
    requires Honest(table, log, ever) && SplitAt(base, {}, ever) && item in ever
    ensures item.row in Ahead(table, log, base)
  {
    assert IsHonest(table, log, item) && IsSplit(base, {}, item);
  }

  lemma NothingWasSent(table: Table, log: seq<Row>, base: Positions, before: set<Sent>, ever: set<Sent>)
    requires Honest(table, log, ever) && SplitAt(base, before, ever) && before == {} && Ahead(table, log, base) == {}
    ensures ever == {}
  {
    if item :| item in ever {
      SentIsAhead(table, log, base, ever, item);
      assert false;
    }
  }

  lemma OneRowIsGood(row: Row)
    requires row.sequence == 1
    ensures LogGood([] + [row])
  {
    var log := [] + [row];
    assert log[..0] == [] && E.DenseAt(log, map[], 0);
  }
}
