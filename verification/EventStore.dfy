/**
  Appending to the log, with transactions interleaved statement by statement.

  A transaction locks an event id, looks whether the event is stored, bumps the
  counter of the event's stream and inserts the row. The counter's row lock is
  held until the transaction ends, and a transaction may be rolled back at any
  point. Batches are appended in the order they are given: their sorting only
  matters for deadlocks.
 */
module EventStore {
  import opened Wrappers
  import opened Events

  datatype Row = Row(sequence: nat, event: Envelope)

  datatype Pc =
    | Ready
    | Locked(event: Envelope)
    | Missing(event: Envelope)
    | Numbered(event: Envelope, sequence: nat)

  /** `pending` and `bumped` are what the transaction wrote and nobody else sees yet. */
  datatype Txn = Txn(todo: seq<Envelope>, pc: Pc, pending: seq<Row>, bumped: map<string, nat>, locks: set<EventId>,
                     persisted: seq<Row>)

  /** `committed` lists the stored rows in the order their transactions committed. */
  datatype State = State(committed: seq<Row>, counters: map<string, nat>, txns: map<nat, Txn>)

  datatype Step =
    | Begin(t: nat, events: seq<Envelope>)
    | LockEvent(t: nat)
    | Look(t: nat)
    | Bump(t: nat)
    | Insert(t: nat)
    | CommitTxn(t: nat)
    | Rollback(t: nat)

  predicate Init(s: State) {
    s.committed == [] && s.counters == map[] && s.txns == map[]
  }

  function Counter(counters: map<string, nat>, stream: string): nat {
    if stream in counters then counters[stream] else 0
  }

  /** The first row stored under an event id. */
  function Find(rows: seq<Row>, id: EventId): (found: Option<Row>)
    ensures found.Some? ==> found.value in rows && found.value.event.id == id
    ensures found.None? ==> forall k | 0 <= k < |rows| :: rows[k].event.id != id
  {
    if rows == [] then None
    else if rows[0].event.id == id then Some(rows[0])
    else Find(rows[1..], id)
  }

  predicate EventIsFree(s: State, t: nat, id: EventId) {
    forall u <- s.txns | u != t :: id !in s.txns[u].locks
  }

  predicate StreamIsFree(s: State, t: nat, stream: string) {
    forall u <- s.txns | u != t :: stream !in s.txns[u].bumped
  }

  predicate Enabled(s: State, step: Step) {
    if step.Begin? then step.t !in s.txns
    else
      && step.t in s.txns
      && var txn := s.txns[step.t];
         match step
         case LockEvent(t) => txn.pc.Ready? && txn.todo != [] && EventIsFree(s, t, txn.todo[0].id)
         case Look(_) => txn.pc.Locked?
         case Bump(t) => txn.pc.Missing? && StreamIsFree(s, t, txn.pc.event.stream)
         case Insert(_) => txn.pc.Numbered?
         case CommitTxn(_) => txn.pc.Ready? && txn.todo == []
         case _ => true
  }

  function Looked(s: State, txn: Txn): Txn
    requires txn.pc.Locked? && txn.todo != []
  {
    var existing := Find(s.committed + txn.pending, txn.pc.event.id);
    if existing.Some? then txn.(pc := Ready, todo := txn.todo[1..], persisted := txn.persisted + [existing.value])
    else txn.(pc := Missing(txn.pc.event))
  }

  function Bumped(s: State, txn: Txn): Txn
    requires txn.pc.Missing?
  {
    var stream := txn.pc.event.stream;
    var next := (if stream in txn.bumped then txn.bumped[stream] else Counter(s.counters, stream)) + 1;
    txn.(pc := Numbered(txn.pc.event, next), bumped := txn.bumped[stream := next])
  }

  /** Whether the insert would find its event id taken, the case the source answers with an error. */
  predicate InsertCollides(s: State, t: nat)
    requires t in s.txns && s.txns[t].pc.Numbered?
  {
    var id := s.txns[t].pc.event.id;
    || Find(s.committed, id).Some? || Find(s.txns[t].pending, id).Some?
    || exists u <- s.txns :: Find(s.txns[u].pending, id).Some?
  }

  function Inserted(txn: Txn): Txn
    requires txn.pc.Numbered?
  {
    var row := Row(txn.pc.sequence, txn.pc.event);
    txn.(pc := Ready, todo := if txn.todo == [] then [] else txn.todo[1..], pending := txn.pending + [row], persisted := txn.persisted + [row])
  }

  function Apply(s: State, step: Step): State
    requires Enabled(s, step) && ShapeOk(s)
  {
    if step.Begin? then s.(txns := s.txns[step.t := Txn(step.events, Ready, [], map[], {}, [])])
    else
      var t, txn := step.t, s.txns[step.t];
      match step
      case LockEvent(_) =>
        s.(txns := s.txns[t := txn.(pc := Locked(txn.todo[0]), locks := txn.locks + {txn.todo[0].id})])
      case Look(_) => s.(txns := s.txns[t := Looked(s, txn)])
      case Bump(_) => s.(txns := s.txns[t := Bumped(s, txn)])
      case Insert(_) =>
        if InsertCollides(s, t) then s.(txns := s.txns - {t}) else s.(txns := s.txns[t := Inserted(txn)])
      case CommitTxn(_) => State(s.committed + txn.pending, s.counters + txn.bumped, s.txns - {t})
      case _ => s.(txns := s.txns - {t})
  }

  /** A transaction in the middle of an event is working on the first one left to do. */
  ghost predicate ShapeOk(s: State) {
    forall t <- s.txns | !s.txns[t].pc.Ready? :: s.txns[t].todo != [] && s.txns[t].todo[0] == s.txns[t].pc.event
  }

  function Count(rows: seq<Row>, stream: string): nat {
    if rows == [] then 0
    else Count(rows[..|rows| - 1], stream) + if rows[|rows| - 1].event.stream == stream then 1 else 0
  }

  lemma {:induction false} CountAdds(a: seq<Row>, b: seq<Row>, stream: string)
    ensures Count(a + b, stream) == Count(a, stream) + Count(b, stream)
  {
    if b == [] {
      assert a + b == a;
    } else {
      var n := |b| - 1;
      assert (a + b)[..|a + b| - 1] == a + b[..n];
      CountAdds(a, b[..n], stream);
    }
  }

  /** Within its stream every row's sequence is one more than the number of rows before it. */
  ghost predicate DenseFrom(rows: seq<Row>, base: map<string, nat>) {
    forall k | 0 <= k < |rows| :: DenseAt(rows, base, k)
  }

  predicate DenseAt(rows: seq<Row>, base: map<string, nat>, k: nat)
    requires k < |rows|
  {
    rows[k].sequence == Counter(base, rows[k].event.stream) + Count(rows[..k], rows[k].event.stream) + 1
  }

  ghost predicate DistinctEvents(rows: seq<Row>) {
    forall j, k | 0 <= j < k < |rows| :: rows[j].event.id != rows[k].event.id
  }

  /** What a transaction knows about the streams it holds and the events it has locked. */
  ghost predicate TxnOk(s: State, txn: Txn) {
    && DenseFrom(txn.pending, s.counters)
    && DistinctEvents(s.committed + txn.pending)
    && (forall row <- txn.persisted :: row in s.committed + txn.pending)
    && (forall k | 0 <= k < |txn.pending| ::
          txn.pending[k].event.stream in txn.bumped && txn.pending[k].event.id in txn.locks)
    && (!txn.pc.Ready? ==> txn.pc.event.id in txn.locks)
    && (txn.pc.Missing? || txn.pc.Numbered? ==> Find(s.committed + txn.pending, txn.pc.event.id).None?)
    && (txn.pc.Numbered? ==> txn.pc.event.stream in txn.bumped && txn.bumped[txn.pc.event.stream] == txn.pc.sequence)
    && (forall stream <- txn.bumped ::
          txn.bumped[stream] == Counter(s.counters, stream) + Count(txn.pending, stream)
                                + if txn.pc.Numbered? && txn.pc.event.stream == stream then 1 else 0)
  }

  ghost predicate Exclusive(s: State) {
    forall t, u | t in s.txns && u in s.txns && t != u ::
      s.txns[t].locks !! s.txns[u].locks && s.txns[t].bumped.Keys !! s.txns[u].bumped.Keys
  }

  ghost predicate LogOk(s: State) {
    && DenseFrom(s.committed, map[]) && DistinctEvents(s.committed)
    && forall stream :: Counter(s.counters, stream) == Count(s.committed, stream)
  }

  ghost predicate Inv(s: State) {
    ShapeOk(s) && LogOk(s) && Exclusive(s) && forall t <- s.txns :: TxnOk(s, s.txns[t])
  }

  lemma FindExact(rows: seq<Row>, id: EventId)
    ensures Find(rows, id).None? <==> forall k | 0 <= k < |rows| :: rows[k].event.id != id
  {
  }

  /** A step that only changes what transaction `t` knows. */
  lemma LocalStepKeeps(s: State, t: nat, txn: Txn)
    requires Inv(s) && t in s.txns && TxnOk(s, txn)
    requires !txn.pc.Ready? ==> txn.todo != [] && txn.todo[0] == txn.pc.event
    requires forall u <- s.txns | u != t ::
               txn.locks !! s.txns[u].locks && txn.bumped.Keys !! s.txns[u].bumped.Keys
    ensures Inv(s.(txns := s.txns[t := txn]))
  {
    var s' := s.(txns := s.txns[t := txn]);
    forall u <- s'.txns
      ensures TxnOk(s', s'.txns[u])
    {
      assert u != t ==> TxnOk(s, s.txns[u]);
    }
  }

  lemma LockKeeps(s: State, t: nat)
    requires Inv(s) && Enabled(s, LockEvent(t))
    ensures Inv(Apply(s, LockEvent(t)))
  {
    assert TxnOk(s, s.txns[t]);
    LocalStepKeeps(s, t, s.txns[t].(pc := Locked(s.txns[t].todo[0]), locks := s.txns[t].locks + {s.txns[t].todo[0].id}));
  }

  lemma LookKeeps(s: State, t: nat)
    requires Inv(s) && Enabled(s, Look(t))
    ensures Inv(Apply(s, Look(t)))
  {
    assert TxnOk(s, s.txns[t]);
    LocalStepKeeps(s, t, Looked(s, s.txns[t]));
  }

  lemma BumpedIsOk(s: State, txn: Txn)
    requires TxnOk(s, txn) && txn.pc.Missing?
    ensures TxnOk(s, Bumped(s, txn))
  {
    if txn.pc.event.stream !in txn.bumped {
      NothingPending(txn.pending, txn.pc.event.stream);
    }
  }

  lemma BumpKeeps(s: State, t: nat)
    requires Inv(s) && Enabled(s, Bump(t))
    ensures Inv(Apply(s, Bump(t)))
  {
    assert TxnOk(s, s.txns[t]);
    BumpedIsOk(s, s.txns[t]);
    LocalStepKeeps(s, t, Bumped(s, s.txns[t]));
  }

  lemma {:induction false} NothingPending(rows: seq<Row>, stream: string)
    requires forall k | 0 <= k < |rows| :: rows[k].event.stream != stream
    ensures Count(rows, stream) == 0
  {
    if rows != [] {
      NothingPending(rows[..|rows| - 1], stream);
    }
  }

  /** The lock taken for an event id keeps everyone else from storing it. */
  lemma InsertNeverCollides(s: State, t: nat)
    requires Inv(s) && t in s.txns && s.txns[t].pc.Numbered?
    ensures !InsertCollides(s, t)
  {
    var id := s.txns[t].pc.event.id;
    assert TxnOk(s, s.txns[t]);
    FindExact(s.committed + s.txns[t].pending, id);
    FindExact(s.committed, id);
    FindExact(s.txns[t].pending, id);
    forall k | 0 <= k < |s.committed|
      ensures s.committed[k].event.id != id
    {
      assert (s.committed + s.txns[t].pending)[k] == s.committed[k];
    }
    forall k | 0 <= k < |s.txns[t].pending|
      ensures s.txns[t].pending[k].event.id != id
    {
      assert (s.committed + s.txns[t].pending)[|s.committed| + k] == s.txns[t].pending[k];
    }
    forall u <- s.txns
      ensures Find(s.txns[u].pending, id).None?
    {
      assert TxnOk(s, s.txns[u]);
      FindExact(s.txns[u].pending, id);
    }
  }

  lemma InsertedIsDense(s: State, txn: Txn)
    requires TxnOk(s, txn) && txn.pc.Numbered?
    ensures DenseFrom(Inserted(txn).pending, s.counters)
    ensures forall stream :: Count(Inserted(txn).pending, stream)
                             == Count(txn.pending, stream) + if txn.pc.event.stream == stream then 1 else 0
  {
    var after := Inserted(txn).pending;
    assert after[..|after| - 1] == txn.pending;
    forall k | 0 <= k < |after|
      ensures DenseAt(after, s.counters, k)
    {
      if k < |txn.pending| {
        assert after[..k] == txn.pending[..k] && DenseAt(txn.pending, s.counters, k);
      }
    }
  }

  lemma InsertedIsOk(s: State, txn: Txn)
    requires TxnOk(s, txn) && txn.pc.Numbered? && txn.todo != []
    ensures TxnOk(s, Inserted(txn))
  {
    var after := Inserted(txn);
    var row := after.pending[|txn.pending|];
    InsertedIsDense(s, txn);
    FindExact(s.committed + txn.pending, row.event.id);
    assert s.committed + after.pending == s.committed + txn.pending + [row];
  }

  lemma InsertKeeps(s: State, t: nat)
    requires Inv(s) && Enabled(s, Insert(t))
    ensures Inv(Apply(s, Insert(t)))
  {
    InsertNeverCollides(s, t);
    assert TxnOk(s, s.txns[t]);
    InsertedIsOk(s, s.txns[t]);
    LocalStepKeeps(s, t, Inserted(s.txns[t]));
  }

  lemma {:induction false} DenseTogether(a: seq<Row>, b: seq<Row>, counters: map<string, nat>)
    requires DenseFrom(a, map[]) && DenseFrom(b, counters)
    requires forall stream :: Counter(counters, stream) == Count(a, stream)
    ensures DenseFrom(a + b, map[])
  {
    forall k | 0 <= k < |a + b|
      ensures DenseAt(a + b, map[], k)
    {
      if k < |a| {
        assert (a + b)[..k] == a[..k] && DenseAt(a, map[], k);
      } else {
        assert (a + b)[..k] == a + b[..k - |a|] && DenseAt(b, counters, k - |a|);
        CountAdds(a, b[..k - |a|], (a + b)[k].event.stream);
      }
    }
  }

  lemma CountersTogether(s: State, txn: Txn, stream: string)
    requires LogOk(s) && TxnOk(s, txn) && txn.pc.Ready?
    ensures Counter(s.counters + txn.bumped, stream) == Count(s.committed + txn.pending, stream)
  {
    CountAdds(s.committed, txn.pending, stream);
    if stream !in txn.bumped {
      NothingPending(txn.pending, stream);
    }
  }

  lemma CommitKeepsLog(s: State, t: nat)
    requires Inv(s) && Enabled(s, CommitTxn(t))
    ensures LogOk(Apply(s, CommitTxn(t)))
  {
    var txn := s.txns[t];
    assert TxnOk(s, txn);
    forall stream
      ensures Counter(s.counters + txn.bumped, stream) == Count(s.committed + txn.pending, stream)
    {
      CountersTogether(s, txn, stream);
    }
    DenseTogether(s.committed, txn.pending, s.counters);
  }

  lemma HeldStreamsUnmoved(s: State, txn: Txn, other: Txn)
    requires TxnOk(s, other) && txn.bumped.Keys !! other.bumped.Keys
    ensures DenseFrom(other.pending, s.counters + txn.bumped)
    ensures forall stream <- other.bumped ::
              Counter(s.counters + txn.bumped, stream) == Counter(s.counters, stream)
  {
    forall k | 0 <= k < |other.pending|
      ensures DenseAt(other.pending, s.counters + txn.bumped, k)
    {
      assert other.pending[k].event.stream in other.bumped && DenseAt(other.pending, s.counters, k);
    }
  }

  lemma LockedEventsUnseen(s: State, txn: Txn, other: Txn)
    requires TxnOk(s, txn) && TxnOk(s, other) && txn.locks !! other.locks
    ensures DistinctEvents(s.committed + txn.pending + other.pending)
    ensures other.pc.Missing? || other.pc.Numbered? ==>
              Find(s.committed + txn.pending + other.pending, other.pc.event.id).None?
  {
    MergedDistinct(s.committed, txn.pending, other.pending);
    if other.pc.Missing? || other.pc.Numbered? {
      FindExact(s.committed + other.pending, other.pc.event.id);
      FindExact(s.committed + txn.pending + other.pending, other.pc.event.id);
      MergedLacks(s.committed, txn.pending, other.pending, other.pc.event.id);
    }
  }

  /** A transaction still open does not notice another one committing. */
  lemma CommitKeepsOther(s: State, t: nat, u: nat)
    requires Inv(s) && Enabled(s, CommitTxn(t)) && u in s.txns && u != t
    ensures TxnOk(Apply(s, CommitTxn(t)), s.txns[u])
  {
    var txn, other := s.txns[t], s.txns[u];
    assert TxnOk(s, txn) && TxnOk(s, other);
    HeldStreamsUnmoved(s, txn, other);
    LockedEventsUnseen(s, txn, other);
  }

  lemma MergedDistinct(a: seq<Row>, b: seq<Row>, c: seq<Row>)
    requires DistinctEvents(a + b) && DistinctEvents(a + c)
    requires forall j, k | 0 <= j < |b| && 0 <= k < |c| :: b[j].event.id != c[k].event.id
    ensures DistinctEvents((a + b) + c)
  {
    var all := (a + b) + c;
    forall j, k | 0 <= j < k < |all|
      ensures all[j].event.id != all[k].event.id
    {
      if k < |a + b| {
        assert all[j] == (a + b)[j] && all[k] == (a + b)[k];
      } else if j < |a| {
        assert all[j] == (a + c)[j] && all[k] == (a + c)[k - |b|];
      } else if j >= |a + b| {
        assert all[j] == (a + c)[j - |b|] && all[k] == (a + c)[k - |b|];
      }
    }
  }

  lemma MergedLacks(a: seq<Row>, b: seq<Row>, c: seq<Row>, id: EventId)
    requires forall k | 0 <= k < |a + c| :: (a + c)[k].event.id != id
    requires forall k | 0 <= k < |b| :: b[k].event.id != id
    ensures forall k | 0 <= k < |(a + b) + c| :: ((a + b) + c)[k].event.id != id
  {
    forall k | 0 <= k < |(a + b) + c|
      ensures ((a + b) + c)[k].event.id != id
    {
      if k < |a| {
        assert ((a + b) + c)[k] == (a + c)[k];
      } else if k >= |a + b| {
        assert ((a + b) + c)[k] == (a + c)[k - |b|];
      }
    }
  }

  lemma CommitKeeps(s: State, t: nat)
    requires Inv(s) && Enabled(s, CommitTxn(t))
    ensures Inv(Apply(s, CommitTxn(t)))
  {
    CommitKeepsLog(s, t);
    forall u <- s.txns | u != t
      ensures TxnOk(Apply(s, CommitTxn(t)), s.txns[u])
    {
      CommitKeepsOther(s, t, u);
    }
  }

  lemma EnteringAndLeavingKeep(s: State, step: Step)
    requires Inv(s) && Enabled(s, step) && (step.Begin? || step.Rollback?)
    ensures Inv(Apply(s, step))
  {
    var s' := Apply(s, step);
    forall u <- s'.txns
      ensures TxnOk(s', s'.txns[u])
    {
      if u in s.txns && u != step.t {
        assert TxnOk(s, s.txns[u]);
      }
    }
  }

  lemma StepKeepsInv(s: State, step: Step)
    requires Inv(s) && Enabled(s, step)
    ensures Inv(Apply(s, step))
  {
    match step
    case LockEvent(t) => LockKeeps(s, t);
    case Look(t) => LookKeeps(s, t);
    case Bump(t) => BumpKeeps(s, t);
    case Insert(t) => InsertKeeps(s, t);
    case CommitTxn(t) => CommitKeeps(s, t);
    case _ => EnteringAndLeavingKeep(s, step);
  }

  ghost predicate Next(s: State, s': State) {
    ShapeOk(s) && exists step :: Enabled(s, step) && s' == Apply(s, step)
  }

  ghost predicate IsRun(run: seq<State>) {
    && |run| > 0 && Init(run[0])
    && forall i | 0 < i < |run| :: Linked(run, i)
  }

  ghost predicate Linked(run: seq<State>, i: nat)
    requires 0 < i < |run|
  {
    Next(run[i - 1], run[i])
  }

  lemma NextKeepsInv(s: State, s': State)
    requires Inv(s) && Next(s, s')
    ensures Inv(s') && s.committed <= s'.committed
  {
    var step :| Enabled(s, step) && s' == Apply(s, step);
    StepKeepsInv(s, step);
  }

  lemma {:induction false} Reached(run: seq<State>, i: nat)
    requires IsRun(run) && i < |run|
    ensures Inv(run[i])
  {
    if i > 0 {
      Reached(run, i - 1);
      assert Linked(run, i);
      NextKeepsInv(run[i - 1], run[i]);
    }
  }

  /**
    The rows of every stream are numbered 1, 2, 3, ... in the order they were
    committed, without a gap, and each event id is stored once.
   */
  lemma StreamsAreDense(run: seq<State>, i: nat, k: nat)
    requires IsRun(run) && i < |run| && k < |run[i].committed|
    ensures run[i].committed[k].sequence == Count(run[i].committed[..k], run[i].committed[k].event.stream) + 1
    ensures forall j | 0 <= j < |run[i].committed| && j != k ::
              run[i].committed[j].event.id != run[i].committed[k].event.id
  {
    Reached(run, i);
    assert DenseAt(run[i].committed, map[], k);
  }

  lemma {:induction false} LogOnlyGrows(run: seq<State>, i: nat, j: nat)
    requires IsRun(run) && i <= j < |run|
    ensures run[i].committed <= run[j].committed
    decreases j
  {
    if i < j {
      LogOnlyGrows(run, i, j - 1);
      Reached(run, j - 1);
      assert Linked(run, j);
      NextKeepsInv(run[j - 1], run[j]);
    }
  }

  lemma {:induction false} CountGrows(rows: seq<Row>, j: nat, k: nat, stream: string)
    requires j <= k <= |rows|
    ensures Count(rows[..j], stream) <= Count(rows[..k], stream)
    decreases k
  {
    if j < k {
      CountGrows(rows, j, k - 1, stream);
      assert rows[..k][..k - 1] == rows[..k - 1];
    }
  }

  /**
    A reader cannot step over a row. Whatever stands at or below a sequence that
    was already committed in a stream was itself already committed: a row that
    appears later always appears above.
   */
  lemma NothingAppearsBelow(run: seq<State>, i: nat, j: nat, seen: nat, late: nat)
    requires IsRun(run) && i <= j < |run| && seen < |run[i].committed| && late < |run[j].committed|
    requires run[j].committed[late].event.stream == run[i].committed[seen].event.stream
    requires run[j].committed[late].sequence <= run[i].committed[seen].sequence
    ensures late <= seen && late < |run[i].committed| && run[j].committed[late] == run[i].committed[late]
  {
    Reached(run, j);
    LogOnlyGrows(run, i, j);
    assert run[j].committed[seen] == run[i].committed[seen];
    var rows := run[j].committed;
    assert rows[..seen + 1][..seen] == rows[..seen];
    assert DenseAt(rows, map[], seen) && DenseAt(rows, map[], late);
    if seen < late {
      CountGrows(rows, seen + 1, late, rows[seen].event.stream);
    }
  }

  /** Every sequence up to the newest of a stream is taken: a reader counting up misses none. */
  lemma {:induction false} EverySequenceIsTaken(rows: seq<Row>, stream: string, n: nat) returns (k: nat)
    requires DenseFrom(rows, map[]) && 1 <= n <= Count(rows, stream)
    ensures k < |rows| && rows[k].event.stream == stream && rows[k].sequence == n
  {
    var last := |rows| - 1;
    if rows[last].event.stream == stream && Count(rows, stream) == n {
      assert rows[..last + 1] == rows && DenseAt(rows, map[], last);
      return last;
    }
    forall j | 0 <= j < last
      ensures DenseAt(rows[..last], map[], j)
    {
      assert rows[..last][..j] == rows[..j] && DenseAt(rows, map[], j);
    }
    k := EverySequenceIsTaken(rows[..last], stream, n);
  }

  /** What an append hands back, fresh or found, is what the log holds once it has committed. */
  lemma AppendReturnsStoredRows(run: seq<State>, i: nat, t: nat, row: Row)
    requires IsRun(run) && i < |run| && Enabled(run[i], CommitTxn(t)) && row in run[i].txns[t].persisted
    ensures ShapeOk(run[i]) && row in Apply(run[i], CommitTxn(t)).committed
  {
    Reached(run, i);
    assert TxnOk(run[i], run[i].txns[t]);
  }
}
