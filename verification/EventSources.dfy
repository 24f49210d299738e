/** Where the rows of the log come from: each holds, unaltered, an event that somebody asked to append. */
module EventSources {
  import opened Events
  import opened EventStore

  ghost predicate AskedAt(run: seq<State>, j: nat, t: nat, events: seq<Envelope>) {
    && j + 1 < |run| && ShapeOk(run[j]) && Enabled(run[j], Begin(t, events))
    && run[j + 1] == Apply(run[j], Begin(t, events))
  }

  /** Before the `i`-th moment a transaction began that was to append the event. */
  ghost predicate IsAsked(run: seq<State>, i: nat, event: Envelope) {
    exists j: nat, t, events :: j < i && AskedAt(run, j, t, events) && event in events
  }

  ghost function Asked(run: seq<State>, i: nat): iset<Envelope> {
    iset event | IsAsked(run, i, event)
  }

  predicate RowsWithin(rows: seq<Row>, all: iset<Envelope>) {
    forall k | 0 <= k < |rows| :: rows[k].event in all
  }

  predicate EventsWithin(events: seq<Envelope>, all: iset<Envelope>) {
    forall k | 0 <= k < |events| :: events[k] in all
  }

  /** What a transaction works on and what it wrote is among the given events. */
  predicate TxnWithin(txn: Txn, all: iset<Envelope>) {
    EventsWithin(txn.todo, all) && (!txn.pc.Ready? ==> txn.pc.event in all) && RowsWithin(txn.pending, all)
  }

  ghost predicate StateWithin(s: State, all: iset<Envelope>) {
    RowsWithin(s.committed, all) && forall t <- s.txns :: TxnWithin(s.txns[t], all)
  }

  lemma RowsWithinMore(a: seq<Row>, b: seq<Row>, all: iset<Envelope>)
    requires RowsWithin(a, all) && RowsWithin(b, all)
    ensures RowsWithin(a + b, all)
  {
  }

  /** One transaction's own steps. */
  lemma LookWithin(s: State, txn: Txn, all: iset<Envelope>)
    requires txn.pc.Locked? && txn.todo != [] && TxnWithin(txn, all)
    ensures TxnWithin(Looked(s, txn), all)
  {
  }

  lemma InsertWithin(txn: Txn, all: iset<Envelope>)
    requires txn.pc.Numbered? && TxnWithin(txn, all)
    ensures TxnWithin(Inserted(txn), all)
  {
    RowsWithinMore(txn.pending, [Row(txn.pc.sequence, txn.pc.event)], all);
  }

  lemma TxnStaysWithin(s: State, step: Step, all: iset<Envelope>)
    requires ShapeOk(s) && Enabled(s, step) && !step.Begin? && TxnWithin(s.txns[step.t], all)
    ensures step.t in Apply(s, step).txns ==> TxnWithin(Apply(s, step).txns[step.t], all)
  {
    var txn := s.txns[step.t];
    match step
    case Look(_) => LookWithin(s, txn, all);
    case Insert(_) => InsertWithin(txn, all);
    case _ =>
  }

  lemma OthersStay(s: State, step: Step, t: nat)
    requires ShapeOk(s) && Enabled(s, step) && t != step.t && t in Apply(s, step).txns
    ensures t in s.txns && Apply(s, step).txns[t] == s.txns[t]
  {
  }

  /** A step brings nothing into the log that was not asked for, now or before. */
  lemma StepStaysWithin(s: State, step: Step, all: iset<Envelope>)
    requires ShapeOk(s) && Enabled(s, step) && StateWithin(s, all) && (step.Begin? ==> EventsWithin(step.events, all))
    ensures StateWithin(Apply(s, step), all)
  {
    var s' := Apply(s, step);
    if step.CommitTxn? {
      RowsWithinMore(s.committed, s.txns[step.t].pending, all);
    }
    forall t <- s'.txns
      ensures TxnWithin(s'.txns[t], all)
    {
      if t != step.t {
        OthersStay(s, step, t);
      } else if !step.Begin? {
        TxnStaysWithin(s, step, all);
      }
    }
  }

  lemma WithinMore(s: State, some: iset<Envelope>, all: iset<Envelope>)
    requires StateWithin(s, some) && some <= all
    ensures StateWithin(s, all)
  {
  }

  lemma AskedStays(run: seq<State>, i: nat)
    ensures Asked(run, i) <= Asked(run, i + 1)
  {
    forall event <- Asked(run, i)
      ensures IsAsked(run, i + 1, event)
    {
      var j: nat, t, events :| j < i && AskedAt(run, j, t, events) && event in events;
      assert j < i + 1 && AskedAt(run, j, t, events);
    }
  }

  lemma BegunAsks(run: seq<State>, i: nat, t: nat, events: seq<Envelope>)
    requires AskedAt(run, i, t, events)
    ensures EventsWithin(events, Asked(run, i + 1))
  {
    forall k | 0 <= k < |events|
      ensures IsAsked(run, i + 1, events[k])
    {
      assert events[k] in events;
    }
  }

  lemma {:induction false} AskedThroughout(run: seq<State>, i: nat)
    requires IsRun(run) && i < |run|
    ensures StateWithin(run[i], Asked(run, i))
  {
    if i > 0 {
      AskedThroughout(run, i - 1);
      AskedStays(run, i - 1);
      WithinMore(run[i - 1], Asked(run, i - 1), Asked(run, i));
      assert Linked(run, i);
      var step :| Enabled(run[i - 1], step) && run[i] == Apply(run[i - 1], step);
      if step.Begin? {
        BegunAsks(run, i - 1, step.t, step.events);
      }
      StepStaysWithin(run[i - 1], step, Asked(run, i));
    }
  }

  /** Every stored row is an event somebody asked to append, exactly as it was given. */
  lemma RowsWereAsked(run: seq<State>, i: nat, k: nat)
    requires IsRun(run) && i < |run| && k < |run[i].committed|
    ensures exists j: nat, t, events :: j < i && AskedAt(run, j, t, events) && run[i].committed[k].event in events
  {
    AskedThroughout(run, i);
    assert run[i].committed[k].event in Asked(run, i);
  }
}
