/**
  Appending related events, as a program: one transaction, statement after
  statement, while others run theirs.
 */
module EventAppend {
  import opened Wrappers
  import opened Events
  import opened Sorting
  import opened E = EventStore

  ghost predicate RunTo(run: seq<State>, s: State) {
    IsRun(run) && run[|run| - 1] == s && ShapeOk(s)
  }

  lemma RunGoesOn(run: seq<State>, s: State, step: Step)
    requires RunTo(run, s) && Enabled(s, step)
    ensures RunTo(run + [Apply(s, step)], Apply(s, step))
  {
    var longer := run + [Apply(s, step)];
    forall i | 0 < i < |longer|
      ensures Linked(longer, i)
    {
      if i < |run| {
        assert Linked(run, i);
      } else {
        assert Next(s, Apply(s, step));
      }
    }
    Reached(longer, |longer| - 1);
  }

  lemma CannotCollide(run: seq<State>, s: State, t: nat)
    requires RunTo(run, s) && t in s.txns && s.txns[t].pc.Numbered?
    ensures !InsertCollides(s, t)
  {
    Reached(run, |run| - 1);
    InsertNeverCollides(s, t);
  }

  /** Ended without leaving a row: the log is what it was before the last statement. */
  ghost predicate LeftNothing(run: seq<State>, t: nat) {
    |run| >= 2 && run[|run| - 1].committed == run[|run| - 2].committed && t !in run[|run| - 1].txns
  }

  /** The lock the transaction needs next is somebody else's. */
  predicate Blocked(s: State, t: nat) {
    && t in s.txns
    && var txn := s.txns[t];
       || (txn.pc.Ready? && txn.todo != [] && !EventIsFree(s, t, txn.todo[0].id))
       || (txn.pc.Missing? && !StreamIsFree(s, t, txn.pc.event.stream))
  }

  ghost predicate WasBlocked(run: seq<State>, from: nat, t: nat) {
    exists n: nat :: from <= n < |run| && Blocked(run[n], t)
  }

  class EventLog {
    /** No statement fails, except by waiting for a lock too long. */
    const reliable: bool
    var s: State
    ghost var run: seq<State>

    constructor (reliable: bool)
      ensures Valid() && Init(s) && this.reliable == reliable
    {
      this.reliable := reliable;
      s := State([], map[], map[]);
      run := [State([], map[], map[])];
    }

    ghost predicate Valid()
      reads this
    {
      RunTo(run, s)
    }

    ghost predicate At(t: nat, txn: Txn)
      reads this
    {
      Valid() && t in s.txns && s.txns[t] == txn
    }

    /** Other transactions: this one sees only that the protocol goes on. */
    method Elsewhere(t: nat)
      requires Valid()
      modifies this
      ensures Valid() && old(run) <= run
      ensures t in s.txns <==> t in old(s.txns)
      ensures t in s.txns ==> s.txns[t] == old(s.txns)[t]
    {
    }

    method Do(step: Step)
      requires Valid() && Enabled(s, step)
      modifies this
      ensures Valid() && ShapeOk(old(s)) && s == Apply(old(s), step) && run == old(run) + [s]
    {
      RunGoesOn(run, s, step);
      s := Apply(s, step);
      run := run + [s];
    }

    /** Undoes the transaction. */
    method Fail(t: nat)
      requires Valid() && t in s.txns
      modifies this
      ensures Valid() && t !in s.txns && old(run) <= run && LeftNothing(run, t)
    {
      Do(Rollback(t));
    }

    /** An await: an error undoes the transaction. */
    method Await(t: nat, ghost txn: Txn) returns (ok: bool)
      requires At(t, txn)
      modifies this
      ensures old(run) <= run
      ensures if ok then At(t, txn) else Valid() && LeftNothing(run, t)
      ensures reliable ==> ok
    {
      Elsewhere(t);
      if reliable {
        return true;
      }
      if * {
        Fail(t);
        return false;
      }
      return true;
    }

    /** A lock not had in time undoes the transaction. */
    method GiveUp(t: nat, ghost from: nat)
      requires Valid() && Blocked(s, t) && from < |run|
      modifies this
      ensures Valid() && t !in s.txns && old(run) <= run && LeftNothing(run, t) && WasBlocked(run, from, t)
    {
      ghost var n := |run| - 1;
      Fail(t);
      assert Blocked(run[n], t);
    }

    /** The event's lock, once nobody else has it. */
    method LockNext(t: nat, ghost txn: Txn) returns (ok: bool)
      requires At(t, txn) && txn.pc.Ready? && txn.todo != []
      modifies this
      ensures old(run) <= run
      ensures if ok then At(t, txn.(pc := Locked(txn.todo[0]), locks := txn.locks + {txn.todo[0].id}))
              else Valid() && LeftNothing(run, t)
      ensures reliable ==> ok || WasBlocked(run, |old(run)| - 1, t)
    {
      ok := Await(t, txn);
      if ok && !EventIsFree(s, t, s.txns[t].todo[0].id) {
        GiveUp(t, |old(run)| - 1);
        ok := false;
      } else if ok {
        Do(LockEvent(t));
      }
    }

    /** The number and the row of an event that is not stored. */
    method Store(t: nat, ghost txn: Txn, event: Envelope) returns (row: Option<Row>)
      requires At(t, txn) && txn.pc == Missing(event)
      modifies this
      ensures old(run) <= run
      ensures row.None? ==> Valid() && LeftNothing(run, t)
      ensures row.Some? ==>
                && row.value.event == event && Valid() && t in s.txns
                && s.txns[t].pc.Ready? && s.txns[t].persisted == txn.persisted + [row.value]
                && txn.todo != [] && s.txns[t].todo == txn.todo[1..]
      ensures reliable ==> row.Some? || WasBlocked(run, |old(run)| - 1, t)
    {
      var ok := Await(t, txn);
      if !ok {
        return None;
      }
      if !StreamIsFree(s, t, event.stream) {
        GiveUp(t, |old(run)| - 1);
        return None;
      }
      Do(Bump(t));
      var sequence := s.txns[t].pc.sequence;
      ok := Await(t, s.txns[t]);
      if !ok {
        return None;
      }
      CannotCollide(run, s, t);
      Do(Insert(t));
      return Some(Row(sequence, event));
    }

    /** One event of the batch: its stored row, whether found or made. */
    method AppendOne(t: nat, ghost txn: Txn, event: Envelope) returns (row: Option<Row>)
      requires At(t, txn) && txn.pc.Ready? && txn.todo != [] && txn.todo[0] == event
      modifies this
      ensures old(run) <= run
      ensures row.None? ==> Valid() && LeftNothing(run, t)
      ensures row.Some? ==>
                && row.value.event.id == event.id && Valid() && t in s.txns && s.txns[t].pc.Ready?
                && s.txns[t].persisted == txn.persisted + [row.value] && s.txns[t].todo == txn.todo[1..]
      ensures reliable ==> row.Some? || WasBlocked(run, |old(run)| - 1, t)
    {
      var ok := LockNext(t, txn);
      if ok {
        ok := Await(t, s.txns[t]);
      }
      if !ok {
        return None;
      }
      Do(Look(t));
      if s.txns[t].pc.Ready? {
        return Some(s.txns[t].persisted[|s.txns[t].persisted| - 1]);
      }
      row := Store(t, s.txns[t], event);
    }

    /**
      The whole append: all the events, in the order the batch is sorted in, each
      with the one row the log has for it; or an error, and nothing.
     */
    method AppendMany(t: nat, events: seq<Envelope>, order: (Envelope, Envelope) -> bool) returns (persisted: Option<seq<Row>>)
      requires Valid() && t !in s.txns
      modifies this
      ensures Valid() && t !in s.txns && old(run) <= run
      ensures events == [] ==> persisted == Some([]) && run == old(run)
      ensures persisted.None? ==> LeftNothing(run, t)
      ensures persisted.Some? ==>
                && |persisted.value| == |Sort(order, events)|
                && forall k | 0 <= k < |persisted.value| ::
                     persisted.value[k].event.id == Sort(order, events)[k].id && persisted.value[k] in s.committed
      ensures reliable ==> persisted.Some? || WasBlocked(run, |old(run)| - 1, t)
    {
      if events == [] {
        return Some([]);
      }
      var ordered := Sort(order, events);
      Do(Begin(t, ordered));
      var rows: seq<Row> := [];
      for k := 0 to |ordered|
        invariant Valid() && old(run) <= run && t in s.txns && s.txns[t].pc.Ready?
        invariant s.txns[t].todo == ordered[k..] && s.txns[t].persisted == rows
        invariant |rows| == k && forall i | 0 <= i < k :: rows[i].event.id == ordered[i].id
      {
        var row := AppendOne(t, s.txns[t], ordered[k]);
        if row.None? {
          return None;
        }
        rows := rows + [row.value];
      }
      persisted := CommitAll(t, s.txns[t], rows);
    }

    /** The callback's work commits with the events or not at all. */
    method CommitAll(t: nat, ghost txn: Txn, rows: seq<Row>) returns (persisted: Option<seq<Row>>)
      requires At(t, txn) && txn.pc.Ready? && txn.todo == [] && txn.persisted == rows
      modifies this
      ensures Valid() && t !in s.txns && old(run) <= run
      ensures persisted.None? ==> LeftNothing(run, t)
      ensures persisted.Some? ==> persisted.value == rows && forall row <- rows :: row in s.committed
      ensures reliable ==> persisted.Some?
    {
      var ok := Await(t, txn);
      if !ok {
        return None;
      }
      forall row <- rows
        ensures row in Apply(s, CommitTxn(t)).committed
      {
        AppendReturnsStoredRows(run, |run| - 1, t, row);
      }
      Do(CommitTxn(t));
      return Some(rows);
    }
  }
}
