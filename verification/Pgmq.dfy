/** Sends to the queue database, gathered for a moment and stored in one statement. */
module Pgmq {
  import opened Wrappers
  import opened Events
  import opened Sequences

  /** A send that is not settled; `n` numbers the calls. */
  datatype Entry = Entry(n: nat, message: Ingress)

  datatype Flight = Flight(queue: string, batch: seq<Entry>)

  datatype Settlement = Resolved(id: nat) | Rejected

  datatype Place = Pending(queue: string) | Flying(flight: nat) | Settled

  /** A call: a message for a queue. */
  datatype Call = Call(queue: string, message: Ingress)

  /** A queue is a table of its own and numbers its own rows. */
  datatype RowKey = RowKey(queue: string, id: nat)

  type Rows = map<RowKey, Ingress>

  /**
    What comes of a statement. `stored` are the ids of the rows it stored: none,
    or one a message. It fails, before or after taking effect, or lists ids.
   */
  datatype Answer = Failed(stored: seq<nat>) | Listed(stored: seq<nat>, ids: seq<nat>)

  const BATCH_LIMIT: nat := 128

  ghost predicate Numbered(batch: seq<Entry>) {
    forall i, j | 0 <= i < j < |batch| :: batch[i].n < batch[j].n
  }

  function Settling(settled: map<nat, Settlement>, batch: seq<Entry>, ids: Option<seq<nat>>): map<nat, Settlement>
    requires ids.Some? ==> |ids.value| >= |batch|
  {
    if batch == [] then settled
    else
      var k := |batch| - 1;
      Settling(settled, batch[..k], ids)[batch[k].n := if ids.Some? then Resolved(ids.value[k]) else Rejected]
  }

  ghost predicate Has(batch: seq<Entry>, n: nat) {
    exists k :: 0 <= k < |batch| && batch[k].n == n
  }

  lemma {:induction false} SettlingKeys(settled: map<nat, Settlement>, batch: seq<Entry>, ids: Option<seq<nat>>)
    requires ids.Some? ==> |ids.value| >= |batch|
    ensures forall n :: n in Settling(settled, batch, ids) <==> n in settled || Has(batch, n)
    ensures forall n <- settled | !Has(batch, n) :: Settling(settled, batch, ids)[n] == settled[n]
  {
    if batch != [] {
      var init, last := batch[..|batch| - 1], batch[|batch| - 1];
      SettlingKeys(settled, init, ids);
      forall n: nat
        ensures Has(batch, n) <==> Has(init, n) || n == last.n
      {
        if k :| 0 <= k < |init| && init[k].n == n {
          assert batch[k].n == n;
        }
        if k :| 0 <= k < |batch| && batch[k].n == n {
          assert k < |init| ==> init[k].n == n;
        }
      }
    }
  }

  lemma {:induction false} SettlingAt(settled: map<nat, Settlement>, batch: seq<Entry>, ids: Option<seq<nat>>, k: nat)
    requires Numbered(batch) && (ids.Some? ==> |ids.value| >= |batch|) && k < |batch|
    ensures var after := Settling(settled, batch, ids);
            batch[k].n in after && after[batch[k].n] == if ids.Some? then Resolved(ids.value[k]) else Rejected
  {
    if k < |batch| - 1 {
      SettlingAt(settled, batch[..|batch| - 1], ids, k);
    }
  }

  function Storing(rows: Rows, queue: string, batch: seq<Entry>, ids: seq<nat>): Rows
    requires |ids| <= |batch|
  {
    if ids == [] then rows
    else
      var k := |ids| - 1;
      Storing(rows, queue, batch, ids[..k])[RowKey(queue, ids[k]) := batch[k].message]
  }

  lemma {:induction false} StoringKeys(rows: Rows, queue: string, batch: seq<Entry>, ids: seq<nat>)
    requires |ids| <= |batch|
    ensures forall key :: key in Storing(rows, queue, batch, ids) <==> key in rows || (key.queue == queue && key.id in ids)
    ensures forall key <- rows | key.queue != queue || key.id !in ids :: Storing(rows, queue, batch, ids)[key] == rows[key]
  {
    if ids != [] {
      assert ids == ids[..|ids| - 1] + [ids[|ids| - 1]];
      StoringKeys(rows, queue, batch, ids[..|ids| - 1]);
    }
  }

  lemma {:induction false} StoringAt(rows: Rows, queue: string, batch: seq<Entry>, ids: seq<nat>, k: nat)
    requires |ids| <= |batch| && NoDups(ids) && k < |ids|
    ensures RowKey(queue, ids[k]) in Storing(rows, queue, batch, ids)
    ensures Storing(rows, queue, batch, ids)[RowKey(queue, ids[k])] == batch[k].message
  {
    if k < |ids| - 1 {
      StoringAt(rows, queue, batch, ids[..|ids| - 1], k);
    }
  }

  // ---- where a send is ----

  predicate IsAt(sends: seq<Call>, places: map<nat, Place>, queue: string, entry: Entry, place: Place) {
    entry.n < |sends| && sends[entry.n] == Call(queue, entry.message) && entry.n in places && places[entry.n] == place
  }

  ghost predicate BatchAt(sends: seq<Call>, places: map<nat, Place>, queue: string, batch: seq<Entry>, place: Place) {
    Numbered(batch) && forall k | 0 <= k < |batch| :: IsAt(sends, places, queue, batch[k], place)
  }

  /** The pending sends are exactly those of the pending batches. */
  ghost predicate PendingOk(pending: map<string, seq<Entry>>, sends: seq<Call>, places: map<nat, Place>) {
    && (forall q <- pending :: pending[q] != [] && BatchAt(sends, places, q, pending[q], Pending(q)))
    && forall n <- places | places[n].Pending? :: places[n].queue in pending && Has(pending[places[n].queue], n)
  }

  /** The sends under way are exactly those of the batches in flight. */
  ghost predicate FlightsOk(flights: map<nat, Flight>, next: nat, sends: seq<Call>, places: map<nat, Place>) {
    && (forall f <- flights :: f < next && BatchAt(sends, places, flights[f].queue, flights[f].batch, Flying(f)))
    && forall n <- places | places[n].Flying? :: places[n].flight in flights && Has(flights[places[n].flight].batch, n)
  }

  /** The row a resolved send was told of holds its own message. */
  predicate HasOwnRow(settled: map<nat, Settlement>, rows: Rows, sends: seq<Call>, n: nat)
    requires n in settled && settled[n].Resolved?
  {
    && n < |sends| && RowKey(sends[n].queue, settled[n].id) in rows
    && rows[RowKey(sends[n].queue, settled[n].id)] == sends[n].message
  }

  /** Two sends to one queue are never told of one row. */
  predicate Apart(settled: map<nat, Settlement>, sends: seq<Call>, n: nat, m: nat)
    requires n in settled && m in settled && n < |sends| && m < |sends|
  {
    settled[n].Resolved? && settled[n] == settled[m] && sends[n].queue == sends[m].queue ==> n == m
  }

  ghost predicate SettledOk(settled: map<nat, Settlement>, rows: Rows, sends: seq<Call>, places: map<nat, Place>) {
    && (forall n :: n in settled <==> n in places && places[n].Settled?)
    && (forall n <- settled | settled[n].Resolved? :: HasOwnRow(settled, rows, sends, n))
    && (forall n <- settled, m <- settled | n < |sends| && m < |sends| :: Apart(settled, sends, n, m))
  }

  /** A pending batch has a timer and room; nothing else has a timer. */
  predicate Timed(pending: map<string, seq<Entry>>, timers: set<string>, queue: string) {
    && (queue in timers <==> queue in pending)
    && (queue in pending ==> |pending[queue]| < BATCH_LIMIT)
  }

  ghost predicate AllTimed(pending: map<string, seq<Entry>>, timers: set<string>) {
    forall q :: Timed(pending, timers, q)
  }

  ghost predicate TimedBut(pending: map<string, seq<Entry>>, timers: set<string>, queue: string) {
    forall q | q != queue :: Timed(pending, timers, q)
  }

  /** Timers and batches of other queues are as they were. */
  lemma ElsewhereTimed(pending: map<string, seq<Entry>>, timers: set<string>, pending': map<string, seq<Entry>>,
                       timers': set<string>, queue: string)
    requires TimedBut(pending, timers, queue)
    requires pending' - {queue} == pending - {queue} && timers' - {queue} == timers - {queue}
    ensures TimedBut(pending', timers', queue)
    ensures Timed(pending', timers', queue) ==> AllTimed(pending', timers')
  {
    forall q | q != queue
      ensures Timed(pending', timers', q)
    {
      assert Timed(pending, timers, q);
      assert q in pending' - {queue} <==> q in pending - {queue};
      assert q in timers' - {queue} <==> q in timers - {queue};
      assert q in pending ==> (pending' - {queue})[q] == (pending - {queue})[q];
    }
  }

  /** A new send changes nothing about a batch that is where it was. */
  lemma BatchStaysAt(sends: seq<Call>, places: map<nat, Place>, queue: string, batch: seq<Entry>, place: Place, more: Call,
                     there: Place)
    requires BatchAt(sends, places, queue, batch, place) && |sends| !in places
    ensures BatchAt(sends + [more], places[|sends| := there], queue, batch, place)
  {
    forall k | 0 <= k < |batch|
      ensures IsAt(sends + [more], places[|sends| := there], queue, batch[k], place)
    {
      assert IsAt(sends, places, queue, batch[k], place);
    }
  }

  lemma LongerBatchIsAt(sends: seq<Call>, places: map<nat, Place>, queue: string, batch: seq<Entry>, message: Ingress)
    requires BatchAt(sends, places, queue, batch, Pending(queue)) && |sends| !in places
    ensures BatchAt(sends + [Call(queue, message)], places[|sends| := Pending(queue)], queue,
                    batch + [Entry(|sends|, message)], Pending(queue))
  {
    forall k | 0 <= k < |batch|
      ensures batch[k].n < |sends|
    {
      assert IsAt(sends, places, queue, batch[k], Pending(queue));
    }
    BatchStaysAt(sends, places, queue, batch, Pending(queue), Call(queue, message), Pending(queue));
    var longer := batch + [Entry(|sends|, message)];
    forall k | 0 <= k < |longer|
      ensures IsAt(sends + [Call(queue, message)], places[|sends| := Pending(queue)], queue, longer[k], Pending(queue))
    {
      assert k < |batch| ==>
          IsAt(sends + [Call(queue, message)], places[|sends| := Pending(queue)], queue, batch[k], Pending(queue));
    }
  }

  lemma LongerBatchHas(batch: seq<Entry>, entry: Entry, n: nat)
    requires Has(batch, n) || n == entry.n
    ensures Has(batch + [entry], n)
  {
    if Has(batch, n) {
      var k :| 0 <= k < |batch| && batch[k].n == n;
      assert (batch + [entry])[k].n == n;
    } else {
      assert (batch + [entry])[|batch|].n == n;
    }
  }

  lemma PushKeepsPending(pending: map<string, seq<Entry>>, sends: seq<Call>, places: map<nat, Place>, queue: string,
                         message: Ingress)
    requires PendingOk(pending, sends, places) && |sends| !in places
    ensures var n := |sends|;
            var batch := Waiting(pending, queue);
            PendingOk(pending[queue := batch + [Entry(n, message)]], sends + [Call(queue, message)], places[n := Pending(queue)])
  {
    var n, batch := |sends|, Waiting(pending, queue);
    var moved := places[n := Pending(queue)];
    LongerBatchIsAt(sends, places, queue, batch, message);
    forall q <- pending | q != queue
      ensures BatchAt(sends + [Call(queue, message)], moved, q, pending[q], Pending(q))
    {
      BatchStaysAt(sends, places, q, pending[q], Pending(q), Call(queue, message), Pending(queue));
    }
    forall m <- moved | moved[m].Pending?
      ensures Has(Waiting(pending[queue := batch + [Entry(n, message)]], moved[m].queue), m)
    {
      PushedHas(pending, places, queue, Entry(n, message), m);
    }
  }

  function Waiting(pending: map<string, seq<Entry>>, queue: string): seq<Entry> {
    if queue in pending then pending[queue] else []
  }

  /** Whoever waited still does, and so does the newcomer. */
  lemma PushedHas(pending: map<string, seq<Entry>>, places: map<nat, Place>, queue: string, entry: Entry, m: nat)
    requires m == entry.n || (m in places && places[m].Pending? && Has(Waiting(pending, places[m].queue), m))
    ensures var at := if m == entry.n then queue else places[m].queue;
            Has(Waiting(pending[queue := Waiting(pending, queue) + [entry]], at), m)
  {
    if m == entry.n || places[m].queue == queue {
      LongerBatchHas(Waiting(pending, queue), entry, m);
    }
  }

  lemma PushKeepsFlights(flights: map<nat, Flight>, next: nat, sends: seq<Call>, places: map<nat, Place>, queue: string,
                         message: Ingress)
    requires FlightsOk(flights, next, sends, places) && |sends| !in places
    ensures FlightsOk(flights, next, sends + [Call(queue, message)], places[|sends| := Pending(queue)])
  {
    forall f <- flights, k | 0 <= k < |flights[f].batch|
      ensures IsAt(sends + [Call(queue, message)], places[|sends| := Pending(queue)], flights[f].queue, flights[f].batch[k], Flying(f))
    {
      assert IsAt(sends, places, flights[f].queue, flights[f].batch[k], Flying(f));
    }
  }

  lemma PushKeepsSettled(settled: map<nat, Settlement>, rows: Rows, sends: seq<Call>,
                         places: map<nat, Place>, queue: string, message: Ingress)
    requires SettledOk(settled, rows, sends, places) && |sends| !in places
    ensures SettledOk(settled, rows, sends + [Call(queue, message)], places[|sends| := Pending(queue)])
  {
  }

  /** A queue's sends leaving together. */
  function Moved(places: map<nat, Place>, from: Place, to: Place): map<nat, Place> {
    map n | n in places :: if places[n] == from then to else places[n]
  }

  lemma TakeOffKeepsPending(pending: map<string, seq<Entry>>, sends: seq<Call>, places: map<nat, Place>, queue: string, f: nat)
    requires PendingOk(pending, sends, places)
    ensures PendingOk(pending - {queue}, sends, Moved(places, Pending(queue), Flying(f)))
  {
    forall q <- pending, k | q != queue && 0 <= k < |pending[q]|
      ensures IsAt(sends, Moved(places, Pending(queue), Flying(f)), q, pending[q][k], Pending(q))
    {
      assert IsAt(sends, places, q, pending[q][k], Pending(q));
    }
  }

  lemma TakeOffKeepsFlights(pending: map<string, seq<Entry>>, flights: map<nat, Flight>, f: nat, sends: seq<Call>,
                            places: map<nat, Place>, queue: string)
    requires PendingOk(pending, sends, places) && FlightsOk(flights, f, sends, places) && queue in pending
    ensures FlightsOk(flights[f := Flight(queue, pending[queue])], f + 1, sends, Moved(places, Pending(queue), Flying(f)))
  {
    var after := Moved(places, Pending(queue), Flying(f));
    assert BatchAt(sends, places, queue, pending[queue], Pending(queue));
    forall k | 0 <= k < |pending[queue]|
      ensures IsAt(sends, after, queue, pending[queue][k], Flying(f))
    {
      assert IsAt(sends, places, queue, pending[queue][k], Pending(queue));
    }
    forall g <- flights, k | 0 <= k < |flights[g].batch|
      ensures IsAt(sends, after, flights[g].queue, flights[g].batch[k], Flying(g))
    {
      assert IsAt(sends, places, flights[g].queue, flights[g].batch[k], Flying(g));
    }
    forall n <- after | after[n].Flying?
      ensures after[n].flight in flights[f := Flight(queue, pending[queue])]
              && Has(flights[f := Flight(queue, pending[queue])][after[n].flight].batch, n)
    {
      if places[n].Flying? {
        assert places[n].flight in flights && places[n].flight != f;
      }
    }
  }

  lemma LandingKeepsOthers(pending: map<string, seq<Entry>>, flights: map<nat, Flight>, next: nat, sends: seq<Call>,
                           places: map<nat, Place>, f: nat)
    requires PendingOk(pending, sends, places) && FlightsOk(flights, next, sends, places)
    ensures PendingOk(pending, sends, Moved(places, Flying(f), Settled))
    ensures FlightsOk(flights - {f}, next, sends, Moved(places, Flying(f), Settled))
  {
    var after := Moved(places, Flying(f), Settled);
    forall q <- pending, k | 0 <= k < |pending[q]|
      ensures IsAt(sends, after, q, pending[q][k], Pending(q))
    {
      assert IsAt(sends, places, q, pending[q][k], Pending(q));
    }
    forall g <- flights, k | g != f && 0 <= k < |flights[g].batch|
      ensures IsAt(sends, after, flights[g].queue, flights[g].batch[k], Flying(g))
    {
      assert IsAt(sends, places, flights[g].queue, flights[g].batch[k], Flying(g));
    }
  }

  lemma StoringKeeps(settled: map<nat, Settlement>, rows: Rows, sends: seq<Call>, places: map<nat, Place>, flight: Flight,
                     ids: seq<nat>)
    requires SettledOk(settled, rows, sends, places) && AreNew(rows, flight.queue, ids) && |ids| <= |flight.batch|
    ensures var after := Storing(rows, flight.queue, flight.batch, ids);
            && SettledOk(settled, after, sends, places)
            && (|ids| == |flight.batch| ==> NamesRows(settled, after, sends, flight, ids))
  {
    var after := Storing(rows, flight.queue, flight.batch, ids);
    StoringKeys(rows, flight.queue, flight.batch, ids);
    forall k | 0 <= k < |ids|
      ensures RowKey(flight.queue, ids[k]) in after && after[RowKey(flight.queue, ids[k])] == flight.batch[k].message
    {
      StoringAt(rows, flight.queue, flight.batch, ids, k);
    }
    forall n <- settled | settled[n].Resolved?
      ensures HasOwnRow(settled, after, sends, n)
      ensures sends[n].queue == flight.queue ==> settled[n].id !in ids
    {
      assert HasOwnRow(settled, rows, sends, n);
    }
  }

  /** Ids a queue hands out are all different, and none has a row yet; they come in any order. */
  ghost predicate AreNew(rows: Rows, queue: string, ids: seq<nat>) {
    NoDups(ids) && forall id <- ids :: RowKey(queue, id) !in rows
  }

  /** A batch is stored whole or not at all, under new ids; a full list of ids is the list of its rows. */
  ghost predicate Answers(answer: Answer, rows: Rows, flight: Flight) {
    && (answer.stored == [] || |answer.stored| == |flight.batch|)
    && AreNew(rows, flight.queue, answer.stored)
    && (answer.Listed? && |answer.ids| == |flight.batch| ==> answer.ids == answer.stored)
  }

  /** Whether ids name the rows that hold a flight's messages, and no settled send of its queue has one of them. */
  ghost predicate NamesRows(settled: map<nat, Settlement>, rows: Rows, sends: seq<Call>, flight: Flight, ids: seq<nat>) {
    && |ids| == |flight.batch| && NoDups(ids)
    && (forall k | 0 <= k < |ids| ::
          RowKey(flight.queue, ids[k]) in rows && rows[RowKey(flight.queue, ids[k])] == flight.batch[k].message)
    && (forall n <- settled | settled[n].Resolved? && n < |sends| && sends[n].queue == flight.queue :: settled[n].id !in ids)
  }

  lemma LandingSettles(settled: map<nat, Settlement>, rows: Rows, sends: seq<Call>, places: map<nat, Place>,
                       flights: map<nat, Flight>, next: nat, f: nat, ids: Option<seq<nat>>)
    requires SettledOk(settled, rows, sends, places) && FlightsOk(flights, next, sends, places) && f in flights
    requires ids.Some? ==> NamesRows(settled, rows, sends, flights[f], ids.value)
    ensures SettledOk(Settling(settled, flights[f].batch, ids), rows, sends, Moved(places, Flying(f), Settled))
    ensures forall n <- settled :: !Has(flights[f].batch, n)
  {
    var batch, queue := flights[f].batch, flights[f].queue;
    var after := Settling(settled, batch, ids);
    SettlingKeys(settled, batch, ids);
    assert BatchAt(sends, places, queue, batch, Flying(f));
    forall k | 0 <= k < |batch|
      ensures SettlesAs(after, sends, queue, batch, ids, k) && IsAt(sends, places, queue, batch[k], Flying(f))
    {
      SettlingAt(settled, batch, ids, k);
      assert IsAt(sends, places, queue, batch[k], Flying(f));
    }
    forall n <- after | after[n].Resolved?
      ensures HasOwnRow(after, rows, sends, n)
    {
      ResolvedHasOwnRow(settled, after, rows, sends, queue, batch, ids, n);
    }
    forall n <- after, m <- after | n < |sends| && m < |sends|
      ensures Apart(after, sends, n, m)
    {
      ResolvedAreApart(settled, after, rows, sends, queue, batch, ids, n, m);
    }
  }

  /** The `k`-th send of a batch is its own call, and got the `k`-th id. */
  predicate SettlesAs(after: map<nat, Settlement>, sends: seq<Call>, queue: string, batch: seq<Entry>, ids: Option<seq<nat>>, k: nat)
    requires k < |batch| && (ids.Some? ==> |ids.value| == |batch|)
  {
    && batch[k].n in after && after[batch[k].n] == (if ids.Some? then Resolved(ids.value[k]) else Rejected)
    && batch[k].n < |sends| && sends[batch[k].n] == Call(queue, batch[k].message)
  }

  ghost predicate Settles(settled: map<nat, Settlement>, after: map<nat, Settlement>, sends: seq<Call>, queue: string,
                          batch: seq<Entry>, ids: Option<seq<nat>>)
    requires ids.Some? ==> |ids.value| == |batch|
  {
    && (forall n :: n in after <==> n in settled || Has(batch, n))
    && (forall n <- settled | !Has(batch, n) :: after[n] == settled[n])
    && (forall k | 0 <= k < |batch| :: SettlesAs(after, sends, queue, batch, ids, k))
  }

  lemma ResolvedHasOwnRow(settled: map<nat, Settlement>, after: map<nat, Settlement>, rows: Rows, sends: seq<Call>,
                          queue: string, batch: seq<Entry>, ids: Option<seq<nat>>, n: nat)
    requires ids.Some? ==> NamesRows(settled, rows, sends, Flight(queue, batch), ids.value)
    requires Settles(settled, after, sends, queue, batch, ids) && n in after && after[n].Resolved?
    requires n in settled && settled[n].Resolved? ==> HasOwnRow(settled, rows, sends, n)
    ensures HasOwnRow(after, rows, sends, n)
  {
    if Has(batch, n) {
      var k :| 0 <= k < |batch| && batch[k].n == n;
      assert SettlesAs(after, sends, queue, batch, ids, k);
    }
  }

  lemma ResolvedAreApart(settled: map<nat, Settlement>, after: map<nat, Settlement>, rows: Rows, sends: seq<Call>,
                         queue: string, batch: seq<Entry>, ids: Option<seq<nat>>, n: nat, m: nat)
    requires ids.Some? ==> NamesRows(settled, rows, sends, Flight(queue, batch), ids.value)
    requires Settles(settled, after, sends, queue, batch, ids) && n in after && m in after && n < |sends| && m < |sends|
    requires n in settled && m in settled ==> Apart(settled, sends, n, m)
    ensures Apart(after, sends, n, m)
  {
    if Has(batch, n) {
      var k :| 0 <= k < |batch| && batch[k].n == n;
      assert SettlesAs(after, sends, queue, batch, ids, k);
      if Has(batch, m) {
        var l :| 0 <= l < |batch| && batch[l].n == m;
        assert SettlesAs(after, sends, queue, batch, ids, l);
      }
    } else if Has(batch, m) {
      var l :| 0 <= l < |batch| && batch[l].n == m;
      assert SettlesAs(after, sends, queue, batch, ids, l);
    }
  }

  ghost predicate AllOk(pending: map<string, seq<Entry>>, flights: map<nat, Flight>, next: nat, settled: map<nat, Settlement>,
                        rows: Rows, sends: seq<Call>, places: map<nat, Place>) {
    && (forall n :: n in places <==> 0 <= n < |sends|)
    && PendingOk(pending, sends, places)
    && FlightsOk(flights, next, sends, places)
    && SettledOk(settled, rows, sends, places)
  }

  lemma PushKeeps(pending: map<string, seq<Entry>>, flights: map<nat, Flight>, next: nat, settled: map<nat, Settlement>,
                  rows: Rows, sends: seq<Call>, places: map<nat, Place>, queue: string,
                  message: Ingress)
    requires AllOk(pending, flights, next, settled, rows, sends, places)
    ensures var batch := Waiting(pending, queue);
            AllOk(pending[queue := batch + [Entry(|sends|, message)]], flights, next, settled, rows,
                  sends + [Call(queue, message)], places[|sends| := Pending(queue)])
  {
    PushKeepsPending(pending, sends, places, queue, message);
    PushKeepsFlights(flights, next, sends, places, queue, message);
    PushKeepsSettled(settled, rows, sends, places, queue, message);
  }

  lemma LandingKeeps(pending: map<string, seq<Entry>>, flights: map<nat, Flight>, next: nat, settled: map<nat, Settlement>,
                     rows: Rows, sends: seq<Call>, places: map<nat, Place>, f: nat,
                     ids: Option<seq<nat>>)
    requires AllOk(pending, flights, next, settled, rows, sends, places) && f in flights
    requires ids.Some? ==> NamesRows(settled, rows, sends, flights[f], ids.value)
    ensures AllOk(pending, flights - {f}, next, Settling(settled, flights[f].batch, ids), rows, sends,
                  Moved(places, Flying(f), Settled))
    ensures forall n <- settled :: !Has(flights[f].batch, n)
  {
    LandingKeepsOthers(pending, flights, next, sends, places, f);
    LandingSettles(settled, rows, sends, places, flights, next, f, ids);
  }

  class PgmqClient {
    var pendingSends: map<string, seq<Entry>>
    var flushTimers: set<string>
    var flights: map<nat, Flight>
    var nextFlight: nat
    /** How each send ended for its caller. */
    var settled: map<nat, Settlement>
    /** What the database stored, by queue and id. */
    var rows: Rows
    /** Every call so far. */
    var sends: seq<Call>
    ghost var places: map<nat, Place>

    constructor ()
      ensures Valid() && sends == [] && rows == map[]
    {
      pendingSends, flushTimers, flights, nextFlight, settled := map[], {}, map[], 0, map[];
      rows, sends, places := map[], [], map[];
    }

    ghost predicate Consistent()
      reads this
    {
      AllOk(pendingSends, flights, nextFlight, settled, rows, sends, places)
    }

    /** Each send is in one place: a pending batch with a timer, a batch in flight, or settled. */
    ghost predicate Valid()
      reads this
    {
      Consistent() && AllTimed(pendingSends, flushTimers)
    }

    /** A new send waits last in its queue's batch, or goes out last in it when that makes the batch full. */
    method Send(queue: string, message: Ingress) returns (n: nat)
      requires Valid()
      modifies this
      ensures Valid() && n == |old(sends)| && sends == old(sends) + [Call(queue, message)]
      ensures settled == old(settled) && rows == old(rows)
      ensures var batch := Waiting(old(pendingSends), queue) + [Entry(n, message)];
              if |batch| < 128 then pendingSends == old(pendingSends)[queue := batch] && flights == old(flights)
              else
                && pendingSends == old(pendingSends) - {queue}
                && flights == old(flights)[old(nextFlight) := Flight(queue, batch)]
    {
      n := Push(queue, message);
      if |pendingSends[queue]| >= BATCH_LIMIT {
        Flush(queue);
        return;
      }
      ghost var timers := flushTimers;
      if queue !in flushTimers {
        flushTimers := flushTimers + {queue};
      }
      ElsewhereTimed(pendingSends, timers, pendingSends, flushTimers, queue);
    }

    method Push(queue: string, message: Ingress) returns (n: nat)
      requires Valid()
      modifies this`pendingSends, this`sends, this`places
      ensures Consistent() && n == |old(sends)| && sends == old(sends) + [Call(queue, message)]
      ensures TimedBut(pendingSends, flushTimers, queue)
      ensures pendingSends == old(pendingSends)[queue := Waiting(old(pendingSends), queue) + [Entry(n, message)]]
    {
      n := |sends|;
      var batch := Waiting(pendingSends, queue);
      PushKeeps(pendingSends, flights, nextFlight, settled, rows, sends, places, queue, message);
      pendingSends := pendingSends[queue := batch + [Entry(n, message)]];
      sends := sends + [Call(queue, message)];
      places := places[n := Pending(queue)];
      ElsewhereTimed(old(pendingSends), flushTimers, pendingSends, flushTimers, queue);
    }

    /** Takes a queue's batch out to the database; without one only a timer is dropped. */
    method Flush(queue: string)
      requires Consistent() && TimedBut(pendingSends, flushTimers, queue)
      modifies this`flushTimers, this`pendingSends, this`flights, this`nextFlight, this`places
      ensures Valid() && pendingSends == old(pendingSends) - {queue}
      ensures queue !in old(pendingSends) ==> flights == old(flights) && places == old(places)
      ensures queue in old(pendingSends) ==>
                flights == old(flights)[old(nextFlight) := Flight(queue, old(pendingSends)[queue])]
    {
      flushTimers := flushTimers - {queue};
      ElsewhereTimed(pendingSends, old(flushTimers), pendingSends - {queue}, flushTimers, queue);
      if queue !in pendingSends {
        assert pendingSends - {queue} == pendingSends;
        return;
      }
      TakeOff(queue);
    }

    method TakeOff(queue: string)
      requires Consistent() && queue in pendingSends
      modifies this`pendingSends, this`flights, this`nextFlight, this`places
      ensures Consistent() && pendingSends == old(pendingSends) - {queue}
      ensures flights == old(flights)[old(nextFlight) := Flight(queue, old(pendingSends)[queue])]
    {
      TakeOffKeepsPending(pendingSends, sends, places, queue, nextFlight);
      TakeOffKeepsFlights(pendingSends, flights, nextFlight, sends, places, queue);
      var batch := pendingSends[queue];
      pendingSends := pendingSends - {queue};
      flights := flights[nextFlight := Flight(queue, batch)];
      places := Moved(places, Pending(queue), Flying(nextFlight));
      nextFlight := nextFlight + 1;
    }

    /** The statement's effect, all rows or none. */
    method Store(flight: Flight, ids: seq<nat>)
      requires |ids| <= |flight.batch|
      modifies this`rows
      ensures rows == Storing(old(rows), flight.queue, flight.batch, ids)
    {
      for k := 0 to |ids|
        invariant rows == Storing(old(rows), flight.queue, flight.batch, ids[..k])
      {
        assert ids[..k + 1][..k] == ids[..k];
        rows := rows[RowKey(flight.queue, ids[k]) := flight.batch[k].message];
      }
      assert ids[..|ids|] == ids;
    }

    method SettleEach(batch: seq<Entry>, ids: Option<seq<nat>>)
      requires ids.Some? ==> |ids.value| == |batch|
      modifies this`settled
      ensures settled == Settling(old(settled), batch, ids)
    {
      for k := 0 to |batch|
        invariant settled == Settling(old(settled), batch[..k], ids)
      {
        assert batch[..k + 1][..k] == batch[..k];
        settled := settled[batch[k].n := if ids.Some? then Resolved(ids.value[k]) else Rejected];
      }
      assert batch[..|batch|] == batch;
    }

    method Settle(f: nat, ids: Option<seq<nat>>)
      requires Consistent() && f in flights && (ids.Some? ==> NamesRows(settled, rows, sends, flights[f], ids.value))
      modifies this`flights, this`settled, this`places
      ensures Consistent() && flights == old(flights) - {f}
      ensures settled == Settling(old(settled), old(flights)[f].batch, ids)
      ensures forall n <- old(settled) :: !Has(old(flights)[f].batch, n) && n in settled && settled[n] == old(settled)[n]
    {
      SettlingKeys(settled, flights[f].batch, ids);
      LandingKeeps(pendingSends, flights, nextFlight, settled, rows, sends, places, f, ids);
      SettleEach(flights[f].batch, ids);
      flights := flights - {f};
      places := Moved(places, Flying(f), Settled);
    }

    /** The database's answer to a batch: each of its sends is settled, for the first and last time. */
    method Land(f: nat, answer: Answer)
      requires Valid() && f in flights
      requires Answers(answer, rows, flights[f])
      modifies this
      ensures Valid() && sends == old(sends) && rows == Storing(old(rows), old(flights)[f].queue, old(flights)[f].batch, answer.stored)
      ensures forall n <- old(settled) :: !Has(old(flights)[f].batch, n) && n in settled && settled[n] == old(settled)[n]
      ensures settled == Settling(old(settled), old(flights)[f].batch, IdsFor(old(flights)[f].batch, answer))
      ensures var queue := old(flights)[f].queue;
              && pendingSends == old(pendingSends) - {queue}
              && flights == if queue in old(pendingSends) then
                              (old(flights) - {f})[old(nextFlight) := Flight(queue, old(pendingSends)[queue])]
                            else old(flights) - {f}
    {
      var queue := flights[f].queue;
      LandBatch(f, answer);
      if queue in pendingSends {
        Flush(queue);
      } else {
        assert pendingSends - {queue} == pendingSends;
      }
    }

    method LandBatch(f: nat, answer: Answer)
      requires Valid() && f in flights
      requires Answers(answer, rows, flights[f])
      modifies this`rows, this`settled, this`flights, this`places
      ensures Valid() && rows == Storing(old(rows), old(flights)[f].queue, old(flights)[f].batch, answer.stored)
      ensures forall n <- old(settled) :: !Has(old(flights)[f].batch, n) && n in settled && settled[n] == old(settled)[n]
      ensures settled == Settling(old(settled), old(flights)[f].batch, IdsFor(old(flights)[f].batch, answer))
      ensures flights == old(flights) - {f}
    {
      var flight := flights[f];
      StoreBatch(flight, answer.stored);
      Settle(f, IdsFor(flight.batch, answer));
    }

    method StoreBatch(flight: Flight, ids: seq<nat>)
      requires Consistent() && |ids| <= |flight.batch| && AreNew(rows, flight.queue, ids)
      modifies this`rows
      ensures Consistent() && rows == Storing(old(rows), flight.queue, flight.batch, ids)
      ensures |ids| == |flight.batch| ==> NamesRows(settled, rows, sends, flight, ids)
    {
      StoringKeeps(settled, rows, sends, places, flight, ids);
      Store(flight, ids);
    }
  }

  /** What a resolved send can rely on: the row of that id in its queue holds its message, and is no other send's. */
  lemma ResolvedHaveTheirOwnRows(client: PgmqClient, n: nat, m: nat)
    requires client.Valid() && n in client.settled && client.settled[n].Resolved?
    ensures n < |client.sends|
    ensures var key := RowKey(client.sends[n].queue, client.settled[n].id);
            && key in client.rows && client.rows[key] == client.sends[n].message
            && (m in client.settled && client.settled[m].Resolved? && m != n ==>
                  m < |client.sends| && RowKey(client.sends[m].queue, client.settled[m].id) != key)
  {
    assert HasOwnRow(client.settled, client.rows, client.sends, n);
    if m in client.settled && client.settled[m].Resolved? && m != n {
      assert HasOwnRow(client.settled, client.rows, client.sends, m);
      assert Apart(client.settled, client.sends, n, m);
    }
  }

  /** The ids the sends of a batch resolve to, if they do. */
  function IdsFor(batch: seq<Entry>, answer: Answer): (ids: Option<seq<nat>>)
    ensures ids.Some? ==> |ids.value| == |batch|
  {
    if answer.Listed? && |answer.ids| == |batch| then Some(answer.ids) else None
  }
}
