/** One connection's outgoing events: bounded, one send at a time, in order. */
module Mailbox {
  import opened Wrappers
  import opened Events
  import opened Sequences

  /** What became of an event that was put in. */
  datatype Outcome = Accepted | Dropped | Closed | Late

  datatype Entry = Entry(event: Envelope, outcome: Outcome)

  predicate Expendable(event: Envelope) {
    event.kind.ProgressKind? || event.kind.ControlKind?
  }

  function WasAccepted(entry: Entry): Option<Envelope> {
    if entry.outcome.Accepted? then Some(entry.event) else None
  }

  function WasClosed(entry: Entry): Option<Envelope> {
    if entry.outcome.Closed? then Some(entry.event) else None
  }

  function EventOf(entry: Entry): Option<Envelope> {
    Some(entry.event)
  }

  predicate StepsAt(depths: seq<nat>, i: nat)
    requires i + 1 < |depths|
  {
    depths[i] != depths[i + 1]
  }

  class ConnectionMailbox {
    const capacity: nat
    var events: seq<Envelope>
    var idleCallbacks: seq<nat>
    var flushing: bool
    var disposed: bool
    var reportedDepth: nat
    /** What the mailbox did to the outside: sends begun, sends ended, closes, depths observed, callbacks run. */
    var sent: seq<Envelope>
    var finished: nat
    var closes: nat
    var observed: seq<nat>
    var ran: seq<nat>
    ghost var entries: seq<Entry>
    ghost var registered: set<nat>

    constructor (capacity: nat)
      ensures Valid() && Reported() && entries == [] && !disposed && this.capacity == capacity
    {
      this.capacity := capacity;
      events, idleCallbacks, flushing, disposed, reportedDepth := [], [], false, false, 0;
      sent, finished, closes, observed, ran, entries, registered := [], 0, 0, [], [], [], {};
    }

    function InFlight(): nat
      reads `flushing
    {
      if flushing then 1 else 0
    }

    function Depth(): nat
      reads `events, `flushing, `disposed
    {
      if disposed then 0 else |events| + InFlight()
    }

    /** Never over capacity; the sends begun and not ended are the one in flight, if any. */
    ghost predicate Bounded()
      reads `events, `flushing, `sent, `finished
    {
      |events| + InFlight() <= capacity && |sent| == finished + InFlight()
    }

    /** What was accepted has been sent, in order, or still waits; a disposed mailbox sends no more. */
    ghost predicate InOrder()
      reads `events, `disposed, `sent, `entries
    {
      && (!disposed ==> Collect(WasAccepted, entries) == sent + events)
      && (disposed ==> sent <= Collect(WasAccepted, entries) && events == [])
    }

    /** An event is lost without closing the connection only if it is expendable, or came after the end. */
    ghost predicate Accounted()
      reads `closes, `entries, `disposed
    {
      && closes == |Collect(WasClosed, entries)|
      && forall entry <- entries :: (entry.outcome.Dropped? ==> Expendable(entry.event))
                                    && (entry.outcome.Closed? ==> !Expendable(entry.event))
                                    && (entry.outcome.Late? ==> disposed)
    }

    /** Every idle callback is run or waiting, never both, never twice. */
    ghost predicate CalledOnce()
      reads `ran, `idleCallbacks, `registered
    {
      && NoDups(ran) && NoDups(idleCallbacks) && (forall id <- ran :: id !in idleCallbacks)
      && (forall id <- ran :: id in registered) && (forall id <- idleCallbacks :: id in registered)
    }

    /** Every observed depth differs from the one before it, the first from zero. */
    ghost predicate Changes()
      reads `reportedDepth, `observed
    {
      && reportedDepth == ([0] + observed)[|observed|]
      && forall i: nat | i < |observed| :: StepsAt([0] + observed, i)
    }

    ghost predicate Stable()
      reads this
    {
      Bounded() && InOrder() && Accounted() && CalledOnce() && Changes()
    }

    /** Nothing waits unless a send is in flight to move it on, except callbacks of a connection that is gone. */
    ghost predicate Moving()
      reads `flushing, `events, `disposed, `idleCallbacks
    {
      !flushing ==> events == [] && (disposed || idleCallbacks == [])
    }

    ghost predicate Reported()
      reads this
    {
      reportedDepth == Depth()
    }

    ghost predicate Valid()
      reads this
    {
      Stable() && Moving()
    }

    method Enqueue(event: Envelope)
      requires Valid() && Reported()
      modifies this
      ensures Valid() && Reported() && disposed == old(disposed) && registered == old(registered)
      ensures exists outcome :: entries == old(entries) + [Entry(event, outcome)]
                                && (outcome.Accepted? <==> !old(disposed) && old(Depth()) < capacity)
      ensures old(disposed) ==> sent == old(sent) && closes == old(closes)
      ensures closes == old(closes) + if !old(disposed) && old(Depth()) >= capacity
                                         && !event.kind.ProgressKind? && !event.kind.ControlKind? then 1 else 0
    {
      if disposed {
        Record(Entry(event, Late));
        return;
      }
      if |events| + InFlight() >= capacity {
        if Expendable(event) {
          Record(Entry(event, Dropped));
          return;
        }
        closes := closes + 1;
        Record(Entry(event, Closed));
        return;
      }
      Accept(event);
    }

    method Accept(event: Envelope)
      requires Valid() && !disposed && |events| + InFlight() < capacity
      modifies this
      ensures Valid() && Reported() && !disposed && registered == old(registered) && closes == old(closes)
      ensures entries == old(entries) + [Entry(event, Accepted)] && old(sent) <= sent
    {
      Push(event);
      SendOn();
    }

    method SendOn()
      requires Stable() && !disposed && events != []
      modifies this
      ensures Valid() && Reported() && entries == old(entries) && registered == old(registered) && disposed == old(disposed)
      ensures old(sent) <= sent && closes == old(closes)
    {
      Flush();
      assert Moving();
      ReportDepth();
    }

    method Push(event: Envelope)
      requires Valid() && !disposed && |events| + InFlight() < capacity
      modifies this`events, this`entries
      ensures Stable() && events == old(events) + [event] && entries == old(entries) + [Entry(event, Accepted)]
    {
      events := events + [event];
      Record(Entry(event, Accepted));
    }

    /** Notes what became of an event; the mailbox itself is already in its new state. */
    ghost method Record(entry: Entry)
      modifies this`entries
      ensures entries == old(entries) + [entry]
      ensures Collect(WasAccepted, entries) == Collect(WasAccepted, old(entries)) + if entry.outcome.Accepted? then [entry.event] else []
      ensures Collect(WasClosed, entries) == Collect(WasClosed, old(entries)) + if entry.outcome.Closed? then [entry.event] else []
    {
      CollectNext(WasAccepted, entries, entry);
      CollectNext(WasClosed, entries, entry);
      entries := entries + [entry];
    }

    method OnIdle(callback: nat)
      requires Valid() && Reported() && callback !in registered
      modifies this
      ensures Valid() && Reported() && registered == old(registered) + {callback}
      ensures if old(IsIdle()) then ran == old(ran) + [callback] && idleCallbacks == old(idleCallbacks)
              else idleCallbacks == old(idleCallbacks) + [callback] && ran == old(ran)
    {
      registered := registered + {callback};
      if !flushing && |events| == 0 {
        ran := ran + [callback];
        return;
      }
      idleCallbacks := idleCallbacks + [callback];
    }

    predicate IsIdle()
      reads this
    {
      !flushing && events == []
    }

    /** The connection is gone: what waits is thrown away, and nothing more is sent. */
    method Dispose()
      requires Valid()
      modifies this
      ensures Valid() && Reported() && disposed && events == [] && idleCallbacks == []
      ensures sent == old(sent) && ran == old(ran) && entries == old(entries)
    {
      disposed := true;
      events := [];
      idleCallbacks := [];
      ReportDepth();
    }

    /** Begins a send unless one is in flight. The send may be over before this returns. */
    method Flush()
      requires Stable()
      modifies this
      ensures Stable() && entries == old(entries) && registered == old(registered) && disposed == old(disposed)
      ensures !flushing ==> events == [] && (disposed || idleCallbacks == [] || old(events) == [])
      ensures flushing || disposed || old(events) == [] ==> ran == old(ran) && idleCallbacks == old(idleCallbacks)
      ensures !flushing && !disposed && old(events) != [] ==> ran == old(ran) + old(idleCallbacks) && idleCallbacks == []
      ensures old(sent) <= sent && closes == old(closes)
      ensures disposed ==> sent == old(sent)
      decreases |events|, 0
    {
      if disposed || flushing || |events| == 0 {
        return;
      }
      var event := events[0];
      events := events[1..];
      flushing := true;
      sent := sent + [event];
      assert old(sent + events) == sent + events;
      if * {
        Done();
      }
    }

    /** The send in flight is over. Callbacks wait for the moment nothing is in flight, and then all run. */
    method Done()
      requires Stable() && flushing
      modifies this
      ensures Stable() && Moving() && Reported()
      ensures flushing || disposed ==> ran == old(ran) && idleCallbacks == old(idleCallbacks)
      ensures !flushing && !disposed ==> IsIdle() && ran == old(ran) + old(idleCallbacks) && idleCallbacks == []
      ensures entries == old(entries) && registered == old(registered) && disposed == old(disposed)
      ensures old(sent) <= sent && closes == old(closes)
      ensures disposed ==> sent == old(sent)
      decreases |events|, 1
    {
      Land();
      if disposed {
        ReportDepth();
        return;
      }
      Flush();
      ReportDepth();
      if !flushing && |events| == 0 {
        RunIdle();
      }
    }

    method Land()
      requires Stable() && flushing
      modifies this`flushing, this`finished
      ensures Stable() && !flushing
    {
      flushing, finished := false, finished + 1;
    }

    method RunIdle()
      requires Stable()
      modifies this`ran, this`idleCallbacks
      ensures Stable() && idleCallbacks == [] && ran == old(ran) + old(idleCallbacks)
    {
      NoDupsTogether(ran, idleCallbacks);
      ran, idleCallbacks := ran + idleCallbacks, [];
    }

    method ReportDepth()
      requires Stable()
      modifies this`reportedDepth, this`observed
      ensures Stable() && Reported()
    {
      var depth := Depth();
      if depth == reportedDepth {
        return;
      }
      ghost var before := [0] + observed;
      reportedDepth := depth;
      observed := observed + [depth];
      assert [0] + observed == before + [depth];
      forall i: nat | i < |observed|
        ensures StepsAt([0] + observed, i)
      {
        assert i < |before| - 1 ==> StepsAt(before, i);
      }
    }
  }

  // ---- what is sent, seen from what was put in ----

  /** `xs` is `ys` with some elements left out. */
  predicate IsSubsequence<T(==)>(xs: seq<T>, ys: seq<T>) {
    if xs == [] then true
    else if ys == [] then false
    else if xs[|xs| - 1] == ys[|ys| - 1] then IsSubsequence(xs[..|xs| - 1], ys[..|ys| - 1])
    else IsSubsequence(xs, ys[..|ys| - 1])
  }

  lemma {:induction false} PrefixOfSubsequence<T>(ws: seq<T>, xs: seq<T>, ys: seq<T>)
    requires ws <= xs && IsSubsequence(xs, ys)
    ensures IsSubsequence(ws, ys)
    decreases ys
  {
    if ws != [] && ws != xs {
      if xs[|xs| - 1] == ys[|ys| - 1] {
        PrefixOfSubsequence(ws, xs[..|xs| - 1], ys[..|ys| - 1]);
        LongerStill(ws, ys[..|ys| - 1], ys[|ys| - 1]);
      } else {
        PrefixOfSubsequence(ws, xs, ys[..|ys| - 1]);
        LongerStill(ws, ys[..|ys| - 1], ys[|ys| - 1]);
      }
      assert ys == ys[..|ys| - 1] + [ys[|ys| - 1]];
    }
  }

  lemma {:induction false} LongerStill<T>(xs: seq<T>, ys: seq<T>, y: T)
    requires IsSubsequence(xs, ys)
    ensures IsSubsequence(xs, ys + [y])
    decreases ys, 1
  {
    assert (ys + [y])[..|ys|] == ys;
    if xs != [] && xs[|xs| - 1] == y {
      if xs[|xs| - 1] == ys[|ys| - 1] {
        LongerStill(xs[..|xs| - 1], ys[..|ys| - 1], ys[|ys| - 1]);
        assert ys == ys[..|ys| - 1] + [ys[|ys| - 1]];
      } else {
        InitStill(xs, ys);
      }
    }
  }

  lemma {:induction false} InitStill<T>(xs: seq<T>, ys: seq<T>)
    requires xs != [] && IsSubsequence(xs, ys)
    ensures IsSubsequence(xs[..|xs| - 1], ys)
    decreases ys, 0
  {
    if xs[|xs| - 1] == ys[|ys| - 1] {
      LongerStill(xs[..|xs| - 1], ys[..|ys| - 1], ys[|ys| - 1]);
    } else {
      InitStill(xs, ys[..|ys| - 1]);
      LongerStill(xs[..|xs| - 1], ys[..|ys| - 1], ys[|ys| - 1]);
    }
    assert ys == ys[..|ys| - 1] + [ys[|ys| - 1]];
  }

  lemma {:induction false} AcceptedAreASubsequence(entries: seq<Entry>)
    ensures IsSubsequence(Collect(WasAccepted, entries), Collect(EventOf, entries))
  {
    if entries != [] {
      var init, last := entries[..|entries| - 1], entries[|entries| - 1];
      AcceptedAreASubsequence(init);
      if last.outcome.Accepted? {
        assert Collect(WasAccepted, entries)[..|Collect(WasAccepted, init)|] == Collect(WasAccepted, init);
        assert Collect(EventOf, entries)[..|Collect(EventOf, init)|] == Collect(EventOf, init);
      } else {
        LongerStill(Collect(WasAccepted, init), Collect(EventOf, init), last.event);
        assert Collect(WasAccepted, entries) == Collect(WasAccepted, init);
      }
    }
  }

  /** Whatever was sent is what was put in, in order, some of it left out. */
  lemma SentIsASubsequence(box: ConnectionMailbox)
    requires box.Valid()
    ensures IsSubsequence(box.sent, Collect(EventOf, box.entries))
  {
    AcceptedAreASubsequence(box.entries);
    PrefixOfSubsequence(box.sent, Collect(WasAccepted, box.entries), Collect(EventOf, box.entries));
  }
}
