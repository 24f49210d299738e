/**
  The loop that delivers events, as a program: it follows the channels somebody
  listens to and hands on a page at a time, every statement a step of its runs.
 */
module LogTail {
  import opened Wrappers
  import opened Events
  import opened LogRead
  import opened TailReads
  import opened TailRuns
  import E = EventStore
  import H = Hub

  ghost predicate RunTo(cfg: Config, run: seq<State>, s: State) {
    IsRun(cfg, run) && run[|run| - 1] == s
  }

  lemma RunGoesOn(cfg: Config, run: seq<State>, s: State, step: Step)
    requires RunTo(cfg, run, s) && Enabled(cfg, s, step)
    ensures RunTo(cfg, run + [Apply(cfg, s, step)], Apply(cfg, s, step))
  {
    var longer := run + [Apply(cfg, s, step)];
    forall i | 0 < i < |longer|
      ensures Linked(cfg, longer, i)
    {
      if i < |run| {
        assert Linked(cfg, run, i);
      } else {
        assert Next(cfg, s, Apply(cfg, s, step));
      }
    }
  }

  lemma RunIsGood(cfg: Config, run: seq<State>, s: State)
    requires RunTo(cfg, run, s)
    ensures Inv(cfg, s)
  {
    ReachedInv(cfg, run, |run| - 1);
  }

  lemma TailIsShaped(cfg: Config, run: seq<State>, s: State)
    requires RunTo(cfg, run, s)
    ensures s.tail.seeds.Keys == s.tail.positions.Keys == s.tail.since.Keys
  {
    RunIsGood(cfg, run, s);
  }

  lemma SyncedAs(cfg: Config, before: State, active: set<string>, log: seq<Row>, ok: bool, begun: Tail, after: Tail)
    requires before.tail.seeds.Keys == before.tail.positions.Keys == before.tail.since.Keys
    requires var added := active - before.tail.positions.Keys;
             && begun == Synced(before.tail, active, Beginnings(added), |before.published|)
             && (if ok && added != {} then after == Started(begun, SeedsOf(cfg.client, added, log), |before.published|)
                 else after == begun)
    ensures var added := active - before.tail.positions.Keys;
            var at := if ok then SeedsOf(cfg.client, added, log) else Beginnings(added);
            after == Synced(before.tail, active, at, |before.published|)
    ensures after.positions.Keys == active
    ensures forall c <- after.positions | c !in before.tail.positions ::
              after.positions[c] == if ok then SeedOf(cfg.client, c, log) else map[]
  {
    var added := active - before.tail.positions.Keys;
    var at := if ok then SeedsOf(cfg.client, added, log) else Beginnings(added);
    SeatedIsSynced(cfg, before, active, log);
    assert added == {} ==> SeedsOf(cfg.client, added, log) == Beginnings(added);
    SyncedChannels(before.tail, active, at, |before.published|);
  }

  lemma NothingIsWatched(cfg: Config, run: seq<State>, s: State)
    requires RunTo(cfg, run, s) && s.tail.positions == map[]
    ensures HasHandedOn(cfg, s, s.log)
  {
    RunIsGood(cfg, run, s);
  }

  lemma CalmPassIsGood(cfg: Config, run: seq<State>, s: State, bound: nat, merged: Positions, start: seq<Row>)
    requires RunTo(cfg, run, s) && Enabled(cfg, s, Pass(bound, merged)) && start <= s.log[..bound]
    ensures Apply(cfg, s, Pass(bound, merged)).calm && PageOf(cfg, s, bound, merged).1 ==>
              HasHandedOn(cfg, Apply(cfg, s, Pass(bound, merged)), start)
  {
    RunIsGood(cfg, run, s);
    if Apply(cfg, s, Pass(bound, merged)).calm && PageOf(cfg, s, bound, merged).1 {
      CalmPassHandsOnAll(cfg, s, bound, merged, start);
    }
  }

  class LogTail {
    const cfg: Config
    /** No query fails. */
    const reliable: bool
    /** Nobody appends, and no socket comes or goes, while the loop waits. */
    const quiet: bool
    const hub: H.EventStreamHub
    var log: seq<Row>
    var positions: Watch
    ghost var seeds: Watch
    ghost var since: map<string, nat>
    ghost var begun: set<string>
    /** No pass so far left a watched channel behind another in its stream. */
    ghost var calm: bool
    ghost var read: nat
    ghost var run: seq<State>

    constructor (cfg: Config, reliable: bool, quiet: bool, hub: H.EventStreamHub)
      requires hub.Valid() && hub.published == []
      ensures Valid() && log == [] && positions == map[] && calm
      ensures this.cfg == cfg && this.hub == hub && this.reliable == reliable && this.quiet == quiet
    {
      this.cfg, this.reliable, this.quiet, this.hub := cfg, reliable, quiet, hub;
      log, positions, seeds, since, begun, calm, read := [], map[], map[], map[], {}, true, 0;
      new;
      run := [Value()];
    }

    ghost function Value(): State
      reads this, hub
    {
      State(log, hub.published, Tail(positions, seeds, since), begun, calm, read)
    }

    ghost predicate Valid()
      reads this, hub
    {
      hub.Valid() && RunTo(cfg, run, Value())
    }

    /** While the loop waits: others append, sockets come and go. Nobody else publishes. */
    method Elsewhere()
      requires Valid()
      modifies this`log, this`read, this`run, hub
      ensures Valid() && old(run) <= run && old(log) <= log && hub.published == old(hub.published)
      ensures quiet ==> log == old(log) && hub.ActiveChannels() == old(hub.ActiveChannels())
    {
    }

    /** A socket. */
    method Listen(channels: seq<string>)
      requires Valid()
      modifies hub
      ensures Valid() && Value() == old(Value())
      ensures hub.ActiveChannels() == old(hub.ActiveChannels()) + set c <- channels
    {
      var id := hub.Subscribe(channels);
    }

    /** Somebody appends. */
    method Append(rows: seq<Row>)
      requires Valid() && LogGood(log + rows)
      modifies this`log, this`read, this`run
      ensures Valid() && run == old(run) + [Value()] && Value() == old(Value()).(log := old(log) + rows, read := 0)
    {
      ghost var before := Value();
      log, read := log + rows, 0;
      RunGoesOn(cfg, run, before, Grow(rows));
      run := run + [Value()];
    }

    /** The program's fields already hold the step's effect; the ghost ones follow. */
    ghost method Took(before: State, step: Step)
      requires hub.Valid() && RunTo(cfg, run, before) && Enabled(cfg, before, step)
      requires var after := Apply(cfg, before, step);
               after.log == log && after.published == hub.published && after.tail.positions == positions
      modifies this`seeds, this`since, this`begun, this`calm, this`read, this`run
      ensures Valid() && Value() == Apply(cfg, before, step) && run == old(run) + [Value()]
    {
      RunGoesOn(cfg, run, before, step);
      var after := Apply(cfg, before, step);
      seeds, since, begun, calm, read := after.tail.seeds, after.tail.since, after.begun, after.calm, after.read;
      run := run + [after];
    }

    /**
      Forgets channels nobody holds and starts the new ones at the end of the
      log. If the end cannot be read, a new channel has been started at the
      beginning instead, and stays there.
     */
    method SyncChannels() returns (ok: bool)
      requires Valid()
      modifies this, hub
      ensures Valid() && old(run) <= run && old(log) <= log && hub.published == old(hub.published) && calm == old(calm)
      ensures reliable ==> ok
      ensures quiet ==> log == old(log) && hub.ActiveChannels() == old(hub.ActiveChannels())
      ensures var active := old(hub.ActiveChannels());
              var added := active - old(positions.Keys);
              Value().tail == Synced(old(Value()).tail, active,
                                     if ok then SeedsOf(cfg.client, added, log) else Beginnings(added), |hub.published|)
      ensures positions.Keys == old(hub.ActiveChannels())
      ensures forall c <- positions | c !in old(positions) :: positions[c] == if ok then SeedOf(cfg.client, c, log) else map[]
      ensures ok ==> begun == {}
    {
      ghost var before := Value();
      TailIsShaped(cfg, run, before);
      var active, added := BeginNew();
      ghost var begunTail := Value().tail;
      ok := SeatAdded(added);
      SyncedAs(cfg, before, active, log, ok, begunTail, Value().tail);
    }

    /** New channels are at the beginning until the end of the log has been read. */
    method BeginNew() returns (active: set<string>, added: set<string>)
      requires Valid()
      modifies this`positions, this`seeds, this`since, this`begun, this`calm, this`read, this`run
      ensures Valid() && old(run) <= run && active == hub.ActiveChannels() && added == active - old(positions.Keys)
      ensures Value() == Apply(cfg, old(Value()), Begin(active))
    {
      active := hub.ActiveChannels();
      added := active - positions.Keys;
      ghost var before := Value();
      positions := (positions - (positions.Keys - active)) + Beginnings(added);
      Took(before, Begin(active));
    }

    /** New channels, if any, move to the end of the log. */
    method SeatAdded(added: set<string>) returns (ok: bool)
      requires Valid() && begun == added
      modifies this, hub
      ensures Valid() && old(run) <= run && old(log) <= log && hub.published == old(hub.published) && calm == old(calm)
      ensures reliable ==> ok
      ensures quiet ==> log == old(log) && hub.ActiveChannels() == old(hub.ActiveChannels())
      ensures Value().tail == if ok && added != {} then Started(old(Value().tail), SeedsOf(cfg.client, added, log), |hub.published|)
                              else old(Value().tail)
      ensures ok ==> begun == {}
    {
      ok := true;
      if added != {} {
        ok := SeatLater(added);
      }
    }

    method SeatLater(added: set<string>) returns (ok: bool)
      requires Valid() && begun == added
      modifies this, hub
      ensures Valid() && old(run) <= run && old(log) <= log && (reliable ==> ok)
      ensures quiet ==> log == old(log) && hub.ActiveChannels() == old(hub.ActiveChannels())
      ensures Value().(read := 0) == if ok then Apply(cfg, old(Value()).(log := log), Seat) else old(Value()).(log := log, read := 0)
    {
      Elsewhere();
      if !reliable {
        if * {
          return false;
        }
      }
      SeatNew(added);
      return true;
    }

    method SeatNew(added: set<string>)
      requires Valid() && begun == added
      modifies this
      ensures Valid() && old(run) <= run && Value() == Apply(cfg, old(Value()), Seat)
    {
      ghost var before := Value();
      positions := positions + SeedsOf(cfg.client, added, log);
      Took(before, Seat);
    }

    method Merge() returns (merged: Positions)
      ensures IsMerged(positions, merged)
    {
      merged := map[];
      var left := positions.Keys;
      while left != {}
        invariant left <= positions.Keys
        invariant forall c, s | c in positions.Keys - left :: At(positions[c], s) <= At(merged, s)
        invariant forall s | At(merged, s) > 0 :: exists c <- positions :: At(positions[c], s) == At(merged, s)
        decreases left
      {
        var c :| c in left;
        left := left - {c};
        merged := MergeOne(c, merged);
      }
    }

    method MergeOne(c: string, before: Positions) returns (merged: Positions)
      requires c in positions
      requires forall s | At(before, s) > 0 :: exists d <- positions :: At(positions[d], s) == At(before, s)
      ensures forall s :: At(before, s) <= At(merged, s) && At(positions[c], s) <= At(merged, s)
      ensures forall s | At(merged, s) > 0 :: exists d <- positions :: At(positions[d], s) == At(merged, s)
    {
      merged := before;
      var streams := positions[c].Keys;
      while streams != {}
        invariant streams <= positions[c].Keys
        invariant forall s :: At(before, s) <= At(merged, s)
        invariant forall s | s !in streams :: At(positions[c], s) <= At(merged, s)
        invariant forall s | At(merged, s) > 0 :: exists d <- positions :: At(positions[d], s) == At(merged, s)
        decreases streams
      {
        var s :| s in streams;
        streams := streams - {s};
        if s !in merged || positions[c][s] > merged[s] {
          merged := merged[s := positions[c][s]];
        }
      }
    }

    /** Hands on one page. Nothing can come between its events. */
    method HandOn(page: seq<Row>)
      requires hub.Valid()
      modifies this`positions, hub
      ensures hub.Valid() && hub.published == old(hub.published) + page && positions == Moved(old(positions), page)
      ensures hub.ActiveChannels() == old(hub.ActiveChannels())
    {
      for k := 0 to |page|
        invariant hub.Valid() && hub.published == old(hub.published) + page[..k]
        invariant positions == Moved(old(positions), page[..k]) && hub.ActiveChannels() == old(hub.ActiveChannels())
      {
        assert page[..k + 1][..k] == page[..k];
        hub.Publish(page[k]);
        if page[k].event.channel in positions {
          positions := positions[page[k].event.channel := Reached(positions[page[k].event.channel], page[k])];
        }
      }
      assert page[..|page|] == page;
    }

    /** The two queries of a pass: how far the log goes, and a page of it up to there. */
    method ReadPage(merged: Positions) returns (page: seq<Row>, complete: bool, ghost bound: nat)
      requires Valid() && IsMerged(positions, merged)
      modifies this`log, this`read, this`run, hub
      ensures Valid() && old(run) <= run && old(log) <= log && hub.published == old(hub.published)
      ensures quiet ==> log == old(log) && hub.ActiveChannels() == old(hub.ActiveChannels())
      ensures bound <= |log| && old(log) <= log[..bound] && (page, complete) == PageOf(cfg, Value(), bound, merged)
    {
      var wanted := OnChannels(cfg.client, positions.Keys);
      Elsewhere();
      var marks := HighWater(wanted, log);
      bound := |log|;
      ghost var bounded := log;
      Elsewhere();
      assert log[..bound] == bounded;
      var read := Page(wanted, log, merged, marks, cfg.limit);
      page, complete := read.0, read.1;
    }

    /**
      One pass. It says it is caught up exactly when its page was the last. When
      no pass ever left a channel behind, all there was of every watched channel
      has then been handed on.
     */
    method Drain() returns (complete: bool, ghost bound: nat, ghost merged: Positions)
      requires Valid()
      modifies this, hub
      ensures Valid() && old(run) <= run && old(log) <= log && positions.Keys == old(positions.Keys)
      ensures quiet ==> log == old(log) && hub.ActiveChannels() == old(hub.ActiveChannels())
      ensures old(positions) == map[] ==> complete && run == old(run)
      ensures old(positions) != map[] ==> Drained(|old(run)|, old(Value()), complete, bound, merged)
      ensures complete && calm ==> HasHandedOn(cfg, Value(), old(log))
    {
      bound, merged := 0, map[];
      if positions == map[] {
        NothingIsWatched(cfg, run, Value());
        return true, bound, merged;
      }
      var page, all;
      all := Merge();
      merged := all;
      page, complete, bound := ReadPage(all);
      PassOn(page, complete, bound, all, old(Value()));
    }

    /** Hands the page on, and that is the pass. */
    method PassOn(page: seq<Row>, ghost complete: bool, ghost bound: nat, ghost merged: Positions, ghost was: State)
      requires Valid() && bound <= |log| && was.log <= log[..bound] && Value() == was.(log := log, read := read)
      requires IsMerged(positions, merged)
      requires (page, complete) == PageOf(cfg, Value(), bound, merged)
      modifies this`positions, this`seeds, this`since, this`begun, this`calm, this`read, this`run, hub
      ensures Valid() && old(run) <= run && positions.Keys == old(positions.Keys)
      ensures hub.ActiveChannels() == old(hub.ActiveChannels())
      ensures Drained(|old(run)|, was, complete, bound, merged)
      ensures complete && calm ==> HasHandedOn(cfg, Value(), was.log)
    {
      ghost var before := Value();
      HandOn(page);
      Took(before, Pass(bound, merged));
      CalmPassIsGood(cfg, old(run), before, bound, merged, was.log);
    }

    /**
      The last step so far was a pass. Since `was`, when it began, nothing of the
      tail had changed but the log's length, and its bounds took in all there was.
     */
    ghost predicate Drained(steps: nat, was: State, complete: bool, bound: nat, merged: Positions)
      reads this, hub
    {
      && steps < |run| && |run| >= 2
      && var before := run[|run| - 2];
         && before == was.(log := before.log, read := before.read) && bound <= |before.log| && was.log <= before.log[..bound]
         && Enabled(cfg, before, Pass(bound, merged)) && Value() == Apply(cfg, before, Pass(bound, merged))
         && complete == PageOf(cfg, before, bound, merged).1
    }
  }

  /**
    The loss, at its smallest. One channel is watched from the start; two events
    of one stream are recorded, the first on that channel, the second on another;
    then that other one is watched too. Nothing fails and nothing else happens.
    The loop says it is caught up, and the first event has gone to nobody.
   */
  method TwoChannelsLoseAnEvent(cfg: Config, first: Row, second: Row)
    returns (tail: LogTail, complete: bool)
    requires cfg.limit >= 1 && LogGood([first, second]) && cfg.client(first.event) && cfg.client(second.event)
    requires first.event.stream == second.event.stream && first.event.channel != second.event.channel
    ensures tail.Valid() && tail.cfg == cfg && tail.log == [first, second]
    ensures complete && tail.read == 2 && tail.hub.published == []
    ensures tail.positions.Keys == {first.event.channel, second.event.channel}
  {
    tail := WatchingFirst(cfg, first, second);
    ghost var before := tail.Value().tail;
    tail.Listen([second.event.channel]);
    var ok := tail.SyncChannels();
    assert tail.hub.ActiveChannels() == {first.event.channel, second.event.channel};
    SecondIsPast(cfg, tail.Value(), before, first, second);
    complete := DrainsNothing(tail);
  }

  /** With some channel past everything there is, a pass hands on nothing and says it is caught up. */
  method DrainsNothing(tail: LogTail) returns (complete: bool)
    requires tail.Valid() && tail.quiet && tail.cfg.limit >= 1 && tail.positions != map[]
    requires forall row <- tail.log :: SomePast(tail.Value(), row)
    modifies tail, tail.hub
    ensures complete && tail.Valid() && tail.hub.published == old(tail.hub.published)
    ensures tail.positions.Keys == old(tail.positions.Keys) && tail.log == old(tail.log) && tail.read == |tail.log|
  {
    ghost var was := tail.Value();
    ghost var bound, merged;
    complete, bound, merged := tail.Drain();
    QuietPassIsEmpty(tail.cfg, was, tail.run[|tail.run| - 2], bound, merged);
  }

  lemma QuietPassIsEmpty(cfg: Config, was: State, s: State, bound: nat, merged: Positions)
    requires s == was.(log := s.log, read := s.read) && s.log == was.log && Enabled(cfg, s, Pass(bound, merged))
    requires cfg.limit >= 1 && forall row <- was.log :: SomePast(was, row)
    ensures PageOf(cfg, s, bound, merged) == ([], true)
    ensures Apply(cfg, s, Pass(bound, merged)).published == was.published
  {
    forall row | row in s.log
      ensures SomePast(s, row)
    {
      var d :| d in was.tail.positions && IsPast(was, d, row);
      assert IsPast(s, d, row);
    }
    NothingIsUnread(cfg, s, bound, merged);
  }

  /** Watching the first event's channel from the start, with both events recorded since and none handed on. */
  method WatchingFirst(cfg: Config, first: Row, second: Row) returns (tail: LogTail)
    requires LogGood([first, second])
    ensures fresh(tail) && fresh(tail.hub) && tail.Valid() && tail.cfg == cfg && tail.reliable && tail.quiet
    ensures tail.log == [first, second] && tail.hub.published == []
    ensures tail.positions.Keys == {first.event.channel} == tail.hub.ActiveChannels()
  {
    var hub := new H.EventStreamHub();
    tail := new LogTail(cfg, true, true, hub);
    tail.Listen([first.event.channel]);
    assert tail.hub.ActiveChannels() == {first.event.channel};
    var ok := tail.SyncChannels();
    assert [] + [first, second] == [first, second];
    tail.Append([first, second]);
  }

  lemma SecondIsPast(cfg: Config, s: State, before: Tail, first: Row, second: Row)
    requires LogGood([first, second]) && cfg.client(second.event) && s.log == [first, second]
    requires first.event.stream == second.event.stream && first.event.channel != second.event.channel
    requires before.positions.Keys == {first.event.channel}
    requires s.tail.positions.Keys == {first.event.channel, second.event.channel}
    requires s.tail.positions[second.event.channel] == SeedOf(cfg.client, second.event.channel, s.log)
    ensures forall row <- s.log :: SomePast(s, row)
  {
    SequencesDiffer(s.log, 0, 1);
    assert OnChannels(cfg.client, {second.event.channel})(s.log[1]);
    assert IsPast(s, second.event.channel, first) && IsPast(s, second.event.channel, second);
  }
}
