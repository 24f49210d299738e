/**
  The tail over whole runs: the log grows, channels come and go, and passes hand
  on a page at a time. An event is lost exactly when, while it was still to be
  handed on, some other watched channel got past it in its stream and one has
  been past it ever since.
 */
module TailRuns {
  import opened Wrappers
  import opened Events
  import opened LogRead
  import opened TailReads
  import E = EventStore

  /** Who counts as a client event, and how many events a page holds. */
  datatype Config = Config(client: Envelope -> bool, limit: nat)

  /**
    `begun` are the channels begun in the latest change, until they are seated or
    a pass reads. After a pass that says it is caught up, `read` is how long the
    log was when its bounds were read, and otherwise nothing.
   */
  datatype State = State(log: seq<Row>, published: seq<Row>, tail: Tail, begun: set<string>, calm: bool, read: nat)

  datatype Step =
    | Grow(rows: seq<Row>)
    | Begin(active: set<string>)
    | Seat
    | Pass(bound: nat, merged: Positions)

  predicate Init(s: State) {
    s.log == [] && s.published == [] && s.tail == Tail(map[], map[], map[]) && s.begun == {} && s.calm && s.read == 0
  }

  /** The page of a pass whose bounds were read when the log was `bound` rows long, and whether it was the last. */
  function PageOf(cfg: Config, s: State, bound: nat, merged: Positions): (seq<Row>, bool)
    requires bound <= |s.log|
  {
    var wanted := OnChannels(cfg.client, s.tail.positions.Keys);
    Page(wanted, s.log, merged, HighWater(wanted, s.log[..bound]), cfg.limit)
  }

  ghost predicate Enabled(cfg: Config, s: State, step: Step) {
    match step
    case Grow(rows) => LogGood(s.log + rows)
    case Begin(_) => true
    case Seat => true
    case Pass(bound, merged) => bound <= |s.log| && IsMerged(s.tail.positions, merged)
  }

  ghost function Apply(cfg: Config, s: State, step: Step): State
    requires Enabled(cfg, s, step)
  {
    match step
    case Grow(rows) => s.(log := s.log + rows, read := 0)
    case Begin(active) =>
      var added := active - s.tail.positions.Keys;
      s.(tail := Synced(s.tail, active, Beginnings(added), |s.published|), begun := added, read := 0)
    case Seat => s.(tail := Started(s.tail, SeedsOf(cfg.client, s.begun, s.log), |s.published|), begun := {}, read := 0)
    case Pass(bound, merged) =>
      var (page, complete) := PageOf(cfg, s, bound, merged);
      State(s.log, s.published + page, After(s.tail, page), {},
            s.calm && NoneStranded(s.log, cfg.client, s.tail.positions), if complete then bound else 0)
  }

  ghost predicate Next(cfg: Config, s: State, s': State) {
    exists step :: Enabled(cfg, s, step) && s' == Apply(cfg, s, step)
  }

  ghost predicate IsRun(cfg: Config, run: seq<State>) {
    && |run| > 0 && Init(run[0])
    && forall i | 0 < i < |run| :: Linked(cfg, run, i)
  }

  ghost predicate Linked(cfg: Config, run: seq<State>, i: nat)
    requires 0 < i < |run|
  {
    Next(cfg, run[i - 1], run[i])
  }

  // ---- what every step keeps ----

  ghost predicate Inv(cfg: Config, s: State) {
    && LogGood(s.log) && Good(s.log, s.published, s.tail, cfg.client, s.calm)
    && s.begun <= s.tail.positions.Keys && s.read <= |s.log|
  }

  lemma GrowKeepsInv(cfg: Config, s: State, rows: seq<Row>)
    requires Inv(cfg, s) && Enabled(cfg, s, Grow(rows))
    ensures Inv(cfg, Apply(cfg, s, Grow(rows)))
  {
    GrowthKeepsGood(s.log, s.log + rows, s.published, s.tail, cfg.client, s.calm);
  }

  lemma BeginKeepsInv(cfg: Config, s: State, active: set<string>)
    requires Inv(cfg, s)
    ensures Inv(cfg, Apply(cfg, s, Begin(active)))
  {
    var gone, added := s.tail.positions.Keys - active, active - s.tail.positions.Keys;
    ForgettingKeeps(s.log, s.published, s.tail, cfg.client, s.calm, gone);
    SeedsCanStart(cfg.client, added, s.log);
    StartingKeeps(s.log, s.published, Without(s.tail, gone), cfg.client, s.calm, Beginnings(added));
  }

  lemma SeatKeepsInv(cfg: Config, s: State)
    requires Inv(cfg, s)
    ensures Inv(cfg, Apply(cfg, s, Seat))
  {
    SeedsCanStart(cfg.client, s.begun, s.log);
    StartingKeeps(s.log, s.published, s.tail, cfg.client, s.calm, SeedsOf(cfg.client, s.begun, s.log));
  }

  lemma PassKeepsInv(cfg: Config, s: State, bound: nat, merged: Positions)
    requires Inv(cfg, s) && Enabled(cfg, s, Pass(bound, merged))
    ensures Inv(cfg, Apply(cfg, s, Pass(bound, merged)))
  {
    var page := PageOf(cfg, s, bound, merged).0;
    var marks := HighWater(OnChannels(cfg.client, s.tail.positions.Keys), s.log[..bound]);
    PageIsBatch(s.log, cfg.client, s.tail.positions, merged, marks, cfg.limit);
    BatchKeeps(s.log, s.published, s.tail, cfg.client, s.calm && NoneStranded(s.log, cfg.client, s.tail.positions), page);
  }

  lemma StepKeepsInv(cfg: Config, s: State, step: Step)
    requires Inv(cfg, s) && Enabled(cfg, s, step)
    ensures Inv(cfg, Apply(cfg, s, step))
  {
    match step
    case Grow(rows) => GrowKeepsInv(cfg, s, rows);
    case Begin(active) => BeginKeepsInv(cfg, s, active);
    case Seat => SeatKeepsInv(cfg, s);
    case Pass(bound, merged) => PassKeepsInv(cfg, s, bound, merged);
  }

  lemma NextKeepsInv(cfg: Config, s: State, s': State)
    requires Inv(cfg, s) && Next(cfg, s, s')
    ensures Inv(cfg, s')
  {
    var step :| Enabled(cfg, s, step) && s' == Apply(cfg, s, step);
    StepKeepsInv(cfg, s, step);
  }

  lemma {:induction false} ReachedInv(cfg: Config, run: seq<State>, i: nat)
    requires IsRun(cfg, run) && i < |run|
    ensures Inv(cfg, run[i])
  {
    if i == 0 {
      BeginningIsInOrder(cfg, run[0]);
    } else {
      ReachedInv(cfg, run, i - 1);
      LinkKeepsInv(cfg, run, i);
    }
  }

  lemma BeginningIsInOrder(cfg: Config, s: State)
    requires Init(s)
    ensures Inv(cfg, s)
  {
  }

  lemma LinkKeepsInv(cfg: Config, run: seq<State>, i: nat)
    requires IsRun(cfg, run) && 0 < i < |run| && Inv(cfg, run[i - 1])
    ensures Inv(cfg, run[i])
  {
    assert Linked(cfg, run, i);
    NextKeepsInv(cfg, run[i - 1], run[i]);
  }

  // ---- lost events ----

  /** The channel has got to the event's place in its stream, or further. */
  predicate IsPast(s: State, d: string, row: Row) {
    d in s.tail.positions && row.sequence <= At(s.tail.positions[d], row.event.stream)
  }

  predicate SomePast(s: State, row: Row) {
    exists d <- s.tail.positions :: IsPast(s, d, row)
  }

  /** The event has not been handed on since its channel is watched. */
  ghost predicate IsUnpublished(s: State, c: string, row: Row) {
    c in s.tail.since && s.tail.since[c] <= |s.published| && row !in s.published[s.tail.since[c]..]
  }

  /** It is still to be handed on, and another channel is past it. */
  ghost predicate IsOvertaken(s: State, c: string, row: Row) {
    IsUnpublished(s, c, row) && exists d <- s.tail.positions :: d != c && IsPast(s, d, row)
  }

  /** The channel is watched, where it was begun. */
  predicate IsSeated(s: State, c: string) {
    c in s.tail.positions && c in s.tail.since && c !in s.begun
  }

  /** A channel that stays watched stays where it was begun, and hands on what it handed on. */
  ghost predicate Stays(s: State, s': State, c: string) {
    && IsSeated(s', c) && c in s.tail.since && s'.tail.since[c] == s.tail.since[c]
    && s.published <= s'.published
  }

  lemma StepStays(cfg: Config, s: State, step: Step, s': State, c: string)
    requires Enabled(cfg, s, step) && s' == Apply(cfg, s, step) && IsSeated(s, c) && c in s'.tail.positions
    ensures Stays(s, s', c) && s.log <= s'.log
  {
  }

  lemma PublishedStays(s: State, s': State, c: string, row: Row)
    requires IsSeated(s, c) && Stays(s, s', c) && IsUnpublished(s', c, row) && s.tail.since[c] <= |s.published|
    ensures IsUnpublished(s, c, row)
  {
    var n := s.tail.since[c];
    assert s'.published[n..] == s.published[n..] + s'.published[|s.published|..];
  }

  /** What some channel is past is on no page. */
  lemma PageIsAhead(cfg: Config, s: State, bound: nat, merged: Positions, row: Row)
    requires bound <= |s.log| && IsMerged(s.tail.positions, merged) && SomePast(s, row)
    ensures row !in PageOf(cfg, s, bound, merged).0
  {
    var d :| d in s.tail.positions && IsPast(s, d, row);
    assert At(s.tail.positions[d], row.event.stream) <= At(merged, row.event.stream);
    var wanted := OnChannels(cfg.client, s.tail.positions.Keys);
    PageIsUnread(wanted, s.log, merged, HighWater(wanted, s.log[..bound]), cfg.limit);
  }

  /** While some channel is past it, nothing hands an event on. */
  lemma StepSkips(cfg: Config, s: State, step: Step, s': State, c: string, row: Row)
    requires Enabled(cfg, s, step) && s' == Apply(cfg, s, step) && IsSeated(s, c) && c in s'.tail.positions
    requires IsUnpublished(s, c, row) && SomePast(s, row)
    ensures IsUnpublished(s', c, row)
  {
    StepStays(cfg, s, step, s', c);
    if step.Pass? {
      PageIsAhead(cfg, s, step.bound, step.merged, row);
      var page := PageOf(cfg, s, step.bound, step.merged).0;
      assert (s.published + page)[s.tail.since[c]..] == s.published[s.tail.since[c]..] + page;
    }
  }

  /** An event nobody is past, within the bounds of a last page, is on it. */
  lemma LastPageHas(cfg: Config, s: State, bound: nat, merged: Positions, c: string, row: Row)
    requires Inv(cfg, s) && bound <= |s.log| && IsMerged(s.tail.positions, merged) && !SomePast(s, row)
    requires c in s.tail.positions && row in s.log[..bound] && OnChannel(cfg.client, c, row)
    requires PageOf(cfg, s, bound, merged).1
    ensures row in PageOf(cfg, s, bound, merged).0
  {
    var wanted := OnChannels(cfg.client, s.tail.positions.Keys);
    var marks := HighWater(wanted, s.log[..bound]);
    PageIsUnread(wanted, s.log, merged, marks, cfg.limit);
    NobodyPastIsUnread(s, merged, row);
    var k :| 0 <= k < |s.log[..bound]| && s.log[..bound][k] == row;
    assert s.log[k] == row && Unread(wanted, merged, marks, row);
  }

  lemma NobodyPastIsUnread(s: State, merged: Positions, row: Row)
    requires IsMerged(s.tail.positions, merged) && !SomePast(s, row) && LogGood(s.log) && row in s.log
    ensures At(merged, row.event.stream) < row.sequence
  {
    var k :| 0 <= k < |s.log| && s.log[k] == row;
    assert E.DenseAt(s.log, map[], k);
    MergedIsSomebodys(s, merged, row);
  }

  lemma MergedIsSomebodys(s: State, merged: Positions, row: Row)
    requires IsMerged(s.tail.positions, merged) && row.sequence > 0
    ensures At(merged, row.event.stream) >= row.sequence ==> SomePast(s, row)
  {
    if At(merged, row.event.stream) >= row.sequence {
      var d :| d in s.tail.positions && At(s.tail.positions[d], row.event.stream) == At(merged, row.event.stream);
      assert IsPast(s, d, row);
    }
  }

  /** A pass that takes some channel past an event hands the event on: within a stream a page leaves nothing out. */
  lemma PassOvertakesNothing(cfg: Config, s: State, bound: nat, merged: Positions, c: string, row: Row)
    requires Inv(cfg, s) && bound <= |s.log| && IsMerged(s.tail.positions, merged)
    requires c in s.tail.positions && row in s.log && OnChannel(cfg.client, c, row)
    requires !SomePast(s, row) && SomePast(Apply(cfg, s, Pass(bound, merged)), row)
    ensures row in PageOf(cfg, s, bound, merged).0
  {
    var page := PageOf(cfg, s, bound, merged).0;
    var d :| d in s.tail.positions && IsPast(Apply(cfg, s, Pass(bound, merged)), d, row);
    assert !IsPast(s, d, row);
    MovedAt(s.tail.positions, page, d, row.event.stream);
    var k :| 0 <= k < |page| && IsAt(page[k], d, row.event.stream)
             && page[k].sequence == At(Moved(s.tail.positions, page)[d], row.event.stream);
    NobodyPastIsUnread(s, merged, row);
    PageHasUpTo(cfg, s, bound, merged, c, row, k);
  }

  lemma PageHasUpTo(cfg: Config, s: State, bound: nat, merged: Positions, c: string, row: Row, k: nat)
    requires LogGood(s.log) && bound <= |s.log| && c in s.tail.positions && row in s.log && OnChannel(cfg.client, c, row)
    requires var page := PageOf(cfg, s, bound, merged).0;
             k < |page| && page[k].event.stream == row.event.stream && row.sequence <= page[k].sequence
    requires At(merged, row.event.stream) < row.sequence
    ensures row in PageOf(cfg, s, bound, merged).0
  {
    var wanted := OnChannels(cfg.client, s.tail.positions.Keys);
    var marks := HighWater(wanted, s.log[..bound]);
    var page := PageOf(cfg, s, bound, merged).0;
    PageIsUnread(wanted, s.log, merged, marks, cfg.limit);
    assert page[k] in page;
    if row.sequence == page[k].sequence {
      OneRowASequence(s.log, row, page[k]);
    } else {
      assert Unread(wanted, merged, marks, row);
      PageHasNoHoles(wanted, s.log, merged, marks, cfg.limit, k, row);
    }
  }

  lemma PagePublishes(cfg: Config, s: State, bound: nat, merged: Positions, c: string, row: Row)
    requires Inv(cfg, s) && Enabled(cfg, s, Pass(bound, merged)) && c in s.tail.positions
    ensures row in PageOf(cfg, s, bound, merged).0 ==> !IsUnpublished(Apply(cfg, s, Pass(bound, merged)), c, row)
  {
    var page := PageOf(cfg, s, bound, merged).0;
    assert (s.published + page)[s.tail.since[c]..] == s.published[s.tail.since[c]..] + page;
  }

  /**
    Where overtaking comes from: nobody was past the event, it is still to be
    handed on, and now somebody is. That is another channel, just seated.
   */
  lemma OnlySeatingOvertakes(cfg: Config, s: State, step: Step, s': State, c: string, row: Row)
    requires Reachable(cfg, s) && Enabled(cfg, s, step) && s' == Apply(cfg, s, step) && IsSeated(s, c) && c in s'.tail.positions
    requires row in s.log && OnChannel(cfg.client, c, row)
    requires !SomePast(s, row) && SomePast(s', row) && IsUnpublished(s', c, row)
    ensures step.Seat? && IsOvertaken(s', c, row)
  {
    ReachableIsInOrder(cfg, s);
    RowsCountFromOne(s.log, row);
    StepStays(cfg, s, step, s', c);
    if step.Pass? {
      PassOvertakesNothing(cfg, s, step.bound, step.merged, c, row);
      PagePublishes(cfg, s, step.bound, step.merged, c, row);
      assert false;
    }
    var d :| d in s'.tail.positions && IsPast(s', d, row);
    assert !IsPast(s, d, row);
  }

  // ---- over a run ----

  ghost predicate Reachable(cfg: Config, s: State) {
    exists run :: IsRun(cfg, run) && run[|run| - 1] == s
  }

  lemma ReachableIsInOrder(cfg: Config, s: State)
    requires Reachable(cfg, s)
    ensures Inv(cfg, s)
  {
    var run :| IsRun(cfg, run) && run[|run| - 1] == s;
    ReachedInv(cfg, run, |run| - 1);
  }

  /** The step that led to a moment of a run. */
  lemma StepTo(cfg: Config, run: seq<State>, t: nat) returns (step: Step)
    requires IsRun(cfg, run) && 0 < t < |run|
    ensures Reachable(cfg, run[t - 1]) && Enabled(cfg, run[t - 1], step) && run[t] == Apply(cfg, run[t - 1], step)
  {
    var start := run[..t];
    forall k | 0 < k < |start|
      ensures Linked(cfg, start, k)
    {
      assert Linked(cfg, run, k);
    }
    assert IsRun(cfg, start) && start[|start| - 1] == run[t - 1];
    assert Linked(cfg, run, t);
    step :| Enabled(cfg, run[t - 1], step) && run[t] == Apply(cfg, run[t - 1], step);
  }

  ghost predicate IsWatchedThroughout(run: seq<State>, i: nat, j: nat, c: string)
    requires i <= j < |run|
  {
    forall t | i <= t <= j :: c in run[t].tail.positions
  }

  lemma LinkStays(cfg: Config, run: seq<State>, t: nat, c: string)
    requires IsRun(cfg, run) && 0 < t < |run| && IsSeated(run[t - 1], c) && c in run[t].tail.positions
    ensures Stays(run[t - 1], run[t], c) && run[t - 1].log <= run[t].log
  {
    var step := StepTo(cfg, run, t);
    StepStays(cfg, run[t - 1], step, run[t], c);
  }

  lemma {:induction false} SeatedThroughout(cfg: Config, run: seq<State>, i: nat, j: nat, c: string)
    requires IsRun(cfg, run) && i <= j < |run| && IsSeated(run[i], c) && IsWatchedThroughout(run, i, j, c)
    ensures IsSeated(run[j], c) && Stays(run[i], run[j], c) && run[i].log <= run[j].log
    decreases j
  {
    if i < j {
      SeatedThroughout(cfg, run, i, j - 1, c);
      LinkStays(cfg, run, j, c);
    }
  }

  lemma LinkSkips(cfg: Config, run: seq<State>, t: nat, c: string, row: Row)
    requires IsRun(cfg, run) && 0 < t < |run| && IsSeated(run[t - 1], c) && c in run[t].tail.positions
    requires IsUnpublished(run[t - 1], c, row) && SomePast(run[t - 1], row)
    ensures IsUnpublished(run[t], c, row)
  {
    var step := StepTo(cfg, run, t);
    StepSkips(cfg, run[t - 1], step, run[t], c, row);
  }

  /** Some channel is past the event at every moment of a stretch. */
  ghost predicate IsPastFrom(run: seq<State>, m: nat, j: nat, row: Row)
    requires j <= |run|
  {
    forall t | m <= t < j :: SomePast(run[t], row)
  }

  /** As long as some channel is past it, an event that was not handed on is not. */
  lemma {:induction false} SkippedThroughout(cfg: Config, run: seq<State>, m: nat, j: nat, c: string, row: Row)
    requires IsRun(cfg, run) && m <= j < |run| && IsSeated(run[m], c) && IsWatchedThroughout(run, m, j, c)
    requires IsUnpublished(run[m], c, row) && IsPastFrom(run, m, j, row)
    ensures IsUnpublished(run[j], c, row)
    decreases j
  {
    if m < j {
      SkippedThroughout(cfg, run, m, j - 1, c, row);
      SeatedThroughout(cfg, run, m, j - 1, c);
      LinkSkips(cfg, run, j, c, row);
    }
  }

  /** A watched channel's event, still to be handed on. */
  ghost predicate IsAwaited(cfg: Config, s: State, c: string, row: Row) {
    && IsSeated(s, c) && row in s.log && OnChannel(cfg.client, c, row) && !IsPast(s, c, row)
  }

  lemma AwaitedIsUnpublished(cfg: Config, s: State, c: string, row: Row)
    requires Inv(cfg, s) && IsAwaited(cfg, s, c, row)
    ensures IsUnpublished(s, c, row)
  {
    var late := s.published[s.tail.since[c]..];
    if row in late {
      var k :| 0 <= k < |late| && late[k] == row;
      assert IsSince(s.tail, s.published, s.tail.since[c] + k, c);
      assert false;
    }
  }

  /** Going back from a moment at which some channel is past the event to the one at which another overtook its own. */
  lemma {:induction false} OvertakingIsFound(cfg: Config, run: seq<State>, i: nat, t: nat, j: nat, c: string, row: Row)
    returns (m: nat)
    requires IsRun(cfg, run) && i <= t < j < |run| && IsAwaited(cfg, run[i], c, row) && IsWatchedThroughout(run, i, j, c)
    requires IsUnpublished(run[j], c, row) && IsPastFrom(run, t, j, row)
    ensures i <= m < j && IsLostSince(run, m, j, c, row)
    decreases t
  {
    UnpublishedBefore(cfg, run, i, t, j, c, row);
    if t == i {
      m := t;
      var d :| d in run[i].tail.positions && IsPast(run[i], d, row);
    } else if SomePast(run[t - 1], row) {
      m := OvertakingIsFound(cfg, run, i, t - 1, j, c, row);
    } else {
      m := t;
      LinkOvertakes(cfg, run, i, t, c, row);
    }
  }

  lemma UnpublishedBefore(cfg: Config, run: seq<State>, i: nat, t: nat, j: nat, c: string, row: Row)
    requires IsRun(cfg, run) && i <= t <= j < |run| && IsSeated(run[i], c) && IsWatchedThroughout(run, i, j, c)
    requires IsUnpublished(run[j], c, row)
    ensures IsUnpublished(run[t], c, row) && IsSeated(run[t], c)
  {
    SeatedThroughout(cfg, run, i, t, c);
    SeatedThroughout(cfg, run, t, j, c);
    ReachedInv(cfg, run, t);
    PublishedStays(run[t], run[j], c, row);
  }

  lemma LinkOvertakes(cfg: Config, run: seq<State>, i: nat, t: nat, c: string, row: Row)
    requires IsRun(cfg, run) && i < t < |run| && IsAwaited(cfg, run[i], c, row) && IsWatchedThroughout(run, i, t, c)
    requires !SomePast(run[t - 1], row) && SomePast(run[t], row) && IsUnpublished(run[t], c, row)
    ensures IsOvertaken(run[t], c, row)
  {
    SeatedThroughout(cfg, run, i, t - 1, c);
    assert row in run[t - 1].log;
    var step := StepTo(cfg, run, t);
    OnlySeatingOvertakes(cfg, run[t - 1], step, run[t], c, row);
  }

  lemma RowsCountFromOne(log: seq<Row>, row: Row)
    requires LogGood(log) && row in log
    ensures row.sequence > 0
  {
    var k :| 0 <= k < |log| && log[k] == row;
    assert E.DenseAt(log, map[], k);
  }

  /** This moment is that of a pass that says it is caught up, with bounds that took the event in. */
  ghost predicate IsCaughtUp(s: State, row: Row) {
    exists k | 0 <= k < |s.log| :: s.log[k] == row && k < s.read
  }

  /** A pass that is caught up leaves an event out only if some channel was past it. */
  lemma CaughtUpLeftOut(cfg: Config, s: State, step: Step, s': State, c: string, row: Row)
    requires Reachable(cfg, s) && Enabled(cfg, s, step) && s' == Apply(cfg, s, step)
    requires c in s.tail.positions && OnChannel(cfg.client, c, row)
    requires IsCaughtUp(s', row) && IsUnpublished(s', c, row)
    ensures SomePast(s, row)
  {
    ReachableIsInOrder(cfg, s);
    assert step.Pass?;
    if !SomePast(s, row) {
      BoundsHave(cfg, s, step.bound, step.merged, row);
      LastPageHas(cfg, s, step.bound, step.merged, c, row);
      PagePublishes(cfg, s, step.bound, step.merged, c, row);
      assert false;
    }
  }

  lemma BoundsHave(cfg: Config, s: State, bound: nat, merged: Positions, row: Row)
    requires Enabled(cfg, s, Pass(bound, merged)) && IsCaughtUp(Apply(cfg, s, Pass(bound, merged)), row)
    ensures PageOf(cfg, s, bound, merged).1 && row in s.log[..bound]
  {
    var k :| 0 <= k < |s.log| && s.log[k] == row && k < Apply(cfg, s, Pass(bound, merged)).read;
    assert s.log[..bound][k] == row;
  }

  /** Overtaken at one moment, and with some channel past it from there on. */
  ghost predicate IsLostSince(run: seq<State>, m: nat, j: nat, c: string, row: Row)
    requires m < j <= |run|
  {
    IsOvertaken(run[m], c, row) && IsPastFrom(run, m, j, row)
  }

  lemma SomePastBefore(cfg: Config, run: seq<State>, j: nat, c: string, row: Row)
    requires IsRun(cfg, run) && 0 < j < |run| && c in run[j - 1].tail.positions && OnChannel(cfg.client, c, row)
    requires IsCaughtUp(run[j], row) && IsUnpublished(run[j], c, row)
    ensures SomePast(run[j - 1], row)
  {
    var step := StepTo(cfg, run, j);
    CaughtUpLeftOut(cfg, run[j - 1], step, run[j], c, row);
  }

  lemma UnpublishedIsLost(cfg: Config, run: seq<State>, i: nat, j: nat, c: string, row: Row) returns (m: nat)
    requires IsRun(cfg, run) && i < j < |run| && IsAwaited(cfg, run[i], c, row) && IsWatchedThroughout(run, i, j, c)
    requires IsCaughtUp(run[j], row) && IsUnpublished(run[j], c, row)
    ensures i <= m < j && IsLostSince(run, m, j, c, row)
  {
    SomePastBefore(cfg, run, j, c, row);
    m := PastIsLost(cfg, run, i, j, c, row);
  }

  lemma PastIsLost(cfg: Config, run: seq<State>, i: nat, j: nat, c: string, row: Row) returns (m: nat)
    requires IsRun(cfg, run) && i < j < |run| && IsAwaited(cfg, run[i], c, row) && IsWatchedThroughout(run, i, j, c)
    requires IsUnpublished(run[j], c, row) && SomePast(run[j - 1], row)
    ensures i <= m < j && IsLostSince(run, m, j, c, row)
  {
    m := OvertakingIsFound(cfg, run, i, j - 1, j, c, row);
  }

  lemma LostIsUnpublished(cfg: Config, run: seq<State>, i: nat, m: nat, j: nat, c: string, row: Row)
    requires IsRun(cfg, run) && i <= m < j < |run| && IsSeated(run[i], c) && IsWatchedThroughout(run, i, j, c)
    requires IsLostSince(run, m, j, c, row)
    ensures IsUnpublished(run[j], c, row)
  {
    SeatedThroughout(cfg, run, i, m, c);
    SkippedThroughout(cfg, run, m, j, c, row);
  }

  /**
    Which events are lost. Take an event still to be handed on, on a channel that
    stays watched, and a later pass that says it is caught up. The event has not
    been handed on exactly when at some moment before, still to be handed on,
    another channel was past it in its stream, and some channel has been ever since.
   */
  lemma LostExactlyWhen(cfg: Config, run: seq<State>, i: nat, j: nat, c: string, row: Row)
    requires IsRun(cfg, run) && i < j < |run| && IsAwaited(cfg, run[i], c, row) && IsWatchedThroughout(run, i, j, c)
    requires IsCaughtUp(run[j], row)
    ensures IsUnpublished(run[j], c, row) <==> exists m | i <= m < j :: IsLostSince(run, m, j, c, row)
  {
    if IsUnpublished(run[j], c, row) {
      var m := UnpublishedIsLost(cfg, run, i, j, c, row);
    }
    if m :| i <= m < j && IsLostSince(run, m, j, c, row) {
      LostIsUnpublished(cfg, run, i, m, j, c, row);
    }
  }

  lemma LinkMovesForward(cfg: Config, run: seq<State>, t: nat, d: string, row: Row)
    requires IsRun(cfg, run) && 0 < t < |run| && IsSeated(run[t - 1], d) && d in run[t].tail.positions
    requires IsPast(run[t - 1], d, row)
    ensures IsPast(run[t], d, row)
  {
    var step := StepTo(cfg, run, t);
    StepMovesForward(cfg, run[t - 1], step, run[t], d, row);
  }

  lemma StepMovesForward(cfg: Config, s: State, step: Step, s': State, d: string, row: Row)
    requires Reachable(cfg, s) && Enabled(cfg, s, step) && s' == Apply(cfg, s, step) && IsSeated(s, d) && d in s'.tail.positions
    requires IsPast(s, d, row)
    ensures IsPast(s', d, row)
  {
    ReachableIsInOrder(cfg, s);
    if step.Pass? {
      var wanted := OnChannels(cfg.client, s.tail.positions.Keys);
      PageIsBatch(s.log, cfg.client, s.tail.positions, step.merged, HighWater(wanted, s.log[..step.bound]), cfg.limit);
      BatchMovesForward(s.log, cfg.client, s.tail.positions, PageOf(cfg, s, step.bound, step.merged).0, d, row.event.stream);
    }
  }

  lemma {:induction false} PastThroughout(cfg: Config, run: seq<State>, m: nat, j: nat, d: string, row: Row)
    requires IsRun(cfg, run) && m <= j < |run| && IsSeated(run[m], d) && IsWatchedThroughout(run, m, j, d)
    requires IsPast(run[m], d, row)
    ensures IsPast(run[j], d, row)
    decreases j
  {
    if m < j {
      PastThroughout(cfg, run, m, j - 1, d, row);
      SeatedThroughout(cfg, run, m, j - 1, d);
      LinkMovesForward(cfg, run, j, d, row);
    }
  }

  /** An event that was overtaken is lost for as long as both channels stay watched, however many passes there are. */
  lemma OvertakenStaysLost(cfg: Config, run: seq<State>, m: nat, j: nat, c: string, d: string, row: Row)
    requires IsRun(cfg, run) && m <= j < |run| && IsSeated(run[m], c) && IsSeated(run[m], d)
    requires IsUnpublished(run[m], c, row) && IsPast(run[m], d, row)
    requires IsWatchedThroughout(run, m, j, c) && IsWatchedThroughout(run, m, j, d)
    ensures IsUnpublished(run[j], c, row)
  {
    forall t | m <= t < j
      ensures SomePast(run[t], row)
    {
      PastThroughout(cfg, run, m, t, d, row);
    }
    SkippedThroughout(cfg, run, m, j, c, row);
  }

  // ---- what a pass is good for ----

  /** Everything of every watched channel in this much of the log, past its seed, has been handed on. */
  ghost predicate HasHandedOn(cfg: Config, s: State, start: seq<Row>) {
    Inv(cfg, s) && AllHandedOn(start, s.published, s.tail, cfg.client)
  }

  /** A pass that is caught up while nothing ever was left behind hands on all there was when it began. */
  lemma CalmPassHandsOnAll(cfg: Config, s: State, bound: nat, merged: Positions, start: seq<Row>)
    requires Inv(cfg, s) && Enabled(cfg, s, Pass(bound, merged)) && start <= s.log[..bound]
    requires Apply(cfg, s, Pass(bound, merged)).calm && PageOf(cfg, s, bound, merged).1
    ensures HasHandedOn(cfg, Apply(cfg, s, Pass(bound, merged)), start)
  {
    PassKeepsInv(cfg, s, bound, merged);
    var wanted := OnChannels(cfg.client, s.tail.positions.Keys);
    var page := PageOf(cfg, s, bound, merged).0;
    assert s.log[..bound] <= s.log;
    PageIsBatch(s.log, cfg.client, s.tail.positions, merged, HighWater(wanted, s.log[..bound]), cfg.limit);
    CaughtUp(start, s.log[..bound], s.log, cfg.client, s.tail.positions, merged, page, cfg.limit);
    PassedIsHandedOn(start, s.log, s.published, s.tail, cfg.client, page);
  }

  /** With one watched channel a stream, no pass leaves anything behind. */
  lemma OneChannelStaysCalm(cfg: Config, s: State, bound: nat, merged: Positions)
    requires Inv(cfg, s) && Enabled(cfg, s, Pass(bound, merged)) && s.calm
    requires OneChannelPerStream(s.log, cfg.client, s.tail.positions)
    ensures Apply(cfg, s, Pass(bound, merged)).calm
  {
    OneChannelIsCalm(s.log, cfg.client, s.tail.positions);
  }

  /** Begun and then seated is synced. */
  lemma SeatedIsSynced(cfg: Config, s: State, active: set<string>, log: seq<Row>)
    requires s.tail.seeds.Keys == s.tail.positions.Keys == s.tail.since.Keys
    ensures var added := active - s.tail.positions.Keys;
            Started(Synced(s.tail, active, Beginnings(added), |s.published|), SeedsOf(cfg.client, added, log), |s.published|)
            == Synced(s.tail, active, SeedsOf(cfg.client, added, log), |s.published|)
  {
    var added := active - s.tail.positions.Keys;
    StartedAgain(Without(s.tail, s.tail.positions.Keys - active), Beginnings(added), SeedsOf(cfg.client, added, log), |s.published|);
  }

  /** When some channel is past everything, a page is empty, and the last. */
  lemma NothingIsUnread(cfg: Config, s: State, bound: nat, merged: Positions)
    requires bound <= |s.log| && IsMerged(s.tail.positions, merged) && cfg.limit >= 1
    requires forall row <- s.log :: SomePast(s, row)
    ensures PageOf(cfg, s, bound, merged) == ([], true)
  {
    var wanted := OnChannels(cfg.client, s.tail.positions.Keys);
    var (page, complete) := PageOf(cfg, s, bound, merged);
    PageIsUnread(wanted, s.log, merged, HighWater(wanted, s.log[..bound]), cfg.limit);
    forall row | row in s.log
      ensures row !in page
    {
      PageIsAhead(cfg, s, bound, merged, row);
    }
    if page != [] {
      HeadIsMember(page);
      assert false;
    }
  }

  lemma HeadIsMember(page: seq<Row>)
    requires page != []
    ensures page[0] in page
  {
  }
}
