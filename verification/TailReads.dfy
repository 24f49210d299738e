/**
  Delivery without a queue: one reader per process follows the log for the
  channels somebody is listening to, each from where it was when first watched.
  Here is what one read, one page and one change of channels do.
 */
module TailReads {
  import opened Wrappers
  import opened Events
  import opened LogRead
  import opened Sequences
  import E = EventStore

  type Watch = map<string, Positions>

  /** How far each watched channel has been handed on, where it began, and what had been published by then. */
  datatype Tail = Tail(positions: Watch, seeds: Watch, since: map<string, nat>)

  predicate OnChannel(client: Envelope -> bool, channel: string, row: Row) {
    client(row.event) && row.event.channel == channel
  }

  function OnChannels(client: Envelope -> bool, channels: set<string>): Row -> bool {
    (row: Row) => client(row.event) && row.event.channel in channels
  }

  /** Where a channel would begin if it were first watched now. */
  function SeedOf(client: Envelope -> bool, channel: string, log: seq<Row>): Positions {
    HighWater(OnChannels(client, {channel}), log)
  }

  function SeedsOf(client: Envelope -> bool, channels: set<string>, log: seq<Row>): Watch {
    map c | c in channels :: SeedOf(client, c, log)
  }

  function Beginnings(channels: set<string>): Watch {
    map c | c in channels :: map[]
  }
  // ---- what holds of everything published ----

  /** What was published for a channel since it is watched. */
  predicate IsSince(tail: Tail, published: seq<Row>, i: nat, channel: string) {
    channel in tail.since && tail.since[channel] <= i < |published| && published[i].event.channel == channel
  }

  predicate Between(log: seq<Row>, seed: Positions, position: Positions, stream: string) {
    At(seed, stream) <= At(position, stream) <= E.Count(log, stream)
  }

  /** A channel has a position only in streams that carry it. */
  ghost predicate Grounded(log: seq<Row>, client: Envelope -> bool, channel: string, position: Positions, stream: string) {
    At(position, stream) > 0 ==> exists row <- log :: OnChannel(client, channel, row) && row.event.stream == stream
  }

  ghost predicate Shaped(log: seq<Row>, published: seq<Row>, tail: Tail, client: Envelope -> bool) {
    && tail.seeds.Keys == tail.positions.Keys == tail.since.Keys
    && (forall c <- tail.since :: tail.since[c] <= |published|)
    && (forall row <- published :: row in log && client(row.event))
    && (forall c, s | c in tail.positions :: Between(log, tail.seeds[c], tail.positions[c], s))
    && (forall c, s | c in tail.positions :: Grounded(log, client, c, tail.positions[c], s))
  }

  /** Nothing from before the seed, nothing past the position, and each stream of a channel in order, so nothing twice. */
  ghost predicate Ordered(published: seq<Row>, tail: Tail)
    requires tail.seeds.Keys == tail.positions.Keys == tail.since.Keys
  {
    && (forall i: nat, c | IsSince(tail, published, i, c) ::
          At(tail.seeds[c], published[i].event.stream) < published[i].sequence <= At(tail.positions[c], published[i].event.stream))
    && (forall i: nat, j: nat, c | IsSince(tail, published, i, c) && IsSince(tail, published, j, c) && i < j ::
          published[i].event.stream == published[j].event.stream ==> published[i].sequence < published[j].sequence)
  }

  /** Everything of a watched channel between its seed and its position was published. */
  ghost predicate Delivered(log: seq<Row>, published: seq<Row>, tail: Tail, client: Envelope -> bool)
    requires Shaped(log, published, tail, client)
  {
    forall c, row | c in tail.positions && row in log && OnChannel(client, c, row)
                    && At(tail.seeds[c], row.event.stream) < row.sequence <= At(tail.positions[c], row.event.stream)
      :: row in published[tail.since[c]..]
  }

  lemma GrowthKeeps(before: seq<Row>, log: seq<Row>, published: seq<Row>, tail: Tail, client: Envelope -> bool)
    requires before <= log && LogGood(log) && Shaped(before, published, tail, client)
    ensures Shaped(log, published, tail, client)
    ensures Delivered(before, published, tail, client) ==> Delivered(log, published, tail, client)
  {
    forall c, s | c in tail.positions
      ensures Between(log, tail.seeds[c], tail.positions[c], s)
    {
      assert Between(before, tail.seeds[c], tail.positions[c], s);
      E.CountGrows(log, |before|, |log|, s);
      assert log[..|before|] == before && log[..|log|] == log;
    }
    assert forall row <- before :: row in log;
    forall c, s | c in tail.positions
      ensures Grounded(log, client, c, tail.positions[c], s)
    {
      assert Grounded(before, client, c, tail.positions[c], s);
    }
    if Delivered(before, published, tail, client) {
      forall c, row | c in tail.positions && row in log && OnChannel(client, c, row)
                      && At(tail.seeds[c], row.event.stream) < row.sequence <= At(tail.positions[c], row.event.stream)
        ensures row in published[tail.since[c]..]
      {
        assert Between(before, tail.seeds[c], tail.positions[c], row.event.stream);
        var k :| 0 <= k < |log| && log[k] == row;
        if k < |before| {
          assert row == before[k];
        } else {
          LateRowIsAbove(before, log, k);
        }
      }
    }
  }

  // ---- publishing a page ----

  function Reached(positions: Positions, row: Row): Positions {
    positions[row.event.stream := row.sequence]
  }

  function Moved(watch: Watch, page: seq<Row>): (after: Watch)
    ensures after.Keys == watch.Keys
  {
    if page == [] then watch
    else
      var before, row := Moved(watch, page[..|page| - 1]), page[|page| - 1];
      if row.event.channel in before then before[row.event.channel := Reached(before[row.event.channel], row)] else before
  }

  predicate IsAt(row: Row, channel: string, stream: string) {
    row.event.channel == channel && row.event.stream == stream
  }

  /** A position after a page: the last row there of its channel and stream, if there is one. */
  lemma {:induction false} MovedAt(watch: Watch, page: seq<Row>, c: string, s: string)
    requires c in watch
    ensures (exists k | 0 <= k < |page| :: IsAt(page[k], c, s) && page[k].sequence == At(Moved(watch, page)[c], s))
            || (At(Moved(watch, page)[c], s) == At(watch[c], s) && forall k | 0 <= k < |page| :: !IsAt(page[k], c, s))
  {
    if page != [] {
      var init, row := page[..|page| - 1], page[|page| - 1];
      MovedAt(watch, init, c, s);
      if IsAt(row, c, s) {
        assert At(Moved(watch, page)[c], s) == row.sequence;
      } else {
        assert At(Moved(watch, page)[c], s) == At(Moved(watch, init)[c], s);
        if k :| 0 <= k < |init| && IsAt(init[k], c, s) && init[k].sequence == At(Moved(watch, init)[c], s) {
          assert IsAt(page[k], c, s) && page[k].sequence == At(Moved(watch, page)[c], s);
        }
      }
    }
  }

  ghost predicate Ascends(page: seq<Row>) {
    forall j, k | 0 <= j < k < |page| && page[j].event.stream == page[k].event.stream :: page[j].sequence < page[k].sequence
  }

  /** A batch of unread rows of watched channels. */
  ghost predicate GoodBatch(log: seq<Row>, client: Envelope -> bool, watch: Watch, page: seq<Row>) {
    && Ascends(page)
    && (forall row <- page ::
          row in log && client(row.event) && row.event.channel in watch
          && At(watch[row.event.channel], row.event.stream) < row.sequence)
  }

  /** It leaves out nothing of its channels that comes before what it holds. */
  ghost predicate LeavesNothingOut(log: seq<Row>, client: Envelope -> bool, watch: Watch, page: seq<Row>) {
    forall k, row | 0 <= k < |page| && row in log && page[k].event.channel in watch
                    && OnChannel(client, page[k].event.channel, row) && row.event.stream == page[k].event.stream
                    && At(watch[row.event.channel], row.event.stream) < row.sequence < page[k].sequence
      :: row in page[..k]
  }

  lemma BatchReaches(log: seq<Row>, client: Envelope -> bool, watch: Watch, page: seq<Row>, k: nat)
    requires GoodBatch(log, client, watch, page) && k < |page|
    ensures page[k].event.channel in watch
    ensures At(watch[page[k].event.channel], page[k].event.stream) < page[k].sequence
    ensures page[k].sequence <= At(Moved(watch, page)[page[k].event.channel], page[k].event.stream)
  {
    assert page[k] in page;
    MovedReaches(watch, page, k);
  }

  /** Rows of a stream go up, so no later one takes a position back. */
  lemma {:induction false} MovedReaches(watch: Watch, page: seq<Row>, k: nat)
    requires Ascends(page) && k < |page| && page[k].event.channel in watch
    ensures page[k].sequence <= At(Moved(watch, page)[page[k].event.channel], page[k].event.stream)
  {
    var init, last := page[..|page| - 1], page[|page| - 1];
    if k < |page| - 1 {
      assert Ascends(init);
      MovedReaches(watch, init, k);
    }
  }

  /** Positions only move forward, and never past the log. */
  lemma BatchMovesForward(log: seq<Row>, client: Envelope -> bool, watch: Watch, page: seq<Row>, c: string, s: string)
    requires LogGood(log) && GoodBatch(log, client, watch, page) && c in watch
    ensures At(watch[c], s) <= At(Moved(watch, page)[c], s)
    ensures At(watch[c], s) <= E.Count(log, s) ==> At(Moved(watch, page)[c], s) <= E.Count(log, s)
  {
    MovedAt(watch, page, c, s);
    if k :| 0 <= k < |page| && IsAt(page[k], c, s) && page[k].sequence == At(Moved(watch, page)[c], s) {
      assert page[k] in page;
      var j :| 0 <= j < |log| && log[j] == page[k];
      RowIsCounted(log, j);
    }
  }

  function After(tail: Tail, page: seq<Row>): Tail {
    tail.(positions := Moved(tail.positions, page))
  }

  lemma BatchKeepsShape(log: seq<Row>, published: seq<Row>, tail: Tail, client: Envelope -> bool, page: seq<Row>)
    requires LogGood(log) && Shaped(log, published, tail, client) && GoodBatch(log, client, tail.positions, page)
    ensures Shaped(log, published + page, After(tail, page), client)
  {
    forall c, s | c in tail.positions
      ensures Between(log, tail.seeds[c], After(tail, page).positions[c], s)
    {
      assert Between(log, tail.seeds[c], tail.positions[c], s);
      BatchMovesForward(log, client, tail.positions, page, c, s);
    }
    forall c, s | c in tail.positions
      ensures Grounded(log, client, c, After(tail, page).positions[c], s)
    {
      assert Grounded(log, client, c, tail.positions[c], s);
      MovedAt(tail.positions, page, c, s);
      if k :| 0 <= k < |page| && IsAt(page[k], c, s) && page[k].sequence == At(Moved(tail.positions, page)[c], s) {
        assert page[k] in page;
      }
    }
  }

  lemma OldRowIsBetween(log: seq<Row>, published: seq<Row>, tail: Tail, client: Envelope -> bool, page: seq<Row>, i: nat, c: string)
    requires LogGood(log) && Shaped(log, published, tail, client) && Ordered(published, tail)
    requires GoodBatch(log, client, tail.positions, page) && IsSince(tail, published, i, c)
    ensures var s := published[i].event.stream;
            At(tail.seeds[c], s) < published[i].sequence <= At(tail.positions[c], s) <= At(Moved(tail.positions, page)[c], s)
  {
    BatchMovesForward(log, client, tail.positions, page, c, published[i].event.stream);
  }

  lemma PageRowIsBetween(log: seq<Row>, published: seq<Row>, tail: Tail, client: Envelope -> bool, page: seq<Row>, k: nat)
    requires Shaped(log, published, tail, client) && GoodBatch(log, client, tail.positions, page) && k < |page|
    ensures page[k].event.channel in tail.positions && page[k].event.channel in tail.seeds
    ensures var c, s := page[k].event.channel, page[k].event.stream;
            At(tail.seeds[c], s) <= At(tail.positions[c], s) < page[k].sequence <= At(Moved(tail.positions, page)[c], s)
  {
    BatchReaches(log, client, tail.positions, page, k);
    assert Between(log, tail.seeds[page[k].event.channel], tail.positions[page[k].event.channel], page[k].event.stream);
  }

  /** What was published before is not past the old position; what is published now is. */
  lemma PairIsInOrder(log: seq<Row>, published: seq<Row>, tail: Tail, client: Envelope -> bool, page: seq<Row>, i: nat, j: nat,
                      c: string)
    requires LogGood(log) && Shaped(log, published, tail, client) && Ordered(published, tail)
    requires GoodBatch(log, client, tail.positions, page) && i < j && c in tail.positions
    requires IsSince(tail, published + page, i, c) && IsSince(tail, published + page, j, c)
    requires (published + page)[i].event.stream == (published + page)[j].event.stream
    ensures (published + page)[i].sequence < (published + page)[j].sequence
  {
    if j < |published| {
      assert IsSince(tail, published, i, c) && IsSince(tail, published, j, c);
    } else if i < |published| {
      assert (published + page)[j] == page[j - |published|];
      OldRowIsBetween(log, published, tail, client, page, i, c);
      PageRowIsBetween(log, published, tail, client, page, j - |published|);
    } else {
      assert (published + page)[i] == page[i - |published|] && (published + page)[j] == page[j - |published|];
    }
  }

  lemma BatchKeepsOrder(log: seq<Row>, published: seq<Row>, tail: Tail, client: Envelope -> bool, page: seq<Row>)
    requires LogGood(log) && Shaped(log, published, tail, client) && Ordered(published, tail)
    requires GoodBatch(log, client, tail.positions, page)
    ensures Ordered(published + page, After(tail, page))
  {
    var all, after := published + page, After(tail, page);
    forall i: nat, c | IsSince(after, all, i, c)
      ensures At(tail.seeds[c], all[i].event.stream) < all[i].sequence <= At(after.positions[c], all[i].event.stream)
    {
      if i < |published| {
        assert IsSince(tail, published, i, c);
        OldRowIsBetween(log, published, tail, client, page, i, c);
      } else {
        assert all[i] == page[i - |published|];
        PageRowIsBetween(log, published, tail, client, page, i - |published|);
      }
    }
    forall i: nat, j: nat, c | IsSince(after, all, i, c) && IsSince(after, all, j, c) && i < j
                               && all[i].event.stream == all[j].event.stream
      ensures all[i].sequence < all[j].sequence
    {
      PairIsInOrder(log, published, tail, client, page, i, j, c);
    }
  }

  lemma BatchKeepsDelivery(log: seq<Row>, published: seq<Row>, tail: Tail, client: Envelope -> bool, page: seq<Row>)
    requires LogGood(log) && Shaped(log, published, tail, client) && Delivered(log, published, tail, client)
    requires GoodBatch(log, client, tail.positions, page) && LeavesNothingOut(log, client, tail.positions, page)
    requires Shaped(log, published + page, After(tail, page), client)
    ensures Delivered(log, published + page, After(tail, page), client)
  {
    var after := After(tail, page);
    forall c, row | c in after.positions && row in log && OnChannel(client, c, row)
                    && At(after.seeds[c], row.event.stream) < row.sequence <= At(after.positions[c], row.event.stream)
      ensures row in (published + page)[after.since[c]..]
    {
      assert (published + page)[after.since[c]..] == published[after.since[c]..] + page;
      if row.sequence > At(tail.positions[c], row.event.stream) {
        RowIsOnPage(log, client, tail.positions, page, row);
      }
    }
  }

  lemma RowIsOnPage(log: seq<Row>, client: Envelope -> bool, watch: Watch, page: seq<Row>, row: Row)
    requires LogGood(log) && GoodBatch(log, client, watch, page) && LeavesNothingOut(log, client, watch, page)
    requires row in log && row.event.channel in watch && client(row.event)
    requires At(watch[row.event.channel], row.event.stream) < row.sequence
             <= At(Moved(watch, page)[row.event.channel], row.event.stream)
    ensures row in page
  {
    var c, s := row.event.channel, row.event.stream;
    MovedAt(watch, page, c, s);
    var k :| 0 <= k < |page| && IsAt(page[k], c, s) && page[k].sequence == At(Moved(watch, page)[c], s);
    assert page[k] in page;
    if row.sequence < page[k].sequence {
      assert row in page[..k];
    } else {
      OneRowASequence(log, row, page[k]);
    }
  }

  // ---- reading for all channels at once ----

  /** The one position a stream is read from: the furthest any watched channel got in it. */
  ghost predicate IsMerged(watch: Watch, merged: Positions) {
    && (forall c, s | c in watch :: At(watch[c], s) <= At(merged, s))
    && (forall s | At(merged, s) > 0 :: exists c <- watch :: At(watch[c], s) == At(merged, s))
  }

  /** No watched channel is behind in a stream in which another one is further on than its next event. */
  ghost predicate NoneStranded(log: seq<Row>, client: Envelope -> bool, watch: Watch) {
    forall row <- log | client(row.event) && row.event.channel in watch && At(watch[row.event.channel], row.event.stream) < row.sequence
      :: forall c <- watch :: At(watch[c], row.event.stream) < row.sequence
  }

  /** Each stream carries one watched channel. */
  ghost predicate OneChannelPerStream(log: seq<Row>, client: Envelope -> bool, watch: Watch) {
    forall a <- log, b <- log | client(a.event) && client(b.event) && a.event.stream == b.event.stream
                                && a.event.channel in watch && b.event.channel in watch
      :: a.event.channel == b.event.channel
  }

  lemma OneChannelIsCalm(log: seq<Row>, client: Envelope -> bool, watch: Watch)
    requires forall c, s | c in watch :: Grounded(log, client, c, watch[c], s)
    ensures OneChannelPerStream(log, client, watch) ==> NoneStranded(log, client, watch)
  {
    if OneChannelPerStream(log, client, watch) {
      forall row <- log, c <- watch | client(row.event) && row.event.channel in watch
                                      && At(watch[row.event.channel], row.event.stream) < row.sequence
        ensures At(watch[c], row.event.stream) < row.sequence
      {
        assert Grounded(log, client, c, watch[c], row.event.stream);
      }
    }
  }

  /**
    What sharing a stream costs. An event a watched channel has yet to hand on is
    left out of every read exactly when some watched channel is already past it
    in its stream.
   */
  lemma StrandedExactlyWhen(log: seq<Row>, client: Envelope -> bool, watch: Watch, merged: Positions, row: Row)
    requires IsMerged(watch, merged) && row in log && client(row.event) && row.event.channel in watch
    requires At(watch[row.event.channel], row.event.stream) < row.sequence
    ensures var wanted := OnChannels(client, watch.Keys);
            row !in Filter(wanted, log, merged, HighWater(wanted, log))
            <==> exists c <- watch :: row.sequence <= At(watch[c], row.event.stream)
  {
    var k :| 0 <= k < |log| && log[k] == row;
  }

  /** The read on positions for all channels is a batch for each of them. */
  lemma PageIsBatch(log: seq<Row>, client: Envelope -> bool, watch: Watch, merged: Positions, marks: Positions, limit: nat)
    requires LogGood(log) && IsMerged(watch, merged)
    ensures var page := Page(OnChannels(client, watch.Keys), log, merged, marks, limit).0;
            && GoodBatch(log, client, watch, page)
            && (NoneStranded(log, client, watch) ==> LeavesNothingOut(log, client, watch, page))
  {
    var wanted := OnChannels(client, watch.Keys);
    var page := Page(wanted, log, merged, marks, limit).0;
    ReadIsGood(wanted, log, merged, marks, limit);
    forall j, k | 0 <= j < k < |page| && page[j].event.stream == page[k].event.stream
      ensures page[j].sequence < page[k].sequence
    {
      PageAscends(wanted, log, merged, marks, limit, j, k);
    }
    if NoneStranded(log, client, watch) {
      forall k, row | 0 <= k < |page| && row in log && page[k].event.channel in watch
                      && OnChannel(client, page[k].event.channel, row) && row.event.stream == page[k].event.stream
                      && At(watch[row.event.channel], row.event.stream) < row.sequence < page[k].sequence
        ensures row in page[..k]
      {
        assert At(merged, row.event.stream) < row.sequence;
        assert wanted(row);
      }
    }
  }

  lemma SeedIsGrounded(client: Envelope -> bool, c: string, log: seq<Row>)
    requires LogGood(log)
    ensures Behind(log, SeedOf(client, c, log)) && forall s :: Grounded(log, client, c, SeedOf(client, c, log), s)
  {
    var wanted := OnChannels(client, {c});
    HighWaterIsBehind(wanted, log);
    forall s
      ensures Grounded(log, client, c, SeedOf(client, c, log), s)
    {
      if s in SeedOf(client, c, log) {
        var k :| 0 <= k < |log| && wanted(log[k]) && log[k].event.stream == s && log[k].sequence == SeedOf(client, c, log)[s];
        assert log[k] in log;
      }
    }
  }

  /** After the page, every watched channel is past its events in this much of the log. */
  ghost predicate Passes(log: seq<Row>, client: Envelope -> bool, watch: Watch, page: seq<Row>) {
    forall row <- log | client(row.event) && row.event.channel in watch ::
      row.sequence <= At(Moved(watch, page)[row.event.channel], row.event.stream)
  }

  /** Everything past a watched channel's seed has been handed on since it is watched. */
  ghost predicate AllHandedOn(log: seq<Row>, published: seq<Row>, tail: Tail, client: Envelope -> bool)
    requires tail.seeds.Keys == tail.positions.Keys == tail.since.Keys
    requires forall c <- tail.since :: tail.since[c] <= |published|
  {
    forall c, row | c in tail.positions && row in log && OnChannel(client, c, row)
                    && At(tail.seeds[c], row.event.stream) < row.sequence
      :: row in published[tail.since[c]..]
  }

  lemma PassedIsHandedOn(start: seq<Row>, log: seq<Row>, published: seq<Row>, tail: Tail, client: Envelope -> bool,
                         page: seq<Row>)
    requires start <= log && LogGood(log) && Good(log, published, tail, client, true)
    requires GoodBatch(log, client, tail.positions, page) && LeavesNothingOut(log, client, tail.positions, page)
    requires Passes(start, client, tail.positions, page)
    ensures AllHandedOn(start, published + page, After(tail, page), client)
  {
    BatchKeeps(log, published, tail, client, true, page);
    var after := After(tail, page);
    assert forall row <- start :: row in log;
    assert Delivered(log, published + page, after, client);
  }

  /** A last page takes every channel past all there was when its bounds were read. */
  lemma CaughtUp(start: seq<Row>, bounded: seq<Row>, log: seq<Row>, client: Envelope -> bool, watch: Watch, merged: Positions, page: seq<Row>,
                 limit: nat)
    requires start <= bounded <= log && LogGood(log) && IsMerged(watch, merged) && NoneStranded(log, client, watch)
    requires Page(OnChannels(client, watch.Keys), log, merged, HighWater(OnChannels(client, watch.Keys), bounded), limit)
             == (page, true)
    ensures Passes(start, client, watch, page)
  {
    var wanted := OnChannels(client, watch.Keys);
    var marks := HighWater(wanted, bounded);
    PageIsBatch(log, client, watch, merged, marks, limit);
    ReadIsGood(wanted, log, merged, marks, limit);
    forall row <- start | client(row.event) && row.event.channel in watch
      ensures row.sequence <= At(Moved(watch, page)[row.event.channel], row.event.stream)
    {
      var k :| 0 <= k < |start| && start[k] == row;
      assert bounded[k] == row && log[k] == row;
      if At(watch[row.event.channel], row.event.stream) < row.sequence {
        assert At(merged, row.event.stream) < row.sequence;
        assert row in page;
        var i :| 0 <= i < |page| && page[i] == row;
        BatchReaches(log, client, watch, page, i);
      } else {
        BatchMovesForward(log, client, watch, page, row.event.channel, row.event.stream);
      }
    }
  }

  /** All that holds of the tail at any moment; `calm` says whether it owes a full delivery. */
  ghost predicate Good(log: seq<Row>, published: seq<Row>, tail: Tail, client: Envelope -> bool, calm: bool) {
    && Shaped(log, published, tail, client)
    && Ordered(published, tail)
    && (calm ==> Delivered(log, published, tail, client))
  }

  lemma GrowthKeepsGood(before: seq<Row>, log: seq<Row>, published: seq<Row>, tail: Tail, client: Envelope -> bool, calm: bool)
    requires before <= log && LogGood(log) && Good(before, published, tail, client, calm)
    ensures Good(log, published, tail, client, calm)
  {
    GrowthKeeps(before, log, published, tail, client);
  }

  function Without(tail: Tail, gone: set<string>): Tail {
    Tail(tail.positions - gone, tail.seeds - gone, tail.since - gone)
  }

  lemma ForgettingKeeps(log: seq<Row>, published: seq<Row>, tail: Tail, client: Envelope -> bool, calm: bool, gone: set<string>)
    requires Good(log, published, tail, client, calm)
    ensures Good(log, published, Without(tail, gone), client, calm)
  {
    var after := Without(tail, gone);
    forall i: nat, c | IsSince(after, published, i, c)
      ensures IsSince(tail, published, i, c)
    {
    }
    assert Shaped(log, published, after, client);
  }

  function Started(tail: Tail, at: Watch, published: nat): Tail {
    Tail(tail.positions + at, tail.seeds + at, tail.since + map c | c in at :: published)
  }

  ghost predicate CanStart(log: seq<Row>, client: Envelope -> bool, at: Watch) {
    forall c <- at :: Behind(log, at[c]) && forall s :: Grounded(log, client, c, at[c], s)
  }

  lemma StartingShapes(log: seq<Row>, published: seq<Row>, tail: Tail, client: Envelope -> bool, at: Watch)
    requires Shaped(log, published, tail, client) && CanStart(log, client, at)
    ensures Shaped(log, published, Started(tail, at, |published|), client)
  {
    var after := Started(tail, at, |published|);
    forall c, s | c in after.positions
      ensures Between(log, after.seeds[c], after.positions[c], s) && Grounded(log, client, c, after.positions[c], s)
    {
      if c !in at {
        assert Between(log, tail.seeds[c], tail.positions[c], s) && Grounded(log, client, c, tail.positions[c], s);
      }
    }
  }

  lemma StartingKeeps(log: seq<Row>, published: seq<Row>, tail: Tail, client: Envelope -> bool, calm: bool, at: Watch)
    requires Good(log, published, tail, client, calm) && CanStart(log, client, at)
    ensures Good(log, published, Started(tail, at, |published|), client, calm)
  {
    var after := Started(tail, at, |published|);
    StartingShapes(log, published, tail, client, at);
    forall i: nat, c | IsSince(after, published, i, c)
      ensures c !in at && IsSince(tail, published, i, c)
    {
    }
  }

  /** The tail once its channels are the active ones, the new ones begun at given positions. */
  function Synced(tail: Tail, active: set<string>, at: Watch, published: nat): Tail {
    Started(Without(tail, tail.positions.Keys - active), at, published)
  }

  lemma StartedAgain(tail: Tail, first: Watch, next: Watch, published: nat)
    requires first.Keys == next.Keys
    ensures Started(Started(tail, first, published), next, published) == Started(tail, next, published)
  {
  }

  lemma SeedsCanStart(client: Envelope -> bool, added: set<string>, log: seq<Row>)
    requires LogGood(log)
    ensures CanStart(log, client, SeedsOf(client, added, log)) && CanStart(log, client, Beginnings(added))
  {
    forall c <- added
      ensures Behind(log, SeedOf(client, c, log)) && forall s :: Grounded(log, client, c, SeedOf(client, c, log), s)
    {
      SeedIsGrounded(client, c, log);
    }
  }

  /** Syncing leaves a channel that stays watched where it was; a new one owes nothing from before its seed. */
  lemma SyncedChannels(tail: Tail, active: set<string>, at: Watch, published: nat)
    requires tail.seeds.Keys == tail.positions.Keys == tail.since.Keys && at.Keys == active - tail.positions.Keys
    ensures var after := Synced(tail, active, at, published);
            && after.positions.Keys == active
            && (forall c <- active | c in tail.positions ::
                  after.positions[c] == tail.positions[c] && after.seeds[c] == tail.seeds[c] && after.since[c] == tail.since[c])
            && (forall c <- active | c !in tail.positions ::
                  after.positions[c] == at[c] && after.seeds[c] == at[c] && after.since[c] == published)
  {
  }

  lemma BatchKeeps(log: seq<Row>, published: seq<Row>, tail: Tail, client: Envelope -> bool, calm: bool, page: seq<Row>)
    requires LogGood(log) && Good(log, published, tail, client, calm) && GoodBatch(log, client, tail.positions, page)
    requires calm ==> LeavesNothingOut(log, client, tail.positions, page)
    ensures Good(log, published + page, After(tail, page), client, calm)
  {
    BatchKeepsShape(log, published, tail, client, page);
    BatchKeepsOrder(log, published, tail, client, page);
    if calm {
      BatchKeepsDelivery(log, published, tail, client, page);
    }
  }

  /** Delivery, for one event of a watched channel: between the seed and the position, once and no more. */
  lemma HandedOnExactlyOnce(log: seq<Row>, published: seq<Row>, tail: Tail, client: Envelope -> bool, c: string, row: Row)
    requires Good(log, published, tail, client, true) && c in tail.positions && row in log && OnChannel(client, c, row)
    requires At(tail.seeds[c], row.event.stream) < row.sequence <= At(tail.positions[c], row.event.stream)
    ensures exists i: nat :: IsSince(tail, published, i, c) && published[i] == row
    ensures forall i: nat, j: nat | IsSince(tail, published, i, c) && IsSince(tail, published, j, c)
                                    && published[i] == row && published[j] == row :: i == j
  {
    var late := published[tail.since[c]..];
    assert row in late;
    var k :| 0 <= k < |late| && late[k] == row;
    assert IsSince(tail, published, tail.since[c] + k, c);
  }
}
