/**
  Reading the log forward: rows of some kind past a position in each stream, up
  to a high-water mark, a page at a time.
 */
module LogRead {
  import opened Events
  import opened Sequences
  import opened Sorting
  import E = EventStore

  type Row = E.Row
  type Positions = map<string, nat>

  function At(positions: Positions, stream: string): nat {
    E.Counter(positions, stream)
  }

  /** The highest sequence of a wanted row in each stream that has one. */
  function HighWater(wanted: Row -> bool, log: seq<Row>): (marks: Positions)
    ensures forall k | 0 <= k < |log| && wanted(log[k]) ::
              log[k].event.stream in marks && log[k].sequence <= marks[log[k].event.stream]
    ensures forall stream <- marks :: exists k ::
              0 <= k < |log| && wanted(log[k]) && log[k].event.stream == stream && log[k].sequence == marks[stream]
  {
    if log == [] then map[]
    else
      var before, row := HighWater(wanted, log[..|log| - 1]), log[|log| - 1];
      assert forall k | 0 <= k < |log| - 1 :: log[..|log| - 1][k] == log[k];
      if wanted(row) && At(before, row.event.stream) <= row.sequence
      then before[row.event.stream := row.sequence] else before
  }

  predicate Unread(wanted: Row -> bool, positions: Positions, marks: Positions, row: Row) {
    && wanted(row) && row.event.stream in marks
    && At(positions, row.event.stream) < row.sequence <= marks[row.event.stream]
  }

  function Filter(wanted: Row -> bool, log: seq<Row>, positions: Positions, marks: Positions): (rows: seq<Row>)
    ensures forall row :: row in rows <==> row in log && Unread(wanted, positions, marks, row)
  {
    if log == [] then []
    else
      var rest := Filter(wanted, log[..|log| - 1], positions, marks);
      assert log == log[..|log| - 1] + [log[|log| - 1]];
      if Unread(wanted, positions, marks, log[|log| - 1]) then rest + [log[|log| - 1]] else rest
  }

  predicate StringLeq(a: string, b: string) {
    a == "" || (b != "" && (a[0] < b[0] || (a[0] == b[0] && StringLeq(a[1..], b[1..]))))
  }

  predicate RowLeq(a: Row, b: Row) {
    if a.event.stream == b.event.stream then a.sequence <= b.sequence else StringLeq(a.event.stream, b.event.stream)
  }

  lemma {:induction false} StringsAreOrdered(a: string, b: string, c: string)
    ensures StringLeq(a, a)
    ensures StringLeq(a, b) || StringLeq(b, a)
    ensures StringLeq(a, b) && StringLeq(b, a) ==> a == b
    ensures StringLeq(a, b) && StringLeq(b, c) ==> StringLeq(a, c)
    decreases |a| + |b| + |c|
  {
    if a != "" {
      StringsAreOrdered(a[1..], if b != "" then b[1..] else b, if c != "" then c[1..] else c);
      if b != "" && a[0] == b[0] {
        assert a == [a[0]] + a[1..] && b == [b[0]] + b[1..];
      }
    }
  }

  lemma RowsAreOrdered()
    ensures TotalOrder(RowLeq)
  {
    forall a: Row, b: Row
      ensures RowLeq(a, b) || RowLeq(b, a)
    {
      StringsAreOrdered(a.event.stream, b.event.stream, "");
    }
    forall a: Row, b: Row, c: Row | RowLeq(a, b) && RowLeq(b, c)
      ensures RowLeq(a, c)
    {
      StringsAreOrdered(a.event.stream, b.event.stream, c.event.stream);
      StringsAreOrdered(b.event.stream, a.event.stream, c.event.stream);
      StringsAreOrdered(b.event.stream, c.event.stream, a.event.stream);
    }
  }

  /** One page of unread rows, by stream and sequence, and whether it was the last. */
  function Page(wanted: Row -> bool, log: seq<Row>, positions: Positions, marks: Positions, limit: nat): (seq<Row>, bool) {
    var rows := Sort(RowLeq, Filter(wanted, log, positions, marks));
    if |rows| <= limit then (rows, true) else (rows[..limit], false)
  }

  lemma RowsAreSorted(rows: seq<Row>)
    ensures Sorted(RowLeq, Sort(RowLeq, rows)) && |Sort(RowLeq, rows)| == |rows|
    ensures forall row :: row in Sort(RowLeq, rows) <==> row in rows
  {
    RowsAreOrdered();
    SortSorts(RowLeq, rows);
    SortSameElements(RowLeq, rows);
  }

  /** A page leaves no hole: within a stream, whatever is unread and comes earlier is on it too. */
  lemma PageHasNoHoles(wanted: Row -> bool, log: seq<Row>, positions: Positions, marks: Positions, limit: nat, k: nat, row: Row)
    requires var page := Page(wanted, log, positions, marks, limit).0; k < |page| && row in log
    requires Unread(wanted, positions, marks, row)
    requires var page := Page(wanted, log, positions, marks, limit).0;
             row.event.stream == page[k].event.stream && row.sequence < page[k].sequence
    ensures row in Page(wanted, log, positions, marks, limit).0[..k]
  {
    var rows := Sort(RowLeq, Filter(wanted, log, positions, marks));
    RowsAreSorted(Filter(wanted, log, positions, marks));
    assert row in rows;
    var j :| 0 <= j < |rows| && rows[j] == row;
    assert k < j ==> RowLeq(rows[k], rows[j]);
    assert rows[..k][j] == row;
  }

  /** What a page of unread rows is good for: it is part of the log, past the position, and without holes. */
  ghost predicate GoodPage(wanted: Row -> bool, log: seq<Row>, start: Positions, page: seq<Row>) {
    && (forall row <- page :: row in log && wanted(row) && At(start, row.event.stream) < row.sequence)
    && (forall k, row | 0 <= k < |page| && row in log && wanted(row) && row.event.stream == page[k].event.stream
                        && At(start, row.event.stream) < row.sequence < page[k].sequence
          :: row in page[..k])
  }

  lemma PageIsUnread(wanted: Row -> bool, log: seq<Row>, start: Positions, marks: Positions, limit: nat)
    ensures var (page, complete) := Page(wanted, log, start, marks, limit);
            && (forall row <- page :: row in log && Unread(wanted, start, marks, row))
            && (complete ==> forall row <- log | Unread(wanted, start, marks, row) :: row in page)
            && (!complete ==> |page| == limit)
  {
    RowsAreSorted(Filter(wanted, log, start, marks));
    var rows := Sort(RowLeq, Filter(wanted, log, start, marks));
    assert forall row <- Page(wanted, log, start, marks, limit).0 :: row in rows;
  }

  lemma ReadIsGood(wanted: Row -> bool, log: seq<Row>, start: Positions, marks: Positions, limit: nat)
    ensures var (page, complete) := Page(wanted, log, start, marks, limit);
            && GoodPage(wanted, log, start, page)
            && (complete ==> forall row <- log | Unread(wanted, start, marks, row) :: row in page)
            && (!complete ==> |page| == limit)
  {
    var (page, complete) := Page(wanted, log, start, marks, limit);
    PageIsUnread(wanted, log, start, marks, limit);
    forall k, row | 0 <= k < |page| && row in log && wanted(row) && row.event.stream == page[k].event.stream
                    && At(start, row.event.stream) < row.sequence < page[k].sequence
      ensures row in page[..k]
    {
      assert page[k] in page;
      PageHasNoHoles(wanted, log, start, marks, limit, k, row);
    }
  }

  /** What the append protocol guarantees of the log at any moment. */
  ghost predicate LogGood(log: seq<Row>) {
    E.DenseFrom(log, map[])
  }

  lemma {:induction false} RowIsCounted(log: seq<Row>, k: nat)
    requires E.DenseFrom(log, map[]) && k < |log|
    ensures log[k].sequence <= E.Count(log, log[k].event.stream)
  {
    assert E.DenseAt(log, map[], k);
    E.CountGrows(log, k + 1, |log|, log[k].event.stream);
    assert log[..k + 1][..k] == log[..k] && log[..|log|] == log;
  }

  /** Rows that were not there yet are numbered past everything that was. */
  lemma LateRowIsAbove(before: seq<Row>, log: seq<Row>, k: nat)
    requires before <= log && E.DenseFrom(log, map[]) && |before| <= k < |log|
    ensures log[k].sequence > E.Count(before, log[k].event.stream)
  {
    assert E.DenseAt(log, map[], k);
    E.CountGrows(log, |before|, k, log[k].event.stream);
    assert log[..|before|] == before;
  }

  lemma SequencesDiffer(log: seq<Row>, j: nat, k: nat)
    requires E.DenseFrom(log, map[]) && j < k < |log| && log[j].event.stream == log[k].event.stream
    ensures log[j].sequence < log[k].sequence
  {
    assert E.DenseAt(log, map[], j) && E.DenseAt(log, map[], k);
    E.CountGrows(log, j + 1, k, log[j].event.stream);
    assert log[..j + 1][..j] == log[..j];
  }

  lemma LogRepeatsNothing(log: seq<Row>)
    requires LogGood(log)
    ensures NoDups(log)
  {
    forall i, j | 0 <= i < j < |log|
      ensures log[i] != log[j]
    {
      if log[i].event.stream == log[j].event.stream {
        SequencesDiffer(log, i, j);
      }
    }
  }

  lemma {:induction false} FilterRepeatsNothing(wanted: Row -> bool, log: seq<Row>, positions: Positions, marks: Positions)
    requires NoDups(log)
    ensures NoDups(Filter(wanted, log, positions, marks))
  {
    if log != [] {
      FilterRepeatsNothing(wanted, log[..|log| - 1], positions, marks);
    }
  }

  /** A stream has one row a sequence. */
  lemma OneRowASequence(log: seq<Row>, a: Row, b: Row)
    requires LogGood(log) && a in log && b in log && a.event.stream == b.event.stream && a.sequence == b.sequence
    ensures a == b
  {
    var i :| 0 <= i < |log| && log[i] == a;
    var j :| 0 <= j < |log| && log[j] == b;
    if i < j { SequencesDiffer(log, i, j); } else if j < i { SequencesDiffer(log, j, i); }
  }

  lemma PageRepeatsNothing(wanted: Row -> bool, log: seq<Row>, positions: Positions, marks: Positions, limit: nat)
    requires LogGood(log)
    ensures NoDups(Page(wanted, log, positions, marks, limit).0)
  {
    var filtered := Filter(wanted, log, positions, marks);
    RowsAreOrdered();
    SortSorts(RowLeq, filtered);
    LogRepeatsNothing(log);
    FilterRepeatsNothing(wanted, log, positions, marks);
    NoDupsPermutes(filtered, Sort(RowLeq, filtered));
  }

  /** Within a stream, a page goes up. */
  lemma PageAscends(wanted: Row -> bool, log: seq<Row>, positions: Positions, marks: Positions, limit: nat, j: nat, k: nat)
    requires LogGood(log)
    requires var page := Page(wanted, log, positions, marks, limit).0;
             j < k < |page| && page[j].event.stream == page[k].event.stream
    ensures var page := Page(wanted, log, positions, marks, limit).0; page[j].sequence < page[k].sequence
  {
    var page := Page(wanted, log, positions, marks, limit).0;
    var rows := Sort(RowLeq, Filter(wanted, log, positions, marks));
    RowsAreSorted(Filter(wanted, log, positions, marks));
    PageRepeatsNothing(wanted, log, positions, marks, limit);
    assert page[j] == rows[j] && page[k] == rows[k] && RowLeq(rows[j], rows[k]);
    assert rows[j] in rows && rows[k] in rows;
    if page[j].sequence == page[k].sequence {
      OneRowASequence(log, page[j], page[k]);
    }
  }

  ghost predicate Behind(log: seq<Row>, positions: Positions) {
    forall stream :: At(positions, stream) <= E.Count(log, stream)
  }

  lemma HighWaterIsBehind(wanted: Row -> bool, log: seq<Row>)
    requires LogGood(log)
    ensures Behind(log, HighWater(wanted, log))
  {
    var marks := HighWater(wanted, log);
    forall stream
      ensures At(marks, stream) <= E.Count(log, stream)
    {
      if stream in marks {
        var k :| 0 <= k < |log| && wanted(log[k]) && log[k].event.stream == stream && log[k].sequence == marks[stream];
        RowIsCounted(log, k);
      }
    }
  }
}
