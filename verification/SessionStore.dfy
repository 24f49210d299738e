/**
  One session's conversation, its iteration latches and its position counter.

  A message has an identity: turn, iteration, role and the call it answers. The
  first write under an identity wins and later ones are skipped, which leaves a
  gap in the ordinals and nothing else.
 */
module SessionStore {
  import opened Wrappers

  datatype Role = User | Assistant | Tool

  /** A call the model asked for; `command` is what its arguments parse to, or empty. */
  datatype ToolCall = ToolCall(id: string, command: string)

  datatype Message = Message(turn: string, iteration: int, role: Role, content: string, calls: seq<ToolCall>,
                             callId: string)

  datatype Identity = Identity(turn: string, iteration: int, role: Role, callId: string)

  datatype Row = Row(ordinal: nat, message: Message)

  function IdentityOf(m: Message): Identity {
    Identity(m.turn, m.iteration, m.role, m.callId)
  }

  predicate Stored(rows: seq<Row>, id: Identity) {
    exists k | 0 <= k < |rows| :: IdentityOf(rows[k].message) == id
  }

  function MaxOrdinal(rows: seq<Row>): (top: nat)
    ensures forall k | 0 <= k < |rows| :: rows[k].ordinal <= top
  {
    if rows == [] then 0
    else
      var before := MaxOrdinal(rows[..|rows| - 1]);
      var last := rows[|rows| - 1].ordinal;
      if last > before then last else before
  }

  function AppendOne(rows: seq<Row>, ordinal: nat, message: Message): seq<Row> {
    if Stored(rows, IdentityOf(message)) then rows else rows + [Row(ordinal, message)]
  }

  /** The messages in order, numbered from `ordinal + 1`, each skipped if it is already there. */
  function AppendAll(rows: seq<Row>, ordinal: nat, messages: seq<Message>): seq<Row>
    decreases |messages|
  {
    if messages == [] then rows
    else
      var n := |messages| - 1;
      AppendOne(AppendAll(rows, ordinal, messages[..n]), ordinal + n + 1, messages[n])
  }

  /** The table is in order: ordinals rise and no identity is stored twice. */
  ghost predicate Ordered(rows: seq<Row>) {
    && (forall j, k | 0 <= j < k < |rows| :: rows[j].ordinal < rows[k].ordinal)
    && (forall j, k | 0 <= j < k < |rows| :: IdentityOf(rows[j].message) != IdentityOf(rows[k].message))
  }

  lemma {:induction false} AppendAllKeepsOrder(rows: seq<Row>, ordinal: nat, messages: seq<Message>)
    requires Ordered(rows) && MaxOrdinal(rows) <= ordinal
    ensures Ordered(AppendAll(rows, ordinal, messages))
    ensures rows <= AppendAll(rows, ordinal, messages)
    ensures forall k | 0 <= k < |AppendAll(rows, ordinal, messages)| ::
              AppendAll(rows, ordinal, messages)[k].ordinal <= ordinal + |messages|
    decreases |messages|
  {
    if messages != [] {
      AppendAllKeepsOrder(rows, ordinal, messages[..|messages| - 1]);
    }
  }

  /** The row under an identity, if there is one. */
  function Lookup(rows: seq<Row>, id: Identity): (found: Option<Message>)
    ensures found.Some? <==> Stored(rows, id)
    ensures found.Some? ==> IdentityOf(found.value) == id
  {
    if rows == [] then None
    else if IdentityOf(rows[|rows| - 1].message) == id then Some(rows[|rows| - 1].message)
    else
      var rest := Lookup(rows[..|rows| - 1], id);
      assert rest.Some? ==> Stored(rows, id) by {
        if rest.Some? {
          var k :| 0 <= k < |rows| - 1 && IdentityOf(rows[..|rows| - 1][k].message) == id;
          assert IdentityOf(rows[k].message) == id;
        }
      }
      assert Stored(rows, id) ==> rest.Some? by {
        if Stored(rows, id) {
          var k :| 0 <= k < |rows| && IdentityOf(rows[k].message) == id;
          assert rows[..|rows| - 1][k] == rows[k];
        }
      }
      rest
  }

  /** First write wins: what is stored under an identity is never replaced. */
  lemma AppendOneLooksUp(rows: seq<Row>, ordinal: nat, message: Message, id: Identity)
    ensures Lookup(AppendOne(rows, ordinal, message), id)
            == if Lookup(rows, id).None? && id == IdentityOf(message) then Some(message) else Lookup(rows, id)
  {
    var grown := AppendOne(rows, ordinal, message);
    if grown != rows {
      assert grown[..|grown| - 1] == rows;
    }
  }

  /** What one iteration asked for: the calls inside its assistant messages, not the messages. */
  function Requested(rows: seq<Row>, turn: string, iteration: int): nat {
    if rows == [] then 0
    else
      var m := rows[|rows| - 1].message;
      Requested(rows[..|rows| - 1], turn, iteration)
      + if m.turn == turn && m.iteration == iteration && m.role == Assistant then |m.calls| else 0
  }

  /** How many answers one iteration has. */
  function Completed(rows: seq<Row>, turn: string, iteration: int): nat {
    if rows == [] then 0
    else
      var m := rows[|rows| - 1].message;
      Completed(rows[..|rows| - 1], turn, iteration)
      + if m.turn == turn && m.iteration == iteration && m.role == Tool then 1 else 0
  }

  class SessionStore {
    var isOpen: bool
    var rows: seq<Row>
    var latches: set<(string, int)>
    var nextSeq: nat

    constructor ()
      ensures !isOpen && rows == [] && latches == {} && nextSeq == 0
    {
      isOpen, rows, latches, nextSeq := false, [], {}, 0;
    }

    ghost predicate Valid()
      reads this
    {
      Ordered(rows)
    }

    /** Appends under the session's lock; a session that was never opened has no lock to take. */
    method AppendMessages(messages: seq<Message>) returns (ok: bool)
      requires Valid()
      modifies this`rows
      ensures Valid()
      ensures ok <==> messages == [] || isOpen
      ensures rows == if ok then AppendAll(old(rows), MaxOrdinal(old(rows)), messages) else old(rows)
    {
      if messages == [] {
        return true;
      }
      if !isOpen {
        return false;
      }
      var top := MaxOrdinal(rows);
      var ordinal := top;
      for i := 0 to |messages|
        invariant ordinal == top + i
        invariant rows == AppendAll(old(rows), top, messages[..i])
      {
        ordinal := ordinal + 1;
        assert messages[..i + 1][..i] == messages[..i];
        if !Stored(rows, IdentityOf(messages[i])) {
          rows := rows + [Row(ordinal, messages[i])];
        }
      }
      assert messages[..|messages|] == messages;
      AppendAllKeepsOrder(old(rows), top, messages);
      return true;
    }

    /** The model's message for one iteration: the newest under it. */
    method LastAssistantMessage(turn: string, iteration: int) returns (found: Option<Message>)
      ensures found.Some? ==>
                exists k | 0 <= k < |rows| ::
                  && rows[k].message == found.value && found.value.turn == turn
                  && found.value.iteration == iteration && found.value.role == Assistant
                  && forall j | k < j < |rows| ::
                       !(rows[j].message.turn == turn && rows[j].message.iteration == iteration
                         && rows[j].message.role == Assistant)
      ensures found.None? ==>
                forall j | 0 <= j < |rows| ::
                  !(rows[j].message.turn == turn && rows[j].message.iteration == iteration
                    && rows[j].message.role == Assistant)
    {
      var k := |rows|;
      while k > 0
        invariant 0 <= k <= |rows|
        invariant forall j | k <= j < |rows| ::
                    !(rows[j].message.turn == turn && rows[j].message.iteration == iteration
                      && rows[j].message.role == Assistant)
      {
        k := k - 1;
        var m := rows[k].message;
        if m.turn == turn && m.iteration == iteration && m.role == Assistant {
          return Some(m);
        }
      }
      return None;
    }

    method ToolProgress(turn: string, iteration: int) returns (requested: nat, completed: nat)
      ensures requested == Requested(rows, turn, iteration)
      ensures completed == Completed(rows, turn, iteration)
    {
      requested, completed := 0, 0;
      for k := 0 to |rows|
        invariant requested == Requested(rows[..k], turn, iteration)
        invariant completed == Completed(rows[..k], turn, iteration)
      {
        var m := rows[k].message;
        assert rows[..k + 1][..k] == rows[..k];
        if m.turn == turn && m.iteration == iteration {
          if m.role == Assistant { requested := requested + |m.calls|; }
          if m.role == Tool { completed := completed + 1; }
        }
      }
      assert rows[..|rows|] == rows;
    }

    /** True for one caller per iteration, whoever asks and however often. */
    method ClaimIterationReady(turn: string, iteration: int) returns (won: bool)
      modifies this`latches
      ensures won <==> (turn, iteration) !in old(latches)
      ensures latches == old(latches) + {(turn, iteration)}
    {
      won := (turn, iteration) !in latches;
      latches := latches + {(turn, iteration)};
    }

    /** A block of positions nobody else is ever given. */
    method AllocateSequence(size: nat) returns (start: nat, ok: bool)
      modifies this`nextSeq
      ensures ok == isOpen
      ensures ok ==> start == old(nextSeq) && nextSeq == old(nextSeq) + (if size < 1 then 1 else size)
      ensures !ok ==> nextSeq == old(nextSeq)
    {
      start, ok := nextSeq, isOpen;
      if isOpen {
        nextSeq := nextSeq + if size < 1 then 1 else size;
      }
    }
  }
}
