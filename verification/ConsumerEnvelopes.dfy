/**
  What the rows of the log say about where they belong. A command row is its
  message; every other row follows from a command row, in that row's transaction,
  stream and session, and goes where that row asked to be answered.
 */
module ConsumerEnvelopes {
  import opened Wrappers
  import opened Events
  import opened ExecutionStore
  import opened WorkerConsumer
  import opened ConsumerInvariant
  import opened NoLostReply
  import opened ConsumerHistory
  import opened ConsumerRuns

  /** A row with a session stands in that session's stream. An empty name is no name. */
  predicate IsPlaced(row: Envelope) {
    && (row.sessionId.Some? ==> row.sessionId.value != "" && row.stream == "session:" + row.sessionId.value)
    && (row.replyChannel.Some? ==> row.replyChannel.value != "")
    && (row.kind.CommandKind? && row.sessionId.None? ==> row.stream == "channel:" + row.channel)
  }

  predicate SameContext(row: Envelope, request: Envelope) {
    row.tx == request.tx && row.stream == request.stream && row.sessionId == request.sessionId
  }

  /** A row that answers a request: what an attempt said or did about it, or how its transaction ended. */
  predicate Answers(id: EventId, row: Envelope, request: Envelope) {
    && !row.kind.CommandKind? && request.kind.CommandKind? && SameContext(row, request)
    && match id
       case Result(tx, stream, channel) =>
         && tx == row.tx && stream == row.stream && channel == row.channel
         && row.kind.ResultKind? && row.action == request.action + ".result"
         && row.channel == request.replyChannel.GetOr("agent.results") && row.replyChannel == Some(row.channel)
       case ProcessingFailed(tx, stream, channel) =>
         && tx == row.tx && stream == row.stream && channel == row.channel
         && row.kind.FailureKind? && row.action == request.action + ".processing.failure"
         && row.channel == request.replyChannel.GetOr("agent.results") && row.replyChannel == Some(row.channel)
       case Conflict(of) =>
         && of == request.id && row.kind.ResultKind? && row.action == request.action + ".conflict"
         && row.payload.Outcome? && row.payload.result.Failed? && row.payload.result.code.IdempotencyConflict?
         && row.channel == request.replyChannel.GetOr(request.channel) && row.replyChannel == request.replyChannel
       case _ =>
         && (row.kind.FactKind? || row.kind.ProgressKind?)
         && row.channel == request.replyChannel.GetOr(request.channel) && row.replyChannel == request.replyChannel
  }

  ghost predicate HasRequest(log: map<EventId, Envelope>, id: EventId)
    requires id in log
  {
    exists r <- log :: IsRequest(r) && Answers(id, log[id], log[r])
  }

  ghost predicate EntryPlaced(log: map<EventId, Envelope>, id: EventId)
    requires id in log
  {
    && IsPlaced(log[id])
    && (if IsRequest(id) then log[id].kind.CommandKind? else HasRequest(log, id))
  }

  ghost predicate LogPlaced(log: map<EventId, Envelope>) {
    forall id <- log :: EntryPlaced(log, id)
  }

  /** A recipient is a command of the log, with the channel it is answered on filled in. */
  predicate StandsFor(recipient: Envelope, request: Envelope) {
    && SameContext(recipient, request) && request.kind.CommandKind? && recipient.action == request.action
    && recipient.replyChannel == Some(request.replyChannel.GetOr("agent.results"))
    && IsPlaced(request)
  }

  ghost predicate RecipientPlaced(log: map<EventId, Envelope>, recipient: Envelope) {
    exists r <- log :: IsRequest(r) && StandsFor(recipient, log[r])
  }

  ghost predicate Placed(s: State) {
    LogPlaced(s.log) && forall key <- s.tables.recipients :: RecipientPlaced(s.log, s.tables.recipients[key])
  }

  /** What an attempt adds to the log is placed. */
  ghost predicate AddsPlaced(log: map<EventId, Envelope>, added: Envelope) {
    && IsPlaced(added)
    && (if IsRequest(added.id) then added.kind.CommandKind?
        else exists r <- log :: IsRequest(r) && Answers(added.id, added, log[r]))
  }

  lemma RecordAddsPlaced(s: State, w: nat)
    requires Basic(s) && Enabled(s, Act(w, Record))
    ensures AddsPlaced(s.log, CommandDraft(s.workers[w].event))
  {
    assert WorkerOk(s.log, s.queue, s.nextMessage, s.workers[w]);
  }

  lemma ConflictAddsPlaced(s: State, w: nat)
    requires Basic(s) && Placed(s) && Enabled(s, Act(w, TellConflict))
    ensures AddsPlaced(s.log, ConflictDraft(s.workers[w].pc.cmd))
  {
    var cmd := s.workers[w].pc.cmd;
    assert WorkerOk(s.log, s.queue, s.nextMessage, s.workers[w]) && EntryPlaced(s.log, cmd.id);
    ConflictAnswers(cmd);
  }

  lemma ConflictAnswers(cmd: Envelope)
    requires IsPlaced(cmd) && cmd.kind.CommandKind?
    ensures var draft := ConflictDraft(cmd);
            draft.id == Conflict(cmd.id) && IsPlaced(draft) && Answers(draft.id, draft, cmd)
  {
  }

  lemma OutcomeAddsPlaced(s: State, key: RecipientKey, payload: ResultPayload)
    requires Basic(s) && Placed(s) && key in s.tables.recipients
    ensures AddsPlaced(s.log, OutcomeDraft(s.tables.recipients[key], payload))
  {
    var recipient := s.tables.recipients[key];
    assert RecipientOk(s.tables, key) && RecipientPlaced(s.log, recipient);
    var r :| r in s.log && IsRequest(r) && StandsFor(recipient, s.log[r]);
    OutcomeAnswers(recipient, s.log[r], payload);
  }

  /** An outcome made out to a recipient answers the command the recipient stands for. */
  lemma OutcomeAnswers(recipient: Envelope, request: Envelope, payload: ResultPayload)
    requires StandsFor(recipient, request)
    ensures var draft := OutcomeDraft(recipient, payload);
            IsOutcome(draft.id) && IsPlaced(draft) && Answers(draft.id, draft, request)
  {
  }

  lemma ObservationAddsPlaced(s: State, w: nat, id: EventId, action: string, text: string, marked: bool)
    requires Basic(s) && Placed(s) && w in s.workers && s.workers[w].pc.Handling? && (id.KeyedFact? || id.Progress?)
    ensures AddsPlaced(s.log, ObservationDraft(s.workers[w].pc.cmd, id, action, text, marked))
  {
    var cmd := s.workers[w].pc.cmd;
    assert WorkerOk(s.log, s.queue, s.nextMessage, s.workers[w]) && EntryPlaced(s.log, cmd.id);
    ObservationAnswers(cmd, id, action, text, marked);
  }

  lemma ObservationAnswers(cmd: Envelope, id: EventId, action: string, text: string, marked: bool)
    requires IsPlaced(cmd) && cmd.kind.CommandKind? && (id.KeyedFact? || id.Progress?)
    ensures var draft := ObservationDraft(cmd, id, action, text, marked);
            draft.id == id && IsPlaced(draft) && Answers(id, draft, cmd)
  {
  }

  /** All that is ever added to the log. */
  function Added(s: State, worker: Worker, action: Action): Option<Envelope>
    requires CanAct(s, worker.pc, action)
  {
    match action
    case Record => Some(CommandDraft(worker.event))
    case TellConflict => Some(ConflictDraft(worker.pc.cmd))
    case Tell(key) => Some(OutcomeDraft(s.tables.recipients[key], worker.pc.payload))
    case Observe(id, act, text, marked) => Some(ObservationDraft(worker.pc.cmd, id, act, text, marked))
    case _ => None
  }

  lemma AppendsAdded(s: State, worker: Worker, action: Action)
    requires CanAct(s, worker.pc, action)
    ensures Perform(s, worker, action).appended == Added(s, worker, action)
  {
  }

  lemma ActionAddsPlaced(s: State, w: nat, action: Action)
    requires Basic(s) && Placed(s) && Enabled(s, Act(w, action))
    ensures var added := Added(s, s.workers[w], action); added.Some? ==> AddsPlaced(s.log, added.value)
  {
    match action
    case Record => RecordAddsPlaced(s, w);
    case TellConflict => ConflictAddsPlaced(s, w);
    case Tell(key) => OutcomeAddsPlaced(s, key, s.workers[w].pc.payload);
    case Observe(id, act, text, marked) => ObservationAddsPlaced(s, w, id, act, text, marked);
    case _ =>
  }

  lemma AppendingKeepsPlaced(log: map<EventId, Envelope>, added: Envelope)
    requires LogPlaced(log) && AddsPlaced(log, added)
    ensures LogPlaced(Append(log, added))
  {
    var grown := Append(log, added);
    forall id <- grown
      ensures EntryPlaced(grown, id)
    {
      if id in log {
        assert EntryPlaced(log, id);
        if !IsRequest(id) {
          var r :| r in log && IsRequest(r) && Answers(id, log[id], log[r]);
          assert Answers(id, grown[id], grown[r]);
        }
      } else if !IsRequest(id) {
        var r :| r in log && IsRequest(r) && Answers(id, added, log[r]);
        assert Answers(id, grown[id], grown[r]);
      }
    }
  }

  lemma RecipientStaysPlaced(log: map<EventId, Envelope>, grown: map<EventId, Envelope>, recipient: Envelope)
    requires RecipientPlaced(log, recipient) && forall id <- log :: id in grown && grown[id] == log[id]
    ensures RecipientPlaced(grown, recipient)
  {
    var r :| r in log && IsRequest(r) && StandsFor(recipient, log[r]);
    assert StandsFor(recipient, grown[r]);
  }

  /** Only an attempt that holds a command of the log becomes a recipient. */
  lemma RegisteredIsPlaced(s: State, w: nat, action: Action, key: RecipientKey)
    requires Basic(s) && Placed(s) && Enabled(s, Act(w, action))
    requires key in Perform(s, s.workers[w], action).tables.recipients
    ensures RecipientPlaced(s.log, Perform(s, s.workers[w], action).tables.recipients[key])
  {
    ActionMoves(s, s.workers[w], action);
    var after := Perform(s, s.workers[w], action).tables.recipients;
    if key !in s.tables.recipients {
      OnlyRegisters(s, w, action, key);
      var cmd := s.workers[w].pc.cmd;
      assert WorkerOk(s.log, s.queue, s.nextMessage, s.workers[w]) && EntryPlaced(s.log, cmd.id);
      assert StandsFor(after[key], s.log[cmd.id]);
    } else {
      assert after[key] == s.tables.recipients[key];
    }
  }

  lemma OnlyRegisters(s: State, w: nat, action: Action, key: RecipientKey)
    requires Enabled(s, Act(w, action)) && key !in s.tables.recipients
    requires key in Perform(s, s.workers[w], action).tables.recipients
    ensures !s.workers[w].pc.Delivered?
    ensures Perform(s, s.workers[w], action).tables.recipients[key] == RecipientOf(s.workers[w].pc.cmd)
  {
  }

  lemma ActionKeepsPlaced(s: State, w: nat, action: Action)
    requires Basic(s) && Placed(s) && Enabled(s, Act(w, action))
    ensures Placed(Apply(s, Act(w, action)))
  {
    var c, s' := Perform(s, s.workers[w], action), Apply(s, Act(w, action));
    AppendsAdded(s, s.workers[w], action);
    ActionAddsPlaced(s, w, action);
    if c.appended.Some? {
      AppendingKeepsPlaced(s.log, c.appended.value);
    }
    forall key <- s'.tables.recipients
      ensures RecipientPlaced(s'.log, s'.tables.recipients[key])
    {
      RegisteredIsPlaced(s, w, action, key);
      RecipientStaysPlaced(s.log, s'.log, s'.tables.recipients[key]);
    }
  }

  /** Every step keeps all rows and all recipients placed. */
  lemma StepKeepsPlaced(s: State, step: Step)
    requires Basic(s) && Placed(s) && Enabled(s, step)
    ensures Placed(Apply(s, step))
  {
    if step.Act? {
      ActionKeepsPlaced(s, step.w, step.action);
    } else {
      assert Apply(s, step).log == s.log && Apply(s, step).tables.recipients == s.tables.recipients;
    }
  }

  lemma {:induction false} PlacedThroughout(run: seq<State>, i: nat)
    requires IsRun(run) && i < |run|
    ensures Placed(run[i])
  {
    if i > 0 {
      PlacedThroughout(run, i - 1);
      Reached(run, i - 1);
      assert Linked(run, i);
      var step := StepOf(run[i - 1], run[i]);
      StepKeepsPlaced(run[i - 1], step);
    }
  }

  /**
    Every row of the log, in every state of every run: with a session it stands in
    that session's stream, and unless it is a command itself it answers one.
   */
  lemma RowsAnswerTheirRequest(run: seq<State>, i: nat, id: EventId)
    requires IsRun(run) && i < |run| && id in run[i].log
    ensures IsPlaced(run[i].log[id])
    ensures run[i].log[id].kind.CommandKind? <==> IsRequest(id)
    ensures !IsRequest(id) ==> exists r <- run[i].log :: IsRequest(r) && Answers(id, run[i].log[id], run[i].log[r])
  {
    PlacedThroughout(run, i);
    assert EntryPlaced(run[i].log, id);
  }

  // ---- a reaction belongs where its fact does ----

  lemma ReactionCommandKeepsContext(s: State, queue: string, fact: EventId)
    requires Basic(s) && Placed(s) && Reaction(queue, fact) in s.log
    ensures fact in s.log
    ensures var f, c := s.log[fact], s.log[Reaction(queue, fact)];
            && c.sessionId == f.sessionId && c.channel == f.channel && c.replyChannel == f.replyChannel
            && c.action == f.action && c.payload == f.payload && c.tx == ReactionTx(queue, fact)
            && (f.sessionId.Some? ==> f.stream == "session:" + f.sessionId.value && c.stream == f.stream)
            && (f.sessionId.None? ==> c.stream == "channel:" + f.channel)
  {
    assert EntryOk(s.log, Reaction(queue, fact)) && EntryPlaced(s.log, Reaction(queue, fact));
    assert EntryPlaced(s.log, fact);
  }

  /** Only the reaction's own command uses its transaction. */
  lemma ReactionTxIsItsOwn(s: State, r: EventId, queue: string, fact: EventId)
    requires Basic(s) && r in s.log && IsRequest(r) && s.log[r].tx == ReactionTx(queue, fact)
    ensures r == Reaction(queue, fact)
  {
    assert EntryOk(s.log, r);
  }

  /**
    A reaction stays in the context of its fact. Its command has the fact's
    session, channel, reply channel and content, and every row logged for it, what
    it said as well as its outcome, has the fact's session, and with one the fact's
    stream, and goes to the fact's reply channel.
   */
  lemma ReactionsKeepTheirSession(run: seq<State>, i: nat, queue: string, fact: EventId, id: EventId)
    requires IsRun(run) && i < |run|
    requires id in run[i].log && run[i].log[id].tx == ReactionTx(queue, fact)
    ensures fact in run[i].log
    ensures var f, row := run[i].log[fact], run[i].log[id];
            && row.sessionId == f.sessionId
            && (f.sessionId.Some? ==>
                  f.sessionId.value != "" && f.stream == "session:" + f.sessionId.value && row.stream == f.stream)
            && (f.sessionId.None? ==> row.stream == "channel:" + f.channel)
            && (IsRequest(id) ==>
                  && id == Reaction(queue, fact) && row.channel == f.channel && row.replyChannel == f.replyChannel
                  && row.action == f.action && row.payload == f.payload)
            && (IsOutcome(id) ==> row.channel == f.replyChannel.GetOr("agent.results"))
            && (!IsRequest(id) && !IsOutcome(id) ==>
                  row.channel == f.replyChannel.GetOr(f.channel) && row.replyChannel == f.replyChannel)
  {
    Reached(run, i);
    PlacedThroughout(run, i);
    var s := run[i];
    assert EntryPlaced(s.log, id);
    var r := id;
    if !IsRequest(id) {
      r :| r in s.log && IsRequest(r) && Answers(id, s.log[id], s.log[r]);
    }
    ReactionTxIsItsOwn(s, r, queue, fact);
    ReactionCommandKeepsContext(s, queue, fact);
    assert EntryPlaced(s.log, fact);
  }

  // ---- where rows come from ----

  /** Field by field, a command row is the message it was made from. */
  predicate IsRecordOf(row: Envelope, event: Ingress) {
    && row.kind.CommandKind? && row.id == event.id && row.tx == event.tx && row.action == event.action
    && row.payload == event.payload && row.channel == event.channel
    && (if event.replyChannel == Some("") then row.replyChannel.None? else row.replyChannel == event.replyChannel)
    && (if event.sessionId.None? || event.sessionId.value == "" then
          row.sessionId.None? && row.stream == "channel:" + event.channel
        else row.sessionId == event.sessionId && row.stream == "session:" + event.sessionId.value)
  }

  /** An attempt, with its lease not known lost, says something. */
  ghost predicate SaidBy(s: State, w: nat, id: EventId, row: Envelope) {
    && w in s.workers && s.workers[w].pc.Handling? && !s.workers[w].pc.leaseLost
    && row.tx == s.workers[w].pc.cmd.tx
    && exists action, text, marked ::
         && Enabled(s, Act(w, Observe(id, action, text, marked)))
         && row.action == action && row.payload == Text(text) && row.kind == if marked then FactKind else ProgressKind
  }

  ghost predicate MadeIn(s: State, w: nat, id: EventId, row: Envelope) {
    && w in s.workers
    && (IsRequest(id) ==> IsRecordOf(row, s.workers[w].event))
    && (id.KeyedFact? || id.Progress? ==> SaidBy(s, w, id, row))
  }

  lemma NewRowWasMade(s: State, step: Step, id: EventId) returns (w: nat)
    requires Basic(s) && Enabled(s, step) && id !in s.log && id in Apply(s, step).log
    ensures MadeIn(s, w, id, Apply(s, step).log[id])
  {
    w := step.w;
    AppendsAdded(s, s.workers[w], step.action);
    var added := Added(s, s.workers[w], step.action);
    assert added.Some? && added.value.id == id && Apply(s, step).log[id] == added.value;
    AddedWasMade(s, w, step.action);
  }

  lemma AddedWasMade(s: State, w: nat, action: Action)
    requires Basic(s) && Enabled(s, Act(w, action)) && Added(s, s.workers[w], action).Some?
    ensures var row := Added(s, s.workers[w], action).value; MadeIn(s, w, row.id, row)
  {
    if action.Record? {
      RecordIsItsMessage(s, w);
    } else if action.Observe? {
      ObservationIsSaid(s, w, action.id, action.action, action.text, action.marked);
    } else {
      OtherIsNeither(s, w, action);
    }
  }

  /** A conflict or an outcome is neither a command nor an observation. */
  lemma OtherIsNeither(s: State, w: nat, action: Action)
    requires Enabled(s, Act(w, action)) && (action.TellConflict? || action.Tell?)
    ensures var id := Added(s, s.workers[w], action).value.id; !IsRequest(id) && !id.KeyedFact? && !id.Progress?
  {
  }

  lemma RecordIsItsMessage(s: State, w: nat)
    requires Basic(s) && w in s.workers
    ensures var row := CommandDraft(s.workers[w].event); IsRequest(row.id) && MadeIn(s, w, row.id, row)
  {
    assert WorkerOk(s.log, s.queue, s.nextMessage, s.workers[w]);
  }

  lemma ObservationIsSaid(s: State, w: nat, id: EventId, action: string, text: string, marked: bool)
    requires Enabled(s, Act(w, Observe(id, action, text, marked)))
    ensures MadeIn(s, w, id, ObservationDraft(s.workers[w].pc.cmd, id, action, text, marked))
  {
    assert SaidBy(s, w, id, ObservationDraft(s.workers[w].pc.cmd, id, action, text, marked));
  }

  /**
    Where a row comes from. A command row is field by field the message somebody
    picked up earlier in the run; an observation is what an attempt said earlier
    in the run, its lease not known lost. Whoever came first is whose row it is.
   */
  lemma {:induction false} RowsWereMade(run: seq<State>, i: nat, id: EventId) returns (j: nat, w: nat)
    requires IsRun(run) && i < |run| && id in run[i].log
    ensures j < i && MadeIn(run[j], w, id, run[i].log[id])
  {
    assert i > 0;
    assert Linked(run, i);
    var step := StepOf(run[i - 1], run[i]);
    if id in run[i - 1].log {
      j, w := RowsWereMade(run, i - 1, id);
      assert run[i].log[id] == run[i - 1].log[id];
    } else {
      Reached(run, i - 1);
      j := i - 1;
      w := NewRowWasMade(run[i - 1], step, id);
    }
  }
}
