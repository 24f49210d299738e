/**
  What every step of the consumer protocol keeps: facts about single rows,
  single log entries and single attempts. `NoLostReply` builds on them.

  Every action of an attempt is first shown to be `Legal`, which speaks only of
  that attempt and its transaction. That a legal change keeps the invariant is
  then one argument for all actions.
 */
module ConsumerInvariant {
  import opened Wrappers
  import opened Events
  import opened ExecutionStore
  import opened WorkerConsumer

  predicate Registered(pc: Pc) {
    pc.Handling? || pc.Finishing? || pc.Lost? || pc.JoinedRunning? || pc.Settled? || pc.FanOut?
  }

  predicate IsRequest(id: EventId) {
    id.Client? || id.Reaction?
  }

  predicate IsOutcome(id: EventId) {
    id.Result? || id.ProcessingFailed?
  }

  /** A stored command is what its identity says it is: a reaction's is made from the row of its fact. */
  predicate CommandOk(log: map<EventId, Envelope>, cmd: Envelope) {
    match cmd.id
    case Client(_) => cmd.tx.ClientTx?
    case Reaction(queue, fact) => fact in log && cmd == CommandDraft(Work(FactOf(log[fact]), queue))
    case _ => false
  }

  predicate EntryOk(log: map<EventId, Envelope>, id: EventId)
    requires id in log
  {
    log[id].id == id && (IsRequest(id) ==> CommandOk(log, log[id]))
  }

  predicate RowOk(log: map<EventId, Envelope>, issued: set<Attempt>, tx: TxKey, row: Row) {
    && row.request in log && IsRequest(row.request)
    && log[row.request].tx == tx && HashOf(log[row.request]) == row.hash
    && (row.status.Running? <==> row.result.None?)
    && row.attempt in issued
  }

  predicate RecipientOk(t: Tables, key: RecipientKey)
    requires key in t.recipients
  {
    key.tx in t.rows && KeyOf(t.recipients[key]) == key && t.recipients[key].replyChannel.Some?
  }

  predicate WorkerOk(log: map<EventId, Envelope>, queue: map<nat, Ingress>, nextMessage: nat, worker: Worker) {
    && Genuine(log, worker.event) && worker.msg < nextMessage
    && (worker.msg in queue ==> queue[worker.msg] == worker.event)
    && (!worker.pc.Delivered? ==> worker.pc.cmd.id == worker.event.id
                                  && worker.pc.cmd.id in log && log[worker.pc.cmd.id] == worker.pc.cmd)
  }

  ghost predicate PcOk(log: map<EventId, Envelope>, t: Tables, pc: Pc) {
    && (pc.Inserted? || Registered(pc) ==>
          pc.cmd.tx in t.rows && t.rows[pc.cmd.tx].hash == HashOf(pc.cmd))
    && (Registered(pc) ==> KeyOf(pc.cmd) in t.recipients)
    && (pc.RefusedClaim? || pc.ConflictTold? ==>
          pc.cmd.tx in t.rows && t.rows[pc.cmd.tx].hash != HashOf(pc.cmd))
    && (pc.JoinedRunning? ==> t.rows[pc.cmd.tx].request == pc.request)
    && (pc.Settled? || pc.FanOut? ==> t.rows[pc.cmd.tx].result == Some(pc.payload))
    && (pc.FanOut? ==>
          && (forall key <- pc.told :: OutcomeId(key, pc.payload) in log)
          && (forall key <- pc.told + pc.rest :: key.tx == pc.cmd.tx))
  }

  /** An outcome in the log is the stored result of its transaction. */
  predicate OutcomeOk(t: Tables, id: EventId, event: Envelope)
    requires IsOutcome(id)
  {
    && id.tx in t.rows && t.rows[id.tx].result.Some?
    && event.tx == id.tx && event.stream == id.stream && event.channel == id.channel
    && event.payload == Outcome(t.rows[id.tx].result.value)
    && (id.ProcessingFailed? <==> IsPermanent(t.rows[id.tx].result.value))
  }

  ghost predicate QueueOk(s: State) {
    forall m <- s.queue :: m < s.nextMessage && Genuine(s.log, s.queue[m])
  }

  ghost predicate LogOk(s: State) {
    forall id <- s.log :: EntryOk(s.log, id)
  }

  ghost predicate RowsOk(s: State) {
    forall tx <- s.tables.rows :: RowOk(s.log, s.history.issued, tx, s.tables.rows[tx])
  }

  ghost predicate RecipientsOk(s: State) {
    forall key <- s.tables.recipients :: RecipientOk(s.tables, key)
  }

  ghost predicate WorkersOk(s: State) {
    forall w <- s.workers :: WorkerOk(s.log, s.queue, s.nextMessage, s.workers[w])
  }

  ghost predicate PcsOk(s: State) {
    forall w <- s.workers :: PcOk(s.log, s.tables, s.workers[w].pc)
  }

  ghost predicate OutcomesOk(s: State) {
    forall id <- s.log | IsOutcome(id) :: OutcomeOk(s.tables, id, s.log[id])
  }

  ghost predicate Basic(s: State) {
    QueueOk(s) && LogOk(s) && RowsOk(s) && RecipientsOk(s) && WorkersOk(s) && PcsOk(s) && OutcomesOk(s)
  }

  function LogAfter(s: State, c: Change): map<EventId, Envelope> {
    if c.appended.Some? then Append(s.log, c.appended.value) else s.log
  }

  /** The change keeps to its own transaction and leaves that transaction in order. */
  ghost predicate Legal(s: State, worker: Worker, c: Change) {
    var log := LogAfter(s, c);
    && (c.appended.Some? ==>
          && (IsRequest(c.appended.value.id) ==> CommandOk(log, c.appended.value))
          && (IsOutcome(c.appended.value.id) ==>
                OutcomeOk(c.tables, c.appended.value.id, c.appended.value)))
    && (worker.pc.Delivered? ==> c.tables == s.tables)
    && (!worker.pc.Delivered? ==>
          var cmd := worker.pc.cmd;
          && Moves(s.tables, c.tables, cmd.tx)
          && (cmd.tx in c.tables.rows ==> RowOk(log, c.history.issued, cmd.tx, c.tables.rows[cmd.tx]))
          && (forall key <- c.tables.recipients :: key in s.tables.recipients || RecipientOk(c.tables, key)))
    && s.history.issued <= c.history.issued
    && (c.next.Some? ==>
          && PcOk(log, c.tables, c.next.value)
          && WorkerOk(log, s.queue, s.nextMessage, worker.(pc := c.next.value)))
  }

  /** What the invariant says about one attempt and its transaction. */
  ghost predicate Sound(s: State, worker: Worker) {
    && WorkerOk(s.log, s.queue, s.nextMessage, worker)
    && PcOk(s.log, s.tables, worker.pc)
    && (!worker.pc.Delivered? && worker.pc.cmd.tx in s.tables.rows ==>
          RowOk(s.log, s.history.issued, worker.pc.cmd.tx, s.tables.rows[worker.pc.cmd.tx]))
  }

  lemma RecordingIsLegal(s: State, worker: Worker)
    requires Sound(s, worker) && CanAct(s, worker.pc, Record)
    requires worker.event.id in s.log ==> EntryOk(s.log, worker.event.id)
    ensures Legal(s, worker, Perform(s, worker, Record))
  {
  }

  lemma OpeningIsLegal(s: State, worker: Worker, attempt: Attempt)
    requires Sound(s, worker) && CanAct(s, worker.pc, ClaimFresh(attempt))
    ensures Legal(s, worker, Perform(s, worker, ClaimFresh(attempt)))
  {
  }

  lemma RegisteringIsLegal(s: State, worker: Worker)
    requires Sound(s, worker) && CanAct(s, worker.pc, RegisterRecipient)
    ensures Legal(s, worker, Perform(s, worker, RegisterRecipient))
  {
    RegisteringMoves(s.tables, worker.pc.cmd);
  }

  lemma RejoiningIsLegal(s: State, worker: Worker, attempt: Attempt)
    requires Sound(s, worker) && CanAct(s, worker.pc, ClaimAgain(attempt))
    ensures Legal(s, worker, Perform(s, worker, ClaimAgain(attempt)))
  {
    var row := s.tables.rows[worker.pc.cmd.tx];
    if row.hash == HashOf(worker.pc.cmd) && row.status.Running? && LeaseExpired(row, s.now) {
      ReclaimingIsLegal(s, worker, attempt);
    } else {
      JoiningIsLegal(s, worker, attempt);
    }
  }

  lemma ReclaimingIsLegal(s: State, worker: Worker, attempt: Attempt)
    requires Sound(s, worker) && CanAct(s, worker.pc, ClaimAgain(attempt))
    requires var row := s.tables.rows[worker.pc.cmd.tx];
             row.hash == HashOf(worker.pc.cmd) && row.status.Running? && LeaseExpired(row, s.now)
    ensures Legal(s, worker, Perform(s, worker, ClaimAgain(attempt)))
  {
    ClaimingMoves(s.tables, worker.pc.cmd, attempt, s.now, s.cfg.leaseSeconds);
    assert Perform(s, worker, ClaimAgain(attempt)).next.value.Handling?;
  }

  /** Joined or refused, the rows stay. */
  lemma JoiningIsLegal(s: State, worker: Worker, attempt: Attempt)
    requires Sound(s, worker) && CanAct(s, worker.pc, ClaimAgain(attempt))
    requires var row := s.tables.rows[worker.pc.cmd.tx];
             !(row.hash == HashOf(worker.pc.cmd) && row.status.Running? && LeaseExpired(row, s.now))
    ensures Legal(s, worker, Perform(s, worker, ClaimAgain(attempt)))
  {
    ClaimingMoves(s.tables, worker.pc.cmd, attempt, s.now, s.cfg.leaseSeconds);
    assert !Perform(s, worker, ClaimAgain(attempt)).next.value.Handling?;
    assert Perform(s, worker, ClaimAgain(attempt)).tables.rows == s.tables.rows;
  }

  lemma HeartbeatIsLegal(s: State, worker: Worker, answer: Answer)
    requires Sound(s, worker) && CanAct(s, worker.pc, Heartbeat(answer))
    ensures Legal(s, worker, Perform(s, worker, Heartbeat(answer)))
  {
  }

  lemma FencingIsLegal(s: State, worker: Worker, answer: Answer)
    requires Sound(s, worker) && CanAct(s, worker.pc, AskFence(answer))
    ensures Legal(s, worker, Perform(s, worker, AskFence(answer)))
  {
  }

  lemma FinishingIsLegal(s: State, worker: Worker, answer: Answer, message: string)
    requires Sound(s, worker) && CanAct(s, worker.pc, Finish(answer, message))
    ensures Legal(s, worker, Perform(s, worker, Finish(answer, message)))
  {
  }

  lemma GivingUpIsLegal(s: State, worker: Worker, message: string)
    requires Sound(s, worker) && CanAct(s, worker.pc, GiveUp(message))
    ensures Legal(s, worker, Perform(s, worker, GiveUp(message)))
  {
  }

  lemma TellingIsLegal(s: State, worker: Worker, key: RecipientKey)
    requires Sound(s, worker) && CanAct(s, worker.pc, Tell(key))
    requires RecipientOk(s.tables, key)
    ensures Legal(s, worker, Perform(s, worker, Tell(key)))
  {
  }

  lemma HandlingIsLegal(s: State, worker: Worker, action: Action)
    requires Sound(s, worker) && CanAct(s, worker.pc, action)
    requires action.HandlerDone? || action.Spawn? || action.Observe?
    ensures Legal(s, worker, Perform(s, worker, action))
  {
    match action
    case HandlerDone(_) => assert Perform(s, worker, action).tables == s.tables;
    case Spawn => assert Perform(s, worker, action).tables == s.tables;
    case Observe(_, _, _, _) => assert Perform(s, worker, action).next == Some(worker.pc);
  }

  lemma LeavingIsLegal(s: State, worker: Worker, action: Action)
    requires Sound(s, worker) && CanAct(s, worker.pc, action)
    requires action.Crash? || action.DeleteRefused? || action.LeaveJoined? || action.Remove?
    ensures Legal(s, worker, Perform(s, worker, action))
  {
  }

  lemma RefusingIsLegal(s: State, worker: Worker)
    requires Sound(s, worker) && CanAct(s, worker.pc, TellConflict)
    ensures Legal(s, worker, Perform(s, worker, TellConflict))
  {
  }

  lemma ReadingIsLegal(s: State, worker: Worker)
    requires Sound(s, worker) && CanAct(s, worker.pc, ReadRecipients)
    ensures Legal(s, worker, Perform(s, worker, ReadRecipients))
  {
  }

  lemma AttemptIsSound(s: State, w: nat)
    requires Basic(s) && w in s.workers
    ensures Sound(s, s.workers[w])
    ensures s.workers[w].event.id in s.log ==> EntryOk(s.log, s.workers[w].event.id)
  {
  }

  lemma ActionIsLegal(s: State, worker: Worker, action: Action)
    requires Sound(s, worker) && CanAct(s, worker.pc, action)
    requires worker.event.id in s.log ==> EntryOk(s.log, worker.event.id)
    requires action.Tell? ==> RecipientOk(s.tables, action.key)
    ensures Legal(s, worker, Perform(s, worker, action))
  {
    match action
    case Record => RecordingIsLegal(s, worker);
    case ClaimFresh(attempt) => OpeningIsLegal(s, worker, attempt);
    case RegisterRecipient => RegisteringIsLegal(s, worker);
    case ClaimAgain(attempt) => RejoiningIsLegal(s, worker, attempt);
    case Heartbeat(answer) => HeartbeatIsLegal(s, worker, answer);
    case AskFence(answer) => FencingIsLegal(s, worker, answer);
    case Finish(answer, message) => FinishingIsLegal(s, worker, answer, message);
    case GiveUp(message) => GivingUpIsLegal(s, worker, message);
    case Tell(key) => TellingIsLegal(s, worker, key);
    case HandlerDone(_) => HandlingIsLegal(s, worker, action);
    case Spawn => HandlingIsLegal(s, worker, action);
    case Observe(_, _, _, _) => HandlingIsLegal(s, worker, action);
    case TellConflict => RefusingIsLegal(s, worker);
    case ReadRecipients => ReadingIsLegal(s, worker);
    case _ => LeavingIsLegal(s, worker, action);
  }

  /** Other attempts only see the tables move and the log grow. */
  lemma PcStaysOk(log: map<EventId, Envelope>, t: Tables, log': map<EventId, Envelope>, t': Tables, tx: TxKey, pc: Pc)
    requires PcOk(log, t, pc) && log.Keys <= log'.Keys && Moves(t, t', tx)
    requires forall x <- t.rows :: t.rows[x].status.Running? <==> t.rows[x].result.None?
    ensures PcOk(log', t', pc)
  {
  }

  lemma LegalKeepsLog(s: State, w: nat, c: Change)
    requires Basic(s) && w in s.workers && Legal(s, s.workers[w], c)
    ensures LogOk(Commit(s, w, c))
  {
  }

  lemma LegalKeepsRows(s: State, w: nat, c: Change)
    requires Basic(s) && w in s.workers && Legal(s, s.workers[w], c)
    ensures RowsOk(Commit(s, w, c)) && RecipientsOk(Commit(s, w, c))
  {
  }

  lemma LegalKeepsWorkers(s: State, w: nat, c: Change)
    requires Basic(s) && w in s.workers && Legal(s, s.workers[w], c)
    ensures WorkersOk(Commit(s, w, c)) && QueueOk(Commit(s, w, c))
  {
  }

  lemma LegalKeepsPcs(s: State, w: nat, c: Change)
    requires Basic(s) && w in s.workers && Legal(s, s.workers[w], c)
    ensures PcsOk(Commit(s, w, c))
  {
    var worker := s.workers[w];
    var s' := Commit(s, w, c);
    forall v <- s'.workers | v != w
      ensures PcOk(s'.log, s'.tables, s'.workers[v].pc)
    {
      if !worker.pc.Delivered? {
        PcStaysOk(s.log, s.tables, s'.log, s'.tables, worker.pc.cmd.tx, s.workers[v].pc);
      }
    }
  }

  lemma LegalKeepsOutcomes(s: State, w: nat, c: Change)
    requires Basic(s) && w in s.workers && Legal(s, s.workers[w], c)
    ensures OutcomesOk(Commit(s, w, c))
  {
  }

  lemma ActionKeepsBasic(s: State, w: nat, action: Action)
    requires Basic(s) && Enabled(s, Act(w, action))
    ensures Basic(Apply(s, Act(w, action)))
  {
    AttemptIsSound(s, w);
    ActionIsLegal(s, s.workers[w], action);
    var c := Perform(s, s.workers[w], action);
    LegalKeepsLog(s, w, c);
    LegalKeepsRows(s, w, c);
    LegalKeepsWorkers(s, w, c);
    LegalKeepsPcs(s, w, c);
    LegalKeepsOutcomes(s, w, c);
  }

  lemma AbandonKeepsBasic(s: State, tx: TxKey, result: ResultPayload)
    requires Basic(s) && Enabled(s, Abandon(tx, result))
    ensures Basic(Apply(s, Abandon(tx, result)))
  {
    var s' := Apply(s, Abandon(tx, result));
    forall w <- s'.workers
      ensures PcOk(s'.log, s'.tables, s'.workers[w].pc)
    {
      PcStaysOk(s.log, s.tables, s'.log, s'.tables, tx, s.workers[w].pc);
    }
  }

  lemma StepKeepsBasic(s: State, step: Step)
    requires Basic(s) && Enabled(s, step)
    ensures Basic(Apply(s, step))
  {
    match step
    case Act(w, action) => ActionKeepsBasic(s, w, action);
    case Abandon(tx, result) => AbandonKeepsBasic(s, tx, result);
    case _ =>
  }
}
