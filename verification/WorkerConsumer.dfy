/**
  The consumer protocol as a transition system.

  A state holds the log, the claim table, the queue and every attempt to process
  a message that has not ended. A step is one statement against the database, one
  queue operation, or one thing the outside world may do: let time pass, put a
  message on the queue, hand any undeleted message out again, or kill an attempt
  between two steps. Nothing bounds how many attempts run on one message.
 */
module WorkerConsumer {
  import opened Wrappers
  import opened Events
  import opened ExecutionStore

  datatype Stage = NotFenced | Fenced | Spawned

  /** Which `complete` call is being made, and so what its failure leads to. */
  datatype Ending = AfterSuccess | AfterFailure | AfterLoss

  datatype Pc =
    | Delivered
    | Recorded(cmd: Envelope)
    | Inserted(cmd: Envelope, attempt: Attempt)
    | RefusedClaim(cmd: Envelope)
    | ConflictTold(cmd: Envelope)
    | JoinedRunning(cmd: Envelope, request: EventId)
    | Handling(cmd: Envelope, attempt: Attempt, attempts: nat, leaseLost: bool, stage: Stage)
    | Finishing(cmd: Envelope, attempt: Attempt, attempts: nat, payload: ResultPayload, ending: Ending)
    | Lost(cmd: Envelope, attempt: Attempt, attempts: nat)
    | Settled(cmd: Envelope, payload: ResultPayload)
    | FanOut(cmd: Envelope, payload: ResultPayload, told: set<RecipientKey>, rest: set<RecipientKey>)

  datatype Worker = Worker(msg: nat, event: Ingress, pc: Pc)

  datatype Config = Config(leaseSeconds: nat, maxAttempts: nat)

  /**
    What happened, for stating properties of whole runs: attempt ids handed out,
    attempts that claimed each transaction, commands they started, and the
    attempts whose `complete` was accepted.
   */
  datatype History = History(issued: set<Attempt>, claims: map<TxKey, set<Attempt>>,
                             spawns: map<TxKey, multiset<Attempt>>, wins: map<TxKey, seq<Attempt>>)

  datatype State = State(cfg: Config, now: int, log: map<EventId, Envelope>, tables: Tables,
                         queue: map<nat, Ingress>, nextMessage: nat, workers: map<nat, Worker>, history: History)

  datatype Answer = Answered | FailedBefore | FailedAfter

  datatype HandlerEnd = Returned(value: string) | Threw(message: string) | WorkerDied

  /** What one attempt does next. */
  datatype Action =
    | Crash
    | Record
    | ClaimFresh(attempt: Attempt)
    | RegisterRecipient
    | ClaimAgain(attempt: Attempt)
    | TellConflict
    | DeleteRefused
    | LeaveJoined
    | Heartbeat(answer: Answer)
    | AskFence(answer: Answer)
    | Spawn
    | HandlerDone(end: HandlerEnd)
    | Finish(answer: Answer, message: string)
    | GiveUp(message: string)
    | ReadRecipients
    | Tell(key: RecipientKey)
    | Remove
    | Observe(id: EventId, action: string, text: string, marked: bool)

  datatype Step =
    | Tick(seconds: nat)
    | Send(event: Ingress)
    | Deliver(w: nat, msg: nat)
    | Abandon(tx: TxKey, result: ResultPayload)
    | Act(w: nat, action: Action)

  /** The effect of one action: a row for the log, the tables, where the attempt goes, and its message. */
  datatype Change = Change(appended: Option<Envelope>, tables: Tables, next: Option<Pc>, consumes: bool,
                           history: History)

  predicate Init(s: State) {
    && s.log == map[] && s.tables == Tables(map[], map[]) && s.queue == map[] && s.workers == map[]
    && s.history == History({}, map[], map[], map[])
  }

  function ClaimsOf(h: History, tx: TxKey): set<Attempt> {
    if tx in h.claims then h.claims[tx] else {}
  }

  function SpawnsOf(h: History, tx: TxKey): multiset<Attempt> {
    if tx in h.spawns then h.spawns[tx] else multiset{}
  }

  function WinsOf(h: History, tx: TxKey): seq<Attempt> {
    if tx in h.wins then h.wins[tx] else []
  }

  function Goto(s: State, pc: Pc): Change {
    Change(None, s.tables, Some(pc), false, s.history)
  }

  /** The attempt is over and its message stays where it is, to be handed out again. */
  function Drop(s: State): Change {
    Change(None, s.tables, None, false, s.history)
  }

  /** The attempt is over and its message leaves the queue, deleted or archived. */
  function Consume(s: State): Change {
    Change(None, s.tables, None, true, s.history)
  }

  function Claims(h: History, tx: TxKey, attempt: Attempt): History {
    h.(issued := h.issued + {attempt}, claims := h.claims[tx := ClaimsOf(h, tx) + {attempt}])
  }

  /** The outcome event owed to one recipient. */
  function OutcomeId(key: RecipientKey, payload: ResultPayload): EventId {
    if IsPermanent(payload) then ProcessingFailed(key.tx, key.stream, key.channel)
    else Result(key.tx, key.stream, key.channel)
  }

  function OutcomeDraft(recipient: Envelope, payload: ResultPayload): Envelope {
    var key := KeyOf(recipient);
    if IsPermanent(payload) then
      Envelope(OutcomeId(key, payload), FailureKind, recipient.tx, recipient.action + ".processing.failure",
               recipient.stream, ReplyChannelOf(recipient), recipient.replyChannel, recipient.sessionId,
               Outcome(Failed(PermanentFailure, payload.message)))
    else
      Envelope(OutcomeId(key, payload), ResultKind, recipient.tx, recipient.action + ".result",
               recipient.stream, ReplyChannelOf(recipient), recipient.replyChannel, recipient.sessionId, Outcome(payload))
  }

  function ConflictDraft(cmd: Envelope): Envelope {
    Envelope(Conflict(cmd.id), ResultKind, cmd.tx, cmd.action + ".conflict", cmd.stream, ReplyChannelOf(cmd),
             cmd.replyChannel, cmd.sessionId,
             Outcome(Failed(IdempotencyConflict, "transactionKey reused with a different action or payload")))
  }

  /** What an attempt says on the way, a fact if so marked. */
  function ObservationDraft(cmd: Envelope, id: EventId, action: string, text: string, marked: bool): Envelope {
    Envelope(id, if marked then FactKind else ProgressKind, cmd.tx, action, cmd.stream, ReplyChannelOf(cmd), cmd.replyChannel,
             cmd.sessionId, Text(text))
  }

  function AfterClaim(cmd: Envelope, attempt: Attempt, claim: Claim): Pc {
    match claim
    case Claimed(attempts) => Handling(cmd, attempt, attempts, false, NotFenced)
    case Joined(request, completed, result) =>
      if completed
      then Settled(cmd, result.GetOr(Failed(MissingTerminalResult, "completed execution had no result")))
      else JoinedRunning(cmd, request)
    case Refused => RefusedClaim(cmd)
  }

  /** `renew`, whose answer may be lost before or after it took effect. */
  function Renewed(s: State, pc: Pc, answer: Answer): Tables
    requires pc.Handling?
  {
    if answer.FailedBefore? then s.tables else Renew(s.tables, pc.cmd.tx, pc.attempt, s.now, s.cfg.leaseSeconds)
  }

  /** `complete`, whose answer may be lost in the same way. */
  function Finished(s: State, pc: Pc, answer: Answer, next: Option<Pc>): Change
    requires pc.Finishing?
  {
    if Owns(s.tables, pc.cmd.tx, pc.attempt) && !answer.FailedBefore? then
      Change(None, Complete(s.tables, pc.cmd.tx, pc.attempt, pc.payload), next, false,
             s.history.(wins := s.history.wins[pc.cmd.tx := WinsOf(s.history, pc.cmd.tx) + [pc.attempt]]))
    else Change(None, s.tables, next, false, s.history)
  }

  /** Where an attempt goes once its `complete` was accepted, refused, or not answered. */
  function AfterComplete(pc: Pc, accepted: bool, answer: Answer, message: string): Option<Pc>
    requires pc.Finishing?
  {
    if answer.Answered? && accepted then Some(Settled(pc.cmd, pc.payload))
    else if !pc.ending.AfterSuccess? then None
    else if answer.Answered? then Some(Lost(pc.cmd, pc.attempt, pc.attempts))
    else Some(Finishing(pc.cmd, pc.attempt, pc.attempts, Failed(WorkerFailed, message), AfterFailure))
  }

  predicate CanAct(s: State, pc: Pc, action: Action) {
    match action
    case Crash => true
    case Record => pc.Delivered?
    case ClaimFresh(attempt) =>
      pc.Recorded? && attempt !in s.history.issued && pc.cmd.tx !in s.tables.rows
    case RegisterRecipient => pc.Inserted?
    case ClaimAgain(attempt) =>
      pc.Recorded? && attempt !in s.history.issued && pc.cmd.tx in s.tables.rows
    case TellConflict => pc.RefusedClaim?
    case DeleteRefused => pc.ConflictTold?
    case LeaveJoined => pc.JoinedRunning?
    case Heartbeat(_) => pc.Handling?
    case AskFence(_) => pc.Handling? && pc.stage.NotFenced? && !pc.leaseLost
    case Spawn => pc.Handling? && pc.stage.Fenced?
    case HandlerDone(_) => pc.Handling?
    case Finish(_, _) => pc.Finishing?
    case GiveUp(_) => pc.Lost?
    case ReadRecipients => pc.Settled?
    case Tell(key) => pc.FanOut? && key in pc.rest && key in s.tables.recipients
    case Remove => pc.FanOut? && pc.rest == {}
    case Observe(id, _, _, _) => pc.Handling? && (id.KeyedFact? || id.Progress?) && !pc.leaseLost
  }

  function Perform(s: State, worker: Worker, action: Action): Change
    requires CanAct(s, worker.pc, action)
  {
    var pc := worker.pc;
    match action
    case Crash => Drop(s)
    case Record =>
      var draft := CommandDraft(worker.event);
      Goto(s, Recorded(Append(s.log, draft)[draft.id])).(appended := Some(draft))
    case ClaimFresh(attempt) =>
      Goto(s, Inserted(pc.cmd, attempt)).(
        tables := Insert(s.tables, pc.cmd, attempt, s.now, s.cfg.leaseSeconds),
        history := Claims(s.history, pc.cmd.tx, attempt))
    case RegisterRecipient =>
      Goto(s, Handling(pc.cmd, pc.attempt, 1, false, NotFenced)).(tables := AddRecipient(s.tables, pc.cmd))
    case ClaimAgain(attempt) =>
      var (tables, claim) := ClaimExisting(s.tables, pc.cmd, attempt, s.now, s.cfg.leaseSeconds);
      Goto(s, AfterClaim(pc.cmd, attempt, claim)).(
        tables := tables,
        history := if claim.Claimed? then Claims(s.history, pc.cmd.tx, attempt) else s.history)
    case TellConflict => Goto(s, ConflictTold(pc.cmd)).(appended := Some(ConflictDraft(pc.cmd)))
    case DeleteRefused => Consume(s)
    case LeaveJoined => if pc.request != pc.cmd.id then Consume(s) else Drop(s)
    case Heartbeat(answer) =>
      var owned := answer.Answered? && Owns(s.tables, pc.cmd.tx, pc.attempt);
      Goto(s, pc.(leaseLost := pc.leaseLost || !owned)).(tables := Renewed(s, pc, answer))
    case AskFence(answer) =>
      var owned := answer.Answered? && Owns(s.tables, pc.cmd.tx, pc.attempt);
      Goto(s, pc.(leaseLost := !owned, stage := if owned then Fenced else NotFenced)).(
        tables := Renewed(s, pc, answer))
    case Spawn =>
      var spawns := SpawnsOf(s.history, pc.cmd.tx) + multiset{pc.attempt};
      Goto(s, pc.(stage := Spawned)).(history := s.history.(spawns := s.history.spawns[pc.cmd.tx := spawns]))
    case HandlerDone(end) =>
      (match end
       case Returned(value) =>
         if pc.leaseLost then Goto(s, Lost(pc.cmd, pc.attempt, pc.attempts))
         else Goto(s, Finishing(pc.cmd, pc.attempt, pc.attempts, Ok(value), AfterSuccess))
       case Threw(message) =>
         Goto(s, Finishing(pc.cmd, pc.attempt, pc.attempts, Failed(WorkerFailed, message), AfterFailure))
       case WorkerDied => Goto(s, Lost(pc.cmd, pc.attempt, pc.attempts)))
    case Finish(answer, message) =>
      Finished(s, pc, answer, AfterComplete(pc, Owns(s.tables, pc.cmd.tx, pc.attempt), answer, message))
    case GiveUp(message) =>
      if pc.attempts < s.cfg.maxAttempts
      then Drop(s).(tables := Release(s.tables, pc.cmd.tx, pc.attempt, s.now))
      else Goto(s, Finishing(pc.cmd, pc.attempt, pc.attempts, Failed(PermanentFailure, message), AfterLoss))
    case ReadRecipients => Goto(s, FanOut(pc.cmd, pc.payload, {}, RecipientsOf(s.tables, pc.cmd.tx)))
    case Tell(key) =>
      Goto(s, pc.(told := pc.told + {key}, rest := pc.rest - {key})).(
        appended := Some(OutcomeDraft(s.tables.recipients[key], pc.payload)))
    case Remove => Consume(s)
    case Observe(id, action, text, marked) =>
      Goto(s, pc).(appended := Some(ObservationDraft(pc.cmd, id, action, text, marked)))
  }

  function Commit(s: State, w: nat, change: Change): State
    requires w in s.workers
  {
    State(s.cfg, s.now,
          if change.appended.Some? then Append(s.log, change.appended.value) else s.log,
          change.tables,
          if change.consumes then s.queue - {s.workers[w].msg} else s.queue,
          s.nextMessage,
          if change.next.Some? then s.workers[w := s.workers[w].(pc := change.next.value)] else s.workers - {w},
          change.history)
  }

  predicate Enabled(s: State, step: Step) {
    match step
    case Tick(_) => true
    case Send(event) => Genuine(s.log, event)
    case Deliver(w, msg) => w !in s.workers && msg in s.queue
    case Abandon(tx, _) => CanFailExpired(s.tables, tx, s.now)
    case Act(w, action) => w in s.workers && CanAct(s, s.workers[w].pc, action)
  }

  function Apply(s: State, step: Step): State
    requires Enabled(s, step)
  {
    match step
    case Tick(seconds) => s.(now := s.now + seconds)
    case Send(event) => s.(queue := s.queue[s.nextMessage := event], nextMessage := s.nextMessage + 1)
    case Deliver(w, msg) => s.(workers := s.workers[w := Worker(msg, s.queue[msg], Delivered)])
    case Abandon(tx, result) => s.(tables := FailExpired(s.tables, tx, result, s.now))
    case Act(w, action) => Commit(s, w, Perform(s, s.workers[w], action))
  }

  lemma StayingMoves(t: Tables, tx: TxKey)
    ensures Moves(t, t, tx)
  {
  }

  lemma RenewingMoves(t: Tables, tx: TxKey, attempt: Attempt, now: int, lease: nat)
    ensures Moves(t, Renew(t, tx, attempt, now, lease), tx)
  {
    if Owns(t, tx, attempt) {
      SettingARowMoves(t, tx, t.rows[tx].(leaseUntil := Some(now + lease)));
    } else {
      StayingMoves(t, tx);
    }
  }

  lemma CompletingMoves(t: Tables, tx: TxKey, attempt: Attempt, result: ResultPayload)
    ensures Moves(t, Complete(t, tx, attempt, result), tx)
  {
    if Owns(t, tx, attempt) {
      SettingARowMoves(t, tx, t.rows[tx].(status := Completed, result := Some(result), leaseUntil := None));
    } else {
      StayingMoves(t, tx);
    }
  }

  lemma ReleasingMoves(t: Tables, tx: TxKey, attempt: Attempt, now: int)
    ensures Moves(t, Release(t, tx, attempt, now), tx)
  {
    if Owns(t, tx, attempt) {
      SettingARowMoves(t, tx, t.rows[tx].(leaseUntil := Some(now - 1)));
    } else {
      StayingMoves(t, tx);
    }
  }

  /** Whatever an attempt does to the tables, it does to its own transaction. */
  lemma ActionMoves(s: State, worker: Worker, action: Action)
    requires CanAct(s, worker.pc, action)
    ensures worker.pc.Delivered? ==> Perform(s, worker, action).tables == s.tables
    ensures !worker.pc.Delivered? ==> Moves(s.tables, Perform(s, worker, action).tables, worker.pc.cmd.tx)
  {
    if !worker.pc.Delivered? {
      StayingMoves(s.tables, worker.pc.cmd.tx);
    }
    match action
    case ClaimFresh(attempt) =>
      SettingARowMoves(s.tables, worker.pc.cmd.tx,
                       Row(worker.pc.cmd.id, HashOf(worker.pc.cmd), Running, None, attempt, Some(s.now + s.cfg.leaseSeconds), 1));
    case RegisterRecipient => RegisteringMoves(s.tables, worker.pc.cmd);
    case ClaimAgain(attempt) => ClaimingMoves(s.tables, worker.pc.cmd, attempt, s.now, s.cfg.leaseSeconds);
    case Heartbeat(_) => RenewingMoves(s.tables, worker.pc.cmd.tx, worker.pc.attempt, s.now, s.cfg.leaseSeconds);
    case AskFence(_) => RenewingMoves(s.tables, worker.pc.cmd.tx, worker.pc.attempt, s.now, s.cfg.leaseSeconds);
    case Finish(_, _) => CompletingMoves(s.tables, worker.pc.cmd.tx, worker.pc.attempt, worker.pc.payload);
    case GiveUp(_) => ReleasingMoves(s.tables, worker.pc.cmd.tx, worker.pc.attempt, s.now);
    case _ =>
  }

  /** And whatever any step does to them, it leaves what is there in order. */
  lemma StepMoves(s: State, step: Step) returns (tx: TxKey)
    requires Enabled(s, step)
    ensures Apply(s, step).tables == s.tables || Moves(s.tables, Apply(s, step).tables, tx)
  {
    match step
    case Act(w, action) =>
      ActionMoves(s, s.workers[w], action);
      tx := if s.workers[w].pc.Delivered? then s.workers[w].event.tx else s.workers[w].pc.cmd.tx;
    case Abandon(key, result) =>
      tx := key;
      SettingARowMoves(s.tables, key, s.tables.rows[key].(status := Abandoned, result := Some(result), leaseUntil := None));
    case Send(event) => tx := event.tx;
    case Deliver(_, m) => tx := s.queue[m].tx;
    case Tick(_) => tx := ClientTx("");
  }
}
