/**
  What the history of a run says about attempts: each belongs to one claim, at
  most one of a transaction's attempts is ever accepted as its completion, and
  no attempt starts a command twice.
 */
module ConsumerHistory {
  import opened Wrappers
  import opened Events
  import opened ExecutionStore
  import opened WorkerConsumer

  predicate Attempting(pc: Pc) {
    pc.Inserted? || pc.Handling? || pc.Finishing? || pc.Lost?
  }

  predicate MaySpawn(pc: Pc) {
    pc.Inserted? || (pc.Handling? && !pc.stage.Spawned?)
  }

  predicate AttemptOk(h: History, pc: Pc) {
    Attempting(pc) ==>
      && pc.attempt in h.issued && pc.attempt in ClaimsOf(h, pc.cmd.tx)
      && (MaySpawn(pc) ==> SpawnsOf(h, pc.cmd.tx)[pc.attempt] == 0)
  }

  ghost predicate TxOk(h: History, rows: map<TxKey, Row>, tx: TxKey) {
    && ClaimsOf(h, tx) <= h.issued
    && SpawnsOf(h, tx) <= multiset(ClaimsOf(h, tx))
    && (if tx in rows then
          && |ClaimsOf(h, tx)| == rows[tx].attempts && rows[tx].attempt in ClaimsOf(h, tx)
          && |WinsOf(h, tx)| <= (if rows[tx].status.Completed? then 1 else 0)
        else ClaimsOf(h, tx) == {} && WinsOf(h, tx) == [])
  }

  /** Attempts in flight are ordered by who carries them, never shared. */
  ghost predicate AttemptsDistinct(s: State) {
    forall v, w | v in s.workers && w in s.workers && v != w && Attempting(s.workers[v].pc) && Attempting(s.workers[w].pc)
      :: s.workers[v].pc.attempt != s.workers[w].pc.attempt
  }

  ghost predicate HistoryOk(s: State) {
    && (forall w <- s.workers :: AttemptOk(s.history, s.workers[w].pc))
    && (forall tx: TxKey :: TxOk(s.history, s.tables.rows, tx))
    && AttemptsDistinct(s)
  }

  /** How one action may write history. */
  ghost predicate Honest(s: State, worker: Worker, c: Change) {
    var pc := worker.pc;
    && (c.next.Some? && Attempting(c.next.value) ==>
          && !pc.Delivered? && c.next.value.cmd.tx == pc.cmd.tx
          && AttemptOk(c.history, c.next.value)
          && (if Attempting(pc) then c.next.value.attempt == pc.attempt
              else c.next.value.attempt !in s.history.issued))
    && (pc.Delivered? ==> c.history == s.history && c.tables == s.tables)
    && (!pc.Delivered? ==>
          && TxOk(c.history, c.tables.rows, pc.cmd.tx)
          && (forall tx | tx != pc.cmd.tx ::
                && ClaimsOf(c.history, tx) == ClaimsOf(s.history, tx)
                && SpawnsOf(c.history, tx) == SpawnsOf(s.history, tx)
                && WinsOf(c.history, tx) == WinsOf(s.history, tx))
          && ClaimsOf(s.history, pc.cmd.tx) <= ClaimsOf(c.history, pc.cmd.tx)
          && (forall a | a in s.history.issued && !(Attempting(pc) && a == pc.attempt) ::
                SpawnsOf(c.history, pc.cmd.tx)[a] == SpawnsOf(s.history, pc.cmd.tx)[a])
          && Moves(s.tables, c.tables, pc.cmd.tx))
    && s.history.issued <= c.history.issued
  }

  lemma OpeningIsHonest(s: State, worker: Worker, attempt: Attempt)
    requires CanAct(s, worker.pc, ClaimFresh(attempt))
    requires TxOk(s.history, s.tables.rows, worker.pc.cmd.tx)
    ensures Honest(s, worker, Perform(s, worker, ClaimFresh(attempt)))
  {
    ActionMoves(s, worker, ClaimFresh(attempt));
  }

  lemma RegisteringIsHonest(s: State, worker: Worker)
    requires CanAct(s, worker.pc, RegisterRecipient) && AttemptOk(s.history, worker.pc)
    requires TxOk(s.history, s.tables.rows, worker.pc.cmd.tx)
    ensures Honest(s, worker, Perform(s, worker, RegisterRecipient))
  {
    RegisteringMoves(s.tables, worker.pc.cmd);
  }

  lemma RejoiningIsHonest(s: State, worker: Worker, attempt: Attempt)
    requires CanAct(s, worker.pc, ClaimAgain(attempt))
    requires TxOk(s.history, s.tables.rows, worker.pc.cmd.tx)
    ensures Honest(s, worker, Perform(s, worker, ClaimAgain(attempt)))
  {
    var cmd := worker.pc.cmd;
    var row := s.tables.rows[cmd.tx];
    ClaimingMoves(s.tables, cmd, attempt, s.now, s.cfg.leaseSeconds);
    if row.hash == HashOf(cmd) && row.status.Running? && LeaseExpired(row, s.now) {
      ReclaimingIsHonest(s, worker, attempt);
    } else {
      assert Perform(s, worker, ClaimAgain(attempt)).history == s.history;
      assert Perform(s, worker, ClaimAgain(attempt)).tables.rows == s.tables.rows;
    }
  }

  lemma ReclaimingIsHonest(s: State, worker: Worker, attempt: Attempt)
    requires CanAct(s, worker.pc, ClaimAgain(attempt))
    requires TxOk(s.history, s.tables.rows, worker.pc.cmd.tx)
    requires var row := s.tables.rows[worker.pc.cmd.tx];
             row.hash == HashOf(worker.pc.cmd) && row.status.Running? && LeaseExpired(row, s.now)
    ensures Honest(s, worker, Perform(s, worker, ClaimAgain(attempt)))
  {
    ClaimingMoves(s.tables, worker.pc.cmd, attempt, s.now, s.cfg.leaseSeconds);
    var c := Perform(s, worker, ClaimAgain(attempt));
    assert ClaimsOf(c.history, worker.pc.cmd.tx) == ClaimsOf(s.history, worker.pc.cmd.tx) + {attempt};
  }

  lemma LeaseUsesAreHonest(s: State, worker: Worker, action: Action)
    requires CanAct(s, worker.pc, action) && AttemptOk(s.history, worker.pc)
    requires !worker.pc.Delivered? && TxOk(s.history, s.tables.rows, worker.pc.cmd.tx)
    requires action.Heartbeat? || action.AskFence? || action.GiveUp?
    ensures Honest(s, worker, Perform(s, worker, action))
  {
    var c := Perform(s, worker, action);
    ActionMoves(s, worker, action);
    if action.GiveUp? {
      assert c.history == s.history;
    } else if action.Heartbeat? {
      assert c.history == s.history && c.next.value.stage == worker.pc.stage;
    } else {
      assert c.history == s.history && !c.next.value.stage.Spawned?;
    }
  }

  lemma FinishingIsHonest(s: State, worker: Worker, answer: Answer, message: string)
    requires CanAct(s, worker.pc, Finish(answer, message)) && AttemptOk(s.history, worker.pc)
    requires !worker.pc.Delivered? && TxOk(s.history, s.tables.rows, worker.pc.cmd.tx)
    ensures Honest(s, worker, Perform(s, worker, Finish(answer, message)))
  {
    if Owns(s.tables, worker.pc.cmd.tx, worker.pc.attempt) && !answer.FailedBefore? {
      CompletingIsHonest(s, worker, answer, message);
    } else {
      QuietIsHonest(s, worker, Perform(s, worker, Finish(answer, message)));
    }
  }

  /** The one accepted completion of a transaction that was running until now. */
  lemma CompletingIsHonest(s: State, worker: Worker, answer: Answer, message: string)
    requires CanAct(s, worker.pc, Finish(answer, message)) && AttemptOk(s.history, worker.pc)
    requires !worker.pc.Delivered? && TxOk(s.history, s.tables.rows, worker.pc.cmd.tx)
    requires Owns(s.tables, worker.pc.cmd.tx, worker.pc.attempt) && !answer.FailedBefore?
    ensures Honest(s, worker, Perform(s, worker, Finish(answer, message)))
  {
    CompletingMoves(s.tables, worker.pc.cmd.tx, worker.pc.attempt, worker.pc.payload);
  }

  lemma SpawningIsHonest(s: State, worker: Worker)
    requires CanAct(s, worker.pc, Spawn) && AttemptOk(s.history, worker.pc)
    requires !worker.pc.Delivered? && TxOk(s.history, s.tables.rows, worker.pc.cmd.tx)
    ensures Honest(s, worker, Perform(s, worker, Spawn))
  {
  }

  lemma QuietIsHonest(s: State, worker: Worker, c: Change)
    requires c.tables == s.tables && c.history == s.history && AttemptOk(s.history, worker.pc)
    requires !worker.pc.Delivered? ==> TxOk(s.history, s.tables.rows, worker.pc.cmd.tx)
    requires c.next.Some? && Attempting(c.next.value) ==>
               && Attempting(worker.pc) && c.next.value.attempt == worker.pc.attempt
               && c.next.value.cmd == worker.pc.cmd && (MaySpawn(c.next.value) ==> MaySpawn(worker.pc))
    ensures Honest(s, worker, c)
  {
  }

  lemma RestIsHonest(s: State, worker: Worker, action: Action)
    requires CanAct(s, worker.pc, action) && AttemptOk(s.history, worker.pc)
    requires !worker.pc.Delivered? ==> TxOk(s.history, s.tables.rows, worker.pc.cmd.tx)
    requires action.Crash? || action.Record? || action.TellConflict? || action.DeleteRefused? || action.LeaveJoined?
             || action.HandlerDone? || action.ReadRecipients? || action.Tell? || action.Remove? || action.Observe?
    ensures Honest(s, worker, Perform(s, worker, action))
  {
    QuietIsHonest(s, worker, Perform(s, worker, action));
  }

  lemma ActionIsHonest(s: State, worker: Worker, action: Action)
    requires CanAct(s, worker.pc, action) && AttemptOk(s.history, worker.pc)
    requires !worker.pc.Delivered? ==> TxOk(s.history, s.tables.rows, worker.pc.cmd.tx)
    ensures Honest(s, worker, Perform(s, worker, action))
  {
    match action
    case ClaimFresh(attempt) => OpeningIsHonest(s, worker, attempt);
    case RegisterRecipient => RegisteringIsHonest(s, worker);
    case ClaimAgain(attempt) => RejoiningIsHonest(s, worker, attempt);
    case Heartbeat(_) => LeaseUsesAreHonest(s, worker, action);
    case AskFence(_) => LeaseUsesAreHonest(s, worker, action);
    case GiveUp(_) => LeaseUsesAreHonest(s, worker, action);
    case Finish(answer, message) => FinishingIsHonest(s, worker, answer, message);
    case Spawn => SpawningIsHonest(s, worker);
    case _ => RestIsHonest(s, worker, action);
  }

  lemma HonestKeepsHistory(s: State, w: nat, c: Change)
    requires HistoryOk(s) && w in s.workers && Honest(s, s.workers[w], c)
    ensures HistoryOk(Commit(s, w, c))
  {
    var s' := Commit(s, w, c);
    forall tx: TxKey
      ensures TxOk(s'.history, s'.tables.rows, tx)
    {
      assert TxOk(s.history, s.tables.rows, tx);
    }
    forall v <- s'.workers
      ensures AttemptOk(s'.history, s'.workers[v].pc)
    {
      assert AttemptOk(s.history, s.workers[v].pc);
    }
  }

  lemma StepKeepsHistory(s: State, step: Step)
    requires HistoryOk(s) && Enabled(s, step)
    ensures HistoryOk(Apply(s, step))
  {
    match step
    case Act(w, action) =>
      ActionIsHonest(s, s.workers[w], action);
      HonestKeepsHistory(s, w, Perform(s, s.workers[w], action));
    case Abandon(tx, result) =>
      var s' := Apply(s, step);
      forall x: TxKey
        ensures TxOk(s'.history, s'.tables.rows, x)
      {
        assert TxOk(s.history, s.tables.rows, x);
      }
    case _ =>
  }
}
