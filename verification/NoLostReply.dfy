/**
  No reply is lost: while a transaction runs its source message stays on the
  queue, and every recipient of a finished one has either been told or is
  answered for by a message that cannot be deleted without telling it. Messages
  that joined under another event id are deleted early, and attempts may die
  between any two steps; neither breaks this.
 */
module NoLostReply {
  import opened Wrappers
  import opened Events
  import opened ExecutionStore
  import opened WorkerConsumer
  import opened ConsumerInvariant

  ghost predicate WasTold(s: State, key: RecipientKey)
    requires key.tx in s.tables.rows
  {
    var result := s.tables.rows[key.tx].result;
    result.Some? && OutcomeId(key, result.value) in s.log
  }

  /** An attempt in this position will not delete its message leaving `key` untold. */
  predicate Allows(pc: Pc, key: RecipientKey) {
    && (pc.JoinedRunning? ==> pc.request == pc.cmd.id)
    && (pc.FanOut? ==> key in pc.told + pc.rest)
  }

  /** Message `m` belongs to the transaction of `key`, will be accepted by its claim, and answers for `key`. */
  ghost predicate Covers(s: State, m: nat, key: RecipientKey)
    requires key.tx in s.tables.rows
  {
    && m in s.queue && s.queue[m].id in s.log
    && s.log[s.queue[m].id].tx == key.tx
    && HashOf(s.log[s.queue[m].id]) == s.tables.rows[key.tx].hash
    && (forall w <- s.workers | s.workers[w].msg == m :: Allows(s.workers[w].pc, key))
  }

  ghost predicate HasSource(s: State, tx: TxKey)
    requires tx in s.tables.rows
  {
    exists m <- s.queue :: s.queue[m].id == s.tables.rows[tx].request
  }

  ghost predicate SourceKept(s: State) {
    forall tx <- s.tables.rows | s.tables.rows[tx].status.Running? :: HasSource(s, tx)
  }

  ghost predicate ReplyOwed(s: State, key: RecipientKey)
    requires key.tx in s.tables.rows
  {
    WasTold(s, key) || exists m <- s.queue :: Covers(s, m, key)
  }

  ghost predicate RepliesKept(s: State)
    requires RecipientsOk(s)
  {
    forall key <- s.tables.recipients ::
      RecipientOk(s.tables, key) && (!s.tables.rows[key.tx].status.Running? ==> ReplyOwed(s, key))
  }

  /** A message is only ever deleted by an attempt that got past its claim. */
  predicate GoneOk(s: State, worker: Worker) {
    worker.msg !in s.queue ==>
      && worker.event.id in s.log
      && var cmd := s.log[worker.event.id];
         && cmd.tx in s.tables.rows
         && (s.tables.rows[cmd.tx].hash == HashOf(cmd) ==> KeyOf(cmd) in s.tables.recipients)
  }

  ghost predicate DeletionsOk(s: State) {
    forall w <- s.workers :: GoneOk(s, s.workers[w])
  }

  ghost predicate Inv(s: State) {
    Basic(s) && DeletionsOk(s) && SourceKept(s) && RepliesKept(s)
  }

  /** When a message may go, and what an attempt knows when it reads the claim or the recipients. */
  ghost predicate Careful(s: State, worker: Worker, c: Change) {
    var pc := worker.pc;
    && (c.consumes ==>
          && c.next.None? && c.tables == s.tables && c.appended.None?
          && ((pc.FanOut? && pc.rest == {}) || (pc.JoinedRunning? && pc.request != pc.cmd.id) || pc.ConflictTold?))
    && (c.next.Some? && !pc.Delivered? ==> c.next.value.Delivered? || c.next.value.cmd == pc.cmd)
    && (c.next.Some? && c.next.value.JoinedRunning? ==>
          !pc.Delivered? && pc.cmd.tx in c.tables.rows && c.tables.rows[pc.cmd.tx].status.Running?)
    && (c.next.Some? && c.next.value.FanOut? ==>
          && !pc.Delivered? && c.tables == s.tables
          && c.next.value.told + c.next.value.rest
             == if pc.FanOut? then pc.told + pc.rest else RecipientsOf(s.tables, pc.cmd.tx))
    && (!pc.Delivered? && pc.cmd.tx in c.tables.rows && pc.cmd.tx !in s.tables.rows ==>
          c.tables.rows[pc.cmd.tx].request == pc.cmd.id)
    && (forall key <- c.tables.recipients ::
          key in s.tables.recipients ||
          (&& !pc.Delivered? && !Registered(pc) && key == KeyOf(pc.cmd) && c.next.Some? && !c.consumes
           && key.tx in s.tables.rows && key.tx in c.tables.rows
           && c.tables.rows[key.tx].hash == HashOf(pc.cmd)))
  }

  lemma ClaimsAreCareful(s: State, worker: Worker, action: Action)
    requires Sound(s, worker) && CanAct(s, worker.pc, action)
    requires action.ClaimFresh? || action.RegisterRecipient? || action.ClaimAgain?
    ensures Careful(s, worker, Perform(s, worker, action))
  {
  }

  lemma LeaseUsesAreCareful(s: State, worker: Worker, action: Action)
    requires Sound(s, worker) && CanAct(s, worker.pc, action)
    requires action.Heartbeat? || action.AskFence? || action.Finish? || action.GiveUp?
    ensures Careful(s, worker, Perform(s, worker, action))
  {
  }

  lemma TellingIsCareful(s: State, worker: Worker, key: RecipientKey)
    requires Sound(s, worker) && CanAct(s, worker.pc, Tell(key))
    ensures Careful(s, worker, Perform(s, worker, Tell(key)))
  {
  }

  lemma HandlingIsCareful(s: State, worker: Worker, action: Action)
    requires Sound(s, worker) && CanAct(s, worker.pc, action)
    requires action.Crash? || action.Record? || action.Spawn? || action.HandlerDone? || action.Observe?
    ensures Careful(s, worker, Perform(s, worker, action))
  {
  }

  lemma LeavingIsCareful(s: State, worker: Worker, action: Action)
    requires Sound(s, worker) && CanAct(s, worker.pc, action)
    requires action.TellConflict? || action.DeleteRefused? || action.LeaveJoined? || action.ReadRecipients? || action.Remove?
    ensures Careful(s, worker, Perform(s, worker, action))
  {
  }

  lemma ActionIsCareful(s: State, worker: Worker, action: Action)
    requires Sound(s, worker) && CanAct(s, worker.pc, action)
    ensures Careful(s, worker, Perform(s, worker, action))
  {
    match action
    case ClaimFresh(_) => ClaimsAreCareful(s, worker, action);
    case RegisterRecipient => ClaimsAreCareful(s, worker, action);
    case ClaimAgain(_) => ClaimsAreCareful(s, worker, action);
    case Heartbeat(_) => LeaseUsesAreCareful(s, worker, action);
    case AskFence(_) => LeaseUsesAreCareful(s, worker, action);
    case Finish(_, _) => LeaseUsesAreCareful(s, worker, action);
    case GiveUp(_) => LeaseUsesAreCareful(s, worker, action);
    case Tell(key) => TellingIsCareful(s, worker, key);
    case TellConflict => LeavingIsCareful(s, worker, action);
    case DeleteRefused => LeavingIsCareful(s, worker, action);
    case LeaveJoined => LeavingIsCareful(s, worker, action);
    case ReadRecipients => LeavingIsCareful(s, worker, action);
    case Remove => LeavingIsCareful(s, worker, action);
    case _ => HandlingIsCareful(s, worker, action);
  }

  lemma GoneStaysOk(s: State, s': State, worker: Worker)
    requires GoneOk(s, worker) && (worker.msg !in s'.queue ==> worker.msg !in s.queue)
    requires s.log.Keys <= s'.log.Keys && (forall id <- s.log :: s'.log[id] == s.log[id])
    requires forall x <- s.tables.rows :: x in s'.tables.rows && RowEvolves(s.tables.rows[x], s'.tables.rows[x])
    requires s.tables.recipients.Keys <= s'.tables.recipients.Keys
    ensures GoneOk(s', worker)
  {
  }

  /** Whoever deletes a message has left its recipient registered, for every attempt on that message. */
  lemma DeleterLeavesItOk(s: State, w: nat, c: Change, v: nat)
    requires Basic(s) && w in s.workers && v in s.workers && Careful(s, s.workers[w], c) && c.consumes
    requires s.workers[v].msg == s.workers[w].msg && s.workers[v].msg in s.queue
    ensures GoneOk(Commit(s, w, c), s.workers[v])
  {
    AttemptIsSound(s, w);
    AttemptIsSound(s, v);
  }

  lemma CarefulKeepsDeletions(s: State, w: nat, c: Change)
    requires Inv(s) && w in s.workers && Legal(s, s.workers[w], c) && Careful(s, s.workers[w], c)
    ensures DeletionsOk(Commit(s, w, c))
  {
    var s' := Commit(s, w, c);
    forall v <- s'.workers
      ensures GoneOk(s', s'.workers[v])
    {
      CarefulKeepsGone(s, w, c, v);
      assert s'.workers[v].msg == s.workers[v].msg && s'.workers[v].event == s.workers[v].event;
    }
  }

  lemma CarefulKeepsGone(s: State, w: nat, c: Change, v: nat)
    requires Inv(s) && w in s.workers && Legal(s, s.workers[w], c) && Careful(s, s.workers[w], c) && v in s.workers
    ensures GoneOk(Commit(s, w, c), s.workers[v])
  {
    assert GoneOk(s, s.workers[v]);
    if c.consumes && s.workers[v].msg == s.workers[w].msg && s.workers[v].msg in s.queue {
      DeleterLeavesItOk(s, w, c, v);
    } else {
      RowsEvolve(s, w, c);
      GoneStaysOk(s, Commit(s, w, c), s.workers[v]);
    }
  }

  /** Nobody's row goes, and none takes back what it said. */
  lemma RowsEvolve(s: State, w: nat, c: Change)
    requires w in s.workers && Legal(s, s.workers[w], c)
    ensures forall x <- s.tables.rows :: x in c.tables.rows && RowEvolves(s.tables.rows[x], c.tables.rows[x])
    ensures s.tables.recipients.Keys <= c.tables.recipients.Keys
  {
  }

  /** The message an attempt deletes is not the source of any running transaction. */
  lemma ConsumedIsNoSource(s: State, w: nat, c: Change, tx: TxKey)
    requires Inv(s) && w in s.workers && Careful(s, s.workers[w], c) && c.consumes
    requires tx in s.tables.rows && s.tables.rows[tx].status.Running?
    ensures s.workers[w].event.id != s.tables.rows[tx].request
  {
    AttemptIsSound(s, w);
    assert RowOk(s.log, s.history.issued, tx, s.tables.rows[tx]);
  }

  lemma CarefulKeepsSources(s: State, w: nat, c: Change)
    requires Inv(s) && w in s.workers && Legal(s, s.workers[w], c) && Careful(s, s.workers[w], c)
    ensures SourceKept(Commit(s, w, c))
  {
    var worker := s.workers[w];
    var s' := Commit(s, w, c);
    AttemptIsSound(s, w);
    assert GoneOk(s, worker);
    forall tx <- s'.tables.rows | s'.tables.rows[tx].status.Running?
      ensures HasSource(s', tx)
    {
      if tx in s.tables.rows {
        assert s.tables.rows[tx].status.Running? && s'.tables.rows[tx].request == s.tables.rows[tx].request;
        var m :| m in s.queue && s.queue[m].id == s.tables.rows[tx].request;
        if c.consumes {
          ConsumedIsNoSource(s, w, c, tx);
        }
        assert m in s'.queue && s'.queue[m].id == s'.tables.rows[tx].request;
      } else {
        assert worker.msg in s'.queue && s'.queue[worker.msg].id == s'.tables.rows[tx].request;
      }
    }
  }

  lemma ToldStaysTold(s: State, s': State, key: RecipientKey)
    requires key.tx in s.tables.rows && WasTold(s, key) && s.log.Keys <= s'.log.Keys
    requires key.tx in s'.tables.rows && s'.tables.rows[key.tx].result == s.tables.rows[key.tx].result
    ensures WasTold(s', key)
  {
  }

  /** While a transaction runs, its source message answers for every one of its recipients. */
  lemma SourceCovers(s: State, m: nat, key: RecipientKey)
    requires Basic(s) && key.tx in s.tables.rows && s.tables.rows[key.tx].status.Running?
    requires m in s.queue && s.queue[m].id == s.tables.rows[key.tx].request
    ensures Covers(s, m, key)
  {
    assert RowOk(s.log, s.history.issued, key.tx, s.tables.rows[key.tx]);
    forall w <- s.workers | s.workers[w].msg == m
      ensures Allows(s.workers[w].pc, key)
    {
      AttemptIsSound(s, w);
    }
  }

  /** Attempts on one message claim for one recipient: a newcomer's peers have not got past their claim. */
  lemma PeersAreNotRegistered(s: State, w: nat, v: nat)
    requires Basic(s) && w in s.workers && v in s.workers
    requires !s.workers[w].pc.Delivered? && KeyOf(s.workers[w].pc.cmd) !in s.tables.recipients
    requires s.workers[v].msg == s.workers[w].msg && s.workers[w].msg in s.queue
    ensures !Registered(s.workers[v].pc)
  {
    AttemptIsSound(s, w);
    AttemptIsSound(s, v);
  }

  /** A recipient that joins a finished transaction is answered for by the message it came with. */
  lemma NewcomerIsCovered(s: State, w: nat, c: Change, key: RecipientKey)
    requires Inv(s) && w in s.workers && Legal(s, s.workers[w], c) && Careful(s, s.workers[w], c)
    requires key in c.tables.recipients && key !in s.tables.recipients
    requires key.tx in c.tables.rows && !c.tables.rows[key.tx].status.Running?
    requires !c.consumes && c.next.Some? && HashOf(s.workers[w].pc.cmd) == c.tables.rows[key.tx].hash
    requires key.tx in s.tables.rows
    ensures Covers(Commit(s, w, c), s.workers[w].msg, key)
  {
    var worker := s.workers[w];
    var s' := Commit(s, w, c);
    AttemptIsSound(s, w);
    assert GoneOk(s, worker);
    forall v <- s'.workers | s'.workers[v].msg == worker.msg
      ensures Allows(s'.workers[v].pc, key)
    {
      if v != w {
        PeersAreNotRegistered(s, w, v);
      }
    }
  }

  /** The message goes, and everyone it answered for has been told. */
  lemma DeleterToldThem(s: State, w: nat, c: Change, key: RecipientKey)
    requires Basic(s) && w in s.workers && Careful(s, s.workers[w], c) && c.consumes
    requires key.tx in s.tables.rows && !s.tables.rows[key.tx].status.Running?
    requires Covers(s, s.workers[w].msg, key)
    ensures WasTold(s, key)
  {
    AttemptIsSound(s, w);
    assert Allows(s.workers[w].pc, key);
  }

  lemma CoverSurvives(s: State, w: nat, c: Change, m: nat, key: RecipientKey)
    requires Basic(s) && w in s.workers && Legal(s, s.workers[w], c) && Careful(s, s.workers[w], c)
    requires key in s.tables.recipients && key.tx in s.tables.rows && Covers(s, m, key)
    requires key.tx in c.tables.rows && RowEvolves(s.tables.rows[key.tx], c.tables.rows[key.tx])
    requires !c.tables.rows[key.tx].status.Running? && !(c.consumes && m == s.workers[w].msg)
    ensures Covers(Commit(s, w, c), m, key)
  {
    AttemptIsSound(s, w);
    assert m in Commit(s, w, c).queue;
    AllowedStill(s, w, c, m, key);
  }

  lemma AllowedStill(s: State, w: nat, c: Change, m: nat, key: RecipientKey)
    requires Basic(s) && w in s.workers && Legal(s, s.workers[w], c) && Careful(s, s.workers[w], c)
    requires key in s.tables.recipients && key.tx in s.tables.rows && Covers(s, m, key)
    requires key.tx in c.tables.rows && !c.tables.rows[key.tx].status.Running?
    ensures forall v <- Commit(s, w, c).workers | Commit(s, w, c).workers[v].msg == m :: Allows(Commit(s, w, c).workers[v].pc, key)
  {
    AttemptIsSound(s, w);
    var s' := Commit(s, w, c);
    forall v <- s'.workers | s'.workers[v].msg == m
      ensures Allows(s'.workers[v].pc, key)
    {
      assert Allows(s.workers[v].pc, key);
    }
  }

  lemma SourceOf(s: State, key: RecipientKey) returns (m: nat)
    requires Inv(s) && key in s.tables.recipients && key.tx in s.tables.rows && s.tables.rows[key.tx].status.Running?
    ensures m in s.queue && Covers(s, m, key)
  {
    assert HasSource(s, key.tx);
    m :| m in s.queue && s.queue[m].id == s.tables.rows[key.tx].request;
    SourceCovers(s, m, key);
  }

  lemma CarefulKeepsReply(s: State, w: nat, c: Change, key: RecipientKey)
    requires Inv(s) && w in s.workers && Legal(s, s.workers[w], c) && Careful(s, s.workers[w], c)
    requires key in s.tables.recipients && key.tx in c.tables.rows && !c.tables.rows[key.tx].status.Running?
    ensures ReplyOwed(Commit(s, w, c), key)
  {
    var s' := Commit(s, w, c);
    assert RecipientOk(s.tables, key);
    assert RowEvolves(s.tables.rows[key.tx], c.tables.rows[key.tx]);
    if s.tables.rows[key.tx].status.Running? {
      var m := SourceOf(s, key);
      CoverSurvives(s, w, c, m, key);
    } else if WasTold(s, key) {
      ToldStaysTold(s, s', key);
    } else {
      assert ReplyOwed(s, key);
      var m :| m in s.queue && Covers(s, m, key);
      if c.consumes && m == s.workers[w].msg {
        DeleterToldThem(s, w, c, key);
      } else {
        CoverSurvives(s, w, c, m, key);
      }
    }
  }

  lemma CarefulKeepsReplies(s: State, w: nat, c: Change)
    requires Inv(s) && w in s.workers && Legal(s, s.workers[w], c) && Careful(s, s.workers[w], c)
    requires Basic(Commit(s, w, c))
    ensures RepliesKept(Commit(s, w, c))
  {
    var s' := Commit(s, w, c);
    forall key <- s'.tables.recipients
      ensures RecipientOk(s'.tables, key)
      ensures !s'.tables.rows[key.tx].status.Running? ==> ReplyOwed(s', key)
    {
      assert RecipientOk(s'.tables, key);
      if !s'.tables.rows[key.tx].status.Running? {
        if key in s.tables.recipients {
          CarefulKeepsReply(s, w, c, key);
        } else {
          NewcomerIsCovered(s, w, c, key);
        }
      }
    }
  }

  lemma ActionKeepsInv(s: State, w: nat, action: Action)
    requires Inv(s) && Enabled(s, Act(w, action))
    ensures Inv(Apply(s, Act(w, action)))
  {
    AttemptIsSound(s, w);
    ActionIsLegal(s, s.workers[w], action);
    ActionIsCareful(s, s.workers[w], action);
    var c := Perform(s, s.workers[w], action);
    ActionKeepsBasic(s, w, action);
    CarefulKeepsDeletions(s, w, c);
    CarefulKeepsSources(s, w, c);
    CarefulKeepsReplies(s, w, c);
  }

  lemma CoverOutlivesWorld(s: State, s': State, m: nat, key: RecipientKey)
    requires key.tx in s.tables.rows && Covers(s, m, key)
    requires s'.log == s.log && key.tx in s'.tables.rows && s'.tables.rows[key.tx].hash == s.tables.rows[key.tx].hash
    requires m in s'.queue && s'.queue[m] == s.queue[m]
    requires forall v <- s'.workers ::
               s'.workers[v].pc.Delivered? || (v in s.workers && s'.workers[v] == s.workers[v])
    ensures Covers(s', m, key)
  {
  }

  /** Time passing, a new message, a delivery, or the finalisation of an abandoned transaction. */
  lemma WorldKeepsReplies(s: State, step: Step)
    requires Inv(s) && Enabled(s, step) && !step.Act?
    ensures RepliesKept(Apply(s, step))
  {
    var s' := Apply(s, step);
    StepKeepsBasic(s, step);
    forall key <- s'.tables.recipients
      ensures RecipientOk(s'.tables, key)
      ensures !s'.tables.rows[key.tx].status.Running? ==> ReplyOwed(s', key)
    {
      assert RecipientOk(s.tables, key);
      if !s'.tables.rows[key.tx].status.Running? {
        WorldKeepsReply(s, step, key);
      }
    }
  }

  lemma WorldKeepsReply(s: State, step: Step, key: RecipientKey)
    requires Inv(s) && Enabled(s, step) && !step.Act? && key in s.tables.recipients && key.tx in s.tables.rows
    requires key.tx in Apply(s, step).tables.rows && !Apply(s, step).tables.rows[key.tx].status.Running?
    ensures ReplyOwed(Apply(s, step), key)
  {
    var s' := Apply(s, step);
    WorldOnlyAdds(s, step);
    var m := WorldCover(s, key, step);
    if m < s.nextMessage {
      CoverOutlivesWorld(s, s', m, key);
    } else {
      ToldStaysTold(s, s', key);
    }
  }

  lemma WorldOnlyAdds(s: State, step: Step)
    requires Inv(s) && Enabled(s, step) && !step.Act?
    ensures var s' := Apply(s, step);
            && s'.log == s.log
            && (forall m <- s.queue :: m in s'.queue && s'.queue[m] == s.queue[m])
            && (forall tx <- s.tables.rows :: tx in s'.tables.rows && s'.tables.rows[tx].hash == s.tables.rows[tx].hash)
            && forall v <- s'.workers :: s'.workers[v].pc.Delivered? || (v in s.workers && s'.workers[v] == s.workers[v])
  {
  }

  /** The message answering for `key`, or a number past them all if `key` was told. */
  lemma WorldCover(s: State, key: RecipientKey, step: Step) returns (m: nat)
    requires Inv(s) && Enabled(s, step) && !step.Act? && key in s.tables.recipients && key.tx in s.tables.rows
    requires key.tx in Apply(s, step).tables.rows && !Apply(s, step).tables.rows[key.tx].status.Running?
    ensures m < s.nextMessage ==> Covers(s, m, key)
    ensures m >= s.nextMessage ==>
              WasTold(s, key) && Apply(s, step).tables.rows[key.tx].result == s.tables.rows[key.tx].result
  {
    if s.tables.rows[key.tx].status.Running? {
      m := SourceOf(s, key);
    } else if WasTold(s, key) {
      m := s.nextMessage;
    } else {
      assert ReplyOwed(s, key);
      m :| m in s.queue && Covers(s, m, key);
    }
  }

  lemma WorldKeepsTheRest(s: State, step: Step)
    requires Inv(s) && Enabled(s, step) && !step.Act?
    ensures DeletionsOk(Apply(s, step)) && SourceKept(Apply(s, step))
  {
    var s' := Apply(s, step);
    forall w <- s'.workers
      ensures GoneOk(s', s'.workers[w])
    {
      if w in s.workers {
        assert GoneOk(s, s.workers[w]) && WorkerOk(s.log, s.queue, s.nextMessage, s.workers[w]);
      }
    }
    forall tx <- s'.tables.rows | s'.tables.rows[tx].status.Running?
      ensures HasSource(s', tx)
    {
      assert HasSource(s, tx);
      var m :| m in s.queue && s.queue[m].id == s.tables.rows[tx].request;
      assert m in s'.queue && s'.queue[m].id == s'.tables.rows[tx].request;
    }
  }

  lemma StepKeepsInv(s: State, step: Step)
    requires Inv(s) && Enabled(s, step)
    ensures Inv(Apply(s, step))
  {
    StepKeepsBasic(s, step);
    match step
    case Act(w, action) => ActionKeepsInv(s, w, action);
    case _ =>
      WorldKeepsReplies(s, step);
      WorldKeepsTheRest(s, step);
  }
}
