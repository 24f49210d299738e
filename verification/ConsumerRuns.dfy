/**
  What the consumer protocol guarantees over whole runs, however attempts are
  interleaved, repeated and killed.
 */
module ConsumerRuns {
  import opened Wrappers
  import opened Events
  import opened ExecutionStore
  import opened WorkerConsumer
  import opened ConsumerInvariant
  import opened NoLostReply
  import opened ConsumerHistory

  ghost predicate Next(s: State, s': State) {
    exists step :: Enabled(s, step) && s' == Apply(s, step)
  }

  ghost predicate IsRun(run: seq<State>) {
    && |run| > 0 && Init(run[0])
    && forall i | 0 < i < |run| :: Linked(run, i)
  }

  ghost predicate Linked(run: seq<State>, i: nat)
    requires 0 < i < |run|
  {
    Next(run[i - 1], run[i])
  }

  lemma StepOf(s: State, s': State) returns (step: Step)
    requires Next(s, s')
    ensures Enabled(s, step) && s' == Apply(s, step)
  {
    step :| Enabled(s, step) && s' == Apply(s, step);
  }

  lemma {:induction false} Reached(run: seq<State>, i: nat)
    requires IsRun(run) && i < |run|
    ensures Inv(run[i]) && HistoryOk(run[i])
  {
    if i == 0 {
      assert RecipientsOk(run[0]);
    } else {
      Reached(run, i - 1);
      assert Linked(run, i);
      var step := StepOf(run[i - 1], run[i]);
      StepKeepsInv(run[i - 1], step);
      StepKeepsHistory(run[i - 1], step);
    }
  }

  /**
    No lost reply. A running transaction's source message is still on the queue,
    and every recorded recipient has its terminal event in the log or is answered
    for by an undeleted message of its transaction.
   */
  lemma NoReplyIsLost(run: seq<State>, i: nat)
    requires IsRun(run) && i < |run|
    ensures forall tx <- run[i].tables.rows | run[i].tables.rows[tx].status.Running? ::
              exists m <- run[i].queue :: run[i].queue[m].id == run[i].tables.rows[tx].request
    ensures forall key <- run[i].tables.recipients ::
              key.tx in run[i].tables.rows && (WasTold(run[i], key) || exists m <- run[i].queue :: Covers(run[i], m, key))
  {
    Reached(run, i);
    var s := run[i];
    forall tx <- s.tables.rows | s.tables.rows[tx].status.Running?
      ensures exists m <- s.queue :: s.queue[m].id == s.tables.rows[tx].request
    {
      assert HasSource(s, tx);
    }
    forall key <- s.tables.recipients
      ensures key.tx in s.tables.rows && (WasTold(s, key) || exists m <- s.queue :: Covers(s, m, key))
    {
      assert RecipientOk(s.tables, key);
      if s.tables.rows[key.tx].status.Running? {
        assert HasSource(s, key.tx);
        var m :| m in s.queue && s.queue[m].id == s.tables.rows[key.tx].request;
        SourceCovers(s, m, key);
      } else {
        assert ReplyOwed(s, key);
      }
    }
  }

  /** An attempt on `m` holding its command, about to claim a finished transaction. */
  ghost predicate AboutToClaim(s: State, w: nat, key: RecipientKey) {
    && key in s.tables.recipients && key.tx in s.tables.rows && RecipientOk(s.tables, key)
    && s.tables.rows[key.tx].result.Some? && !s.tables.rows[key.tx].status.Running?
    && w in s.workers && s.workers[w].pc.Recorded? && s.workers[w].pc.cmd.tx == key.tx
    && HashOf(s.workers[w].pc.cmd) == s.tables.rows[key.tx].hash
  }

  lemma TakingMessage(s: State, m: nat, key: RecipientKey, w: nat) returns (s1: State, s2: State)
    requires Inv(s) && key in s.tables.recipients && key.tx in s.tables.rows
    requires !s.tables.rows[key.tx].status.Running? && Covers(s, m, key) && w !in s.workers
    ensures Next(s, s1) && Next(s1, s2) && AboutToClaim(s2, w, key) && s2.history == s.history
  {
    assert RecipientOk(s.tables, key);
    assert RowOk(s.log, s.history.issued, key.tx, s.tables.rows[key.tx]);
    s1 := Apply(s, Deliver(w, m));
    s2 := Recording(s1, w);
  }

  lemma Recording(s: State, w: nat) returns (t: State)
    requires w in s.workers && s.workers[w].pc.Delivered?
    ensures Next(s, t) && t.tables == s.tables && t.history == s.history && w in t.workers
    ensures var draft := CommandDraft(s.workers[w].event);
            t.workers[w].pc == Recorded(Append(s.log, draft)[draft.id])
  {
    t := Apply(s, Act(w, Record));
  }

  lemma JoiningFinished(s: State, key: RecipientKey, w: nat, attempt: Attempt) returns (s1: State, s2: State)
    requires AboutToClaim(s, w, key) && attempt !in s.history.issued
    ensures Next(s, s1) && Next(s1, s2)
    ensures key in s2.tables.recipients && key.tx in s2.tables.rows && RecipientOk(s2.tables, key)
    ensures w in s2.workers && s2.workers[w].pc.FanOut? && key in s2.workers[w].pc.rest
    ensures s2.tables.rows[key.tx].result == Some(s2.workers[w].pc.payload)
  {
    s1 := Apply(s, Act(w, ClaimAgain(attempt)));
    assert s1.workers[w].pc == Settled(s.workers[w].pc.cmd, s.tables.rows[key.tx].result.value);
    s2 := Apply(s1, Act(w, ReadRecipients));
  }

  lemma TellingTells(s: State, key: RecipientKey, w: nat) returns (s1: State)
    requires key in s.tables.recipients && key.tx in s.tables.rows && RecipientOk(s.tables, key)
    requires w in s.workers && s.workers[w].pc.FanOut? && key in s.workers[w].pc.rest
    requires s.tables.rows[key.tx].result == Some(s.workers[w].pc.payload)
    ensures Next(s, s1) && key.tx in s1.tables.rows && WasTold(s1, key)
  {
    s1 := Apply(s, Act(w, Tell(key)));
  }

  /**
    What answering for a recipient is worth: once its transaction is finished, an
    attempt that takes the message and is left alone tells that recipient.
   */
  lemma CoveringMessageTells(s: State, m: nat, key: RecipientKey, w: nat, attempt: Attempt) returns (rest: seq<State>)
    requires Inv(s) && key in s.tables.recipients && key.tx in s.tables.rows
    requires !s.tables.rows[key.tx].status.Running? && Covers(s, m, key)
    requires w !in s.workers && attempt !in s.history.issued
    ensures |rest| == 5 && Next(s, rest[0]) && forall i | 0 < i < 5 :: Next(rest[i - 1], rest[i])
    ensures key.tx in rest[4].tables.rows && WasTold(rest[4], key)
  {
    var s1, s2 := TakingMessage(s, m, key, w);
    var s3, s4 := JoiningFinished(s2, key, w, attempt);
    var s5 := TellingTells(s4, key, w);
    rest := [s1, s2, s3, s4, s5];
  }

  lemma StepKeepsVerdict(s: State, step: Step, tx: TxKey)
    requires Enabled(s, step) && tx in s.tables.rows && !s.tables.rows[tx].status.Running?
    ensures tx in Apply(s, step).tables.rows && Apply(s, step).tables.rows[tx] == s.tables.rows[tx]
  {
    var moved := StepMoves(s, step);
    assert RowEvolves(s.tables.rows[tx], Apply(s, step).tables.rows[tx]);
  }

  lemma NextKeepsVerdict(s: State, s': State, tx: TxKey)
    requires Next(s, s') && tx in s.tables.rows && !s.tables.rows[tx].status.Running?
    ensures tx in s'.tables.rows && s'.tables.rows[tx] == s.tables.rows[tx]
  {
    var step := StepOf(s, s');
    StepKeepsVerdict(s, step, tx);
  }

  ghost predicate VerdictsKept(s: State, s': State, tx: TxKey) {
    tx in s.tables.rows && !s.tables.rows[tx].status.Running? ==>
      tx in s'.tables.rows && s'.tables.rows[tx] == s.tables.rows[tx]
  }

  lemma {:induction false} KeptThroughout(run: seq<State>, i: nat, j: nat, tx: TxKey)
    requires i <= j < |run| && forall k | 0 < k < |run| :: VerdictsKept(run[k - 1], run[k], tx)
    requires tx in run[i].tables.rows && !run[i].tables.rows[tx].status.Running?
    ensures tx in run[j].tables.rows && run[j].tables.rows[tx] == run[i].tables.rows[tx]
    decreases j
  {
    if i < j {
      KeptThroughout(run, i, j - 1, tx);
      assert VerdictsKept(run[j - 1], run[j], tx);
    }
  }

  /** One outcome: a transaction's verdict, once given, is its verdict for the rest of the run. */
  lemma VerdictIsForEver(run: seq<State>, i: nat, j: nat, tx: TxKey)
    requires IsRun(run) && i <= j < |run| && tx in run[i].tables.rows && !run[i].tables.rows[tx].status.Running?
    ensures tx in run[j].tables.rows && run[j].tables.rows[tx] == run[i].tables.rows[tx]
  {
    forall k | 0 < k < |run|
      ensures VerdictsKept(run[k - 1], run[k], tx)
    {
      assert Linked(run, k);
      if tx in run[k - 1].tables.rows && !run[k - 1].tables.rows[tx].status.Running? {
        NextKeepsVerdict(run[k - 1], run[k], tx);
      }
    }
    KeptThroughout(run, i, j, tx);
  }

  /** At most one attempt of a transaction is ever accepted as its completion. */
  lemma OneCompletion(run: seq<State>, i: nat, tx: TxKey)
    requires IsRun(run) && i < |run|
    ensures |WinsOf(run[i].history, tx)| <= 1
  {
    Reached(run, i);
    assert TxOk(run[i].history, run[i].tables.rows, tx);
  }

  /**
    Any two terminal events ever logged for a transaction, by whichever attempt
    and for whichever recipients, carry the same payload; and a recipient never
    gets both kinds.
   */
  lemma OutcomesAgree(run: seq<State>, i: nat, a: EventId, b: EventId)
    requires IsRun(run) && i < |run| && a in run[i].log && b in run[i].log
    requires IsOutcome(a) && IsOutcome(b) && a.tx == b.tx
    ensures run[i].log[a].payload == run[i].log[b].payload
    ensures a.stream == b.stream && a.channel == b.channel ==> a == b
    ensures a.tx in run[i].tables.rows && run[i].log[a].payload.Outcome?
            && run[i].tables.rows[a.tx].result == Some(run[i].log[a].payload.result)
  {
    Reached(run, i);
    assert OutcomeOk(run[i].tables, a, run[i].log[a]);
    assert OutcomeOk(run[i].tables, b, run[i].log[b]);
  }

  ghost predicate Stale(s: State, tx: TxKey, attempt: Attempt) {
    attempt in s.history.issued && !Owns(s.tables, tx, attempt)
  }

  lemma ClaimKeepsStale(s: State, worker: Worker, action: Action, tx: TxKey, attempt: Attempt)
    requires CanAct(s, worker.pc, action) && (action.ClaimFresh? || action.ClaimAgain?) && Stale(s, tx, attempt)
    ensures var c := Perform(s, worker, action); attempt in c.history.issued && !Owns(c.tables, tx, attempt)
  {
  }

  lemma OtherActionKeepsStale(s: State, worker: Worker, action: Action, tx: TxKey, attempt: Attempt)
    requires CanAct(s, worker.pc, action) && !action.ClaimFresh? && !action.ClaimAgain? && Stale(s, tx, attempt)
    ensures var c := Perform(s, worker, action); attempt in c.history.issued && !Owns(c.tables, tx, attempt)
  {
  }

  lemma NextKeepsStale(s: State, s': State, tx: TxKey, attempt: Attempt)
    requires Next(s, s') && Stale(s, tx, attempt)
    ensures Stale(s', tx, attempt)
  {
    var step := StepOf(s, s');
    if step.Act? {
      if step.action.ClaimFresh? || step.action.ClaimAgain? {
        ClaimKeepsStale(s, s.workers[step.w], step.action, tx, attempt);
      } else {
        OtherActionKeepsStale(s, s.workers[step.w], step.action, tx, attempt);
      }
    }
  }

  lemma LinkKeepsStale(run: seq<State>, j: nat, tx: TxKey, attempt: Attempt)
    requires IsRun(run) && 0 < j < |run| && Stale(run[j - 1], tx, attempt)
    ensures Stale(run[j], tx, attempt)
  {
    assert Linked(run, j);
    NextKeepsStale(run[j - 1], run[j], tx, attempt);
  }

  /**
    Stale attempts are fenced. Once superseded, or once its transaction is
    finished, an attempt's `renew`, `release` and `complete` change nothing ever again.
   */
  lemma {:induction false} StaleForEver(run: seq<State>, i: nat, j: nat, tx: TxKey, attempt: Attempt)
    requires IsRun(run) && i <= j < |run| && Stale(run[i], tx, attempt)
    ensures Stale(run[j], tx, attempt)
    decreases j
  {
    if i < j {
      StaleForEver(run, i, j - 1, tx, attempt);
      LinkKeepsStale(run, j, tx, attempt);
    }
  }

  lemma StaleAttemptsAreFenced(run: seq<State>, i: nat, j: nat, tx: TxKey, attempt: Attempt, now: int, lease: nat,
                               result: ResultPayload)
    requires IsRun(run) && i <= j < |run| && Stale(run[i], tx, attempt)
    ensures Renew(run[j].tables, tx, attempt, now, lease) == run[j].tables
    ensures Release(run[j].tables, tx, attempt, now) == run[j].tables
    ensures Complete(run[j].tables, tx, attempt, result) == run[j].tables
  {
    StaleForEver(run, i, j, tx, attempt);
  }

  /** A stale attempt asking its fence is told no. */
  lemma StaleFenceIsRefused(s: State, w: nat, answer: Answer)
    requires Enabled(s, Act(w, AskFence(answer)))
    requires Stale(s, s.workers[w].pc.cmd.tx, s.workers[w].pc.attempt)
    ensures var pc := Apply(s, Act(w, AskFence(answer))).workers[w].pc;
            pc.Handling? && pc.leaseLost && !pc.stage.Fenced?
  {
  }

  /** An attempt that was told its lease is lost: it adds no observation, passes no fence and ends in no success. */
  predicate IsSilent(pc: Pc) {
    && !pc.Inserted?
    && (pc.Handling? ==> pc.leaseLost)
    && (pc.Finishing? ==> !pc.ending.AfterSuccess?)
  }

  ghost predicate Silenced(s: State, a: Attempt) {
    a in s.history.issued
    && forall v <- s.workers | Attempting(s.workers[v].pc) && s.workers[v].pc.attempt == a :: IsSilent(s.workers[v].pc)
  }

  lemma OwnStepKeepsSilent(s: State, w: nat, action: Action, a: Attempt)
    requires Enabled(s, Act(w, action)) && Silenced(s, a)
    ensures var next := Perform(s, s.workers[w], action).next;
            next.Some? && Attempting(next.value) && next.value.attempt == a ==> IsSilent(next.value)
  {
    var next := Perform(s, s.workers[w], action).next;
    if next.Some? && Attempting(next.value) && next.value.attempt == a {
      HandlingWasHandling(s, w, action, a);
      assert IsSilent(s.workers[w].pc);
    }
  }

  lemma NextKeepsSilenced(s: State, s': State, a: Attempt)
    requires Next(s, s') && Silenced(s, a)
    ensures Silenced(s', a)
  {
    var step := StepOf(s, s');
    if step.Act? {
      HistoryGrows(s, step.w, step.action);
      OwnStepKeepsSilent(s, step.w, step.action, a);
    }
  }

  lemma {:induction false} SilencedForEver(run: seq<State>, i: nat, j: nat, a: Attempt)
    requires IsRun(run) && i <= j < |run| && Silenced(run[i], a)
    ensures Silenced(run[j], a)
    decreases j
  {
    if i < j {
      SilencedForEver(run, i, j - 1, a);
      assert Linked(run, j);
      NextKeepsSilenced(run[j - 1], run[j], a);
    }
  }

  /** Without a yes, the heartbeat is what silences: nobody else carries the attempt. */
  lemma HeartbeatSilences(s: State, w: nat, answer: Answer)
    requires HistoryOk(s) && Enabled(s, Act(w, Heartbeat(answer)))
    requires !answer.Answered? || !Owns(s.tables, s.workers[w].pc.cmd.tx, s.workers[w].pc.attempt)
    ensures Silenced(Apply(s, Act(w, Heartbeat(answer))), s.workers[w].pc.attempt)
  {
    assert AttemptOk(s.history, s.workers[w].pc);
  }

  /**
    A superseded attempt falls silent. Once its heartbeat got anything but a yes,
    as it does when the attempt is stale, it never again adds an observation to
    the log, passes a fence, or goes on to complete with a success.
   */
  lemma RefusedHeartbeatSilences(run: seq<State>, i: nat, j: nat, w: nat, answer: Answer, v: nat, action: Action)
    requires IsRun(run) && i < j < |run|
    requires Enabled(run[i], Act(w, Heartbeat(answer))) && run[i + 1] == Apply(run[i], Act(w, Heartbeat(answer)))
    requires !answer.Answered? || Stale(run[i], run[i].workers[w].pc.cmd.tx, run[i].workers[w].pc.attempt)
    requires Enabled(run[j], Act(v, action)) && Attempting(run[j].workers[v].pc)
    requires run[j].workers[v].pc.attempt == run[i].workers[w].pc.attempt
    ensures !(run[j].workers[v].pc.Finishing? && run[j].workers[v].pc.ending.AfterSuccess?)
    ensures !action.Observe? && !action.AskFence?
    ensures var after := Apply(run[j], Act(v, action)).workers;
            v in after ==> !(after[v].pc.Finishing? && after[v].pc.ending.AfterSuccess?)
  {
    var a := run[i].workers[w].pc.attempt;
    Reached(run, i);
    HeartbeatSilences(run[i], w, answer);
    SilencedForEver(run, i + 1, j, a);
    OwnStepKeepsSilent(run[j], v, action, a);
    SuccessIsSuccess(run[j], v, action);
  }

  /** Whoever completes with a success was handling or completing just before, in the same attempt. */
  lemma SuccessIsSuccess(s: State, v: nat, action: Action)
    requires Enabled(s, Act(v, action)) && Attempting(s.workers[v].pc)
    ensures var next := Perform(s, s.workers[v], action).next;
            next.Some? && next.value.Finishing? ==> next.value.attempt == s.workers[v].pc.attempt
  {
  }

  lemma SubmultisetIsNoLarger(a: multiset<Attempt>, b: multiset<Attempt>)
    requires a <= b
    ensures |a| <= |b|
  {
    assert b == a + (b - a);
  }

  /** Commands started for a call never exceed its claims, and no attempt starts two. */
  lemma CommandsNeverExceedClaims(run: seq<State>, i: nat, tx: TxKey)
    requires IsRun(run) && i < |run|
    ensures |SpawnsOf(run[i].history, tx)| <= if tx in run[i].tables.rows then run[i].tables.rows[tx].attempts else 0
    ensures forall a: Attempt :: SpawnsOf(run[i].history, tx)[a] <= 1
  {
    Reached(run, i);
    var h := run[i].history;
    assert TxOk(h, run[i].tables.rows, tx);
    SubmultisetIsNoLarger(SpawnsOf(h, tx), multiset(ClaimsOf(h, tx)));
  }

  /** `w` runs attempt `a`, by its claim or behind a fence it passed, with a lease good until `until`. */
  ghost predicate Guarded(s: State, w: nat, a: Attempt, tx: TxKey, until: int) {
    && until <= s.now + s.cfg.leaseSeconds && a in s.history.issued
    && (w in s.workers && IsAtWork(s.workers[w].pc) && s.workers[w].pc.attempt == a && s.now <= until ==>
          s.workers[w].pc.cmd.tx == tx && HoldsLease(s.tables, tx, a, until))
  }

  /** From its claim until its handler is done. */
  predicate IsAtWork(pc: Pc) {
    pc.Inserted? || pc.Handling?
  }

  ghost predicate HoldsLease(t: Tables, tx: TxKey, a: Attempt, until: int) {
    Owns(t, tx, a) && t.rows[tx].leaseUntil.Some? && t.rows[tx].leaseUntil.value >= until
  }

  /** Nobody but `w` can give the lease up, and nobody can take it before it has run out. */
  lemma OthersRespectLease(s: State, v: nat, action: Action, a: Attempt, tx: TxKey, until: int)
    requires v in s.workers && CanAct(s, s.workers[v].pc, action)
    requires HoldsLease(s.tables, tx, a, until) && s.now <= until <= s.now + s.cfg.leaseSeconds
    requires a in s.history.issued
    requires Attempting(s.workers[v].pc) ==> s.workers[v].pc.attempt != a
    ensures HoldsLease(Perform(s, s.workers[v], action).tables, tx, a, until)
  {
    var c := Perform(s, s.workers[v], action);
    ActionMoves(s, s.workers[v], action);
    if !s.workers[v].pc.Delivered? && s.workers[v].pc.cmd.tx == tx {
      OwnerKeepsRow(s, v, action, a, tx);
    }
  }

  /** A claim finds the lease still good, and a use of it by another attempt is refused. */
  lemma OwnerKeepsRow(s: State, v: nat, action: Action, a: Attempt, tx: TxKey)
    requires v in s.workers && CanAct(s, s.workers[v].pc, action) && !s.workers[v].pc.Delivered?
    requires s.workers[v].pc.cmd.tx == tx && Owns(s.tables, tx, a) && !LeaseExpired(s.tables.rows[tx], s.now)
    requires Attempting(s.workers[v].pc) ==> s.workers[v].pc.attempt != a
    ensures tx in Perform(s, s.workers[v], action).tables.rows
    ensures Perform(s, s.workers[v], action).tables.rows[tx] == s.tables.rows[tx]
  {
  }

  lemma OwnerKeepsLease(s: State, w: nat, action: Action, a: Attempt, tx: TxKey, until: int)
    requires w in s.workers && CanAct(s, s.workers[w].pc, action) && IsAtWork(s.workers[w].pc)
    requires s.workers[w].pc.attempt == a && s.workers[w].pc.cmd.tx == tx
    requires HoldsLease(s.tables, tx, a, until) && s.now <= until <= s.now + s.cfg.leaseSeconds
    ensures HoldsLease(Perform(s, s.workers[w], action).tables, tx, a, until)
    ensures var next := Perform(s, s.workers[w], action).next;
            next.Some? && IsAtWork(next.value) ==> next.value.cmd.tx == tx
  {
  }

  lemma PeerKeepsGuard(s: State, v: nat, action: Action, w: nat, a: Attempt, tx: TxKey, until: int)
    requires AttemptsDistinct(s) && Enabled(s, Act(v, action)) && Guarded(s, w, a, tx, until) && v != w
    ensures Guarded(Apply(s, Act(v, action)), w, a, tx, until)
  {
    if w in s.workers && IsAtWork(s.workers[w].pc) && s.workers[w].pc.attempt == a && s.now <= until {
      OthersRespectLease(s, v, action, a, tx, until);
    }
    HistoryGrows(s, v, action);
  }

  lemma HistoryGrows(s: State, v: nat, action: Action)
    requires Enabled(s, Act(v, action))
    ensures s.history.issued <= Apply(s, Act(v, action)).history.issued
  {
  }

  /** An attempt's own steps never take up an attempt id that was already issued. */
  lemma HandlingWasHandling(s: State, w: nat, action: Action, a: Attempt)
    requires Enabled(s, Act(w, action)) && a in s.history.issued
    requires var next := Perform(s, s.workers[w], action).next;
             next.Some? && Attempting(next.value) && next.value.attempt == a
    ensures Attempting(s.workers[w].pc) && s.workers[w].pc.attempt == a
    ensures var next := Perform(s, s.workers[w], action).next.value;
            && !next.Inserted?
            && (next.Handling? ==> s.workers[w].pc.Handling? || s.workers[w].pc.Inserted?)
  {
    if action.ClaimFresh? || action.ClaimAgain? {
      ClaimTakesNewAttempt(s, w, action, a);
    }
  }

  lemma ClaimTakesNewAttempt(s: State, w: nat, action: Action, a: Attempt)
    requires Enabled(s, Act(w, action)) && a in s.history.issued && (action.ClaimFresh? || action.ClaimAgain?)
    ensures var next := Perform(s, s.workers[w], action).next;
            next.Some? && Attempting(next.value) ==> next.value.attempt != a
  {
  }

  lemma OwnStepKeepsGuard(s: State, action: Action, w: nat, a: Attempt, tx: TxKey, until: int)
    requires Enabled(s, Act(w, action)) && Guarded(s, w, a, tx, until)
    ensures Guarded(Apply(s, Act(w, action)), w, a, tx, until)
  {
    HistoryGrows(s, w, action);
    var next := Perform(s, s.workers[w], action).next;
    if next.Some? && Attempting(next.value) && next.value.attempt == a {
      HandlingWasHandling(s, w, action, a);
      if IsAtWork(next.value) && s.now <= until {
        OwnerKeepsLease(s, w, action, a, tx, until);
      }
    }
  }

  lemma NextKeepsGuard(s: State, s': State, w: nat, a: Attempt, tx: TxKey, until: int)
    requires HistoryOk(s) && Next(s, s') && Guarded(s, w, a, tx, until)
    ensures Guarded(s', w, a, tx, until)
  {
    var step := StepOf(s, s');
    if step.Act? {
      if step.w == w {
        OwnStepKeepsGuard(s, step.action, w, a, tx, until);
      } else {
        PeerKeepsGuard(s, step.w, step.action, w, a, tx, until);
      }
    }
  }

  lemma LinkKeepsGuard(run: seq<State>, j: nat, w: nat, a: Attempt, tx: TxKey, until: int)
    requires IsRun(run) && 0 < j < |run| && Guarded(run[j - 1], w, a, tx, until)
    ensures Guarded(run[j], w, a, tx, until)
  {
    Reached(run, j - 1);
    assert Linked(run, j);
    NextKeepsGuard(run[j - 1], run[j], w, a, tx, until);
  }

  lemma {:induction false} GuardLasts(run: seq<State>, i: nat, j: nat, w: nat, a: Attempt, tx: TxKey, until: int)
    requires IsRun(run) && i <= j < |run| && Guarded(run[i], w, a, tx, until)
    ensures Guarded(run[j], w, a, tx, until)
    decreases j
  {
    if i < j {
      GuardLasts(run, i, j - 1, w, a, tx, until);
      LinkKeepsGuard(run, j, w, a, tx, until);
    }
  }

  lemma FenceGuards(s: State, w: nat)
    requires HistoryOk(s) && Enabled(s, Act(w, AskFence(Answered)))
    requires Apply(s, Act(w, AskFence(Answered))).workers[w].pc.stage.Fenced?
    ensures var pc := s.workers[w].pc;
            Guarded(Apply(s, Act(w, AskFence(Answered))), w, pc.attempt, pc.cmd.tx, s.now + s.cfg.leaseSeconds)
  {
    assert AttemptOk(s.history, s.workers[w].pc);
  }

  /**
    What passing the fence buys: until the lease it renewed has run out, and for
    as long as the handler is at work, no other attempt owns the transaction.
   */
  lemma FenceExcludesOthers(run: seq<State>, i: nat, j: nat, w: nat)
    requires IsRun(run) && i < j < |run|
    requires Enabled(run[i], Act(w, AskFence(Answered))) && run[i + 1] == Apply(run[i], Act(w, AskFence(Answered)))
    requires run[i + 1].workers[w].pc.stage.Fenced?
    requires w in run[j].workers && run[j].workers[w].pc.Handling?
    requires run[j].workers[w].pc.attempt == run[i].workers[w].pc.attempt
    requires run[j].now <= run[i].now + run[i].cfg.leaseSeconds
    ensures Owns(run[j].tables, run[i].workers[w].pc.cmd.tx, run[i].workers[w].pc.attempt)
  {
    var pc := run[i].workers[w].pc;
    Reached(run, i);
    FenceGuards(run[i], w);
    GuardLasts(run, i + 1, j, w, pc.attempt, pc.cmd.tx, run[i].now + run[i].cfg.leaseSeconds);
  }

  lemma HeartbeatGuards(s: State, w: nat)
    requires HistoryOk(s) && Enabled(s, Act(w, Heartbeat(Answered)))
    requires Owns(s.tables, s.workers[w].pc.cmd.tx, s.workers[w].pc.attempt)
    ensures var pc := s.workers[w].pc;
            Guarded(Apply(s, Act(w, Heartbeat(Answered))), w, pc.attempt, pc.cmd.tx, s.now + s.cfg.leaseSeconds)
  {
    assert AttemptOk(s.history, s.workers[w].pc);
  }

  /** A heartbeat that gets a yes buys the same: the lease runs anew from then. */
  lemma HeartbeatExcludesOthers(run: seq<State>, i: nat, j: nat, w: nat)
    requires IsRun(run) && i < j < |run|
    requires Enabled(run[i], Act(w, Heartbeat(Answered))) && run[i + 1] == Apply(run[i], Act(w, Heartbeat(Answered)))
    requires Owns(run[i].tables, run[i].workers[w].pc.cmd.tx, run[i].workers[w].pc.attempt)
    requires w in run[j].workers && IsAtWork(run[j].workers[w].pc)
    requires run[j].workers[w].pc.attempt == run[i].workers[w].pc.attempt
    requires run[j].now <= run[i].now + run[i].cfg.leaseSeconds
    ensures Owns(run[j].tables, run[i].workers[w].pc.cmd.tx, run[i].workers[w].pc.attempt)
  {
    var pc := run[i].workers[w].pc;
    Reached(run, i);
    HeartbeatGuards(run[i], w);
    GuardLasts(run, i + 1, j, w, pc.attempt, pc.cmd.tx, run[i].now + run[i].cfg.leaseSeconds);
  }

  lemma ClaimGuards(s: State, w: nat, action: Action)
    requires HistoryOk(s) && Enabled(s, Act(w, action)) && (action.ClaimFresh? || action.ClaimAgain?)
    requires w in Apply(s, Act(w, action)).workers && IsAtWork(Apply(s, Act(w, action)).workers[w].pc)
    ensures var after := Apply(s, Act(w, action));
            Guarded(after, w, action.attempt, after.workers[w].pc.cmd.tx, s.now + s.cfg.leaseSeconds)
  {
  }

  /**
    What winning a claim buys, for a new transaction and for one taken over alike:
    until the lease has run out, and for as long as the handler is at work, no
    other attempt owns the transaction.
   */
  lemma ClaimExcludesOthers(run: seq<State>, i: nat, j: nat, w: nat, action: Action)
    requires IsRun(run) && i < j < |run| && (action.ClaimFresh? || action.ClaimAgain?)
    requires Enabled(run[i], Act(w, action)) && run[i + 1] == Apply(run[i], Act(w, action))
    requires w in run[i + 1].workers && IsAtWork(run[i + 1].workers[w].pc)
    requires w in run[j].workers && IsAtWork(run[j].workers[w].pc) && run[j].workers[w].pc.attempt == action.attempt
    requires run[j].now <= run[i].now + run[i].cfg.leaseSeconds
    ensures Owns(run[j].tables, run[i].workers[w].pc.cmd.tx, action.attempt)
  {
    Reached(run, i);
    ClaimGuards(run[i], w, action);
    GuardLasts(run, i + 1, j, w, action.attempt, run[i].workers[w].pc.cmd.tx, run[i].now + run[i].cfg.leaseSeconds);
  }

  /**
    Reactions are effectively once. A reaction's identity is its queue and the id
    of its fact, and nothing else. However often a fact is dispatched to a queue,
    all copies claim one transaction that no other message can claim, and none of
    them is refused as a conflict: the log keeps the first row of the fact, and
    every copy was made from that row.
   */
  lemma ReactionsAreNeverRefused(run: seq<State>, i: nat, w: nat)
    requires IsRun(run) && i < |run| && w in run[i].workers && run[i].workers[w].event.id.Reaction?
    requires !run[i].workers[w].pc.Delivered?
    ensures var event := run[i].workers[w].event;
            && event.id.fact in run[i].log && event == Work(FactOf(run[i].log[event.id.fact]), event.id.queue)
            && run[i].workers[w].pc.cmd == CommandDraft(event)
            && run[i].workers[w].pc.cmd.tx == ReactionTx(event.id.queue, event.id.fact)
            && !run[i].workers[w].pc.RefusedClaim? && !run[i].workers[w].pc.ConflictTold?
  {
    Reached(run, i);
    AttemptIsSound(run[i], w);
    var cmd := run[i].workers[w].pc.cmd;
    assert EntryOk(run[i].log, cmd.id);
    if cmd.tx in run[i].tables.rows {
      ReactionRowIsItsOwn(run[i], cmd.id.queue, cmd.id.fact);
    }
  }

  lemma ReactionRowIsItsOwn(s: State, queue: string, fact: EventId)
    requires Basic(s) && ReactionTx(queue, fact) in s.tables.rows
    ensures var row := s.tables.rows[ReactionTx(queue, fact)];
            && row.request == Reaction(queue, fact)
            && fact in s.log && row.hash == HashOf(CommandDraft(Work(FactOf(s.log[fact]), queue)))
  {
    var tx := ReactionTx(queue, fact);
    assert RowOk(s.log, s.history.issued, tx, s.tables.rows[tx]);
    assert EntryOk(s.log, s.tables.rows[tx].request);
  }

  /** A reaction's execution row was opened by that reaction, and at most one of its attempts completes. */
  lemma ReactionHasItsOwnRow(run: seq<State>, i: nat, queue: string, fact: EventId)
    requires IsRun(run) && i < |run| && ReactionTx(queue, fact) in run[i].tables.rows
    ensures run[i].tables.rows[ReactionTx(queue, fact)].request == Reaction(queue, fact)
    ensures fact in run[i].log
    ensures run[i].tables.rows[ReactionTx(queue, fact)].hash == HashOf(CommandDraft(Work(FactOf(run[i].log[fact]), queue)))
    ensures |WinsOf(run[i].history, ReactionTx(queue, fact))| <= 1
  {
    Reached(run, i);
    ReactionRowIsItsOwn(run[i], queue, fact);
    OneCompletion(run, i, ReactionTx(queue, fact));
  }

  /** What that rests on: a copy of the fact that said anything else would claim the same transaction and be refused. */
  lemma AlteredCopyIsRefused(s: State, queue: string, fact: EventId, altered: Fact, attempt: Attempt)
    requires Basic(s) && ReactionTx(queue, fact) in s.tables.rows && altered.id == fact
    ensures fact in s.log
    ensures var cmd := CommandDraft(Work(altered, queue));
            && cmd.tx == ReactionTx(queue, fact)
            && (ClaimExisting(s.tables, cmd, attempt, s.now, s.cfg.leaseSeconds).1.Refused?
                <==> altered.action != s.log[fact].action || altered.payload != s.log[fact].payload)
  {
    ReactionRowIsItsOwn(s, queue, fact);
  }
}
