/**
  Processing one message, as a program: statement after statement, each awaited,
  with everybody else's statements in between and an error possible at any of
  them. Every statement of its own is a step of the consumer protocol, so a whole
  call is part of a run of it.
 */
module ConsumerProcess {
  import opened Wrappers
  import opened Events
  import opened E = ExecutionStore
  import opened WorkerConsumer
  import opened ConsumerInvariant
  import opened NoLostReply
  import opened ConsumerHistory
  import opened ConsumerRuns

  /**
    How a call ends. The message stays when something went wrong, when it is the
    source of a transaction that still runs, or when the attempt got no verdict
    stored; it goes after its sender was told of a conflict, left to the source,
    or answered.
   */
  datatype End =
    | Died
    | StillRunning
    | GaveUp(attempt: Attempt)
    | Conflicted
    | LeftToSource
    | Answered(recipients: set<RecipientKey>, payload: ResultPayload)

  predicate HasVerdict(t: Tables, tx: TxKey, payload: ResultPayload) {
    tx in t.rows && t.rows[tx].result == Some(payload)
  }

  /** Nothing of this attempt keeps the next one from the transaction. */
  predicate LetsIn(t: Tables, tx: TxKey, attempt: Attempt, now: int) {
    tx in t.rows && (!Owns(t, tx, attempt) || LeaseExpired(t.rows[tx], now))
  }

  /** What happens while the handler runs: timers, its own questions and effects, and its end. */
  datatype Event = Beat(answer: Answer) | Asks(answer: Answer) | Spawns | Says(id: EventId, action: string, text: string, marked: bool)

  /**
    Whether the lease counts as lost after something happened: a heartbeat, and a
    question that is put at all, must get a yes. `owned` is the truth of it.
   */
  predicate LeaseLost(leaseLost: bool, stage: Stage, happening: Event, owned: bool) {
    leaseLost || ((happening.Beat? || (happening.Asks? && stage.NotFenced?)) && !(happening.answer.Answered? && owned))
  }

  predicate IsRefused(e: Event) {
    (e.Beat? || e.Asks?) && !e.answer.Answered?
  }

  ghost predicate RunTo(run: seq<State>, s: State) {
    IsRun(run) && run[|run| - 1] == s
  }

  lemma RunGoesOn(run: seq<State>, s: State, step: WorkerConsumer.Step)
    requires RunTo(run, s) && Enabled(s, step)
    ensures RunTo(run + [Apply(s, step)], Apply(s, step))
  {
    var longer := run + [Apply(s, step)];
    forall i | 0 < i < |longer|
      ensures Linked(longer, i)
    {
      if i < |run| {
        assert Linked(run, i);
      } else {
        assert Next(s, Apply(s, step));
      }
    }
  }

  /** No statement takes back a row or a recipient. */
  ghost predicate OnlyGrows(t: Tables, u: Tables) {
    && (forall tx <- t.rows :: tx in u.rows)
    && (forall key <- t.recipients :: key in u.recipients && u.recipients[key] == t.recipients[key])
  }

  lemma StepOnlyGrows(s: State, step: WorkerConsumer.Step)
    requires Enabled(s, step)
    ensures OnlyGrows(s.tables, Apply(s, step).tables)
  {
    var tx := StepMoves(s, step);
  }

  lemma {:induction false} RowsStay(run: seq<State>, i: nat, j: nat, tx: TxKey)
    requires IsRun(run) && i <= j < |run| && tx in run[i].tables.rows
    ensures tx in run[j].tables.rows
    decreases j
  {
    if i < j {
      RowsStay(run, i, j - 1, tx);
      assert Linked(run, j);
      var step := StepOf(run[j - 1], run[j]);
      StepOnlyGrows(run[j - 1], step);
    }
  }

  lemma StepKeepsLog(s: State, step: WorkerConsumer.Step)
    requires Enabled(s, step)
    ensures s.log.Keys <= Apply(s, step).log.Keys
  {
  }

  lemma {:induction false} LogStays(run: seq<State>, i: nat, j: nat, id: EventId)
    requires IsRun(run) && i <= j < |run| && id in run[i].log
    ensures id in run[j].log
    decreases j
  {
    if i < j {
      LogStays(run, i, j - 1, id);
      assert Linked(run, j);
      var step := StepOf(run[j - 1], run[j]);
      StepKeepsLog(run[j - 1], step);
    }
  }

  lemma {:induction false} RecipientsStay(run: seq<State>, i: nat, j: nat, key: RecipientKey)
    requires IsRun(run) && i <= j < |run| && key in run[i].tables.recipients
    ensures key in run[j].tables.recipients && run[j].tables.recipients[key] == run[i].tables.recipients[key]
    decreases j
  {
    if i < j {
      RecipientsStay(run, i, j - 1, key);
      assert Linked(run, j);
      var step := StepOf(run[j - 1], run[j]);
      StepOnlyGrows(run[j - 1], step);
    }
  }

  /** In a fan-out, whoever counts as told has its outcome in the log, and that is the stored one. */
  lemma ToldAreLogged(run: seq<State>, s: State, w: nat)
    requires RunTo(run, s) && w in s.workers && s.workers[w].pc.FanOut?
    ensures forall key <- s.workers[w].pc.told :: OutcomeId(key, s.workers[w].pc.payload) in s.log
    ensures HasVerdict(s.tables, s.workers[w].pc.cmd.tx, s.workers[w].pc.payload)
  {
    Reached(run, |run| - 1);
    AttemptIsSound(s, w);
  }

  /** An attempt past its claim has its transaction's row, and knows the source if it joined. */
  lemma ClaimIsKnown(run: seq<State>, s: State, w: nat)
    requires RunTo(run, s) && w in s.workers && Registered(s.workers[w].pc)
    ensures var pc := s.workers[w].pc;
            pc.cmd.tx in s.tables.rows && (pc.JoinedRunning? ==> s.tables.rows[pc.cmd.tx].request == pc.request)
  {
    Reached(run, |run| - 1);
    AttemptIsSound(s, w);
  }

  /** An attempt at work that does not own its transaction never owns it again. */
  lemma StaysUnowned(run: seq<State>, n: nat, w: nat)
    requires IsRun(run) && n < |run| && w in run[n].workers && run[n].workers[w].pc.Handling?
    requires !Owns(run[n].tables, run[n].workers[w].pc.cmd.tx, run[n].workers[w].pc.attempt)
    ensures !Owns(run[|run| - 1].tables, run[n].workers[w].pc.cmd.tx, run[n].workers[w].pc.attempt)
  {
    Reached(run, n);
    assert AttemptOk(run[n].history, run[n].workers[w].pc);
    StaleForEver(run, n, |run| - 1, run[n].workers[w].pc.cmd.tx, run[n].workers[w].pc.attempt);
  }

  /** An attempt past its claim is among the recipients. */
  lemma OwnRecipientIsKnown(run: seq<State>, s: State, w: nat)
    requires RunTo(run, s) && w in s.workers && s.workers[w].pc.Settled?
    ensures KeyOf(s.workers[w].pc.cmd) in s.tables.recipients
  {
    Reached(run, |run| - 1);
    AttemptIsSound(s, w);
  }

  class Broker {
    const cfg: Config
    /** No statement fails and no attempt dies, other than by losing its lease or its answers. */
    const reliable: bool
    const executions: E.ExecutionStore
    var now: int
    var log: map<EventId, Envelope>
    var queue: map<nat, Ingress>
    var nextMessage: nat
    var nextAttempt: Attempt
    ghost var workers: map<nat, Worker>
    ghost var history: History
    ghost var run: seq<State>

    constructor (cfg: Config, reliable: bool, now: int)
      ensures Valid() && Init(Value()) && fresh(executions) && this.reliable == reliable
    {
      this.reliable := reliable;
      this.cfg, this.now, log, queue, nextMessage, nextAttempt := cfg, now, map[], map[], 0, 0;
      executions := new E.ExecutionStore(cfg.leaseSeconds);
      workers, history := map[], History({}, map[], map[], map[]);
      new;
      run := [Value()];
    }

    ghost function Value(): State
      reads this, executions
    {
      State(cfg, now, log, executions.Contents(), queue, nextMessage, workers, history)
    }

    ghost predicate Valid()
      reads this, executions
    {
      && executions.leaseSeconds == cfg.leaseSeconds
      && RunTo(run, Value())
      && forall a <- history.issued :: a < nextAttempt
    }

    /** An attempt that is at a point of the program. */
    ghost predicate At(w: nat, worker: Worker)
      reads this, executions
    {
      Valid() && w in workers && workers[w] == worker
    }

    /** A message handed to a new attempt; other attempts may be at work on it. */
    method Take(ghost w: nat, msg: nat) returns (event: Ingress)
      requires Valid() && w !in workers && msg in queue
      modifies this`workers, this`run
      ensures At(w, Worker(msg, event, Delivered)) && event == queue[msg] && run == old(run) + [Value()]
    {
      event := queue[msg];
      RunGoesOn(run, Value(), Deliver(w, msg));
      workers := workers[w := Worker(msg, event, Delivered)];
      run := run + [Value()];
    }

    /** Everything that is not the attempt's own: it sees only that the protocol goes on. */
    method Elsewhere(ghost w: nat, ghost worker: Worker)
      requires At(w, worker)
      modifies this, executions
      ensures At(w, worker) && old(run) <= run
      ensures nextAttempt >= old(nextAttempt)
      ensures forall a <- history.issued | a < old(nextAttempt) :: a in old(history.issued)
    {
    }

    /** The program's fields already hold the step's effect; the ghost ones follow. */
    ghost method Took(w: nat, before: State, action: Action)
      requires RunTo(run, before) && w in before.workers && CanAct(before, before.workers[w].pc, action)
      requires var after := Apply(before, Act(w, action));
               after == State(cfg, now, log, executions.Contents(), queue, nextMessage, after.workers, after.history)
      requires executions.leaseSeconds == cfg.leaseSeconds
      requires forall a <- Apply(before, Act(w, action)).history.issued :: a < nextAttempt
      modifies this`workers, this`history, this`run
      ensures Valid() && Value() == Apply(before, Act(w, action)) && run == old(run) + [Value()]
    {
      RunGoesOn(run, before, Act(w, action));
      var after := Apply(before, Act(w, action));
      workers, history, run := after.workers, after.history, run + [after];
    }

    /** An await: others act, and the answer may be an error, which ends the attempt. */
    method Await(ghost w: nat, ghost worker: Worker) returns (ok: bool)
      requires At(w, worker)
      modifies this, executions
      ensures old(run) <= run && nextAttempt >= old(nextAttempt)
      ensures forall a <- history.issued | a < old(nextAttempt) :: a in old(history.issued)
      ensures if ok then At(w, worker) else Valid() && w !in workers
      ensures reliable ==> ok
    {
      Elsewhere(w, worker);
      if reliable {
        return true;
      }
      if * {
        Took(w, Value(), Crash);
        return false;
      }
      return true;
    }

    method RecordCommand(ghost w: nat, msg: nat, event: Ingress) returns (command: Option<Envelope>)
      requires At(w, Worker(msg, event, Delivered))
      modifies this, executions
      ensures old(run) <= run
      ensures command.None? ==> Valid() && w !in workers
      ensures command.Some? ==> At(w, Worker(msg, event, Recorded(command.value)))
      ensures reliable ==> command.Some?
    {
      var ok := Await(w, Worker(msg, event, Delivered));
      if !ok {
        return None;
      }
      ghost var before := Value();
      var draft := CommandDraft(event);
      log := Append(log, draft);
      Took(w, before, Record);
      return Some(log[draft.id]);
    }

    /** The insert, and the recipient or the existing row in a second statement. */
    method Claim(ghost w: nat, msg: nat, event: Ingress, command: Envelope) returns (claim: Option<E.Claim>, attempt: Attempt)
      requires At(w, Worker(msg, event, Recorded(command)))
      modifies this, executions
      ensures old(run) <= run
      ensures claim.None? ==> Valid() && w !in workers
      ensures claim.Some? ==> At(w, Worker(msg, event, AfterClaim(command, attempt, claim.value)))
      ensures reliable ==> claim.Some?
    {
      attempt := 0;
      var ok := Await(w, Worker(msg, event, Recorded(command)));
      if !ok {
        return None, attempt;
      }
      attempt := nextAttempt;
      nextAttempt := nextAttempt + 1;
      ghost var before := Value();
      var inserted := executions.TryInsert(command, attempt, now);
      if inserted {
        Took(w, before, ClaimFresh(attempt));
        claim := ClaimFirst(w, msg, event, command, attempt);
      } else {
        claim := ClaimLater(w, msg, event, command, attempt);
      }
    }

    method ClaimFirst(ghost w: nat, msg: nat, event: Ingress, command: Envelope, attempt: Attempt) returns (claim: Option<E.Claim>)
      requires At(w, Worker(msg, event, Inserted(command, attempt)))
      modifies this, executions
      ensures old(run) <= run
      ensures claim.None? ==> Valid() && w !in workers
      ensures claim.Some? ==> At(w, Worker(msg, event, AfterClaim(command, attempt, claim.value)))
      ensures reliable ==> claim.Some?
    {
      var ok := Await(w, Worker(msg, event, Inserted(command, attempt)));
      if !ok {
        return None;
      }
      ghost var before := Value();
      executions.Register(command);
      Took(w, before, RegisterRecipient);
      return Some(Claimed(1));
    }

    method ClaimLater(ghost w: nat, msg: nat, event: Ingress, command: Envelope, attempt: Attempt) returns (claim: Option<E.Claim>)
      requires At(w, Worker(msg, event, Recorded(command)))
      requires command.tx in executions.rows && attempt < nextAttempt && attempt !in history.issued
      modifies this, executions
      ensures old(run) <= run
      ensures claim.None? ==> Valid() && w !in workers
      ensures claim.Some? ==> At(w, Worker(msg, event, AfterClaim(command, attempt, claim.value)))
      ensures reliable ==> claim.Some?
    {
      ghost var n := |run| - 1;
      var ok := Await(w, Worker(msg, event, Recorded(command)));
      if !ok {
        return None;
      }
      RowsStay(run, n, |run| - 1, command.tx);
      ghost var before := Value();
      var answer := executions.Rejoin(command, attempt, now);
      Took(w, before, ClaimAgain(attempt));
      return Some(answer);
    }

    /** A renewal, whose answer may be lost before or after it took effect; without a yes the lease counts as lost. */
    method Renew(command: Envelope, attempt: Attempt, answer: Answer) returns (owned: bool)
      requires executions.leaseSeconds == cfg.leaseSeconds
      modifies executions
      ensures executions.Contents() == if answer.FailedBefore? then old(executions.Contents())
                                       else E.Renew(old(executions.Contents()), command.tx, attempt, now, cfg.leaseSeconds)
      ensures owned == (answer.Answered? && Owns(old(executions.Contents()), command.tx, attempt))
    {
      if answer.FailedBefore? {
        return false;
      }
      owned := executions.RenewLease(command.tx, attempt, now);
      owned := owned && answer.Answered?;
    }

    /** One thing that happens while the handler runs. */
    method WhileHandling(ghost w: nat, msg: nat, event: Ingress, command: Envelope, attempt: Attempt, attempts: nat,
                         leaseLost: bool, stage: Stage, happening: Event)
      returns (alive: bool, lost: bool, next: Stage)
      requires At(w, Worker(msg, event, Handling(command, attempt, attempts, leaseLost, stage)))
      modifies this, executions
      ensures old(run) <= run
      ensures if alive then At(w, Worker(msg, event, Handling(command, attempt, attempts, lost, next)))
              else Valid() && w !in workers
      ensures alive ==> lost == LeaseLost(leaseLost, stage, happening, Owns(executions.Contents(), command.tx, attempt))
      ensures alive ==> next == if happening.Asks? && stage.NotFenced? && !lost then Fenced
                                else if happening.Spawns? && stage.Fenced? then Spawned else stage
      ensures reliable ==> alive
    {
      lost, next := leaseLost, stage;
      alive := Await(w, Worker(msg, event, Handling(command, attempt, attempts, leaseLost, stage)));
      if !alive {
        return;
      }
      match happening
      case Beat(answer) => lost := BeatNow(w, msg, event, command, attempt, attempts, leaseLost, stage, answer);
      case Asks(answer) =>
        if !leaseLost && stage.NotFenced? {
          lost := FenceNow(w, msg, event, command, attempt, attempts, answer);
          next := if lost then NotFenced else Fenced;
        }
      case Spawns =>
        if stage.Fenced? {
          next := Spawned;
          Took(w, Value(), Spawn);
        }
      case Says(id, action, text, marked) =>
        if !leaseLost && (id.KeyedFact? || id.Progress?) {
          LogNow(w, msg, event, command, attempt, attempts, stage, id, action, text, marked);
        }
    }

    /** An observation goes to the log, as a fact if so marked, while the lease is not known lost. */
    method LogNow(ghost w: nat, ghost msg: nat, ghost event: Ingress, command: Envelope, ghost attempt: Attempt, ghost attempts: nat,
                  ghost stage: Stage, id: EventId, action: string, text: string, marked: bool)
      requires At(w, Worker(msg, event, Handling(command, attempt, attempts, false, stage)))
      requires id.KeyedFact? || id.Progress?
      modifies this`log, this`workers, this`history, this`run
      ensures old(run) <= run && At(w, Worker(msg, event, Handling(command, attempt, attempts, false, stage)))
      ensures log == Append(old(log), ObservationDraft(command, id, action, text, marked))
    {
      ghost var before := Value();
      log := Append(log, ObservationDraft(command, id, action, text, marked));
      Took(w, before, Observe(id, action, text, marked));
    }

    /** The timer's question; only a yes leaves the lease as it was. */
    method BeatNow(ghost w: nat, msg: nat, event: Ingress, command: Envelope, attempt: Attempt, attempts: nat,
                   leaseLost: bool, ghost stage: Stage, answer: Answer)
      returns (lost: bool)
      requires At(w, Worker(msg, event, Handling(command, attempt, attempts, leaseLost, stage)))
      modifies this`workers, this`history, this`run, executions
      ensures old(run) <= run && At(w, Worker(msg, event, Handling(command, attempt, attempts, lost, stage)))
      ensures lost <==> leaseLost || !(answer.Answered? && old(Owns(executions.Contents(), command.tx, attempt)))
      ensures Owns(executions.Contents(), command.tx, attempt) == old(Owns(executions.Contents(), command.tx, attempt))
    {
      ghost var before := Value();
      var owned := Renew(command, attempt, answer);
      lost := leaseLost || !owned;
      Took(w, before, Heartbeat(answer));
    }

    /** The handler's own question, before what it cannot take back. */
    method FenceNow(ghost w: nat, msg: nat, event: Ingress, command: Envelope, attempt: Attempt, attempts: nat, answer: Answer)
      returns (lost: bool)
      requires At(w, Worker(msg, event, Handling(command, attempt, attempts, false, NotFenced)))
      modifies this`workers, this`history, this`run, executions
      ensures old(run) <= run
      ensures At(w, Worker(msg, event, Handling(command, attempt, attempts, lost, if lost then NotFenced else Fenced)))
      ensures lost <==> !(answer.Answered? && old(Owns(executions.Contents(), command.tx, attempt)))
      ensures Owns(executions.Contents(), command.tx, attempt) == old(Owns(executions.Contents(), command.tx, attempt))
    {
      ghost var before := Value();
      var owned := Renew(command, attempt, answer);
      lost := !owned;
      Took(w, before, AskFence(answer));
    }

    /** The handler, with its timer and its observations, to its end. */
    method RunHandler(ghost w: nat, msg: nat, event: Ingress, command: Envelope, attempt: Attempt, attempts: nat,
                      script: seq<Event>, end: HandlerEnd)
      returns (next: Option<Pc>)
      requires At(w, Worker(msg, event, Handling(command, attempt, attempts, false, NotFenced)))
      modifies this, executions
      ensures old(run) <= run
      ensures next.None? ==> Valid() && w !in workers
      ensures next.Some? ==> At(w, Worker(msg, event, next.value))
      ensures next.Some? ==>
                || next.value == Lost(command, attempt, attempts)
                || (end.Returned? && next.value == Finishing(command, attempt, attempts, Ok(end.value), AfterSuccess))
                || (end.Threw?
                    && next.value == Finishing(command, attempt, attempts, Failed(WorkerFailed, end.message), AfterFailure))
      ensures next.Some? && end.WorkerDied? ==> next.value.Lost?
      ensures next.Some? && end.Threw? ==> next.value.Finishing?
      ensures next.Some? && end.Returned? && next.value.Finishing? ==> forall e <- script | e.Beat? :: e.answer.Answered?
      ensures next.Some? && end.Returned? && next.value.Lost? ==>
                (exists e <- script :: IsRefused(e)) || !Owns(executions.Contents(), command.tx, attempt)
      ensures reliable ==> next.Some?
    {
      var leaseLost, stage := false, NotFenced;
      for k := 0 to |script|
        invariant At(w, Worker(msg, event, Handling(command, attempt, attempts, leaseLost, stage))) && old(run) <= run
        invariant !leaseLost ==> forall e <- script[..k] | e.Beat? :: e.answer.Answered?
        invariant leaseLost ==> (exists e <- script[..k] :: IsRefused(e)) || !Owns(executions.Contents(), command.tx, attempt)
      {
        var alive;
        ghost var n, before := |run| - 1, leaseLost;
        assert run[n] == Value();
        assert forall e :: e in script[..k + 1] <==> e in script[..k] || e == script[k];
        alive, leaseLost, stage := WhileHandling(w, msg, event, command, attempt, attempts, leaseLost, stage, script[k]);
        if !alive {
          return None;
        }
        if !Owns(run[n].tables, command.tx, attempt) {
          StaysUnowned(run, n, w);
          assert run[|run| - 1] == Value();
          assert !Owns(executions.Contents(), command.tx, attempt);
        } else if leaseLost && !before {
          assert IsRefused(script[k]) || !Owns(executions.Contents(), command.tx, attempt);
        }
      }
      assert script[..|script|] == script;
      ghost var before := Value();
      match end {
        case Returned(value) =>
          next := Some(if leaseLost then Lost(command, attempt, attempts)
                       else Finishing(command, attempt, attempts, Ok(value), AfterSuccess));
        case Threw(message) =>
          next := Some(Finishing(command, attempt, attempts, Failed(WorkerFailed, message), AfterFailure));
        case WorkerDied => next := Some(Lost(command, attempt, attempts));
      }
      Took(w, before, HandlerDone(end));
    }

    /** `complete`. An error after success is a failure of the worker; a refusal there loses the lease. */
    method Complete(ghost w: nat, msg: nat, event: Ingress, command: Envelope, attempt: Attempt, attempts: nat,
                    payload: ResultPayload, ending: Ending, answer: Answer, message: string)
      returns (next: Option<Pc>)
      requires At(w, Worker(msg, event, Finishing(command, attempt, attempts, payload, ending)))
      modifies this, executions
      ensures old(run) <= run
      ensures next.None? ==> Valid() && w !in workers
      ensures next.Some? ==> At(w, Worker(msg, event, next.value))
      ensures next.Some? || reliable ==>
                |run| >= 2
                && next == if answer.Answered? && Owns(run[|run| - 2].tables, command.tx, attempt) then Some(Settled(command, payload))
                           else if !ending.AfterSuccess? then None
                           else if answer.Answered? then Some(Lost(command, attempt, attempts))
                           else Some(Finishing(command, attempt, attempts, Failed(WorkerFailed, message), AfterFailure))
      ensures reliable && ending.AfterSuccess? ==> next.Some?
      ensures reliable && next.None? && answer.Answered? ==> LetsIn(executions.Contents(), command.tx, attempt, now)
    {
      var ok := Await(w, Worker(msg, event, Finishing(command, attempt, attempts, payload, ending)));
      if !ok {
        return None;
      }
      ghost var before := Value();
      ClaimIsKnown(run, before, w);
      var accepted := false;
      if !answer.FailedBefore? {
        accepted := executions.CompleteAttempt(command.tx, attempt, payload);
      }
      if answer.Answered? && accepted {
        next := Some(Settled(command, payload));
      } else if !ending.AfterSuccess? {
        next := None;
      } else if answer.Answered? {
        next := Some(Lost(command, attempt, attempts));
      } else {
        next := Some(Finishing(command, attempt, attempts, Failed(WorkerFailed, message), AfterFailure));
      }
      Took(w, before, Finish(answer, message));
    }

    /** A worker that lost its lease lets the next attempt in, or settles the matter if it was the last. */
    method GiveUpOrFail(ghost w: nat, msg: nat, event: Ingress, command: Envelope, attempt: Attempt, attempts: nat,
                        message: string)
      returns (last: bool)
      requires At(w, Worker(msg, event, Lost(command, attempt, attempts)))
      modifies this, executions
      ensures old(run) <= run
      ensures if last then At(w, Worker(msg, event, Finishing(command, attempt, attempts, Failed(PermanentFailure, message), AfterLoss)))
              else Valid() && w !in workers
      ensures last ==> attempts >= cfg.maxAttempts
      ensures reliable ==> last || (attempts < cfg.maxAttempts && LetsIn(executions.Contents(), command.tx, attempt, now))
    {
      var ok := Await(w, Worker(msg, event, Lost(command, attempt, attempts)));
      if !ok {
        return false;
      }
      ghost var before := Value();
      ClaimIsKnown(run, before, w);
      last := attempts >= cfg.maxAttempts;
      if !last {
        var _ := executions.ReleaseLease(command.tx, attempt, now);
      }
      Took(w, before, GiveUp(message));
    }

    /** A claimed execution, from the handler to a stored verdict or to nothing. */
    method Execute(ghost w: nat, msg: nat, event: Ingress, command: Envelope, attempt: Attempt, attempts: nat,
                   script: seq<Event>, end: HandlerEnd, answers: (Answer, Answer), message: string)
      returns (payload: Option<ResultPayload>)
      requires At(w, Worker(msg, event, Handling(command, attempt, attempts, false, NotFenced)))
      modifies this, executions
      ensures old(run) <= run
      ensures payload.None? ==> Valid() && w !in workers
      ensures payload.Some? ==> At(w, Worker(msg, event, Settled(command, payload.value)))
      ensures reliable && answers.1.Answered? && payload.None? ==> LetsIn(executions.Contents(), command.tx, attempt, now)
    {
      var next := RunHandler(w, msg, event, command, attempt, attempts, script, end);
      if next.Some? && next.value.Finishing? && next.value.ending.AfterSuccess? {
        next := Complete(w, msg, event, command, attempt, attempts, next.value.payload, AfterSuccess, answers.0, message);
      }
      if next.Some? && next.value.Lost? {
        var last := GiveUpOrFail(w, msg, event, command, attempt, attempts, message);
        next := if last then Some(Finishing(command, attempt, attempts, Failed(PermanentFailure, message), AfterLoss))
                else None;
      }
      if next.Some? && next.value.Finishing? {
        next := Complete(w, msg, event, command, attempt, attempts, next.value.payload, next.value.ending, answers.1, message);
      }
      return if next.Some? then Some(next.value.payload) else None;
    }

    /** Who is owed the verdict, at this moment. */
    method ReadAll(ghost w: nat, msg: nat, event: Ingress, command: Envelope, payload: ResultPayload)
      returns (found: Option<map<RecipientKey, Envelope>>)
      requires At(w, Worker(msg, event, Settled(command, payload)))
      modifies this, executions
      ensures old(run) <= run
      ensures found.None? ==> Valid() && w !in workers
      ensures found.Some? ==>
                && At(w, Worker(msg, event, FanOut(command, payload, {}, found.value.Keys)))
                && KeyOf(command) in found.value
                && forall key <- found.value :: key in executions.recipients && executions.recipients[key] == found.value[key]
      ensures reliable ==> found.Some?
    {
      var ok := Await(w, Worker(msg, event, Settled(command, payload)));
      if !ok {
        return None;
      }
      ghost var before := Value();
      var all := map key | key in executions.recipients && key.tx == command.tx :: executions.recipients[key];
      OwnRecipientIsKnown(run, before, w);
      assert all.Keys == RecipientsOf(executions.Contents(), command.tx);
      Took(w, before, ReadRecipients);
      return Some(all);
    }

    /** The verdict to every recipient, and then the message may go. */
    method FanOutAll(ghost w: nat, msg: nat, event: Ingress, command: Envelope, payload: ResultPayload)
      returns (told: Option<set<RecipientKey>>)
      requires At(w, Worker(msg, event, Settled(command, payload)))
      modifies this, executions
      ensures Valid() && old(run) <= run && w !in workers
      ensures told.Some? ==>
                msg !in queue && KeyOf(command) in told.value && HasVerdict(executions.Contents(), command.tx, payload)
      ensures told.Some? ==> forall key <- told.value :: OutcomeId(key, payload) in log
      ensures reliable ==> told.Some?
    {
      var found := ReadAll(w, msg, event, command, payload);
      if found.None? {
        return None;
      }
      var ok := TellAll(w, msg, event, command, payload, found.value);
      if !ok {
        return None;
      }
      told := RemoveTold(w, msg, event, command, payload, found.value.Keys);
    }

    method TellAll(ghost w: nat, msg: nat, event: Ingress, command: Envelope, payload: ResultPayload,
                   found: map<RecipientKey, Envelope>)
      returns (ok: bool)
      requires At(w, Worker(msg, event, FanOut(command, payload, {}, found.Keys)))
      requires forall key <- found :: key in executions.recipients && executions.recipients[key] == found[key]
      modifies this, executions
      ensures old(run) <= run
      ensures if ok then At(w, Worker(msg, event, FanOut(command, payload, found.Keys, {})))
              else Valid() && w !in workers
      ensures reliable ==> ok
    {
      ghost var n := |run| - 1;
      var rest := found.Keys;
      assert found.Keys - rest == {};
      while rest != {}
        invariant At(w, Worker(msg, event, FanOut(command, payload, found.Keys - rest, rest)))
        invariant rest <= found.Keys && old(run) <= run
        decreases rest
      {
        var key :| key in rest;
        ok := TellOne(w, msg, event, command, payload, found, rest, key, n);
        if !ok {
          return false;
        }
        rest := rest - {key};
      }
      assert found.Keys - rest == found.Keys;
      return true;
    }

    method TellOne(ghost w: nat, msg: nat, event: Ingress, command: Envelope, payload: ResultPayload,
                   found: map<RecipientKey, Envelope>, rest: set<RecipientKey>, key: RecipientKey, ghost n: nat)
      returns (ok: bool)
      requires At(w, Worker(msg, event, FanOut(command, payload, found.Keys - rest, rest)))
      requires rest <= found.Keys && key in rest && n < |run|
      requires key in run[n].tables.recipients && run[n].tables.recipients[key] == found[key]
      modifies this, executions
      ensures old(run) <= run
      ensures if ok then At(w, Worker(msg, event, FanOut(command, payload, found.Keys - (rest - {key}), rest - {key})))
              else Valid() && w !in workers
      ensures reliable ==> ok
    {
      ok := Await(w, Worker(msg, event, FanOut(command, payload, found.Keys - rest, rest)));
      if !ok {
        return;
      }
      RecipientsStay(run, n, |run| - 1, key);
      ghost var before := Value();
      log := Append(log, OutcomeDraft(found[key], payload));
      Took(w, before, Tell(key));
      assert found.Keys - rest + {key} == found.Keys - (rest - {key});
    }

    method RemoveTold(ghost w: nat, msg: nat, event: Ingress, command: Envelope, payload: ResultPayload,
                      found: set<RecipientKey>)
      returns (told: Option<set<RecipientKey>>)
      requires At(w, Worker(msg, event, FanOut(command, payload, found, {})))
      modifies this, executions
      ensures Valid() && old(run) <= run && w !in workers
      ensures told.Some? ==>
                && told.value == found && msg !in queue && HasVerdict(executions.Contents(), command.tx, payload)
                && forall key <- found :: OutcomeId(key, payload) in log
      ensures reliable ==> told.Some?
    {
      var ok := Await(w, Worker(msg, event, FanOut(command, payload, found, {})));
      if !ok {
        return None;
      }
      ghost var before := Value();
      ToldAreLogged(run, before, w);
      queue := queue - {msg};
      Took(w, before, Remove);
      return Some(found);
    }

    /** A transaction key reused for something else: its sender is told, and the message goes. */
    method TellRefused(ghost w: nat, msg: nat, event: Ingress, command: Envelope) returns (ok: bool)
      requires At(w, Worker(msg, event, RefusedClaim(command)))
      modifies this, executions
      ensures Valid() && old(run) <= run && w !in workers
      ensures ok ==> msg !in queue && Conflict(command.id) in log
      ensures reliable ==> ok
    {
      ok := Await(w, Worker(msg, event, RefusedClaim(command)));
      if !ok {
        return;
      }
      ghost var before := Value();
      log := Append(log, ConflictDraft(command));
      Took(w, before, TellConflict);
      ok := RemoveRefused(w, msg, event, command);
    }

    method RemoveRefused(ghost w: nat, msg: nat, event: Ingress, command: Envelope) returns (ok: bool)
      requires At(w, Worker(msg, event, ConflictTold(command))) && Conflict(command.id) in log
      modifies this, executions
      ensures Valid() && old(run) <= run && w !in workers
      ensures ok ==> msg !in queue && Conflict(command.id) in log
      ensures reliable ==> ok
    {
      ghost var n := |run| - 1;
      ok := Await(w, Worker(msg, event, ConflictTold(command)));
      if !ok {
        return;
      }
      LogStays(run, n, |run| - 1, Conflict(command.id));
      ghost var before := Value();
      queue := queue - {msg};
      Took(w, before, DeleteRefused);
    }

    /** Joined to a transaction that still runs: only its source message has to stay. */
    method Leave(ghost w: nat, msg: nat, event: Ingress, command: Envelope, request: EventId) returns (deleted: bool)
      requires At(w, Worker(msg, event, JoinedRunning(command, request)))
      modifies this, executions
      ensures Valid() && old(run) <= run && w !in workers
      ensures deleted ==> request != command.id && msg !in queue
      ensures deleted || reliable ==> command.tx in executions.rows && executions.rows[command.tx].request == request
      ensures reliable ==> (deleted <==> request != command.id)
    {
      deleted := Await(w, Worker(msg, event, JoinedRunning(command, request)));
      if !deleted {
        return;
      }
      ghost var before := Value();
      ClaimIsKnown(run, before, w);
      deleted := request != command.id;
      if deleted {
        queue := queue - {msg};
      }
      Took(w, before, LeaveJoined);
    }

    /** What each way to end says about the tables, the log and the queue. */
    ghost predicate EndsWell(end: End, msg: nat, command: Envelope, answered: bool)
      reads this, executions
    {
      match end
      case Died => !reliable
      case StillRunning => command.tx in executions.rows && executions.rows[command.tx].request == command.id
      case GaveUp(attempt) => reliable && answered ==> LetsIn(executions.Contents(), command.tx, attempt, now)
      case Conflicted => msg !in queue && Conflict(command.id) in log
      case LeftToSource =>
        msg !in queue && command.tx in executions.rows && executions.rows[command.tx].request != command.id
      case Answered(recipients, payload) =>
        && msg !in queue && HasVerdict(executions.Contents(), command.tx, payload)
        && KeyOf(command) in recipients && forall key <- recipients :: OutcomeId(key, payload) in log
    }

    /**
      One delivery of one message. However it ends, all it did was part of a run
      of the protocol. It only lets go of the message once a conflict was told,
      the source message answers for it, or everybody recorded, its own sender
      among them, has the verdict; and it only keeps it for a reason.
     */
    method Process(ghost w: nat, msg: nat, event: Ingress, script: seq<Event>, end: HandlerEnd, answers: (Answer, Answer),
                   message: string)
      returns (result: End, ghost command: Option<Envelope>)
      requires At(w, Worker(msg, event, Delivered))
      modifies this, executions
      ensures Valid() && old(run) <= run && w !in workers
      ensures if command.Some? then EndsWell(result, msg, command.value, answers.1.Answered?) else result.Died? && !reliable
    {
      command := None;
      var recorded := RecordCommand(w, msg, event);
      if recorded.None? {
        return Died, command;
      }
      command := recorded;
      result := ProcessRecorded(w, msg, event, recorded.value, script, end, answers, message);
    }

    method ProcessRecorded(ghost w: nat, msg: nat, event: Ingress, command: Envelope, script: seq<Event>, end: HandlerEnd,
                           answers: (Answer, Answer), message: string)
      returns (result: End)
      requires At(w, Worker(msg, event, Recorded(command)))
      modifies this, executions
      ensures Valid() && old(run) <= run && w !in workers
      ensures EndsWell(result, msg, command, answers.1.Answered?)
    {
      var claim, attempt := Claim(w, msg, event, command);
      match claim
      case None => result := Died;
      case Some(Refused) =>
        var ok := TellRefused(w, msg, event, command);
        result := if ok then Conflicted else Died;
      case Some(Joined(request, false, _)) => result := Join(w, msg, event, command, request);
      case Some(Joined(_, true, stored)) =>
        result := Reply(w, msg, event, command,
                        stored.GetOr(Failed(MissingTerminalResult, "completed execution had no result")));
      case Some(Claimed(attempts)) =>
        result := ProcessClaimed(w, msg, event, command, attempt, attempts, script, end, answers, message);
    }

    method Join(ghost w: nat, msg: nat, event: Ingress, command: Envelope, request: EventId) returns (result: End)
      requires At(w, Worker(msg, event, JoinedRunning(command, request)))
      modifies this, executions
      ensures Valid() && old(run) <= run && w !in workers
      ensures EndsWell(result, msg, command, true)
      ensures result.Died? || result.StillRunning? || result.LeftToSource?
    {
      var deleted := Leave(w, msg, event, command, request);
      return if deleted then LeftToSource else if reliable then StillRunning else Died;
    }

    method Reply(ghost w: nat, msg: nat, event: Ingress, command: Envelope, payload: ResultPayload) returns (result: End)
      requires At(w, Worker(msg, event, Settled(command, payload)))
      modifies this, executions
      ensures Valid() && old(run) <= run && w !in workers
      ensures EndsWell(result, msg, command, true) && (result.Died? || result.Answered?)
      ensures result.Answered? ==> result.payload == payload
    {
      var told := FanOutAll(w, msg, event, command, payload);
      return if told.Some? then End.Answered(told.value, payload) else Died;
    }

    method ProcessClaimed(ghost w: nat, msg: nat, event: Ingress, command: Envelope, attempt: Attempt, attempts: nat,
                          script: seq<Event>, end: HandlerEnd, answers: (Answer, Answer), message: string)
      returns (result: End)
      requires At(w, Worker(msg, event, Handling(command, attempt, attempts, false, NotFenced)))
      modifies this, executions
      ensures Valid() && old(run) <= run && w !in workers
      ensures EndsWell(result, msg, command, answers.1.Answered?)
      ensures result.Died? || result == GaveUp(attempt) || result.Answered?
    {
      var payload := Execute(w, msg, event, command, attempt, attempts, script, end, answers, message);
      if payload.None? {
        return GaveUp(attempt);
      }
      result := Reply(w, msg, event, command, payload.value);
    }
  }
}
