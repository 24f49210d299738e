/**
  The reactors of a turn, as programs: each reads and writes the session step by
  step, with the others in between, and may stop anywhere. Every step is one of
  the choreography, so a whole reaction is part of a run of it.
 */
module Reactors {
  import opened Wrappers
  import opened S = SessionStore
  import opened TurnMachine
  import opened TurnInvariant
  import opened TurnRuns
  import opened TurnContents
  import opened Whitespace

  ghost predicate RunTo(run: seq<State>, s: State) {
    IsRun(run) && run[|run| - 1] == s
  }

  lemma RunGoesOn(run: seq<State>, s: State, step: Step)
    requires RunTo(run, s) && Enabled(s, step)
    ensures RunTo(run + [Apply(s, step)], Apply(s, step))
  {
    var longer := run + [Apply(s, step)];
    forall i | 0 < i < |longer|
      ensures Linked(longer, i)
    {
      if i < |run| {
        assert Linked(run, i);
      } else {
        assert Next(s, Apply(s, step));
      }
    }
  }

  /** Looking a stored row's identity up finds that row. */
  lemma {:induction false} LookupFinds(rows: seq<Row>, k: nat)
    requires Ordered(rows) && k < |rows|
    ensures Lookup(rows, IdentityOf(rows[k].message)) == Some(rows[k].message)
  {
    if k < |rows| - 1 {
      LookupFinds(rows[..|rows| - 1], k);
    }
  }

  /** The newest message of the model under an iteration is the only one, the one first written. */
  lemma NewestIsTheReply(run: seq<State>, s: State, turn: string, i: nat, found: Option<Message>)
    requires RunTo(run, s)
    requires found.Some? ==> exists k | 0 <= k < |s.store.rows| ::
               s.store.rows[k].message == found.value && found.value.turn == turn && found.value.iteration == i
               && found.value.role == Assistant
    requires found.None? ==> forall k | 0 <= k < |s.store.rows| ::
               !(s.store.rows[k].message.turn == turn && s.store.rows[k].message.iteration == i
                 && s.store.rows[k].message.role == Assistant)
    ensures ReplyOf(s.store, turn, i) == found
  {
    ReachedInv(run, |run| - 1);
    AssistantRowsAnswerNothing(s.store);
    if found.Some? {
      var k :| 0 <= k < |s.store.rows| && s.store.rows[k].message == found.value;
      LookupFinds(s.store.rows, k);
    }
  }

  /** What a decision records, all of it. */
  function DecisionFacts(turn: string, i: nat, reply: Option<Message>, maxIterations: nat): seq<Fact> {
    match Decision(turn, i, reply, maxIterations)
    case Ending(_, _, final) => [final]
    case Requesting(_, _, calls, _) => Requests(turn, i, calls)
    case _ => []
  }

  /** The fact that ends the turn with what a reply says. */
  ghost predicate IsFinalOf(fact: Fact, turn: string, reply: Message, maxIterations: nat) {
    fact.TurnFinal? && fact.turn == turn && Concludes(reply, maxIterations, fact.answer, fact.stoppedBy)
  }

  function Requests(turn: string, i: nat, calls: seq<ToolCall>): seq<Fact> {
    seq(|calls|, k requires 0 <= k < |calls| => ToolRequested(turn, i, k, calls[k]))
  }

  /** What a reactor about to write to the history writes, and where that leaves it. */
  function Appended(pc: Pc): Option<(Message, Pc)> {
    match pc
    case Opening(turn, prompt) => Some((Message(turn, 0, User, prompt, [], ""), Opened(turn)))
    case Answering(turn, i, reply) =>
      Some((Message(turn, i, Assistant, reply.content, reply.calls, ""), Answered(turn, i, reply)))
    case ToolRefused(turn, i, index, call) =>
      Some((Message(turn, i, Tool, "error: the bash tool requires a non-empty `command` string.", [], call.id),
            ToolAnswered(turn, i, index, call)))
    case ToolExited(turn, i, index, call, output) =>
      Some((Message(turn, i, Tool, output, [], call.id), ToolAnswered(turn, i, index, call)))
    case _ => None
  }

  lemma RequestsNext(turn: string, i: nat, calls: seq<ToolCall>, k: nat)
    requires k < |calls|
    ensures Requests(turn, i, calls)[..k + 1] == Requests(turn, i, calls)[..k] + [ToolRequested(turn, i, k, calls[k])]
  {
  }

  lemma AppendingIsAStep(s: Store, pc: Pc)
    requires Appended(pc).Some?
    ensures var (message, next) := Appended(pc).value; React(s, pc, Nothing) == Change(Some(message), None, [], Some(next))
  {
  }

  /** The two counts were those of one moment of the run, not before its `from`-th. */
  ghost predicate CountedIn(run: seq<State>, from: nat, turn: string, i: nat, requested: nat, completed: nat) {
    exists n: nat :: from <= n < |run| && CountedAt(run[n].store, turn, i, requested, completed)
  }

  predicate CountedAt(s: Store, turn: string, i: nat, requested: nat, completed: nat) {
    requested == Requested(s.rows, turn, i) && completed == Completed(s.rows, turn, i)
  }

  lemma CountStands(run: seq<State>, longer: seq<State>, from: nat, turn: string, i: nat, requested: nat, completed: nat)
    requires run <= longer
    ensures CountedIn(run, from, turn, i, requested, completed) ==> CountedIn(longer, from, turn, i, requested, completed)
  {
    if n: nat :| from <= n < |run| && CountedAt(run[n].store, turn, i, requested, completed) {
      assert longer[n] == run[n];
    }
  }

  ghost predicate HandedOver(facts: seq<Fact>, last: seq<Fact>) {
    |last| <= |facts| && facts[|facts| - |last|..] == last
  }

  class Reactors {
    const maxIterations: nat
    /** No reaction stops half-way. */
    const reliable: bool
    const sessions: S.SessionStore
    var emitted: seq<Fact>
    ghost var log: map<Key, Fact>
    ghost var reactors: map<nat, Pc>
    ghost var run: seq<State>

    constructor (maxIterations: nat, reliable: bool, sessions: S.SessionStore)
      requires maxIterations >= 1 && sessions.isOpen && sessions.rows == [] && sessions.latches == {}
      ensures Valid() && Init(Value()) && this.sessions == sessions && this.reliable == reliable
    {
      this.maxIterations, this.reliable, this.sessions := maxIterations, reliable, sessions;
      emitted, log, reactors := [], map[], map[];
      new;
      run := [Value()];
    }

    ghost function Value(): State
      reads this, sessions
    {
      State(Store(maxIterations, sessions.rows, sessions.latches), emitted, log, reactors)
    }

    ghost predicate Valid()
      reads this, sessions
    {
      sessions.isOpen && sessions.Valid() && RunTo(run, Value())
    }

    ghost predicate At(p: nat, pc: Pc)
      reads this, sessions
    {
      Valid() && p in reactors && reactors[p] == pc
    }

    /** The other reactors, and facts being recorded: this one sees only that the protocol goes on. */
    method Elsewhere(ghost p: nat, ghost pc: Pc)
      requires At(p, pc)
      modifies this, sessions
      ensures At(p, pc) && old(run) <= run && old(emitted) <= emitted
    {
    }

    /** The fields already hold the step's effect; the ghost ones follow. */
    ghost method Took(p: nat, before: State, choice: Choice)
      requires RunTo(run, before) && p in before.reactors && sessions.isOpen && sessions.Valid()
      requires var after := Apply(before, Run(p, choice));
               after == State(Store(maxIterations, sessions.rows, sessions.latches), emitted, log, after.reactors)
      modifies this`reactors, this`run
      ensures Valid() && Value() == Apply(before, Run(p, choice)) && run == old(run) + [Value()]
    {
      RunGoesOn(run, before, Run(p, choice));
      reactors, run := Apply(before, Run(p, choice)).reactors, run + [Apply(before, Run(p, choice))];
    }

    /** An await: others act, and the reaction may stop here. */
    method Await(ghost p: nat, ghost pc: Pc) returns (ok: bool)
      requires At(p, pc)
      modifies this, sessions
      ensures old(run) <= run && old(emitted) <= emitted
      ensures if ok then At(p, pc) else Valid() && p !in reactors
      ensures reliable ==> ok
    {
      Elsewhere(p, pc);
      if reliable {
        return true;
      }
      if * {
        Took(p, Value(), Stop);
        return false;
      }
      return true;
    }

    /** Hands over a fact; whether and when it is recorded is not the reactor's affair. */
    method Emit(ghost p: nat, ghost pc: Pc, fact: Fact, ghost next: Option<Pc>, ghost choice: Choice)
      requires At(p, pc) && React(Value().store, pc, choice) == Change(None, None, [fact], next)
      modifies this
      ensures Valid() && emitted == old(emitted) + [fact] && fact in emitted && old(run) <= run && Value().store == old(Value()).store
      ensures if next.Some? then At(p, next.value) else p !in reactors
    {
      ghost var before := Value();
      emitted := emitted + [fact];
      Took(p, before, choice);
    }

    /** A step that only moves the reactor on. */
    ghost method Goes(p: nat, pc: Pc, next: Pc, choice: Choice)
      requires At(p, pc) && React(Value().store, pc, choice) == Go(next)
      modifies this`reactors, this`run
      ensures At(p, next) && old(run) <= run
    {
      Took(p, Value(), choice);
    }

    /** Appends a message, first write winning. */
    method Append(ghost p: nat, ghost pc: Pc, message: Message, ghost next: Pc) returns (ok: bool)
      requires At(p, pc) && Appended(pc) == Some((message, next))
      modifies this, sessions
      ensures old(run) <= run && old(emitted) <= emitted
      ensures if ok then At(p, next) else Valid() && p !in reactors
      ensures reliable ==> ok
    {
      ok := Await(p, pc);
      if !ok {
        return;
      }
      ghost var before := Value();
      AppendingIsAStep(before.store, pc);
      var appended := sessions.AppendMessages([message]);
      Took(p, before, Nothing);
    }

    /** The prompt into the history, then the fact that the turn started. */
    method OpenTurn(ghost p: nat, turn: string, prompt: string) returns (done: bool)
      requires At(p, Opening(turn, prompt))
      modifies this, sessions
      ensures Valid() && old(run) <= run && p !in reactors
      ensures done ==> emitted != [] && emitted[|emitted| - 1] == TurnStarted(turn)
      ensures done ==> S.Lookup(sessions.rows, Identity(turn, 0, User, "")).Some?
      ensures reliable ==> done
    {
      done := Append(p, Opening(turn, prompt), Message(turn, 0, User, prompt, [], ""), Opened(turn));
      if done {
        done := Await(p, Opened(turn));
      }
      if done {
        PcIsOk(p, Opened(turn));
        Emit(p, Opened(turn), TurnStarted(turn), None, Nothing);
      }
    }

    /** What the invariant says of a reactor where it stands. */
    lemma PcIsOk(p: nat, pc: Pc)
      requires At(p, pc)
      ensures PcOk(Value().store, pc)
    {
      ReachedInv(run, |run| - 1);
      assert PcOk(Value().store, Value().reactors[p]);
    }

    /** The model's reply into the history, then the fact that it replied. */
    method CallModel(ghost p: nat, turn: string, i: nat, reply: Reply) returns (done: bool)
      requires At(p, Asking(turn, i))
      modifies this, sessions
      ensures Valid() && old(run) <= run && p !in reactors
      ensures IterationStarted(turn, i) in emitted
      ensures done ==> emitted != [] && emitted[|emitted| - 1] == ModelReplied(turn, i, |reply.calls|)
      ensures done ==> ReplyOf(Value().store, turn, i).Some?
      ensures reliable ==> done
    {
      Emit(p, Asking(turn, i), IterationStarted(turn, i), Some(Inferring(turn, i)), Nothing);
      done := HearReply(p, turn, i, reply);
    }

    method HearReply(ghost p: nat, turn: string, i: nat, reply: Reply) returns (done: bool)
      requires At(p, Inferring(turn, i))
      modifies this, sessions
      ensures Valid() && old(run) <= run && p !in reactors && old(emitted) <= emitted
      ensures done ==> emitted != [] && emitted[|emitted| - 1] == ModelReplied(turn, i, |reply.calls|)
      ensures done ==> ReplyOf(Value().store, turn, i).Some?
      ensures reliable ==> done
    {
      done := Infer(p, turn, i, reply);
      if done {
        done := KeepReply(p, turn, i, reply);
      }
    }

    /** The reply goes into the history before the fact is handed over. */
    method KeepReply(ghost p: nat, turn: string, i: nat, reply: Reply) returns (done: bool)
      requires At(p, Answering(turn, i, reply))
      modifies this, sessions
      ensures Valid() && old(run) <= run && p !in reactors && old(emitted) <= emitted
      ensures done ==> emitted != [] && emitted[|emitted| - 1] == ModelReplied(turn, i, |reply.calls|)
      ensures done ==> ReplyOf(Value().store, turn, i).Some?
      ensures reliable ==> done
    {
      done := Append(p, Answering(turn, i, reply), Message(turn, i, Assistant, reply.content, reply.calls, ""),
                     Answered(turn, i, reply));
      if done {
        done := Await(p, Answered(turn, i, reply));
      }
      if done {
        PcIsOk(p, Answered(turn, i, reply));
        Emit(p, Answered(turn, i, reply), ModelReplied(turn, i, |reply.calls|), None, Nothing);
      }
    }

    method Infer(ghost p: nat, turn: string, i: nat, reply: Reply) returns (done: bool)
      requires At(p, Inferring(turn, i))
      modifies this, sessions
      ensures old(run) <= run && old(emitted) <= emitted
      ensures if done then At(p, Answering(turn, i, reply)) else Valid() && p !in reactors
      ensures reliable ==> done
    {
      done := Await(p, Inferring(turn, i));
      if done {
        Goes(p, Inferring(turn, i), Answering(turn, i, reply), ModelSaid(reply));
      }
    }

    /** Reads the model's message back. */
    method ReadReply(ghost p: nat, turn: string, i: nat) returns (ok: bool, found: Option<Message>)
      requires At(p, Deciding(turn, i))
      modifies this, sessions
      ensures old(run) <= run
      ensures !ok ==> Valid() && p !in reactors
      ensures ok ==> At(p, Decision(turn, i, found, maxIterations)) && found == ReplyOf(Value().store, turn, i)
      ensures ok ==> found.Some? && found.value.iteration == i
      ensures reliable ==> ok
    {
      found := None;
      ok := Await(p, Deciding(turn, i));
      if !ok {
        return;
      }
      PcIsOk(p, Deciding(turn, i));
      ghost var before := Value();
      found := sessions.LastAssistantMessage(turn, i);
      NewestIsTheReply(run, before, turn, i, found);
      Took(p, before, Nothing);
    }

    /**
      The decision. Whatever it hands over is what the first-written reply of the
      iteration calls for: the final answer, or one request for each of its calls.
     */
    method DecideReply(ghost p: nat, turn: string, i: nat) returns (final: Option<bool>, ghost reply: Option<Message>)
      requires At(p, Deciding(turn, i))
      modifies this, sessions
      ensures Valid() && old(run) <= run && p !in reactors
      ensures final.Some? ==>
                && reply.Some? && reply == ReplyOf(Value().store, turn, i)
                && (final.value <==> reply.value.calls == [] || i + 1 >= maxIterations)
                && (final.value ==> |emitted| > 0 && IsFinalOf(emitted[|emitted| - 1], turn, reply.value, maxIterations))
                && (!final.value ==> HandedOver(emitted, Requests(turn, i, reply.value.calls)))
      ensures reliable ==> final.Some?
    {
      var ok, found := ReadReply(p, turn, i);
      reply := found;
      if !ok {
        return None, reply;
      }
      TrimmedIsTrimmed(found.value.content);
      var ended := Decide(p, turn, i, found);
      return Some(ended), reply;
    }

    /** What is made of a reply once it is read. */
    method Decide(ghost p: nat, turn: string, i: nat, found: Option<Message>) returns (final: bool)
      requires At(p, Decision(turn, i, found, maxIterations))
      modifies this
      ensures Valid() && old(run) <= run && p !in reactors && Value().store == old(Value()).store
      ensures emitted == old(emitted) + DecisionFacts(turn, i, found, maxIterations)
      ensures DecisionFacts(turn, i, found, maxIterations) != []
      ensures final <==> DecisionFacts(turn, i, found, maxIterations)[0].TurnFinal?
    {
      var calls := if found.Some? then found.value.calls else [];
      if calls == [] {
        var fact := TurnFinal(turn, if found.Some? then Trim(found.value.content) else "", FinalAnswer);
        Emit(p, Ending(turn, i, fact), fact, None, Nothing);
        return true;
      }
      if i + 1 >= maxIterations {
        var fact := TurnFinal(turn, BUDGET_ANSWER, IterationBudget);
        Emit(p, Ending(turn, i, fact), fact, None, Nothing);
        return true;
      }
      RequestAll(p, turn, i, calls);
      return false;
    }

    /** One request a call, handed over in one go. */
    method RequestAll(ghost p: nat, turn: string, i: nat, calls: seq<ToolCall>)
      requires At(p, Requesting(turn, i, calls, 0))
      modifies this
      ensures Valid() && old(run) <= run && p !in reactors && Value().store == old(Value()).store
      ensures emitted == old(emitted) + Requests(turn, i, calls)
    {
      for k := 0 to |calls|
        invariant At(p, Requesting(turn, i, calls, k)) && old(run) <= run && Value().store == old(Value()).store
        invariant emitted == old(emitted) + Requests(turn, i, calls)[..k]
      {
        RequestOne(p, turn, i, calls, k);
        RequestsNext(turn, i, calls, k);
      }
      assert Requests(turn, i, calls)[..|calls|] == Requests(turn, i, calls);
      Took(p, Value(), Nothing);
    }

    method RequestOne(ghost p: nat, turn: string, i: nat, calls: seq<ToolCall>, k: nat)
      requires k < |calls| && At(p, Requesting(turn, i, calls, k))
      modifies this
      ensures At(p, Requesting(turn, i, calls, k + 1)) && old(run) <= run && Value().store == old(Value()).store
      ensures emitted == old(emitted) + [ToolRequested(turn, i, k, calls[k])]
    {
      Emit(p, Requesting(turn, i, calls, k), ToolRequested(turn, i, k, calls[k]), Some(Requesting(turn, i, calls, k + 1)),
           Nothing);
    }

    /**
      The join. It declares the iteration ready only after a full count and with
      the latch in hand, so each of its calls has its answer in the history.
     */
    method JoinTools(ghost p: nat, turn: string, i: nat) returns (requested: nat, completed: nat, ready: bool)
      requires At(p, Joining(turn, i))
      modifies this, sessions
      ensures Valid() && old(run) <= run && p !in reactors
      ensures reliable ==> CountedIn(run, |old(run)|, turn, i, requested, completed)
      ensures reliable && requested > 0 && completed >= requested ==> (turn, i) in sessions.latches
      ensures ready ==> emitted != [] && emitted[|emitted| - 1] == Ready(turn, i)
      ensures ready ==> (turn, i) in sessions.latches && JoinSound(Value().store, turn, i)
    {
      var ok;
      ok, requested, completed := Count(p, turn, i);
      if !ok {
        return requested, completed, false;
      }
      ghost var counted := run;
      ready := Conclude(p, turn, i, requested, completed);
      CountStands(counted, run, |old(run)|, turn, i, requested, completed);
    }

    /** Only who sees a full count and gets the latch declares. */
    method Conclude(ghost p: nat, turn: string, i: nat, requested: nat, completed: nat) returns (ready: bool)
      requires At(p, Counted(turn, i, requested, completed))
      modifies this, sessions
      ensures Valid() && old(run) <= run && p !in reactors
      ensures reliable && requested > 0 && completed >= requested ==> (turn, i) in sessions.latches
      ensures ready ==> emitted != [] && emitted[|emitted| - 1] == Ready(turn, i)
      ensures ready ==> (turn, i) in sessions.latches && JoinSound(Value().store, turn, i)
    {
      ready := Claim(p, turn, i, requested, completed);
      if ready {
        ready := Declare(p, turn, i);
      }
    }

    method Declare(ghost p: nat, turn: string, i: nat) returns (ready: bool)
      requires At(p, Won(turn, i))
      modifies this, sessions
      ensures Valid() && old(run) <= run && p !in reactors
      ensures ready ==> emitted != [] && emitted[|emitted| - 1] == Ready(turn, i)
      ensures ready ==> (turn, i) in sessions.latches && JoinSound(Value().store, turn, i)
      ensures reliable ==> ready
    {
      ready := Await(p, Won(turn, i));
      if ready {
        ghost var store := Value().store;
        WinnerIsSound(p, turn, i);
        assert JoinSound(store, turn, i);
        Emit(p, Won(turn, i), Ready(turn, i), None, Nothing);
        assert Value().store == store;
      }
    }

    method Count(ghost p: nat, turn: string, i: nat) returns (ok: bool, requested: nat, completed: nat)
      requires At(p, Joining(turn, i))
      modifies this, sessions
      ensures old(run) <= run
      ensures if ok then At(p, Counted(turn, i, requested, completed)) else Valid() && p !in reactors
      ensures reliable ==> ok
      ensures reliable ==> CountedIn(run, |old(run)|, turn, i, requested, completed)
    {
      requested, completed := 0, 0;
      ok := Await(p, Joining(turn, i));
      if !ok {
        return;
      }
      ghost var before := Value();
      requested, completed := sessions.ToolProgress(turn, i);
      Took(p, before, Nothing);
    }

    method Claim(ghost p: nat, turn: string, i: nat, requested: nat, completed: nat) returns (won: bool)
      requires At(p, Counted(turn, i, requested, completed))
      modifies this, sessions
      ensures old(run) <= run && old(emitted) <= emitted
      ensures if won then At(p, Won(turn, i)) else Valid() && p !in reactors
      ensures won ==> requested > 0 && completed >= requested
      ensures reliable && requested > 0 && completed >= requested ==> (turn, i) in sessions.latches
    {
      if requested == 0 || completed < requested {
        Took(p, Value(), Nothing);
        return false;
      }
      won := Await(p, Counted(turn, i, requested, completed));
      if !won {
        return;
      }
      ghost var before := Value();
      won := sessions.ClaimIterationReady(turn, i);
      assert !won ==> sessions.latches == before.store.latches;
      Took(p, before, Nothing);
    }

    lemma WinnerIsSound(p: nat, turn: string, i: nat)
      requires At(p, Won(turn, i))
      ensures (turn, i) in sessions.latches && JoinSound(Value().store, turn, i)
    {
      ReachedInv(run, |run| - 1);
      assert PcOk(Value().store, Value().reactors[p]);
      assert LatchOk(Value().store, (turn, i));
    }

    /**
      One call: refused, found answered, or run behind the fence. When it reports
      the call completed, the answer is in the history.
     */
    method RunTool(ghost p: nat, turn: string, i: nat, index: nat, call: ToolCall, owned: bool, output: string)
      returns (done: bool)
      requires At(p, ToolWoken(turn, i, index, call))
      modifies this, sessions
      ensures Valid() && old(run) <= run && p !in reactors
      ensures done ==> emitted != [] && emitted[|emitted| - 1] == ToolCompleted(turn, i, index)
      ensures done ==> IsAnswered(Value().store, turn, i, call.id)
      ensures call.id != "" && call.command == "" ==> ToolFailed(turn, i, index) in emitted
      ensures reliable && call.id != "" && (call.command == "" || owned) ==> done
    {
      if call.id == "" {
        Took(p, Value(), Nothing);
        return false;
      }
      if call.command == "" {
        done := Refuse(p, turn, i, index, call);
      } else {
        done := RunOnce(p, turn, i, index, call, owned, output);
      }
      if done {
        done := Report(p, turn, i, index, call);
      }
    }

    /** A refused call still has to answer, or the join would wait for ever. */
    method Refuse(ghost p: nat, turn: string, i: nat, index: nat, call: ToolCall) returns (done: bool)
      requires At(p, ToolWoken(turn, i, index, call)) && call.id != "" && call.command == ""
      modifies this, sessions
      ensures old(run) <= run && ToolFailed(turn, i, index) in emitted
      ensures if done then At(p, ToolAnswered(turn, i, index, call)) else Valid() && p !in reactors
      ensures reliable ==> done
    {
      Emit(p, ToolWoken(turn, i, index, call), ToolFailed(turn, i, index), Some(ToolRefused(turn, i, index, call)), Nothing);
      done := Append(p, ToolRefused(turn, i, index, call),
                     Message(turn, i, Tool, "error: the bash tool requires a non-empty `command` string.", [], call.id),
                     ToolAnswered(turn, i, index, call));
    }

    /** A call whose answer is in the history is not run again. */
    method RunOnce(ghost p: nat, turn: string, i: nat, index: nat, call: ToolCall, owned: bool, output: string)
      returns (done: bool)
      requires At(p, ToolWoken(turn, i, index, call)) && call.id != "" && call.command != ""
      modifies this, sessions
      ensures old(run) <= run
      ensures if done then At(p, ToolAnswered(turn, i, index, call)) else Valid() && p !in reactors
      ensures reliable && owned ==> done
    {
      var answered;
      done, answered := LookForAnswer(p, turn, i, index, call);
      if done && !answered {
        done := RunCommand(p, turn, i, index, call, owned, output);
      }
    }

    method LookForAnswer(ghost p: nat, turn: string, i: nat, index: nat, call: ToolCall) returns (ok: bool, answered: bool)
      requires At(p, ToolWoken(turn, i, index, call)) && call.id != "" && call.command != ""
      modifies this, sessions
      ensures old(run) <= run && (ok ==> answered == IsAnswered(Value().store, turn, i, call.id))
      ensures if ok then At(p, if answered then ToolAnswered(turn, i, index, call) else ToolUnanswered(turn, i, index, call))
              else Valid() && p !in reactors
      ensures reliable ==> ok
    {
      answered := false;
      ok := Await(p, ToolWoken(turn, i, index, call));
      if ok {
        answered := Lookup(sessions.rows, AnswerId(turn, i, call.id)).Some?;
        Goes(p, ToolWoken(turn, i, index, call),
             if answered then ToolAnswered(turn, i, index, call) else ToolUnanswered(turn, i, index, call), Nothing);
      }
    }

    method Report(ghost p: nat, turn: string, i: nat, index: nat, call: ToolCall) returns (done: bool)
      requires At(p, ToolAnswered(turn, i, index, call))
      modifies this, sessions
      ensures Valid() && old(run) <= run && p !in reactors && old(emitted) <= emitted
      ensures done ==> emitted != [] && emitted[|emitted| - 1] == ToolCompleted(turn, i, index)
      ensures done ==> IsAnswered(Value().store, turn, i, call.id)
      ensures reliable ==> done
    {
      done := Await(p, ToolAnswered(turn, i, index, call));
      if done {
        PcIsOk(p, ToolAnswered(turn, i, index, call));
        Emit(p, ToolAnswered(turn, i, index, call), ToolCompleted(turn, i, index), None, Nothing);
      }
    }

    /** Past the fence, the command; then its answer. A refused fence runs nothing. */
    method RunCommand(ghost p: nat, turn: string, i: nat, index: nat, call: ToolCall, owned: bool, output: string)
      returns (done: bool)
      requires At(p, ToolUnanswered(turn, i, index, call))
      modifies this, sessions
      ensures old(run) <= run && old(emitted) <= emitted
      ensures if done then At(p, ToolAnswered(turn, i, index, call)) else Valid() && p !in reactors
      ensures done ==> owned && ToolStarted(turn, i, index) in emitted
      ensures reliable && owned ==> done
    {
      done := PassFence(p, turn, i, index, call, owned);
      if done {
        done := Execute(p, turn, i, index, call, output);
      }
    }

    method PassFence(ghost p: nat, turn: string, i: nat, index: nat, call: ToolCall, owned: bool) returns (done: bool)
      requires At(p, ToolUnanswered(turn, i, index, call))
      modifies this, sessions
      ensures old(run) <= run && old(emitted) <= emitted
      ensures if done then At(p, ToolRunning(turn, i, index, call)) else Valid() && p !in reactors
      ensures done ==> owned && ToolStarted(turn, i, index) in emitted
      ensures reliable && owned ==> done
    {
      done := Await(p, ToolUnanswered(turn, i, index, call));
      if done && !owned {
        Took(p, Value(), FenceSaid(false));
        done := false;
      } else if done {
        Emit(p, ToolUnanswered(turn, i, index, call), ToolStarted(turn, i, index),
             Some(ToolRunning(turn, i, index, call)), FenceSaid(true));
      }
    }

    method Execute(ghost p: nat, turn: string, i: nat, index: nat, call: ToolCall, output: string) returns (done: bool)
      requires At(p, ToolRunning(turn, i, index, call))
      modifies this, sessions
      ensures old(run) <= run && old(emitted) <= emitted
      ensures if done then At(p, ToolAnswered(turn, i, index, call)) else Valid() && p !in reactors
      ensures reliable ==> done
    {
      done := AwaitOutput(p, turn, i, index, call, output);
      if done {
        done := KeepOutput(p, turn, i, index, call, output);
      }
    }

    method AwaitOutput(ghost p: nat, turn: string, i: nat, index: nat, call: ToolCall, output: string) returns (done: bool)
      requires At(p, ToolRunning(turn, i, index, call))
      modifies this, sessions
      ensures old(run) <= run && old(emitted) <= emitted
      ensures if done then At(p, ToolExited(turn, i, index, call, output)) else Valid() && p !in reactors
      ensures reliable ==> done
    {
      done := Await(p, ToolRunning(turn, i, index, call));
      if done {
        Goes(p, ToolRunning(turn, i, index, call), ToolExited(turn, i, index, call, output), CommandPrinted(output));
      }
    }

    /** The answer goes into the history before the call is said to be completed. */
    method KeepOutput(ghost p: nat, turn: string, i: nat, index: nat, call: ToolCall, output: string) returns (done: bool)
      requires At(p, ToolExited(turn, i, index, call, output))
      modifies this, sessions
      ensures old(run) <= run && old(emitted) <= emitted
      ensures if done then At(p, ToolAnswered(turn, i, index, call)) else Valid() && p !in reactors
      ensures reliable ==> done
    {
      done := Append(p, ToolExited(turn, i, index, call, output), Message(turn, i, Tool, output, [], call.id),
                     ToolAnswered(turn, i, index, call));
    }
  }
}
