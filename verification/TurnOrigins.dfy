/**
  Where a turn's iterations come from: an iteration is only worked on once the
  fact that opens it is recorded, and a call without an id is never answered.
 */
module TurnOrigins {
  import opened Wrappers
  import opened SessionStore
  import opened TurnMachine
  import opened TurnInvariant
  import opened TurnSteps
  import opened TurnRuns

  /** The key of the fact that opens an iteration. */
  function OpenerOf(turn: string, i: nat): Key {
    if i == 0 then StartedKey(turn) else ReadyKey(turn, i - 1)
  }

  predicate IsAsking(pc: Pc) {
    pc.Asking? || pc.Inferring? || pc.Answering? || pc.Answered?
  }

  predicate IsAnswering(pc: Pc) {
    pc.ToolRefused? || pc.ToolUnanswered? || pc.ToolRunning? || pc.ToolExited? || pc.ToolAnswered?
  }

  predicate PcHasOrigin(log: map<Key, Fact>, pc: Pc) {
    && (IsAsking(pc) ==> OpenerOf(pc.turn, pc.iteration) in log)
    && (IsAnswering(pc) ==> pc.call.id != "")
  }

  predicate RowHasOrigin(log: map<Key, Fact>, id: Identity) {
    && (id.role.Assistant? ==> id.iteration >= 0 && OpenerOf(id.turn, id.iteration) in log)
    && (id.role.Tool? ==> id.callId != "")
  }

  ghost predicate Origins(s: State) {
    && (forall p <- s.reactors :: PcHasOrigin(s.log, s.reactors[p]))
    && (forall id | Lookup(s.store.rows, id).Some? :: RowHasOrigin(s.log, id))
  }

  predicate ChangeHasOrigin(log: map<Key, Fact>, c: Change) {
    && (c.next.Some? ==> PcHasOrigin(log, c.next.value))
    && (c.append.Some? ==> RowHasOrigin(log, IdentityOf(c.append.value)))
  }

  lemma AskingHasOrigin(s: Store, log: map<Key, Fact>, pc: Pc, choice: Choice)
    requires PcHasOrigin(log, pc) && IsAsking(pc)
    ensures ChangeHasOrigin(log, React(s, pc, choice))
  {
  }

  lemma AnsweringHasOrigin(s: Store, log: map<Key, Fact>, pc: Pc, choice: Choice)
    requires PcHasOrigin(log, pc) && IsAnswering(pc)
    ensures ChangeHasOrigin(log, React(s, pc, choice))
  {
  }

  lemma WakingHasOrigin(s: Store, log: map<Key, Fact>, pc: Pc, choice: Choice)
    requires pc.ToolWoken?
    ensures ChangeHasOrigin(log, React(s, pc, choice))
  {
  }

  lemma RestHasOrigin(s: Store, log: map<Key, Fact>, pc: Pc, choice: Choice)
    requires PcHasOrigin(log, pc) && !IsAsking(pc) && !IsAnswering(pc) && !pc.ToolWoken?
    ensures ChangeHasOrigin(log, React(s, pc, choice))
  {
  }

  /** What a step of a reactor writes and becomes has its origin. */
  lemma ReactionHasOrigin(s: Store, log: map<Key, Fact>, pc: Pc, choice: Choice)
    requires PcHasOrigin(log, pc)
    ensures ChangeHasOrigin(log, React(s, pc, choice))
  {
    if IsAsking(pc) {
      AskingHasOrigin(s, log, pc, choice);
    } else if IsAnswering(pc) {
      AnsweringHasOrigin(s, log, pc, choice);
    } else if pc.ToolWoken? {
      WakingHasOrigin(s, log, pc, choice);
    } else {
      RestHasOrigin(s, log, pc, choice);
    }
  }

  lemma RunKeepsOrigins(s: State, p: nat, choice: Choice)
    requires Inv(s) && Origins(s) && p in s.reactors
    ensures Origins(Apply(s, Run(p, choice)))
  {
    ReactionHasOrigin(s.store, s.log, s.reactors[p], choice);
    WritingGrows(s.store, React(s.store, s.reactors[p], choice));
  }

  lemma WakeKeepsOrigins(s: State, p: nat, fact: Fact, queue: Queue)
    requires Inv(s) && Origins(s) && Enabled(s, Wake(p, fact, queue))
    ensures Origins(Apply(s, Wake(p, fact, queue)))
  {
    WokenHasOrigin(s, fact, queue);
  }

  lemma WokenHasOrigin(s: State, fact: Fact, queue: Queue)
    requires FactsOk(s) && fact in s.log.Values && Woken(fact, queue).Some?
    ensures PcHasOrigin(s.log, Woken(fact, queue).value)
  {
    var key :| key in s.log && s.log[key] == fact;
    assert KeyOf(fact) == key;
  }

  lemma StepKeepsOrigins(s: State, step: Step)
    requires Inv(s) && Origins(s) && Enabled(s, step)
    ensures Origins(Apply(s, step))
  {
    match step
    case Run(p, choice) => RunKeepsOrigins(s, p, choice);
    case Wake(p, fact, queue) => WakeKeepsOrigins(s, p, fact, queue);
    case Submit(_, _, _) =>
    case Land(fact) => LandKeepsOrigins(s, fact);
  }

  lemma LandKeepsOrigins(s: State, fact: Fact)
    requires Origins(s) && Enabled(s, Land(fact))
    ensures Origins(Apply(s, Land(fact)))
  {
    var s' := Apply(s, Land(fact));
    forall p <- s'.reactors
      ensures PcHasOrigin(s'.log, s'.reactors[p])
    {
      assert PcHasOrigin(s.log, s.reactors[p]);
    }
    forall id | Lookup(s'.store.rows, id).Some?
      ensures RowHasOrigin(s'.log, id)
    {
      assert RowHasOrigin(s.log, id);
    }
  }

  lemma NextKeepsOrigins(s: State, s': State)
    requires Inv(s) && Origins(s) && Next(s, s')
    ensures Origins(s')
  {
    var step :| Enabled(s, step) && s' == Apply(s, step);
    StepKeepsOrigins(s, step);
  }

  lemma {:induction false} ReachedOrigins(run: seq<State>, i: nat)
    requires IsRun(run) && i < |run|
    ensures Origins(run[i])
  {
    if i > 0 {
      ReachedOrigins(run, i - 1);
      LinkKeepsOrigins(run, i);
    }
  }

  lemma LinkKeepsOrigins(run: seq<State>, i: nat)
    requires IsRun(run) && 0 < i < |run| && Origins(run[i - 1])
    ensures Origins(run[i])
  {
    ReachedInv(run, i - 1);
    assert Linked(run, i);
    NextKeepsOrigins(run[i - 1], run[i]);
  }
}
