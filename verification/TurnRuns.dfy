/**
  A turn is a single bounded line, over any interleaving of reactors that are
  run again, run beside themselves, stopped half-way or lose what they emit.
 */
module TurnRuns {
  import opened Wrappers
  import opened SessionStore
  import opened TurnMachine
  import opened TurnInvariant
  import opened TurnSteps

  ghost predicate Next(s: State, s': State) {
    exists step :: Enabled(s, step) && s' == Apply(s, step)
  }

  ghost predicate IsRun(run: seq<State>) {
    && |run| > 0 && Init(run[0])
    && forall i | 0 < i < |run| :: Linked(run, i)
  }

  ghost predicate Linked(run: seq<State>, i: nat)
    requires 0 < i < |run|
  {
    Next(run[i - 1], run[i])
  }

  lemma NextKeepsInv(s: State, s': State)
    requires Inv(s) && Next(s, s')
    ensures Inv(s')
  {
    var step :| Enabled(s, step) && s' == Apply(s, step);
    StepKeepsInv(s, step);
  }

  lemma {:induction false} ReachedInv(run: seq<State>, i: nat)
    requires IsRun(run) && i < |run|
    ensures Inv(run[i])
  {
    if i > 0 {
      ReachedInv(run, i - 1);
      assert Linked(run, i);
      NextKeepsInv(run[i - 1], run[i]);
    }
  }

  lemma EmittedIsOk(run: seq<State>, i: nat, fact: Fact)
    requires IsRun(run) && i < |run| && fact in run[i].emitted
    ensures Inv(run[i]) && FactOk(run[i].store, fact)
  {
    ReachedInv(run, i);
    var k :| 0 <= k < |run[i].emitted| && run[i].emitted[k] == fact;
  }

  lemma LatchedIsSound(s: Store)
    requires LatchesOk(s)
    ensures forall turn, i: nat | (turn, i) in s.latches :: JoinSound(s, turn, i)
  {
    forall turn, i: nat | (turn, i) in s.latches
      ensures JoinSound(s, turn, i)
    {
      assert LatchOk(s, (turn, i));
    }
  }

  /** Past the iteration that ends the turn there is none. */
  lemma EndIsTheEnd(s: Store, turn: string, i: nat, final: Fact, j: nat)
    requires LatchesOk(s) && EndsWith(s, turn, i, final) && Reached(s, turn, j)
    ensures j <= i
  {
    LatchedIsSound(s);
    assert JoinSound(s, turn, i) <== (turn, i) in s.latches;
  }

  lemma ReachedIsInBudget(s: Store, turn: string, i: nat)
    requires s.maxIterations >= 1 && LatchesOk(s) && Reached(s, turn, i)
    ensures i < s.maxIterations
  {
    if i > 0 {
      assert LatchOk(s, (turn, i - 1));
    }
  }

  /** However many reactors decide that a turn is over, they all say the same thing. */
  lemma FinalIsUnique(run: seq<State>, i: nat, a: Fact, b: Fact)
    requires IsRun(run) && i < |run| && a in run[i].emitted && b in run[i].emitted
    requires a.TurnFinal? && b.TurnFinal? && a.turn == b.turn
    ensures a == b
  {
    EmittedIsOk(run, i, a);
    EmittedIsOk(run, i, b);
    var s := run[i].store;
    var x: nat :| EndsWith(s, a.turn, x, a);
    var y: nat :| EndsWith(s, b.turn, y, b);
    EndIsTheEnd(s, a.turn, x, a, y);
    EndIsTheEnd(s, a.turn, y, b, x);
  }

  predicate Iterates(fact: Fact) {
    !fact.TurnStarted? && !fact.TurnFinal?
  }

  predicate AboutTools(fact: Fact) {
    fact.ToolRequested? || fact.ToolFailed? || fact.ToolStarted? || fact.ToolCompleted? || fact.Ready?
  }

  /** The iteration a fact speaks of has been reached; if it is about tools, the stored reply asks for them. */
  lemma FactWasReached(s: Store, fact: Fact)
    requires LatchesOk(s) && FactOk(s, fact) && Iterates(fact)
    ensures Reached(s, fact.turn, fact.iteration)
    ensures AboutTools(fact) ==> AsksForTools(s, fact.turn, fact.iteration)
    ensures fact.Ready? ==> JoinSound(s, fact.turn, fact.iteration) && Reached(s, fact.turn, fact.iteration + 1)
  {
    if fact.Ready? {
      assert LatchOk(s, (fact.turn, fact.iteration));
    }
  }

  /**
    Once a turn has a final answer, one iteration gave it: no fact of the turn is
    about a later iteration, and none has that iteration asking for tools.
   */
  lemma NothingFollowsTheFinal(run: seq<State>, i: nat, final: Fact) returns (last: nat)
    requires IsRun(run) && i < |run| && final in run[i].emitted && final.TurnFinal?
    ensures EndsWith(run[i].store, final.turn, last, final)
    ensures forall fact | fact in run[i].emitted && Iterates(fact) && fact.turn == final.turn ::
              fact.iteration <= last && (AboutTools(fact) ==> fact.iteration < last)
  {
    EmittedIsOk(run, i, final);
    var s := run[i].store;
    last :| EndsWith(s, final.turn, last, final);
    forall fact | fact in run[i].emitted && Iterates(fact) && fact.turn == final.turn
      ensures fact.iteration <= last && (AboutTools(fact) ==> fact.iteration < last)
    {
      EmittedIsOk(run, i, fact);
      FactWasReached(s, fact);
      EndIsTheEnd(s, final.turn, last, final, fact.iteration);
    }
  }

  /** Every iteration stays below the budget, and so does the one a ready fact opens. */
  lemma TurnIsBounded(run: seq<State>, i: nat, fact: Fact)
    requires IsRun(run) && i < |run| && fact in run[i].emitted && Iterates(fact)
    ensures fact.iteration < run[i].store.maxIterations
    ensures fact.Ready? ==> fact.iteration + 1 < run[i].store.maxIterations
  {
    EmittedIsOk(run, i, fact);
    FactWasReached(run[i].store, fact);
    ReachedIsInBudget(run[i].store, fact.turn, fact.iteration);
  }

  /**
    The join is sound. An iteration is declared ready at most once in a run, and
    only with every call of its stored reply answered. Its calls then have
    distinct ids: a reply that repeats one is never declared ready.
   */
  lemma JoinIsSound(run: seq<State>, i: nat, k: nat)
    requires IsRun(run) && i < |run| && k < |run[i].emitted| && run[i].emitted[k].Ready?
    ensures JoinSound(run[i].store, run[i].emitted[k].turn, run[i].emitted[k].iteration)
    ensures forall j | 0 <= j < |run[i].emitted| && j != k :: run[i].emitted[j] != run[i].emitted[k]
  {
    EmittedIsOk(run, i, run[i].emitted[k]);
    FactWasReached(run[i].store, run[i].emitted[k]);
  }

  /** Facts are recorded after what they claim: a reply is stored, a call is answered. */
  lemma ClaimsAreTrue(run: seq<State>, i: nat, fact: Fact)
    requires IsRun(run) && i < |run| && fact in run[i].emitted
    ensures fact.ModelReplied? ==> ReplyOf(run[i].store, fact.turn, fact.iteration).Some?
    ensures fact.ToolCompleted? ==>
              && fact.index < |CallsOf(run[i].store, fact.turn, fact.iteration)|
              && IsAnswered(run[i].store, fact.turn, fact.iteration,
                            CallsOf(run[i].store, fact.turn, fact.iteration)[fact.index].id)
    ensures fact.ToolRequested? ==>
              && fact.index < |CallsOf(run[i].store, fact.turn, fact.iteration)|
              && fact.call == CallsOf(run[i].store, fact.turn, fact.iteration)[fact.index]
  {
    EmittedIsOk(run, i, fact);
  }

  lemma NextKeepsReply(s: State, s': State, turn: string, i: nat)
    requires Inv(s) && Next(s, s') && ReplyOf(s.store, turn, i).Some?
    ensures ReplyOf(s'.store, turn, i) == ReplyOf(s.store, turn, i)
    ensures s'.store.maxIterations == s.store.maxIterations
  {
    var step :| Enabled(s, step) && s' == Apply(s, step);
    if step.Run? {
      WritingGrows(s.store, React(s.store, s.reactors[step.p], step.choice));
    }
  }

  lemma {:induction false} ReplyIsForEver(run: seq<State>, i: nat, j: nat, turn: string, n: nat)
    requires IsRun(run) && i <= j < |run| && ReplyOf(run[i].store, turn, n).Some?
    ensures ReplyOf(run[j].store, turn, n) == ReplyOf(run[i].store, turn, n)
    ensures run[j].store.maxIterations == run[i].store.maxIterations
    decreases j
  {
    if i < j {
      ReplyIsForEver(run, i, j - 1, turn, n);
      ReachedInv(run, j - 1);
      assert Linked(run, j);
      NextKeepsReply(run[j - 1], run[j], turn, n);
    }
  }

  /**
    Decisions are stable. A reactor about to decide finds the iteration's reply
    stored, and decides now what any reactor would decide at any later moment.
   */
  lemma DecisionIsStable(run: seq<State>, i: nat, j: nat, p: nat)
    requires IsRun(run) && i <= j < |run| && p in run[i].reactors && run[i].reactors[p].Deciding?
    ensures var pc := run[i].reactors[p];
            && ReplyOf(run[i].store, pc.turn, pc.iteration).Some?
            && Decision(pc.turn, pc.iteration, ReplyOf(run[j].store, pc.turn, pc.iteration), run[j].store.maxIterations)
               == Decision(pc.turn, pc.iteration, ReplyOf(run[i].store, pc.turn, pc.iteration), run[i].store.maxIterations)
  {
    ReachedInv(run, i);
    assert PcOk(run[i].store, run[i].reactors[p]);
    ReplyIsForEver(run, i, j, run[i].reactors[p].turn, run[i].reactors[p].iteration);
  }

  /** A recorded fact is one that was emitted, under its own key: so a turn records one final fact at most. */
  lemma LogHoldsEmittedFacts(run: seq<State>, i: nat, key: Key)
    requires IsRun(run) && i < |run| && key in run[i].log
    ensures KeyOf(run[i].log[key]) == key && run[i].log[key] in run[i].emitted
  {
    ReachedInv(run, i);
  }

  /** A reply whose calls share an id: the budget allows it, every call is answered, and no join ever sees it full. */
  lemma RepeatedIdNeverJoins(run: seq<State>, i: nat, turn: string, n: nat, j: nat, k: nat)
    requires IsRun(run) && i < |run| && j < k < |CallsOf(run[i].store, turn, n)|
    requires CallsOf(run[i].store, turn, n)[j].id == CallsOf(run[i].store, turn, n)[k].id
    ensures Ready(turn, n) !in run[i].emitted && (turn, n) !in run[i].store.latches
  {
    ReachedInv(run, i);
    LatchedIsSound(run[i].store);
    WinnersAreLatched(run[i]);
  }
}
