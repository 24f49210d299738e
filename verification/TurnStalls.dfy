/**
  Which iterations stall. A reply decides it: calls without ids of their own can
  be stored, asked for and answered, and never joined. So does a death between
  the latch and what it allows its holder to say.
 */
module TurnStalls {
  import opened Wrappers
  import opened SessionStore
  import opened TurnMachine
  import opened TurnInvariant
  import opened TurnSteps
  import opened TurnRuns
  import opened TurnOrigins
  import opened TurnReady

  ghost predicate DeclaresBy(run: seq<State>, more: seq<State>, turn: string, n: nat) {
    |run| > 0 && IsRun(run + more) && Ready(turn, n) in (run + more)[|run + more| - 1].emitted
  }

  /** Some way for the run to go on has the iteration declared ready. */
  ghost predicate MayBecomeReady(run: seq<State>, turn: string, n: nat) {
    exists more: seq<State> :: DeclaresBy(run, more, turn, n)
  }

  /** Somebody holds the latch and has only to say so. */
  ghost predicate WillDeclare(s: State, turn: string, n: nat) {
    exists p <- s.reactors :: s.reactors[p] == Won(turn, n)
  }

  /** The latch is taken, by nobody who is left to say so, and nobody has. */
  ghost predicate IsLost(s: State, turn: string, n: nat) {
    (turn, n) in s.store.latches && !WillDeclare(s, turn, n) && Ready(turn, n) !in s.emitted
  }

  /** Who holds a latch after a step held it before, or took one that was free. */
  lemma WinnerIsNotNew(s: State, p: nat, choice: Choice, turn: string, n: nat, q: nat)
    requires ReactorsOk(s) && (turn, n) in s.store.latches && p in s.reactors
    requires q in Apply(s, Run(p, choice)).reactors && Apply(s, Run(p, choice)).reactors[q] == Won(turn, n)
    ensures q in s.reactors && s.reactors[q] == Won(turn, n)
  {
    assert PcOk(s.store, s.reactors[p]);
    OnlyWinnersDeclare(s.store, s.reactors[p], choice);
  }

  lemma DeclarerHeldLatch(s: State, p: nat, choice: Choice, turn: string, n: nat)
    requires ReactorsOk(s) && p in s.reactors
    requires Ready(turn, n) !in s.emitted && Ready(turn, n) in Apply(s, Run(p, choice)).emitted
    ensures s.reactors[p] == Won(turn, n)
  {
    assert PcOk(s.store, s.reactors[p]);
    OnlyWinnersDeclare(s.store, s.reactors[p], choice);
    DeclarerIsWinner(s, p, React(s.store, s.reactors[p], choice), turn, n);
  }

  lemma DeclarerIsWinner(s: State, p: nat, c: Change, turn: string, n: nat)
    requires p in s.reactors && TurnSteps.Declares(s.store, s.reactors[p], c)
    requires Ready(turn, n) !in s.emitted && Ready(turn, n) in Commit(s, p, c).emitted
    ensures s.reactors[p] == Won(turn, n)
  {
    assert Ready(turn, n) in c.emit;
  }

  lemma RunKeepsLost(s: State, p: nat, choice: Choice, turn: string, n: nat)
    requires ReactorsOk(s) && IsLost(s, turn, n) && p in s.reactors
    ensures IsLost(Apply(s, Run(p, choice)), turn, n)
  {
    var s' := Apply(s, Run(p, choice));
    if q :| q in s'.reactors && s'.reactors[q] == Won(turn, n) {
      WinnerIsNotNew(s, p, choice, turn, n, q);
      assert false;
    }
    if Ready(turn, n) in s'.emitted {
      DeclarerHeldLatch(s, p, choice, turn, n);
      assert false;
    }
  }

  lemma NextKeepsLost(s: State, s': State, turn: string, n: nat)
    requires Inv(s) && Next(s, s') && IsLost(s, turn, n)
    ensures IsLost(s', turn, n)
  {
    var step :| Enabled(s, step) && s' == Apply(s, step);
    match step
    case Run(p, choice) => RunKeepsLost(s, p, choice, turn, n);
    case _ => OthersKeepLost(s, step, turn, n);
  }

  lemma OthersKeepLost(s: State, step: Step, turn: string, n: nat)
    requires Enabled(s, step) && !step.Run? && IsLost(s, turn, n)
    ensures IsLost(Apply(s, step), turn, n)
  {
    if step.Wake? {
      assert !Woken(step.fact, step.queue).value.Won?;
    }
  }

  lemma {:induction false} LostForEver(run: seq<State>, i: nat, j: nat, turn: string, n: nat)
    requires IsRun(run) && i <= j < |run| && IsLost(run[i], turn, n)
    ensures IsLost(run[j], turn, n)
    decreases j
  {
    if i < j {
      LostForEver(run, i, j - 1, turn, n);
      ReachedInv(run, j - 1);
      assert Linked(run, j);
      NextKeepsLost(run[j - 1], run[j], turn, n);
    }
  }

  /** Whoever declared an iteration ready found calls that could be joined. */
  lemma DeclaredCouldJoin(run: seq<State>, i: nat, turn: string, n: nat)
    requires IsRun(run) && i < |run| && Ready(turn, n) in run[i].emitted
    ensures CanJoin(CallsOf(run[i].store, turn, n)) && n + 1 < run[i].store.maxIterations
  {
    var k :| 0 <= k < |run[i].emitted| && run[i].emitted[k] == Ready(turn, n);
    JoinIsSound(run, i, k);
    ReachedOrigins(run, i);
    var calls := CallsOf(run[i].store, turn, n);
    forall j | 0 <= j < |calls|
      ensures calls[j].id != ""
    {
      assert IsAnswered(run[i].store, turn, n, calls[j].id);
      assert RowHasOrigin(run[i].log, AnswerId(turn, n, calls[j].id));
    }
  }

  /** A run that may get there has what it takes now. */
  lemma OnlyThese(run: seq<State>, turn: string, n: nat)
    requires IsRun(run) && ReplyOf(run[|run| - 1].store, turn, n).Some? && MayBecomeReady(run, turn, n)
    ensures var s := run[|run| - 1];
            || Ready(turn, n) in s.emitted || WillDeclare(s, turn, n)
            || ((turn, n) !in s.store.latches && CanJoin(CallsOf(s.store, turn, n)) && n + 1 < s.store.maxIterations)
  {
    var more :| DeclaresBy(run, more, turn, n);
    var all, now := run + more, |run| - 1;
    assert all[now] == run[now];
    if IsLost(run[now], turn, n) {
      LostForEver(all, now, |all| - 1, turn, n);
    } else {
      DeclaredCouldJoin(all, |all| - 1, turn, n);
      ReplyIsForEver(all, now, |all| - 1, turn, n);
    }
  }

  lemma LeadsIsMore(run: seq<State>, t: State, turn: string, n: nat)
    requires IsRun(run) && Leads(run[|run| - 1], t) && Ready(turn, n) in t.emitted
    ensures MayBecomeReady(run, turn, n)
  {
    var steps :| Follows(run[|run| - 1], steps, t);
    var more := FollowingRuns(run, steps, t);
    assert DeclaresBy(run, more, turn, n);
  }

  lemma AnyOfThese(run: seq<State>, turn: string, n: nat)
    requires IsRun(run)
    requires var s := run[|run| - 1];
             || Ready(turn, n) in s.emitted || WillDeclare(s, turn, n)
             || ((turn, n) !in s.store.latches && CanJoin(CallsOf(s.store, turn, n)) && n + 1 < s.store.maxIterations)
    ensures MayBecomeReady(run, turn, n)
  {
    var s := run[|run| - 1];
    var t := s;
    Stays(s);
    if Ready(turn, n) in s.emitted {
    } else if p :| p in s.reactors && s.reactors[p] == Won(turn, n) {
      t := TurnReady.Declares(s, p, turn, n);
    } else {
      assert Reachable(s);
      t := GetsReady(s, turn, n, CallsOf(s.store, turn, n));
    }
    LeadsIsMore(run, t, turn, n);
  }

  /**
    When an iteration whose reply is stored can still become ready: it was
    declared, it is about to be, or its latch is free and its reply asks, within
    the budget, for calls that each have an id of their own.
   */
  lemma ReadyExactlyWhen(run: seq<State>, turn: string, n: nat)
    requires IsRun(run) && ReplyOf(run[|run| - 1].store, turn, n).Some?
    ensures var s := run[|run| - 1];
            MayBecomeReady(run, turn, n) <==>
            || Ready(turn, n) in s.emitted || WillDeclare(s, turn, n)
            || ((turn, n) !in s.store.latches && CanJoin(CallsOf(s.store, turn, n)) && n + 1 < s.store.maxIterations)
  {
    if MayBecomeReady(run, turn, n) {
      OnlyThese(run, turn, n);
    } else if var s := run[|run| - 1];
              || Ready(turn, n) in s.emitted || WillDeclare(s, turn, n)
              || ((turn, n) !in s.store.latches && CanJoin(CallsOf(s.store, turn, n)) && n + 1 < s.store.maxIterations) {
      AnyOfThese(run, turn, n);
    }
  }

  /** Until somebody takes the latch, the stored reply alone decides. */
  lemma ReplyDecides(run: seq<State>, turn: string, n: nat)
    requires IsRun(run) && ReplyOf(run[|run| - 1].store, turn, n).Some? && (turn, n) !in run[|run| - 1].store.latches
    ensures var s := run[|run| - 1];
            MayBecomeReady(run, turn, n) <==> CanJoin(CallsOf(s.store, turn, n)) && n + 1 < s.store.maxIterations
  {
    var s := run[|run| - 1];
    ReachedInv(run, |run| - 1);
    WinnersAreLatched(s);
    ReadyExactlyWhen(run, turn, n);
  }

  // ---- stalls that happen ----

  function Begun(maxIterations: nat): State {
    State(Store(maxIterations, [], {}), [], map[], map[])
  }

  lemma BeginningIsReachable(maxIterations: nat)
    requires maxIterations >= 1
    ensures Reachable(Begun(maxIterations))
  {
    var run := [Begun(maxIterations)];
    assert IsRun(run) && run[|run| - 1] == Begun(maxIterations);
  }

  lemma Submits(s: State, turn: string, prompt: string) returns (p: nat, t: State)
    requires Reachable(s) && prompt != ""
    ensures Kept(s, t) && t.store == s.store && p in t.reactors && t.reactors[p] == Opening(turn, prompt)
  {
    p := Fresh(s.reactors);
    StepIsKept(s, Submit(p, turn, prompt));
    t := Apply(s, Submit(p, turn, prompt));
  }

  /** Writing under one identity leaves the others. */
  lemma OtherIsUntouched(s: Store, c: Change, id: Identity)
    requires c.append.Some? && id != IdentityOf(c.append.value)
    ensures Lookup(Write(s, c).rows, id) == Lookup(s.rows, id)
  {
    var m := c.append.value;
    assert [m][..0] == [];
    assert AppendAll(s.rows, MaxOrdinal(s.rows), [m]) == AppendOne(s.rows, MaxOrdinal(s.rows) + 1, m);
    AppendOneLooksUp(s.rows, MaxOrdinal(s.rows) + 1, m, id);
  }

  lemma Starts(s: State, turn: string) returns (t: State)
    requires Reachable(s) && ReplyOf(s.store, turn, 0).None?
    ensures Kept(s, t) && StartedKey(turn) in t.log && ReplyOf(t.store, turn, 0).None?
  {
    var p, s1 := Submits(s, turn, "go");
    OtherIsUntouched(s1.store, React(s1.store, s1.reactors[p], Nothing), ReplyId(turn, 0));
    var s2 := RunsOn(s1, p, Nothing);
    KeptOn(s, s1, s2);
    var s3 := Ends(s2, p, TurnStarted(turn));
    KeptOn(s, s2, s3);
    t := Lands(s3, TurnStarted(turn));
    KeptOn(s, s3, t);
  }

  /** The model may reply anything. */
  lemma Replies(s: State, turn: string, reply: Reply) returns (t: State)
    requires Reachable(s) && StartedKey(turn) in s.log && ReplyOf(s.store, turn, 0).None?
    ensures Kept(s, t) && ReplyOf(t.store, turn, 0).Some? && CallsOf(t.store, turn, 0) == reply.calls
  {
    RecordedUnder(s, StartedKey(turn));
    var p, s1 := Wakes(s, s.log[StartedKey(turn)], Model);
    var s2 := RunsOn(s1, p, Nothing);
    KeptOn(s, s1, s2);
    t := Says(s2, p, turn, reply);
    KeptOn(s, s2, t);
  }

  lemma Says(s: State, p: nat, turn: string, reply: Reply) returns (t: State)
    requires Reachable(s) && p in s.reactors && s.reactors[p] == Inferring(turn, 0) && ReplyOf(s.store, turn, 0).None?
    ensures Kept(s, t) && ReplyOf(t.store, turn, 0).Some? && CallsOf(t.store, turn, 0) == reply.calls
  {
    var s1 := RunsOn(s, p, ModelSaid(reply));
    t := RunsOn(s1, p, Nothing);
    KeptOn(s, s1, t);
    FirstReplyIsStored(s1.store, turn, reply);
  }

  lemma FirstReplyIsStored(s: Store, turn: string, reply: Reply)
    requires ReplyOf(s, turn, 0).None?
    ensures var m := Message(turn, 0, Assistant, reply.content, reply.calls, "");
            ReplyOf(Write(s, Change(Some(m), None, [], None)), turn, 0) == Some(m)
  {
    var m := Message(turn, 0, Assistant, reply.content, reply.calls, "");
    assert [m][..0] == [];
    assert AppendAll(s.rows, MaxOrdinal(s.rows), [m]) == AppendOne(s.rows, MaxOrdinal(s.rows) + 1, m);
    AppendOneLooksUp(s.rows, MaxOrdinal(s.rows) + 1, m, ReplyId(turn, 0));
  }

  /**
    A reply whose calls do not each have an id of their own can be stored, and
    then the turn stalls: nothing that may happen makes its iteration ready. With
    ids that repeat, that is so even after every call has been answered.
   */
  lemma BadReplyStalls(maxIterations: nat, turn: string, reply: Reply) returns (run: seq<State>)
    requires maxIterations >= 2 && reply.calls != [] && !CanJoin(reply.calls)
    ensures IsRun(run)
    ensures var s := run[|run| - 1];
            && ReplyOf(s.store, turn, 0).Some? && CallsOf(s.store, turn, 0) == reply.calls
            && (HaveIds(reply.calls) ==> AllAnswered(s.store, turn, 0))
    ensures !MayBecomeReady(run, turn, 0)
  {
    var s := Begun(maxIterations);
    BeginningIsReachable(maxIterations);
    var t := StalledBy(s, turn, reply);
    run :| IsRun(run) && run[|run| - 1] == t;
    ReplyDecides(run, turn, 0);
  }

  lemma StalledBy(s: State, turn: string, reply: Reply) returns (t: State)
    requires s == Begun(s.store.maxIterations) && Reachable(s) && s.store.maxIterations >= 2 && reply.calls != []
    ensures Kept(s, t) && Asks(t, turn, 0, reply.calls)
    ensures HaveIds(reply.calls) ==> AllAnswered(t.store, turn, 0)
  {
    var s1 := Starts(s, turn);
    var s2 := RepliedTo(s1, turn, reply);
    KeptOn(s, s1, s2);
    t := AnswersIfItCan(s2, turn, reply.calls);
    KeptOn(s, s2, t);
  }

  lemma RepliedTo(s: State, turn: string, reply: Reply) returns (t: State)
    requires Reachable(s) && StartedKey(turn) in s.log && s.store.latches == {} && s.store.maxIterations >= 2
    requires reply.calls != [] && ReplyOf(s.store, turn, 0).None?
    ensures Kept(s, t) && Asks(t, turn, 0, reply.calls)
  {
    t := Replies(s, turn, reply);
  }

  lemma AnswersIfItCan(s: State, turn: string, calls: seq<ToolCall>) returns (t: State)
    requires Asks(s, turn, 0, calls)
    ensures Kept(s, t) && Asks(t, turn, 0, calls) && (HaveIds(calls) ==> AllAnswered(t.store, turn, 0))
  {
    if HaveIds(calls) {
      t := GetsAllAnswered(s, turn, 0, calls);
      DoneIsAllAnswered(t, turn, 0, calls);
    } else {
      t := s;
      Stays(s);
    }
  }
}
