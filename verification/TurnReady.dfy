/**
  When an iteration can still be declared ready: exactly when its latch is free
  and its stored reply asks for calls that all have ids of their own, unless
  the latch is already with somebody who will declare it.
 */
module TurnReady {
  import opened Wrappers
  import opened SessionStore
  import opened TurnMachine
  import opened TurnInvariant
  import opened TurnSteps
  import opened TurnRuns
  import opened TurnOrigins

  // ---- going on from a state ----

  ghost predicate Reachable(s: State) {
    exists run :: IsRun(run) && run[|run| - 1] == s
  }

  lemma ReachableIsInOrder(s: State)
    requires Reachable(s)
    ensures Inv(s) && Origins(s)
  {
    var run :| IsRun(run) && run[|run| - 1] == s;
    LastIsInOrder(run, s);
  }

  lemma LastIsInOrder(run: seq<State>, s: State)
    requires IsRun(run) && run[|run| - 1] == s
    ensures Inv(s) && Origins(s)
  {
    ReachedInv(run, |run| - 1);
    ReachedOrigins(run, |run| - 1);
  }

  lemma StepIsReachable(s: State, step: Step)
    requires Reachable(s) && Enabled(s, step)
    ensures Reachable(Apply(s, step))
  {
    var run :| IsRun(run) && run[|run| - 1] == s;
    OneMore(run, step);
    var longer := run + [Apply(s, step)];
    assert IsRun(longer) && longer[|longer| - 1] == Apply(s, step);
  }

  /** What is recorded under a key has that key, and its claims hold. */
  lemma RecordedUnder(s: State, key: Key)
    requires Reachable(s) && key in s.log
    ensures KeyOf(s.log[key]) == key && s.log[key] in s.log.Values && FactOk(s.store, s.log[key])
  {
    ReachableIsInOrder(s);
    RecordedIsOk(s, s.log[key]);
  }

  ghost predicate Follows(s: State, steps: seq<Step>, t: State)
    decreases |steps|
  {
    if steps == [] then s == t else Enabled(s, steps[0]) && Follows(Apply(s, steps[0]), steps[1..], t)
  }

  ghost predicate Leads(s: State, t: State) {
    exists steps :: Follows(s, steps, t)
  }

  lemma {:induction false} FollowsOn(s: State, steps: seq<Step>, t: State, more: seq<Step>, u: State)
    requires Follows(s, steps, t) && Follows(t, more, u)
    ensures Follows(s, steps + more, u)
    decreases |steps|
  {
    if steps == [] {
      assert steps + more == more;
    } else {
      FollowsOn(Apply(s, steps[0]), steps[1..], t, more, u);
      assert (steps + more)[1..] == steps[1..] + more;
    }
  }

  lemma LeadsOn(s: State, t: State, u: State)
    requires Leads(s, t) && Leads(t, u)
    ensures Leads(s, u)
  {
    var steps :| Follows(s, steps, t);
    var more :| Follows(t, more, u);
    FollowsOn(s, steps, t, more, u);
  }

  lemma StepLeads(s: State, step: Step)
    requires Enabled(s, step)
    ensures Leads(s, Apply(s, step))
  {
    assert Follows(Apply(s, step), [], Apply(s, step));
    assert [step][1..] == [];
    assert Follows(s, [step], Apply(s, step));
  }

  lemma Stays(s: State)
    ensures Leads(s, s)
  {
    assert Follows(s, [], s);
  }

  /** Going on is a longer run. */
  lemma {:induction false} FollowingRuns(run: seq<State>, steps: seq<Step>, t: State) returns (more: seq<State>)
    requires IsRun(run) && Follows(run[|run| - 1], steps, t)
    ensures IsRun(run + more) && (run + more)[|run + more| - 1] == t
    decreases |steps|
  {
    if steps == [] {
      more := [];
      assert run + more == run;
    } else {
      var next := Apply(run[|run| - 1], steps[0]);
      OneMore(run, steps[0]);
      var rest := FollowingRuns(run + [next], steps[1..], t);
      more := [next] + rest;
      assert run + more == run + [next] + rest;
    }
  }

  lemma OneMore(run: seq<State>, step: Step)
    requires IsRun(run) && Enabled(run[|run| - 1], step)
    ensures IsRun(run + [Apply(run[|run| - 1], step)])
  {
    var longer := run + [Apply(run[|run| - 1], step)];
    forall i | 0 < i < |longer|
      ensures Linked(longer, i)
    {
      if i < |run| {
        assert Linked(run, i);
      } else {
        assert Next(run[|run| - 1], longer[i]);
      }
    }
  }

  // ---- what steps towards readiness leave alone ----

  ghost predicate KeepsRows(s: Store, t: Store) {
    forall id | Lookup(s.rows, id).Some? :: Lookup(t.rows, id) == Lookup(s.rows, id)
  }

  ghost predicate KeepsLog(s: State, t: State) {
    forall key <- s.log :: key in t.log && t.log[key] == s.log[key]
  }

  ghost predicate Kept(s: State, t: State) {
    && Leads(s, t) && Reachable(t)
    && t.store.maxIterations == s.store.maxIterations && t.store.latches == s.store.latches
    && KeepsRows(s.store, t.store) && KeepsLog(s, t)
  }

  lemma KeptOn(s: State, t: State, u: State)
    requires Kept(s, t) && Kept(t, u)
    ensures Kept(s, u)
  {
    LeadsOn(s, t, u);
    forall id | Lookup(s.store.rows, id).Some?
      ensures Lookup(u.store.rows, id) == Lookup(s.store.rows, id)
    {
      assert Lookup(t.store.rows, id) == Lookup(s.store.rows, id);
    }
    forall key <- s.log
      ensures key in u.log && u.log[key] == s.log[key]
    {
      assert key in t.log && t.log[key] == s.log[key];
    }
  }

  lemma StepIsKept(s: State, step: Step)
    requires Reachable(s) && Enabled(s, step)
    requires step.Run? ==> React(s.store, s.reactors[step.p], step.choice).latch.None?
    ensures Kept(s, Apply(s, step))
  {
    StepLeads(s, step);
    StepIsReachable(s, step);
    if step.Run? {
      ReachableIsInOrder(s);
      WritingGrows(s.store, React(s.store, s.reactors[step.p], step.choice));
    }
  }

  /** A reactor takes a step and goes on. */
  lemma RunsOn(s: State, p: nat, choice: Choice) returns (t: State)
    requires Reachable(s) && p in s.reactors
    requires var c := React(s.store, s.reactors[p], choice); c.latch.None? && c.next.Some?
    ensures var c := React(s.store, s.reactors[p], choice);
            && Kept(s, t) && t == Commit(s, p, c) && p in t.reactors && t.reactors[p] == c.next.value
  {
    StepIsKept(s, Run(p, choice));
    t := Apply(s, Run(p, choice));
  }

  /** A reactor is woken that was not there. */
  lemma Wakes(s: State, fact: Fact, queue: Queue) returns (p: nat, t: State)
    requires Reachable(s) && fact in s.log.Values && queue in Reactions(fact) && Woken(fact, queue).Some?
    ensures Kept(s, t) && t.store == s.store && p in t.reactors && t.reactors[p] == Woken(fact, queue).value
  {
    p := Fresh(s.reactors);
    StepIsKept(s, Wake(p, fact, queue));
    t := Apply(s, Wake(p, fact, queue));
  }

  lemma Fresh(reactors: map<nat, Pc>) returns (p: nat)
    ensures p !in reactors
  {
    p := Top(reactors.Keys);
    assert p in reactors ==> p < p;
  }

  lemma {:induction false} Top(ps: set<nat>) returns (top: nat)
    ensures forall p | p in ps :: p < top
    decreases ps
  {
    if ps == {} {
      return 0;
    }
    var q :| q in ps;
    var rest := Top(ps - {q});
    top := if q < rest then rest else q + 1;
    forall p | p in ps
      ensures p < top
    {
      assert p == q || p in ps - {q};
    }
  }

  /** A fact handed over is recorded, unless its key was. */
  lemma Lands(s: State, fact: Fact) returns (t: State)
    requires Reachable(s) && fact in s.emitted
    ensures Kept(s, t) && t.store == s.store && t.reactors == s.reactors && KeyOf(fact) in t.log
  {
    StepIsKept(s, Land(fact));
    t := Apply(s, Land(fact));
  }

  // ---- the reply is announced, its calls are requested ----

  /** An iteration whose reply is stored, and asks for calls the budget allows. */
  ghost predicate Asks(s: State, turn: string, n: nat, calls: seq<ToolCall>) {
    Reachable(s) && CallsOf(s.store, turn, n) == calls && AsksForTools(s.store, turn, n)
  }

  lemma AsksStill(s: State, t: State, turn: string, n: nat, calls: seq<ToolCall>)
    requires Asks(s, turn, n, calls) && Kept(s, t)
    ensures Asks(t, turn, n, calls)
  {
    assert Lookup(s.store.rows, ReplyId(turn, n)).Some?;
  }

  /** Asked again, the model may say anything: the stored reply stands, and is announced. */
  lemma GetsReplied(s: State, turn: string, n: nat, calls: seq<ToolCall>) returns (t: State)
    requires Asks(s, turn, n, calls)
    ensures Kept(s, t) && Asks(t, turn, n, calls) && RepliedKey(turn, n) in t.log
  {
    var p, s1 := AsksAgain(s, turn, n, calls);
    t := RecordsReply(s1, p, turn, n);
    KeptOn(s, s1, t);
    AsksStill(s, t, turn, n, calls);
  }

  lemma AsksAgain(s: State, turn: string, n: nat, calls: seq<ToolCall>) returns (p: nat, t: State)
    requires Asks(s, turn, n, calls)
    ensures Kept(s, t) && p in t.reactors && t.reactors[p] == Inferring(turn, n)
  {
    var s1;
    p, s1 := WakesModel(s, turn, n, calls);
    t := RunsOn(s1, p, Nothing);
    KeptOn(s, s1, t);
  }

  lemma RecordsReply(s: State, p: nat, turn: string, n: nat) returns (t: State)
    requires Reachable(s) && p in s.reactors && s.reactors[p] == Inferring(turn, n)
    ensures Kept(s, t) && RepliedKey(turn, n) in t.log
  {
    var s1 := AnnouncesReply(s, p, turn, n);
    t := Lands(s1, ModelReplied(turn, n, 0));
    KeptOn(s, s1, t);
  }

  lemma WakesModel(s: State, turn: string, n: nat, calls: seq<ToolCall>) returns (p: nat, t: State)
    requires Asks(s, turn, n, calls)
    ensures Kept(s, t) && p in t.reactors && t.reactors[p] == Asking(turn, n)
  {
    OpenerIsRecorded(s, turn, n, calls);
    RecordedUnder(s, OpenerOf(turn, n));
    p, t := Wakes(s, s.log[OpenerOf(turn, n)], Model);
  }

  lemma OpenerIsRecorded(s: State, turn: string, n: nat, calls: seq<ToolCall>)
    requires Asks(s, turn, n, calls)
    ensures OpenerOf(turn, n) in s.log
  {
    ReachableIsInOrder(s);
    assert RowHasOrigin(s.log, ReplyId(turn, n));
  }

  lemma AnnouncesReply(s: State, p: nat, turn: string, n: nat) returns (t: State)
    requires Reachable(s) && p in s.reactors && s.reactors[p] == Inferring(turn, n)
    ensures Kept(s, t) && ModelReplied(turn, n, 0) in t.emitted
  {
    var s1 := RunsOn(s, p, ModelSaid(Reply("", [])));
    t := StoresAndAnnounces(s1, p, turn, n);
    KeptOn(s, s1, t);
  }

  lemma StoresAndAnnounces(s: State, p: nat, turn: string, n: nat) returns (t: State)
    requires Reachable(s) && p in s.reactors && s.reactors[p] == Answering(turn, n, Reply("", []))
    ensures Kept(s, t) && ModelReplied(turn, n, 0) in t.emitted
  {
    var s1 := RunsOn(s, p, Nothing);
    t := Ends(s1, p, ModelReplied(turn, n, 0));
    KeptOn(s, s1, t);
  }

  /** A reactor's last step hands a fact over. */
  lemma Ends(s: State, p: nat, fact: Fact) returns (t: State)
    requires Reachable(s) && p in s.reactors && React(s.store, s.reactors[p], Nothing) == Change(None, None, [fact], None)
    ensures Kept(s, t) && t.store == s.store && fact in t.emitted
  {
    StepIsKept(s, Run(p, Nothing));
    t := Apply(s, Run(p, Nothing));
    assert t.emitted == s.emitted + [fact];
  }

  ghost predicate AllRequested(s: State, turn: string, n: nat, k: nat) {
    forall j: nat | j < k :: RequestedKey(turn, n, j) in s.log
  }

  lemma GetsRequested(s: State, turn: string, n: nat, calls: seq<ToolCall>) returns (t: State)
    requires Asks(s, turn, n, calls) && RepliedKey(turn, n) in s.log
    ensures Kept(s, t) && Asks(t, turn, n, calls) && AllRequested(t, turn, n, |calls|)
  {
    var p, s1 := BeginsRequesting(s, turn, n, calls);
    AsksStill(s, s1, turn, n, calls);
    t := RequestsOn(s1, p, turn, n, calls, 0);
    KeptOn(s, s1, t);
  }

  lemma BeginsRequesting(s: State, turn: string, n: nat, calls: seq<ToolCall>) returns (p: nat, t: State)
    requires Asks(s, turn, n, calls) && RepliedKey(turn, n) in s.log
    ensures Kept(s, t) && p in t.reactors && t.reactors[p] == Requesting(turn, n, calls, 0)
  {
    var s1;
    p, s1 := WakesDecide(s, turn, n, calls);
    AsksStill(s, s1, turn, n, calls);
    t := RunsOn(s1, p, Nothing);
    KeptOn(s, s1, t);
  }

  lemma WakesDecide(s: State, turn: string, n: nat, calls: seq<ToolCall>) returns (p: nat, t: State)
    requires Asks(s, turn, n, calls) && RepliedKey(turn, n) in s.log
    ensures Kept(s, t) && p in t.reactors && t.reactors[p] == Deciding(turn, n)
  {
    RecordedUnder(s, RepliedKey(turn, n));
    p, t := Wakes(s, s.log[RepliedKey(turn, n)], Decide);
  }

  lemma {:induction false} RequestsOn(s: State, p: nat, turn: string, n: nat, calls: seq<ToolCall>, k: nat) returns (t: State)
    requires Asks(s, turn, n, calls) && k <= |calls| && AllRequested(s, turn, n, k)
    requires p in s.reactors && s.reactors[p] == Requesting(turn, n, calls, k)
    ensures Kept(s, t) && Asks(t, turn, n, calls) && AllRequested(t, turn, n, |calls|)
    decreases |calls| - k
  {
    if k == |calls| {
      t := s;
      Stays(s);
    } else {
      var s1 := RequestsOne(s, p, turn, n, calls, k);
      t := RequestsOn(s1, p, turn, n, calls, k + 1);
      KeptOn(s, s1, t);
    }
  }

  lemma RequestsOne(s: State, p: nat, turn: string, n: nat, calls: seq<ToolCall>, k: nat) returns (t: State)
    requires Asks(s, turn, n, calls) && k < |calls| && AllRequested(s, turn, n, k)
    requires p in s.reactors && s.reactors[p] == Requesting(turn, n, calls, k)
    ensures Kept(s, t) && Asks(t, turn, n, calls) && AllRequested(t, turn, n, k + 1)
    ensures p in t.reactors && t.reactors[p] == Requesting(turn, n, calls, k + 1)
  {
    t := HandsOver(s, p, turn, n, calls, k);
    AsksStill(s, t, turn, n, calls);
    RequestedStill(s, t, turn, n, k);
  }

  lemma HandsOver(s: State, p: nat, turn: string, n: nat, calls: seq<ToolCall>, k: nat) returns (t: State)
    requires Reachable(s) && p in s.reactors && k < |calls| && s.reactors[p] == Requesting(turn, n, calls, k)
    ensures Kept(s, t) && RequestedKey(turn, n, k) in t.log
    ensures p in t.reactors && t.reactors[p] == Requesting(turn, n, calls, k + 1)
  {
    var s1 := Requests(s, p, turn, n, calls, k);
    t := Lands(s1, ToolRequested(turn, n, k, calls[k]));
    KeptOn(s, s1, t);
  }

  lemma Requests(s: State, p: nat, turn: string, n: nat, calls: seq<ToolCall>, k: nat) returns (t: State)
    requires Reachable(s) && p in s.reactors && k < |calls| && s.reactors[p] == Requesting(turn, n, calls, k)
    ensures Kept(s, t) && ToolRequested(turn, n, k, calls[k]) in t.emitted
    ensures p in t.reactors && t.reactors[p] == Requesting(turn, n, calls, k + 1)
  {
    t := RunsOn(s, p, Nothing);
    assert t.emitted == s.emitted + [ToolRequested(turn, n, k, calls[k])];
  }

  lemma RequestedStill(s: State, t: State, turn: string, n: nat, k: nat)
    requires AllRequested(s, turn, n, k) && KeepsLog(s, t)
    ensures AllRequested(t, turn, n, k)
  {
    forall j: nat | j < k
      ensures RequestedKey(turn, n, j) in t.log
    {
      assert RequestedKey(turn, n, j) in s.log;
    }
  }

  /** What is recorded under a call's key is the request for that call. */
  lemma RequestIsOfCall(s: State, turn: string, n: nat, calls: seq<ToolCall>, k: nat)
    requires Asks(s, turn, n, calls) && k < |calls| && RequestedKey(turn, n, k) in s.log
    ensures s.log[RequestedKey(turn, n, k)] == ToolRequested(turn, n, k, calls[k])
  {
    RecordedUnder(s, RequestedKey(turn, n, k));
  }

  // ---- the calls are answered ----

  ghost predicate IsDone(s: State, turn: string, n: nat, calls: seq<ToolCall>, k: nat)
    requires k < |calls|
  {
    IsAnswered(s.store, turn, n, calls[k].id) && CompletedKey(turn, n, k) in s.log
  }

  ghost predicate AllDone(s: State, turn: string, n: nat, calls: seq<ToolCall>, k: nat)
    requires k <= |calls|
  {
    forall j: nat | j < k :: IsDone(s, turn, n, calls, j)
  }

  lemma DoneStill(s: State, t: State, turn: string, n: nat, calls: seq<ToolCall>, k: nat)
    requires k <= |calls| && AllDone(s, turn, n, calls, k) && Kept(s, t)
    ensures AllDone(t, turn, n, calls, k)
  {
    forall j: nat | j < k
      ensures IsDone(t, turn, n, calls, j)
    {
      assert IsDone(s, turn, n, calls, j);
    }
  }

  /** A call with an id, whether refused, found answered or run, gets to where its answer is stored. */
  lemma AnswersOn(s: State, p: nat, turn: string, n: nat, k: nat, call: ToolCall) returns (t: State)
    requires Reachable(s) && p in s.reactors && s.reactors[p] == ToolWoken(turn, n, k, call) && call.id != ""
    ensures Kept(s, t) && p in t.reactors && t.reactors[p] == ToolAnswered(turn, n, k, call)
  {
    var s1 := RunsOn(s, p, Nothing);
    if s1.reactors[p].ToolAnswered? {
      return s1;
    }
    t := AnswersFrom(s1, p, turn, n, k, call);
    KeptOn(s, s1, t);
  }

  lemma AnswersFrom(s: State, p: nat, turn: string, n: nat, k: nat, call: ToolCall) returns (t: State)
    requires Reachable(s) && p in s.reactors
    requires s.reactors[p] == ToolRefused(turn, n, k, call) || s.reactors[p] == ToolUnanswered(turn, n, k, call)
    ensures Kept(s, t) && p in t.reactors && t.reactors[p] == ToolAnswered(turn, n, k, call)
  {
    if s.reactors[p].ToolRefused? {
      t := RunsOn(s, p, Nothing);
    } else {
      t := RunsPastFence(s, p, turn, n, k, call);
    }
  }

  lemma RunsPastFence(s: State, p: nat, turn: string, n: nat, k: nat, call: ToolCall) returns (t: State)
    requires Reachable(s) && p in s.reactors && s.reactors[p] == ToolUnanswered(turn, n, k, call)
    ensures Kept(s, t) && p in t.reactors && t.reactors[p] == ToolAnswered(turn, n, k, call)
  {
    var s1 := RunsOn(s, p, FenceSaid(true));
    t := RunsCommand(s1, p, turn, n, k, call);
    KeptOn(s, s1, t);
  }

  lemma RunsCommand(s: State, p: nat, turn: string, n: nat, k: nat, call: ToolCall) returns (t: State)
    requires Reachable(s) && p in s.reactors && s.reactors[p] == ToolRunning(turn, n, k, call)
    ensures Kept(s, t) && p in t.reactors && t.reactors[p] == ToolAnswered(turn, n, k, call)
  {
    var s1 := RunsOn(s, p, CommandPrinted(""));
    t := StoresAnswer(s1, p, turn, n, k, call);
    KeptOn(s, s1, t);
  }

  lemma StoresAnswer(s: State, p: nat, turn: string, n: nat, k: nat, call: ToolCall) returns (t: State)
    requires Reachable(s) && p in s.reactors && s.reactors[p] == ToolExited(turn, n, k, call, "")
    ensures Kept(s, t) && p in t.reactors && t.reactors[p] == ToolAnswered(turn, n, k, call)
  {
    t := RunsOn(s, p, Nothing);
  }

  lemma GetsAnswered(s: State, turn: string, n: nat, calls: seq<ToolCall>, k: nat) returns (t: State)
    requires Asks(s, turn, n, calls) && k < |calls| && calls[k].id != "" && RequestedKey(turn, n, k) in s.log
    ensures Kept(s, t) && IsDone(t, turn, n, calls, k)
  {
    RequestIsOfCall(s, turn, n, calls, k);
    RecordedUnder(s, RequestedKey(turn, n, k));
    var p, s1 := Wakes(s, ToolRequested(turn, n, k, calls[k]), ToolQueue);
    var s2 := AnswersOn(s1, p, turn, n, k, calls[k]);
    KeptOn(s, s1, s2);
    t := Reports(s2, p, turn, n, k, calls[k]);
    KeptOn(s, s2, t);
  }

  lemma Reports(s: State, p: nat, turn: string, n: nat, k: nat, call: ToolCall) returns (t: State)
    requires Reachable(s) && p in s.reactors && s.reactors[p] == ToolAnswered(turn, n, k, call)
    ensures Kept(s, t) && IsAnswered(t.store, turn, n, call.id) && CompletedKey(turn, n, k) in t.log
  {
    AnsweredIsStored(s, p, turn, n, k, call);
    var s1 := Ends(s, p, ToolCompleted(turn, n, k));
    t := Lands(s1, ToolCompleted(turn, n, k));
    KeptOn(s, s1, t);
  }

  lemma AnsweredIsStored(s: State, p: nat, turn: string, n: nat, k: nat, call: ToolCall)
    requires Reachable(s) && p in s.reactors && s.reactors[p] == ToolAnswered(turn, n, k, call)
    ensures IsAnswered(s.store, turn, n, call.id)
  {
    ReachableIsInOrder(s);
    assert PcOk(s.store, s.reactors[p]);
  }

  ghost predicate HaveIds(calls: seq<ToolCall>) {
    forall k | 0 <= k < |calls| :: calls[k].id != ""
  }

  lemma {:induction false} AllGetAnswered(s: State, turn: string, n: nat, calls: seq<ToolCall>, k: nat) returns (t: State)
    requires Asks(s, turn, n, calls) && AllRequested(s, turn, n, |calls|) && HaveIds(calls) && k <= |calls|
    ensures Kept(s, t) && Asks(t, turn, n, calls) && AllDone(t, turn, n, calls, k)
    decreases k
  {
    if k == 0 {
      t := s;
      Stays(s);
    } else {
      var s1 := AllGetAnswered(s, turn, n, calls, k - 1);
      RequestedStill(s, s1, turn, n, |calls|);
      assert RequestedKey(turn, n, k - 1) in s1.log;
      t := GetsAnswered(s1, turn, n, calls, k - 1);
      OneMoreDone(s, s1, t, turn, n, calls, k - 1);
    }
  }

  lemma OneMoreDone(s: State, before: State, t: State, turn: string, n: nat, calls: seq<ToolCall>, k: nat)
    requires Asks(s, turn, n, calls) && Kept(s, before) && Kept(before, t)
    requires k < |calls| && AllDone(before, turn, n, calls, k) && IsDone(t, turn, n, calls, k)
    ensures Kept(s, t) && Asks(t, turn, n, calls) && AllDone(t, turn, n, calls, k + 1)
  {
    KeptOn(s, before, t);
    AsksStill(s, t, turn, n, calls);
    DoneStill(before, t, turn, n, calls, k);
  }

  // ---- the join ----

  /** A reply whose calls can be joined: there are some, and each has an id of its own. */
  ghost predicate CanJoin(calls: seq<ToolCall>) {
    calls != [] && HaveIds(calls) && DistinctCalls(calls)
  }

  lemma DoneIsAllAnswered(s: State, turn: string, n: nat, calls: seq<ToolCall>)
    requires Asks(s, turn, n, calls) && AllDone(s, turn, n, calls, |calls|)
    ensures AllAnswered(s.store, turn, n)
  {
    forall k | 0 <= k < |calls|
      ensures IsAnswered(s.store, turn, n, calls[k].id)
    {
      assert IsDone(s, turn, n, calls, k);
    }
  }

  lemma ReplyIsReached(s: State, turn: string, n: nat, calls: seq<ToolCall>)
    requires Asks(s, turn, n, calls)
    ensures TurnInvariant.Reached(s.store, turn, n)
  {
    ReachableIsInOrder(s);
    assert IdentityOk(s.store, ReplyId(turn, n));
  }

  lemma GetsDeclared(s: State, turn: string, n: nat, calls: seq<ToolCall>) returns (t: State)
    requires Asks(s, turn, n, calls) && AllDone(s, turn, n, calls, |calls|) && CanJoin(calls)
    requires (turn, n) !in s.store.latches
    ensures Leads(s, t) && Ready(turn, n) in t.emitted
  {
    assert IsDone(s, turn, n, calls, 0);
    CountIsFull(s, turn, n, calls);
    var p, s1 := Counts(s, turn, n);
    t := Wins(s1, p, turn, n);
    LeadsOn(s, s1, t);
  }

  lemma Counts(s: State, turn: string, n: nat) returns (p: nat, t: State)
    requires Reachable(s) && CompletedKey(turn, n, 0) in s.log
    ensures Kept(s, t) && p in t.reactors
    ensures t.reactors[p] == Counted(turn, n, Requested(s.store.rows, turn, n), Completed(s.store.rows, turn, n))
  {
    var s1;
    p, s1 := WakesJoin(s, turn, n);
    t := RunsOn(s1, p, Nothing);
    KeptOn(s, s1, t);
  }

  lemma WakesJoin(s: State, turn: string, n: nat) returns (p: nat, t: State)
    requires Reachable(s) && CompletedKey(turn, n, 0) in s.log
    ensures Kept(s, t) && t.store == s.store && p in t.reactors && t.reactors[p] == Joining(turn, n)
  {
    RecordedUnder(s, CompletedKey(turn, n, 0));
    p, t := Wakes(s, s.log[CompletedKey(turn, n, 0)], Join);
  }

  lemma CountIsFull(s: State, turn: string, n: nat, calls: seq<ToolCall>)
    requires Asks(s, turn, n, calls) && AllDone(s, turn, n, calls, |calls|) && CanJoin(calls)
    ensures Requested(s.store.rows, turn, n) > 0
    ensures Completed(s.store.rows, turn, n) >= Requested(s.store.rows, turn, n)
  {
    DoneIsAllAnswered(s, turn, n, calls);
    ReplyIsReached(s, turn, n, calls);
    ReachableIsInOrder(s);
    CountIsFullExactlyWhen(s.store, turn, n);
  }

  lemma Wins(s: State, p: nat, turn: string, n: nat) returns (t: State)
    requires Reachable(s) && p in s.reactors && s.reactors[p].Counted? && s.reactors[p].turn == turn && s.reactors[p].iteration == n
    requires s.reactors[p].requested > 0 && s.reactors[p].completed >= s.reactors[p].requested
    requires (turn, n) !in s.store.latches
    ensures Leads(s, t) && Ready(turn, n) in t.emitted
  {
    var s1 := Apply(s, Run(p, Nothing));
    StepLeads(s, Run(p, Nothing));
    t := Declares(s1, p, turn, n);
    LeadsOn(s, s1, t);
  }

  lemma Declares(s: State, p: nat, turn: string, n: nat) returns (t: State)
    requires p in s.reactors && s.reactors[p] == Won(turn, n)
    ensures Leads(s, t) && Ready(turn, n) in t.emitted
  {
    t := Apply(s, Run(p, Nothing));
    StepLeads(s, Run(p, Nothing));
    assert t.emitted == s.emitted + [Ready(turn, n)];
  }

  /** From wherever the turn stands, a reply that can be joined gets joined. */
  lemma GetsReady(s: State, turn: string, n: nat, calls: seq<ToolCall>) returns (t: State)
    requires Asks(s, turn, n, calls) && CanJoin(calls) && (turn, n) !in s.store.latches
    ensures Leads(s, t) && Ready(turn, n) in t.emitted
  {
    var s1 := GetsAllAnswered(s, turn, n, calls);
    t := GetsDeclared(s1, turn, n, calls);
    LeadsOn(s, s1, t);
  }

  lemma GetsAllAnswered(s: State, turn: string, n: nat, calls: seq<ToolCall>) returns (t: State)
    requires Asks(s, turn, n, calls) && HaveIds(calls)
    ensures Kept(s, t) && Asks(t, turn, n, calls) && AllDone(t, turn, n, calls, |calls|)
  {
    var s1 := GetsReplied(s, turn, n, calls);
    var s2 := GetsRequested(s1, turn, n, calls);
    KeptOn(s, s1, s2);
    t := AllGetAnswered(s2, turn, n, calls, |calls|);
    KeptOn(s, s2, t);
  }
}
