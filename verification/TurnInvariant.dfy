/**
  What every step of the choreography keeps.

  An iteration is reached only through the latches of all the iterations before
  it, and a latch is only ever taken by a join that found every call of its
  iteration answered. That single fact makes the turn a line.
 */
module TurnInvariant {
  import opened Wrappers
  import opened SessionStore
  import opened TurnMachine

  predicate IsAnswered(s: Store, turn: string, iteration: nat, callId: string) {
    Lookup(s.rows, AnswerId(turn, iteration, callId)).Some?
  }

  function CallsOf(s: Store, turn: string, iteration: nat): seq<ToolCall> {
    var reply := ReplyOf(s, turn, iteration);
    if reply.Some? then reply.value.calls else []
  }

  /** The iteration's stored reply asks for commands, and the budget allows for what follows them. */
  predicate AsksForTools(s: Store, turn: string, iteration: nat) {
    CallsOf(s, turn, iteration) != [] && iteration + 1 < s.maxIterations
  }

  ghost predicate AllAnswered(s: Store, turn: string, iteration: nat) {
    forall k | 0 <= k < |CallsOf(s, turn, iteration)| ::
      IsAnswered(s, turn, iteration, CallsOf(s, turn, iteration)[k].id)
  }

  ghost predicate DistinctCalls(calls: seq<ToolCall>) {
    forall j, k | 0 <= j < k < |calls| :: calls[j].id != calls[k].id
  }

  ghost predicate Reached(s: Store, turn: string, iteration: nat) {
    forall k: nat | k < iteration :: (turn, k) in s.latches
  }

  ghost predicate IdentityOk(s: Store, id: Identity) {
    match id.role
    case User => true
    case Assistant => id.iteration >= 0 && id.callId == "" && Reached(s, id.turn, id.iteration)
    case Tool =>
      && id.iteration >= 0 && AsksForTools(s, id.turn, id.iteration) && Reached(s, id.turn, id.iteration)
      && exists k | 0 <= k < |CallsOf(s, id.turn, id.iteration)| :: CallsOf(s, id.turn, id.iteration)[k].id == id.callId
  }

  ghost predicate JoinSound(s: Store, turn: string, iteration: nat) {
    && AsksForTools(s, turn, iteration) && Reached(s, turn, iteration)
    && AllAnswered(s, turn, iteration) && DistinctCalls(CallsOf(s, turn, iteration))
  }

  ghost predicate LatchOk(s: Store, latch: (string, int)) {
    latch.1 >= 0 && JoinSound(s, latch.0, latch.1)
  }

  ghost predicate CallOk(s: Store, turn: string, iteration: nat, index: nat, call: ToolCall) {
    && AsksForTools(s, turn, iteration) && Reached(s, turn, iteration)
    && index < |CallsOf(s, turn, iteration)| && CallsOf(s, turn, iteration)[index] == call
  }

  /** Iteration `iteration` ends the turn, and `final` is what its stored reply makes of that. */
  ghost predicate EndsWith(s: Store, turn: string, iteration: nat, final: Fact) {
    && Reached(s, turn, iteration) && ReplyOf(s, turn, iteration).Some?
    && Decision(turn, iteration, ReplyOf(s, turn, iteration), s.maxIterations) == Ending(turn, iteration, final)
  }

  ghost predicate FactOk(s: Store, fact: Fact) {
    match fact
    case TurnStarted(turn) => Lookup(s.rows, Identity(turn, 0, User, "")).Some?
    case IterationStarted(turn, i) => Reached(s, turn, i)
    case ModelReplied(turn, i, _) => Reached(s, turn, i) && ReplyOf(s, turn, i).Some?
    case ToolRequested(turn, i, index, call) => CallOk(s, turn, i, index, call)
    case ToolFailed(turn, i, index) => exists call :: CallOk(s, turn, i, index, call)
    case ToolStarted(turn, i, index) => exists call :: CallOk(s, turn, i, index, call)
    case ToolCompleted(turn, i, index) =>
      && AsksForTools(s, turn, i) && Reached(s, turn, i) && index < |CallsOf(s, turn, i)|
      && IsAnswered(s, turn, i, CallsOf(s, turn, i)[index].id)
    case Ready(turn, i) => (turn, i) in s.latches
    case TurnFinal(turn, _, _) => exists i: nat :: EndsWith(s, turn, i, fact)
  }

  ghost predicate PcOk(s: Store, pc: Pc) {
    match pc
    case Opening(_, _) => true
    case Opened(turn) => Lookup(s.rows, Identity(turn, 0, User, "")).Some?
    case Asking(turn, i) => Reached(s, turn, i)
    case Inferring(turn, i) => Reached(s, turn, i)
    case Answering(turn, i, _) => Reached(s, turn, i)
    case Answered(turn, i, _) => Reached(s, turn, i) && ReplyOf(s, turn, i).Some?
    case Deciding(turn, i) => Reached(s, turn, i) && ReplyOf(s, turn, i).Some?
    case Requesting(turn, i, calls, done) =>
      AsksForTools(s, turn, i) && Reached(s, turn, i) && calls == CallsOf(s, turn, i) && done <= |calls|
    case Ending(turn, i, final) => final.TurnFinal? && final.turn == turn && EndsWith(s, turn, i, final)
    case ToolAnswered(turn, i, index, call) =>
      CallOk(s, turn, i, index, call) && IsAnswered(s, turn, i, call.id)
    case Joining(turn, i) => Reached(s, turn, i)
    case Counted(turn, i, requested, completed) =>
      Reached(s, turn, i) && (requested > 0 && completed >= requested ==> JoinSound(s, turn, i))
    case Won(turn, i) => (turn, i) in s.latches
    case _ => CallOk(s, pc.turn, pc.iteration, pc.index, pc.call)
  }

  ghost predicate RowsOk(s: Store) {
    Ordered(s.rows) && forall id :: Lookup(s.rows, id).Some? ==> IdentityOk(s, id)
  }

  ghost predicate LatchesOk(s: Store) {
    forall latch <- s.latches :: LatchOk(s, latch)
  }

  ghost predicate FactsOk(s: State) {
    && (forall k | 0 <= k < |s.emitted| :: FactOk(s.store, s.emitted[k]))
    && (forall key <- s.log :: KeyOf(s.log[key]) == key && s.log[key] in s.emitted)
  }

  ghost predicate ReactorsOk(s: State) {
    forall p <- s.reactors :: PcOk(s.store, s.reactors[p])
  }

  /** One reactor at most may declare an iteration ready, and it does so once. */
  ghost predicate OneDeclarer(s: State) {
    && (forall p <- s.reactors | s.reactors[p].Won? :: Ready(s.reactors[p].turn, s.reactors[p].iteration) !in s.emitted)
    && (forall p, q | p in s.reactors && q in s.reactors && p != q && s.reactors[p].Won? :: s.reactors[p] != s.reactors[q])
    && (forall j, k | 0 <= j < k < |s.emitted| && s.emitted[j].Ready? :: s.emitted[j] != s.emitted[k])
  }

  ghost predicate Inv(s: State) {
    && s.store.maxIterations >= 1 && RowsOk(s.store) && LatchesOk(s.store)
    && FactsOk(s) && ReactorsOk(s) && OneDeclarer(s)
  }

  // ---- counting ----

  function AnsweredIds(rows: seq<Row>, turn: string, iteration: nat): (ids: set<string>)
    ensures forall id :: id in ids <==> Lookup(rows, AnswerId(turn, iteration, id)).Some?
  {
    if rows == [] then {}
    else
      var m := rows[|rows| - 1].message;
      AnsweredIds(rows[..|rows| - 1], turn, iteration)
      + if m.turn == turn && m.iteration == iteration && m.role == Tool then {m.callId} else {}
  }

  lemma {:induction false} CompletedCountsIds(rows: seq<Row>, turn: string, iteration: nat)
    requires Ordered(rows)
    ensures Completed(rows, turn, iteration) == |AnsweredIds(rows, turn, iteration)|
  {
    if rows != [] {
      var rest := rows[..|rows| - 1];
      var m := rows[|rows| - 1].message;
      CompletedCountsIds(rest, turn, iteration);
      if m.turn == turn && m.iteration == iteration && m.role == Tool {
        assert Lookup(rest, AnswerId(turn, iteration, m.callId)).None?;
      }
    }
  }

  /** An iteration has at most one assistant message, so what was requested is what that one asks for. */
  lemma {:induction false} RequestedIsItsReply(rows: seq<Row>, turn: string, iteration: nat)
    requires Ordered(rows)
    requires forall k | 0 <= k < |rows| && rows[k].message.role == Assistant :: rows[k].message.callId == ""
    ensures var reply := Lookup(rows, ReplyId(turn, iteration));
            Requested(rows, turn, iteration) == if reply.Some? then |reply.value.calls| else 0
  {
    if rows != [] {
      var rest := rows[..|rows| - 1];
      var m := rows[|rows| - 1].message;
      RequestedIsItsReply(rest, turn, iteration);
      if IdentityOf(m) == ReplyId(turn, iteration) {
        assert Lookup(rest, ReplyId(turn, iteration)).None?;
      }
    }
  }

  function Ids(calls: seq<ToolCall>): set<string> {
    set k | 0 <= k < |calls| :: calls[k].id
  }

  lemma {:induction false} IdsAreFew(calls: seq<ToolCall>)
    ensures |Ids(calls)| <= |calls|
    ensures |Ids(calls)| == |calls| <==> DistinctCalls(calls)
  {
    if calls != [] {
      var rest := calls[..|calls| - 1];
      var last := calls[|calls| - 1].id;
      IdsAreFew(rest);
      OneMoreId(calls);
      if last in Ids(rest) {
        assert Ids(calls) == Ids(rest);
      }
    }
  }

  lemma OneMoreId(calls: seq<ToolCall>)
    requires calls != []
    ensures var rest, last := calls[..|calls| - 1], calls[|calls| - 1].id;
            && Ids(calls) == Ids(rest) + {last}
            && (DistinctCalls(calls) <==> DistinctCalls(rest) && last !in Ids(rest))
  {
    var rest, last := calls[..|calls| - 1], calls[|calls| - 1].id;
    assert forall k | 0 <= k < |rest| :: rest[k] == calls[k];
  }

  lemma SubsetOfSameSize<T>(a: set<T>, b: set<T>)
    requires a <= b && |a| >= |b|
    ensures a == b
  {
    assert b == a + (b - a);
  }

  /**
    The pigeonhole behind the join. Answers are stored once per call id and only
    for ids the reply asked for, so as many answers as calls means every call has
    its own id and each of them is answered.
   */
  lemma FullCountIsSound(s: Store, turn: string, iteration: nat)
    requires RowsOk(s) && Reached(s, turn, iteration)
    requires Requested(s.rows, turn, iteration) > 0
    requires Completed(s.rows, turn, iteration) >= Requested(s.rows, turn, iteration)
    ensures JoinSound(s, turn, iteration)
  {
    var calls := CallsOf(s, turn, iteration);
    var answered := AnsweredIds(s.rows, turn, iteration);
    CountsAre(s, turn, iteration);
    IdsAreFew(calls);
    AnswersAreAskedFor(s, turn, iteration);
    SubsetOfSameSize(answered, Ids(calls));
    var some :| some in answered;
    forall k | 0 <= k < |calls|
      ensures IsAnswered(s, turn, iteration, calls[k].id)
    {
      assert calls[k].id in answered;
    }
  }

  /** What the two counts count: the calls of the one reply, and the distinct ids answered. */
  lemma CountsAre(s: Store, turn: string, iteration: nat)
    requires RowsOk(s)
    ensures Requested(s.rows, turn, iteration) == |CallsOf(s, turn, iteration)|
    ensures Completed(s.rows, turn, iteration) == |AnsweredIds(s.rows, turn, iteration)|
  {
    AssistantRowsAnswerNothing(s);
    RequestedIsItsReply(s.rows, turn, iteration);
    CompletedCountsIds(s.rows, turn, iteration);
  }

  lemma AnswersAreAskedFor(s: Store, turn: string, iteration: nat)
    requires RowsOk(s)
    ensures forall id <- AnsweredIds(s.rows, turn, iteration) ::
              id in Ids(CallsOf(s, turn, iteration)) && AsksForTools(s, turn, iteration)
  {
    forall id <- AnsweredIds(s.rows, turn, iteration)
      ensures id in Ids(CallsOf(s, turn, iteration)) && AsksForTools(s, turn, iteration)
    {
      assert IdentityOk(s, AnswerId(turn, iteration, id));
    }
  }

  lemma AssistantRowsAnswerNothing(s: Store)
    requires RowsOk(s)
    ensures forall k | 0 <= k < |s.rows| && s.rows[k].message.role == Assistant :: s.rows[k].message.callId == ""
  {
    forall k | 0 <= k < |s.rows| && s.rows[k].message.role == Assistant
      ensures s.rows[k].message.callId == ""
    {
      assert Stored(s.rows, IdentityOf(s.rows[k].message));
      assert IdentityOk(s, IdentityOf(s.rows[k].message));
    }
  }

  /**
    When the join can see an iteration as complete: all its calls are answered and
    no two of them share an id. A reply that repeats an id never becomes ready.
   */
  lemma CountIsFullExactlyWhen(s: Store, turn: string, iteration: nat)
    requires RowsOk(s) && Reached(s, turn, iteration) && AsksForTools(s, turn, iteration)
    ensures Requested(s.rows, turn, iteration) > 0
            && Completed(s.rows, turn, iteration) >= Requested(s.rows, turn, iteration)
            <==> AllAnswered(s, turn, iteration) && DistinctCalls(CallsOf(s, turn, iteration))
  {
    CountsAre(s, turn, iteration);
    if Completed(s.rows, turn, iteration) >= Requested(s.rows, turn, iteration) {
      FullCountIsSound(s, turn, iteration);
    }
    if AllAnswered(s, turn, iteration) && DistinctCalls(CallsOf(s, turn, iteration)) {
      AnswersAreEnough(s, turn, iteration);
    }
  }

  lemma AnswersAreEnough(s: Store, turn: string, iteration: nat)
    requires AllAnswered(s, turn, iteration) && DistinctCalls(CallsOf(s, turn, iteration))
    ensures |AnsweredIds(s.rows, turn, iteration)| >= |CallsOf(s, turn, iteration)|
  {
    var calls, answered := CallsOf(s, turn, iteration), AnsweredIds(s.rows, turn, iteration);
    IdsAreFew(calls);
    forall k | 0 <= k < |calls|
      ensures calls[k].id in answered
    {
      assert IsAnswered(s, turn, iteration, calls[k].id);
    }
    assert answered == Ids(calls) + (answered - Ids(calls));
  }
}
