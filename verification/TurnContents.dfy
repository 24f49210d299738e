/**
  What a turn's rows and its answer hold. A prompt is what was submitted, a reply
  what the model said, a tool's answer what its command printed; and the turn ends
  in what one stored reply says.
 */
module TurnContents {
  import opened Wrappers
  import opened SessionStore
  import opened Whitespace
  import opened TurnMachine
  import opened TurnInvariant
  import opened TurnSteps
  import opened TurnRuns

  // ---- the final answer ----

  /** `answer` is `content` without the white space around it. */
  ghost predicate IsTrimmed(answer: string, content: string) {
    && (exists before, after :: IsBlank(before) && IsBlank(after) && content == before + answer + after)
    && (answer != "" ==> !IsSpace(answer[0]) && !IsSpace(answer[|answer| - 1]))
  }

  /** How a reply ends its turn: with what it says, or for want of budget. */
  ghost predicate Concludes(reply: Message, maxIterations: nat, answer: string, stoppedBy: StoppedBy) {
    if reply.calls == [] then stoppedBy.FinalAnswer? && IsTrimmed(answer, reply.content)
    else
      && reply.iteration + 1 >= maxIterations && stoppedBy.IterationBudget?
      && answer == "Stopped: reached the iteration budget before the model produced a final answer."
  }

  ghost predicate IsReply(rows: seq<Row>, k: nat, turn: string) {
    k < |rows| && rows[k].message.turn == turn && rows[k].message.role == Assistant
  }

  lemma LookupIsARow(rows: seq<Row>, id: Identity) returns (k: nat)
    requires Lookup(rows, id).Some?
    ensures k < |rows| && rows[k].message == Lookup(rows, id).value
  {
    k := |rows| - 1;
    if IdentityOf(rows[k].message) != id {
      k := LookupIsARow(rows[..k], id);
    }
  }

  lemma TrimmedIsTrimmed(content: string)
    ensures IsTrimmed(Trim(content), content)
  {
    var before, after := TrimIsTheMiddle(content);
    assert content == before + Trim(content) + after;
  }

  lemma DecisionConcludes(s: Store, turn: string, i: nat, final: Fact) returns (k: nat)
    requires EndsWith(s, turn, i, final) && final.TurnFinal?
    ensures IsReply(s.rows, k, turn) && s.rows[k].message.iteration == i
    ensures Concludes(s.rows[k].message, s.maxIterations, final.answer, final.stoppedBy)
  {
    k := LookupIsARow(s.rows, ReplyId(turn, i));
    TrimmedIsTrimmed(s.rows[k].message.content);
  }

  /**
    The answer of a turn is what one of its stored replies says: the one reply
    that asks for nothing, or the one that asks for more than the budget allows.
   */
  lemma FinalSaysTheReply(run: seq<State>, i: nat, final: Fact) returns (k: nat)
    requires IsRun(run) && i < |run| && final in run[i].emitted && final.TurnFinal?
    ensures IsReply(run[i].store.rows, k, final.turn)
    ensures Concludes(run[i].store.rows[k].message, run[i].store.maxIterations, final.answer, final.stoppedBy)
  {
    EmittedIsOk(run, i, final);
    var n: nat :| EndsWith(run[i].store, final.turn, n, final);
    k := DecisionConcludes(run[i].store, final.turn, n, final);
  }

  // ---- where rows come from ----

  ghost predicate StepsBy(run: seq<State>, j: nat, step: Step) {
    j + 1 < |run| && Enabled(run[j], step) && run[j + 1] == Apply(run[j], step)
  }

  /** Before the `i`-th moment somebody submitted the prompt. */
  ghost predicate Submitted(run: seq<State>, i: nat, turn: string, prompt: string) {
    exists j: nat, p :: j < i && StepsBy(run, j, Submit(p, turn, prompt))
  }

  ghost predicate SaidAt(run: seq<State>, j: nat, p: nat, turn: string, n: nat, reply: Reply) {
    StepsBy(run, j, Run(p, ModelSaid(reply))) && run[j].reactors[p] == Inferring(turn, n)
  }

  /** The model said it when asked in that iteration. */
  ghost predicate Said(run: seq<State>, i: nat, turn: string, n: nat, reply: Reply) {
    exists j: nat, p :: j < i && SaidAt(run, j, p, turn, n, reply)
  }

  ghost predicate PrintedAt(run: seq<State>, j: nat, p: nat, turn: string, n: nat, index: nat, call: ToolCall, output: string) {
    StepsBy(run, j, Run(p, CommandPrinted(output))) && run[j].reactors[p] == ToolRunning(turn, n, index, call)
  }

  /** The command of that call printed it. */
  ghost predicate Printed(run: seq<State>, i: nat, turn: string, n: nat, index: nat, call: ToolCall, output: string) {
    exists j: nat, p :: j < i && PrintedAt(run, j, p, turn, n, index, call, output)
  }

  ghost predicate RefusedAt(run: seq<State>, j: nat, p: nat, turn: string, n: nat, index: nat, call: ToolCall) {
    j < |run| && p in run[j].reactors && run[j].reactors[p] == ToolRefused(turn, n, index, call)
  }

  ghost predicate Refused(run: seq<State>, i: nat, turn: string, n: nat, index: nat, call: ToolCall) {
    exists j: nat, p :: j < i && RefusedAt(run, j, p, turn, n, index, call)
  }

  /** What an answer to a call says: what its command printed, or that it has none. */
  ghost predicate AnswersCall(run: seq<State>, i: nat, m: Message, n: nat, index: nat, call: ToolCall) {
    && m.iteration == n && m.callId == call.id
    && (if call.command == "" then
          m.content == "error: the bash tool requires a non-empty `command` string." && Refused(run, i, m.turn, n, index, call)
        else Printed(run, i, m.turn, n, index, call, m.content))
  }

  ghost predicate FromReply(run: seq<State>, i: nat, m: Message) {
    exists n: nat, reply :: m.iteration == n && Said(run, i, m.turn, n, reply) && m.content == reply.content && m.calls == reply.calls
  }

  ghost predicate FromCall(run: seq<State>, i: nat, m: Message) {
    exists n: nat, index: nat, call :: AnswersCall(run, i, m, n, index, call)
  }

  ghost predicate HasSource(run: seq<State>, i: nat, m: Message) {
    match m.role
    case User => m.iteration == 0 && m.calls == [] && Submitted(run, i, m.turn, m.content)
    case Assistant => FromReply(run, i, m)
    case Tool => m.calls == [] && FromCall(run, i, m)
  }

  /** What a reactor carries comes from outside in the same way. */
  ghost predicate CarriesSource(run: seq<State>, i: nat, pc: Pc) {
    match pc
    case Opening(turn, prompt) => Submitted(run, i, turn, prompt)
    case Answering(turn, n, reply) => Said(run, i, turn, n, reply)
    case Answered(turn, n, reply) => Said(run, i, turn, n, reply)
    case ToolRefused(_, _, _, call) => call.command == ""
    case ToolUnanswered(_, _, _, call) => call.command != ""
    case ToolRunning(_, _, _, call) => call.command != ""
    case ToolExited(turn, n, index, call, output) => call.command != "" && Printed(run, i, turn, n, index, call, output)
    case _ => true
  }

  ghost predicate RowsSourced(run: seq<State>, i: nat, rows: seq<Row>) {
    forall k | 0 <= k < |rows| :: HasSource(run, i, rows[k].message)
  }

  ghost predicate ReactorsSourced(run: seq<State>, i: nat, reactors: map<nat, Pc>) {
    forall p <- reactors :: CarriesSource(run, i, reactors[p])
  }

  ghost predicate Sourced(run: seq<State>, i: nat) {
    i < |run| && RowsSourced(run, i, run[i].store.rows) && ReactorsSourced(run, i, run[i].reactors)
  }

  lemma SourceStays(run: seq<State>, i: nat, m: Message)
    requires HasSource(run, i, m)
    ensures HasSource(run, i + 1, m)
  {
    match m.role
    case User =>
      var j: nat, p :| j < i && StepsBy(run, j, Submit(p, m.turn, m.content));
      assert j < i + 1 && StepsBy(run, j, Submit(p, m.turn, m.content));
    case Assistant =>
      var n: nat, reply :| m.iteration == n && Said(run, i, m.turn, n, reply) && m.content == reply.content && m.calls == reply.calls;
      SaidStays(run, i, m.turn, n, reply);
    case Tool =>
      var n: nat, index: nat, call :| AnswersCall(run, i, m, n, index, call);
      if call.command != "" {
        PrintedStays(run, i, m.turn, n, index, call, m.content);
      } else {
        var j: nat, p :| j < i && RefusedAt(run, j, p, m.turn, n, index, call);
        assert j < i + 1 && RefusedAt(run, j, p, m.turn, n, index, call);
      }
      assert AnswersCall(run, i + 1, m, n, index, call);
  }

  lemma SaidStays(run: seq<State>, i: nat, turn: string, n: nat, reply: Reply)
    requires Said(run, i, turn, n, reply)
    ensures Said(run, i + 1, turn, n, reply)
  {
    var j: nat, p :| j < i && SaidAt(run, j, p, turn, n, reply);
    assert j < i + 1 && SaidAt(run, j, p, turn, n, reply);
  }

  lemma PrintedStays(run: seq<State>, i: nat, turn: string, n: nat, index: nat, call: ToolCall, output: string)
    requires Printed(run, i, turn, n, index, call, output)
    ensures Printed(run, i + 1, turn, n, index, call, output)
  {
    var j: nat, p :| j < i && PrintedAt(run, j, p, turn, n, index, call, output);
    assert j < i + 1 && PrintedAt(run, j, p, turn, n, index, call, output);
  }

  lemma CarryingStays(run: seq<State>, i: nat, pc: Pc)
    requires CarriesSource(run, i, pc)
    ensures CarriesSource(run, i + 1, pc)
  {
    match pc
    case Opening(turn, prompt) =>
      var j: nat, p :| j < i && StepsBy(run, j, Submit(p, turn, prompt));
      assert j < i + 1 && StepsBy(run, j, Submit(p, turn, prompt));
    case Answering(turn, n, reply) => SaidStays(run, i, turn, n, reply);
    case Answered(turn, n, reply) => SaidStays(run, i, turn, n, reply);
    case ToolExited(turn, n, index, call, output) => PrintedStays(run, i, turn, n, index, call, output);
    case _ =>
  }

  /** A step of a reactor leaves it carrying what comes from outside. */
  lemma RunCarries(run: seq<State>, i: nat, p: nat, choice: Choice)
    requires StepsBy(run, i, Run(p, choice)) && CarriesSource(run, i, run[i].reactors[p])
    ensures var c := React(run[i].store, run[i].reactors[p], choice);
            c.next.Some? ==> CarriesSource(run, i + 1, c.next.value)
  {
    var pc := run[i].reactors[p];
    CarryingStays(run, i, pc);
    match pc
    case Inferring(turn, n) =>
      if choice.ModelSaid? {
        assert SaidAt(run, i, p, turn, n, choice.reply);
      }
    case ToolRunning(turn, n, index, call) =>
      if choice.CommandPrinted? {
        assert PrintedAt(run, i, p, turn, n, index, call, choice.output);
      }
    case _ =>
  }

  /** And what it writes comes from outside. */
  lemma RunWrites(run: seq<State>, i: nat, p: nat, choice: Choice)
    requires StepsBy(run, i, Run(p, choice)) && CarriesSource(run, i, run[i].reactors[p])
    ensures var c := React(run[i].store, run[i].reactors[p], choice);
            c.append.Some? ==> HasSource(run, i + 1, c.append.value)
  {
    var pc, c := run[i].reactors[p], React(run[i].store, run[i].reactors[p], choice);
    CarryingStays(run, i, pc);
    match pc
    case Answering(turn, n, reply) =>
      if c.append.Some? {
        assert c.append.value.iteration == n && Said(run, i + 1, turn, n, reply);
      }
    case ToolRefused(turn, n, index, call) =>
      if c.append.Some? {
        assert RefusedAt(run, i, p, turn, n, index, call);
        assert AnswersCall(run, i + 1, c.append.value, n, index, call);
      }
    case ToolExited(turn, n, index, call, output) =>
      if c.append.Some? {
        assert AnswersCall(run, i + 1, c.append.value, n, index, call);
      }
    case _ =>
  }

  /** Writing adds at most the message itself. */
  lemma WritingAdds(s: Store, c: Change)
    ensures forall k | 0 <= k < |Write(s, c).rows| ::
              Write(s, c).rows[k] in s.rows || (c.append.Some? && Write(s, c).rows[k].message == c.append.value)
  {
    if c.append.Some? {
      var m, top := c.append.value, MaxOrdinal(s.rows);
      assert [m][..0] == [];
      assert AppendAll(s.rows, top, [m]) == AppendOne(s.rows, top + 1, m);
    }
  }

  lemma WakingCarries(run: seq<State>, i: nat, p: nat, fact: Fact, queue: Queue)
    requires StepsBy(run, i, Wake(p, fact, queue))
    ensures CarriesSource(run, i + 1, Woken(fact, queue).value)
  {
  }

  lemma RowsStaySourced(run: seq<State>, i: nat, step: Step)
    requires Sourced(run, i) && StepsBy(run, i, step)
    ensures RowsSourced(run, i + 1, run[i + 1].store.rows)
  {
    var rows := run[i + 1].store.rows;
    forall k | 0 <= k < |rows|
      ensures HasSource(run, i + 1, rows[k].message)
    {
      var row := rows[k];
      if step.Run? {
        WritingAdds(run[i].store, React(run[i].store, run[i].reactors[step.p], step.choice));
        RunWrites(run, i, step.p, step.choice);
      }
      if row in run[i].store.rows {
        var m :| 0 <= m < |run[i].store.rows| && run[i].store.rows[m] == row;
        SourceStays(run, i, row.message);
      }
    }
  }

  lemma ReactorsStaySourced(run: seq<State>, i: nat, step: Step)
    requires Sourced(run, i) && StepsBy(run, i, step)
    ensures ReactorsSourced(run, i + 1, run[i + 1].reactors)
  {
    var reactors := run[i + 1].reactors;
    forall p <- reactors
      ensures CarriesSource(run, i + 1, reactors[p])
    {
      if p in run[i].reactors && reactors[p] == run[i].reactors[p] {
        CarryingStays(run, i, run[i].reactors[p]);
      } else {
        match step
        case Submit(q, turn, prompt) => assert StepsBy(run, i, Submit(q, turn, prompt));
        case Wake(q, fact, queue) => WakingCarries(run, i, q, fact, queue);
        case Run(q, choice) => RunCarries(run, i, q, choice);
        case Land(_) =>
      }
    }
  }

  lemma {:induction false} SourcedThroughout(run: seq<State>, i: nat)
    requires IsRun(run) && i < |run|
    ensures Sourced(run, i)
  {
    if i > 0 {
      SourcedThroughout(run, i - 1);
      assert Linked(run, i);
      var step :| Enabled(run[i - 1], step) && run[i] == Apply(run[i - 1], step);
      assert StepsBy(run, i - 1, step);
      RowsStaySourced(run, i - 1, step);
      ReactorsStaySourced(run, i - 1, step);
    }
  }

  /** The call that was worked on is the one the iteration's stored reply asks for, then and ever after. */
  lemma WorkedOnIsAsked(run: seq<State>, j: nat, i: nat, p: nat, turn: string, n: nat, index: nat, call: ToolCall)
    requires IsRun(run) && j <= i < |run| && p in run[j].reactors
    requires run[j].reactors[p] == ToolRunning(turn, n, index, call) || run[j].reactors[p] == ToolRefused(turn, n, index, call)
    ensures index < |CallsOf(run[i].store, turn, n)| && CallsOf(run[i].store, turn, n)[index] == call
  {
    ReachedInv(run, j);
    assert PcOk(run[j].store, run[j].reactors[p]);
    ReplyIsForEver(run, j, i, turn, n);
  }

  lemma AnsweredIsAsked(run: seq<State>, i: nat, m: Message, n: nat, index: nat, call: ToolCall)
    requires IsRun(run) && i < |run| && AnswersCall(run, i, m, n, index, call)
    ensures index < |CallsOf(run[i].store, m.turn, n)| && CallsOf(run[i].store, m.turn, n)[index] == call
  {
    if call.command == "" {
      var j: nat, p :| j < i && RefusedAt(run, j, p, m.turn, n, index, call);
      WorkedOnIsAsked(run, j, i, p, m.turn, n, index, call);
    } else {
      var j: nat, p :| j < i && PrintedAt(run, j, p, m.turn, n, index, call, m.content);
      WorkedOnIsAsked(run, j, i, p, m.turn, n, index, call);
    }
  }

  /**
    What the history holds, in every state of every run: prompts that were
    submitted, replies the model gave in that very iteration, and for a call of
    the stored reply what its own command printed, or the refusal of a call
    without one.
   */
  lemma RowsHaveSources(run: seq<State>, i: nat, k: nat)
    requires IsRun(run) && i < |run| && k < |run[i].store.rows|
    ensures var m := run[i].store.rows[k].message;
            match m.role
            case User => m.iteration == 0 && m.calls == [] && Submitted(run, i, m.turn, m.content)
            case Assistant => FromReply(run, i, m)
            case Tool =>
              m.calls == [] && exists n: nat, index: nat, call ::
                && index < |CallsOf(run[i].store, m.turn, n)| && CallsOf(run[i].store, m.turn, n)[index] == call
                && AnswersCall(run, i, m, n, index, call)
  {
    SourcedThroughout(run, i);
    var m := run[i].store.rows[k].message;
    assert HasSource(run, i, m);
    if m.role == Tool {
      var n: nat, index: nat, call :| AnswersCall(run, i, m, n, index, call);
      AnsweredIsAsked(run, i, m, n, index, call);
    }
  }
}
