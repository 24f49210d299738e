/**
  The agent's turn as a choreography of reactors.

  No loop is written here. A reactor is woken by a recorded fact, reads and
  writes the session's conversation, and emits facts; which reactor a fact wakes
  is the reaction table. A reactor may be woken again for a fact it already
  handled, run beside itself, stop between any two steps, and have its emits
  land late or never.
 */
module TurnMachine {
  import opened Wrappers
  import opened SessionStore
  import opened Whitespace

  datatype Reply = Reply(content: string, calls: seq<ToolCall>)

  datatype StoppedBy = FinalAnswer | IterationBudget

  /** A recorded fact. `Ready(turn, i)` carries iteration `i + 1`, the one to run next. */
  datatype Fact =
    | TurnStarted(turn: string)
    | IterationStarted(turn: string, iteration: nat)
    | ModelReplied(turn: string, iteration: nat, calls: nat)
    | ToolRequested(turn: string, iteration: nat, index: nat, call: ToolCall)
    | ToolFailed(turn: string, iteration: nat, index: nat)
    | ToolStarted(turn: string, iteration: nat, index: nat)
    | ToolCompleted(turn: string, iteration: nat, index: nat)
    | Ready(turn: string, iteration: nat)
    | TurnFinal(turn: string, answer: string, stoppedBy: StoppedBy)

  /** What makes an emitted fact the same fact. */
  datatype Key =
    | StartedKey(turn: string)
    | IterationKey(turn: string, iteration: nat)
    | RepliedKey(turn: string, iteration: nat)
    | RequestedKey(turn: string, iteration: nat, index: nat)
    | FailedKey(turn: string, iteration: nat, index: nat)
    | CommandKey(turn: string, iteration: nat, index: nat)
    | CompletedKey(turn: string, iteration: nat, index: nat)
    | ReadyKey(turn: string, iteration: nat)
    | FinalKey(turn: string)

  function KeyOf(fact: Fact): Key {
    match fact
    case TurnStarted(turn) => StartedKey(turn)
    case IterationStarted(turn, i) => IterationKey(turn, i)
    case ModelReplied(turn, i, _) => RepliedKey(turn, i)
    case ToolRequested(turn, i, index, _) => RequestedKey(turn, i, index)
    case ToolFailed(turn, i, index) => FailedKey(turn, i, index)
    case ToolStarted(turn, i, index) => CommandKey(turn, i, index)
    case ToolCompleted(turn, i, index) => CompletedKey(turn, i, index)
    case Ready(turn, i) => ReadyKey(turn, i)
    case TurnFinal(turn, _, _) => FinalKey(turn)
  }

  datatype Queue = Model | Decide | ToolQueue | Join | View

  /** The reaction table: the only statement of the cycle. */
  function Reactions(fact: Fact): set<Queue> {
    match fact
    case TurnStarted(_) => {Model, View}
    case Ready(_, _) => {Model}
    case ModelReplied(_, _, _) => {Decide, View}
    case ToolRequested(_, _, _, _) => {ToolQueue}
    case ToolCompleted(_, _, _) => {Join, View}
    case TurnFinal(_, _, _) => {View}
    case _ => {}
  }

  datatype Pc =
    | Opening(turn: string, prompt: string)
    | Opened(turn: string)
    | Asking(turn: string, iteration: nat)
    | Inferring(turn: string, iteration: nat)
    | Answering(turn: string, iteration: nat, reply: Reply)
    | Answered(turn: string, iteration: nat, reply: Reply)
    | Deciding(turn: string, iteration: nat)
    | Requesting(turn: string, iteration: nat, calls: seq<ToolCall>, done: nat)
    | Ending(turn: string, iteration: nat, final: Fact)
    | ToolWoken(turn: string, iteration: nat, index: nat, call: ToolCall)
    | ToolRefused(turn: string, iteration: nat, index: nat, call: ToolCall)
    | ToolUnanswered(turn: string, iteration: nat, index: nat, call: ToolCall)
    | ToolRunning(turn: string, iteration: nat, index: nat, call: ToolCall)
    | ToolExited(turn: string, iteration: nat, index: nat, call: ToolCall, output: string)
    | ToolAnswered(turn: string, iteration: nat, index: nat, call: ToolCall)
    | Joining(turn: string, iteration: nat)
    | Counted(turn: string, iteration: nat, requested: nat, completed: nat)
    | Won(turn: string, iteration: nat)

  /** What the session's tables hold, and the configured budget. */
  datatype Store = Store(maxIterations: nat, rows: seq<Row>, latches: set<(string, int)>)

  /** `emitted` is every fact a reactor handed over, in order; `log` is what has been recorded of them. */
  datatype State = State(store: Store, emitted: seq<Fact>, log: map<Key, Fact>, reactors: map<nat, Pc>)

  /** What the outside decides: the model's reply, a command's output, the fence's answer. */
  datatype Choice = Nothing | ModelSaid(reply: Reply) | CommandPrinted(output: string) | FenceSaid(owned: bool) | Stop

  datatype Step =
    | Submit(p: nat, turn: string, prompt: string)
    | Wake(p: nat, fact: Fact, queue: Queue)
    | Land(fact: Fact)
    | Run(p: nat, choice: Choice)

  datatype Change = Change(append: Option<Message>, latch: Option<(string, int)>, emit: seq<Fact>, next: Option<Pc>)

  predicate Init(s: State) {
    && s.store.rows == [] && s.store.latches == {} && s.store.maxIterations >= 1
    && s.emitted == [] && s.log == map[] && s.reactors == map[]
  }

  function ReplyId(turn: string, iteration: nat): Identity {
    Identity(turn, iteration, Assistant, "")
  }

  function AnswerId(turn: string, iteration: nat, callId: string): Identity {
    Identity(turn, iteration, Tool, callId)
  }

  function ReplyOf(s: Store, turn: string, iteration: nat): Option<Message> {
    Lookup(s.rows, ReplyId(turn, iteration))
  }

  const BUDGET_ANSWER := "Stopped: reached the iteration budget before the model produced a final answer."

  /** What the decision makes of the message it read back, or of finding none. */
  function Decision(turn: string, iteration: nat, reply: Option<Message>, maxIterations: nat): Pc {
    var calls := if reply.Some? then reply.value.calls else [];
    if calls == [] then
      Ending(turn, iteration, TurnFinal(turn, if reply.Some? then Trim(reply.value.content) else "", FinalAnswer))
    else if iteration + 1 >= maxIterations then
      Ending(turn, iteration, TurnFinal(turn, BUDGET_ANSWER, IterationBudget))
    else Requesting(turn, iteration, calls, 0)
  }

  function Go(pc: Pc): Change {
    Change(None, None, [], Some(pc))
  }

  const Done := Change(None, None, [], None)

  /** One step of a running reactor. Steps the choice does not fit leave it where it is. */
  function React(s: Store, pc: Pc, choice: Choice): Change {
    if choice.Stop? then Done
    else
      match pc
      case Opening(turn, prompt) =>
        Go(Opened(turn)).(append := Some(Message(turn, 0, User, prompt, [], "")))
      case Opened(turn) => Done.(emit := [TurnStarted(turn)])
      case Asking(turn, i) => Go(Inferring(turn, i)).(emit := [IterationStarted(turn, i)])
      case Inferring(turn, i) => if choice.ModelSaid? then Go(Answering(turn, i, choice.reply)) else Go(pc)
      case Answering(turn, i, reply) =>
        Go(Answered(turn, i, reply)).(append := Some(Message(turn, i, Assistant, reply.content, reply.calls, "")))
      case Answered(turn, i, reply) => Done.(emit := [ModelReplied(turn, i, |reply.calls|)])
      case Deciding(turn, i) => Go(Decision(turn, i, ReplyOf(s, turn, i), s.maxIterations))
      case Requesting(turn, i, calls, done) =>
        if done < |calls| then
          Go(Requesting(turn, i, calls, done + 1)).(emit := [ToolRequested(turn, i, done, calls[done])])
        else Done
      case Ending(_, _, final) => Done.(emit := [final])
      case ToolWoken(turn, i, index, call) =>
        if call.id == "" then Done
        else if call.command == "" then Go(ToolRefused(turn, i, index, call)).(emit := [ToolFailed(turn, i, index)])
        else if Lookup(s.rows, AnswerId(turn, i, call.id)).Some? then Go(ToolAnswered(turn, i, index, call))
        else Go(ToolUnanswered(turn, i, index, call))
      case ToolRefused(turn, i, index, call) =>
        Go(ToolAnswered(turn, i, index, call)).(
          append := Some(Message(turn, i, Tool, "error: the bash tool requires a non-empty `command` string.", [], call.id)))
      case ToolUnanswered(turn, i, index, call) =>
        if choice.FenceSaid? then
          if choice.owned then Go(ToolRunning(turn, i, index, call)).(emit := [ToolStarted(turn, i, index)]) else Done
        else Go(pc)
      case ToolRunning(turn, i, index, call) =>
        if choice.CommandPrinted? then Go(ToolExited(turn, i, index, call, choice.output)) else Go(pc)
      case ToolExited(turn, i, index, call, output) =>
        Go(ToolAnswered(turn, i, index, call)).(append := Some(Message(turn, i, Tool, output, [], call.id)))
      case ToolAnswered(turn, i, index, call) => Done.(emit := [ToolCompleted(turn, i, index)])
      case Joining(turn, i) =>
        Go(Counted(turn, i, Requested(s.rows, turn, i), Completed(s.rows, turn, i)))
      case Counted(turn, i, requested, completed) =>
        if requested == 0 || completed < requested then Done
        else if (turn, i) in s.latches then Done
        else Go(Won(turn, i)).(latch := Some((turn, i)))
      case Won(turn, i) => Done.(emit := [Ready(turn, i)])
  }

  /** The reactor a queue's consumer starts for a fact. The view's reactor records nothing and is not followed. */
  function Woken(fact: Fact, queue: Queue): Option<Pc> {
    match queue
    case Model =>
      if fact.TurnStarted? then Some(Asking(fact.turn, 0))
      else if fact.Ready? then Some(Asking(fact.turn, fact.iteration + 1)) else None
    case Decide => if fact.ModelReplied? then Some(Deciding(fact.turn, fact.iteration)) else None
    case ToolQueue =>
      if fact.ToolRequested? then Some(ToolWoken(fact.turn, fact.iteration, fact.index, fact.call)) else None
    case Join => if fact.ToolCompleted? then Some(Joining(fact.turn, fact.iteration)) else None
    case View => None
  }

  /** Whether some reactor answers for this fact on this queue; the view's answer for a turn's milestones. */
  predicate IsHandled(fact: Fact, queue: Queue) {
    if queue.View? then fact.TurnStarted? || fact.ModelReplied? || fact.ToolCompleted? || fact.TurnFinal?
    else Woken(fact, queue).Some?
  }

  /** The table sends every fact exactly where a reactor answers for it: none waits unread, none is turned away. */
  lemma TableMatchesReactors(fact: Fact, queue: Queue)
    ensures queue in Reactions(fact) <==> IsHandled(fact, queue)
  {
  }

  predicate Enabled(s: State, step: Step) {
    match step
    case Submit(p, _, prompt) => p !in s.reactors && prompt != ""
    case Wake(p, fact, queue) =>
      && p !in s.reactors && fact in s.log.Values && queue in Reactions(fact) && Woken(fact, queue).Some?
    case Land(fact) => fact in s.emitted
    case Run(p, _) => p in s.reactors
  }

  function Write(s: Store, c: Change): Store {
    Store(s.maxIterations,
          if c.append.Some? then AppendAll(s.rows, MaxOrdinal(s.rows), [c.append.value]) else s.rows,
          if c.latch.Some? then s.latches + {c.latch.value} else s.latches)
  }

  function Commit(s: State, p: nat, c: Change): State {
    State(Write(s.store, c), s.emitted + c.emit, s.log,
          if c.next.Some? then s.reactors[p := c.next.value] else s.reactors - {p})
  }

  function Apply(s: State, step: Step): State
    requires Enabled(s, step)
  {
    match step
    case Submit(p, turn, prompt) => s.(reactors := s.reactors[p := Opening(turn, prompt)])
    case Wake(p, fact, queue) => s.(reactors := s.reactors[p := Woken(fact, queue).value])
    case Land(fact) => if KeyOf(fact) in s.log then s else s.(log := s.log[KeyOf(fact) := fact])
    case Run(p, choice) => Commit(s, p, React(s.store, s.reactors[p], choice))
  }
}
