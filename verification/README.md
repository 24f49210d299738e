# Durable execution, agent turns and their read models

A Dafny model of a broker that runs commands from a queue at least once, of the
agent that runs on it as reactors to recorded facts, and of the folds, buffers
and indexes that show the result. `dafny verify dfyconfig.toml` verifies the
whole project with Dafny 4.11.

## What is modelled

**The consumer protocol** is a transition system (`WorkerConsumer`): a log, a
claim table with leases, a queue, and any number of attempts on any message. A
step is one SQL statement or queue operation of one attempt, or something the
world may do: time passes, a message is sent or handed out again, an attempt
dies between two statements, an answer is lost before or after the statement
took effect, an abandoned transaction is finalised. `ConsumerInvariant`,
`NoLostReply` and `ConsumerHistory` are what every step keeps, `ConsumerRuns`
what follows for whole runs, `ConsumerEnvelopes` where the rows they log belong
and come from. `ConsumerProcess` is the consumer's own code, statement after
statement, proved to take only steps of the protocol; `ExecutionStore` holds the
table and its statements.

**The log** (`EventStore`) is a transition system too, because there the
interleaving of open transactions is the point; `EventAppend` is the append as a
program within it, `EventSources` where its rows come from. `LogRead` is how
positions, high-water marks and pages read it, shared by the loop that
dispatches facts (`ReactionEnqueue`) and the loop that delivers events:
`TailReads` is one read of it, `TailRuns` its whole runs, `LogTail` its code on
the channels of `Hub`.

**The agent's turn** has no loop anywhere: `TurnMachine` has the reactors, the
reaction table that is the only statement of the cycle, and facts that may be
recorded late or never. `TurnInvariant` and `TurnSteps` are what its steps keep,
`TurnRuns` what follows. `TurnOrigins` is where an iteration comes from,
`TurnReady` that one which can go on gets there, `TurnStalls` exactly which
cannot, `TurnContents` what its rows and its answer hold. `Reactors` is each
reactor as a program that takes only such steps, on the session tables of
`SessionStore`. `Sequencer` hands out the positions of the facts.

**The two folds.** `ClientFold` is the transcript a screen folds from events in
any order, `ClientConvergence` and `ClientSession` that order and repetition do
not matter to it, `ClientShown` and `ClientArrival` what it then says,
`ClientStanding` the part that does go by the last word, `ClientModel` the
objects updated in place. `Projection` is the server's read model of the same
facts; `ProjectionAgrees`, `ProjectionRebuild` and `ProjectionAgain` that it
tells the same and can be fed again, `ProjectionTurns` what a turn's own row
says.

**The rest**: `LlmStream` decodes the streamed model reply, `LlmReply` is what
it holds, `Mailbox` bounds a connection's outgoing events, `Pgmq` batches sends,
`Organizations` walks the organisation tree up and down.

## How to read it

- In a class that refines a transition system, `Elsewhere` (and `LogMayGrow`)
  stands for everybody else: its contract allows any further run of the
  protocol that does not touch the caller's own attempt, and every `await` goes
  through it. Its body is empty because all that is used of it is its contract.
  An `if *` is an error, a lost answer or a death at that point. `reliable`
  says there are none and `quiet` that nobody else does anything, so that a
  contract can say what is then sure to be done.
- A ghost `run` carries the run of the protocol so far. Each statement of the
  program must show that the fields it changed are those of one step.
- Ids derived by hashing (`deterministicEventId`, `payloadHash`) are
  constructors applied to the parts that are hashed; a reaction's parts are the
  queue and the id of the fact. That different parts give different ids is
  assumed. The code hashes parts joined by colons, so parts that hold colons
  themselves can collide: stream `channel:x` with reply channel `y:z`, and
  stream `channel:x:y` with reply channel `z`, share the id of a result.
- Attempt ids handed out are new.
- Clocks, the model's replies, what commands print and what the database
  answers are inputs.

## Main results

- Whole runs of the consumers: `ConsumerRuns.NoReplyIsLost`, `OutcomesAgree`,
  `OneCompletion`, `StaleAttemptsAreFenced`, `RefusedHeartbeatSilences`,
  `FenceExcludesOthers`, `ReactionsAreNeverRefused`,
  `ConsumerEnvelopes.ReactionsKeepTheirSession`; their code takes only such steps:
  `ConsumerProcess.Broker.Process`.
- The log: `EventStore.StreamsAreDense`, `NothingAppearsBelow`. Its readers:
  `ReactionEnqueue.ReactionEnqueue.Drain`, `TailRuns.LostExactlyWhen`,
  `CalmPassHandsOnAll`.
- The turn: `TurnRuns.NothingFollowsTheFinal`, `TurnIsBounded`, `JoinIsSound`,
  `TurnStalls.ReadyExactlyWhen`, `TurnContents.FinalSaysTheReply`.
- The folds: `ClientSession.DeliveriesConverge`, `ClientShown.DeliveryShowsEvents`,
  `ProjectionRebuild.RebuiltTellsTheScreen`, `ProjectionTurns.RebuiltRowTells`,
  `ProjectionAgain.RebuildingAgainChangesNothing`.
- The rest: `LlmStream.Chat`, `Pgmq.ResolvedHaveTheirOwnRows`,
  `Sequencer.PositionsAreUnique`, `Organizations.AuthorityReachesDown`.

## Three findings

- **A reply whose calls do not each have an id of their own stalls its turn.**
  Answers are stored under the call's id, and a call without one is never run.
  `TurnStalls.ReadyExactlyWhen` says, for any run with the reply stored, exactly
  when some continuation declares the iteration ready; while nobody has taken
  the latch the stored reply alone decides (`ReplyDecides`). `BadReplyStalls`
  runs into it with any such reply, and with repeated ids even after every call
  was answered. The other way to stall is a death between taking the latch and
  saying so.
- **Two watched channels in one stream can lose an event.** The tail reads past
  the furthest position of any channel, so a channel that joins at the end of
  the log steps over what another is still owed. `TailRuns.LostExactlyWhen` says
  over whole runs exactly which events are not handed on, `OnlySeatingOvertakes`
  where that comes from, and `OvertakenStaysLost` that it does not heal.
  `LogTail.TwoChannelsLoseAnEvent` does it with two events and the loop's own
  code; with one channel a stream it cannot happen
  (`TailRuns.OneChannelStaysCalm`).
- **A restart before the first save skips facts.**
  `ReactionEnqueue.ReactionEnqueue.Restart`: what was still to be dispatched is
  behind the new start exactly when nothing had been saved. `Drain` says that
  from then on passes send exactly what is past their start, so it is left to
  the sweep; `RestartLosesAFact` does it with one fact.

Where a whole message comes in a stream, what is passed on falls short of the
reply exactly when that message said something
(`LlmStream.PassedOnIsTheReplyExactlyWhen`); the caller makes up for it only if
nothing at all was passed on.

## Model

| member | source | states |
|---|---|---|
| ExecutionStore.ClaimingMoves | packages/agent/src/broker/idempotency/store.ts:70-87 | Claiming an existing transaction touches that transaction alone, takes back no recipient, and leaves a finished row exactly as it was |
| ExecutionStore.ExecutionStore.ClaimNow | packages/agent/src/broker/idempotency/store.ts:63-88 | A claim is won exactly when the transaction is new, or runs with the same hash and an expired lease; it is refused exactly when the hash differs; a join changes no row and reports the stored request, status and result |
| ExecutionStore.ExecutionStore.Settled | packages/agent/src/broker/idempotency/store.ts:98-105 | Exactly the asked-for transactions with a row that no longer runs |
| WorkerConsumer.StepMoves | packages/agent/src/broker/idempotency/store.ts:63-131 | No step anywhere removes a row or a recipient, or changes a row once it is terminal |
| Events.StreamsAreApart | packages/agent/src/common/protocol/event/index.ts:55-58 | Sessions have streams of their own, and so have channels outside any session |
| ConsumerInvariant.StepKeepsBasic | packages/agent/src/broker/loops/worker-consumer/index.ts:35-190 | Every step, by any attempt or by the outside, keeps the joint invariant of queue, table, log and attempts in flight, among it that each logged outcome is the stored result of its transaction |
| ConsumerInvariant.ActionIsLegal | packages/agent/src/broker/loops/worker-consumer/index.ts:35-190 | Whatever an attempt does next keeps to its own transaction and leaves its row, its recipients and what it logged in order |
| NoLostReply.StepKeepsInv | packages/agent/src/broker/loops/worker-consumer/index.ts:35-190 | Every step keeps: a running transaction has its source message queued, and every recipient of a finished one is told or covered by a message that cannot be deleted without telling it |
| NoLostReply.SourceCovers | packages/agent/src/broker/loops/worker-consumer/index.ts:47-54 | While a transaction runs, its source message answers for every one of its recipients |
| NoLostReply.ConsumedIsNoSource | packages/agent/src/broker/loops/worker-consumer/index.ts:50-53 | A message an attempt deletes is never the source of a transaction that still runs |
| NoLostReply.NewcomerIsCovered | packages/agent/src/broker/idempotency/store.ts:70-87 | A recipient that joins a finished transaction is answered for by the message it came with |
| NoLostReply.DeleterToldThem | packages/agent/src/broker/loops/worker-consumer/index.ts:172-188 | When a message that answers for a recipient of a finished transaction is deleted, that recipient has been told |
| ConsumerHistory.StepKeepsHistory | packages/agent/src/broker/idempotency/store.ts:63-131 | Every step keeps: attempts in flight are distinct, each belongs to one claim, a transaction has as many claims as attempts, at most one accepted completion, and no attempt starts a second command |
| ConsumerRuns.NoReplyIsLost | packages/agent/src/broker/loops/worker-consumer/index.ts:35-190 | In every state of every run, with crashes and redelivery anywhere: a running transaction has its source message on the queue, and each recorded recipient has its terminal event in the log or an undeleted message of its transaction answering for it |
| ConsumerRuns.CoveringMessageTells | packages/agent/src/broker/loops/worker-consumer/index.ts:45-56 | What answering for a recipient is worth: an attempt that takes that message and is left alone tells the recipient |
| ConsumerRuns.VerdictIsForEver | packages/agent/src/broker/idempotency/store.ts:118-131 | Once a transaction has a verdict, its row is the same in every later state |
| ConsumerRuns.OneCompletion | packages/agent/src/broker/idempotency/store.ts:118-123 | At most one attempt of a transaction is ever accepted as its completion |
| ConsumerRuns.OutcomesAgree | packages/agent/src/broker/loops/worker-consumer/index.ts:172-189 | Any two terminal events of a transaction, by whichever attempts and for whichever recipients, carry the stored result; a recipient has one of them and never both kinds |
| ConsumerRuns.StaleForEver | packages/agent/src/broker/idempotency/store.ts:107-123 | An attempt superseded, or whose transaction is finished, never owns it again |
| ConsumerRuns.StaleAttemptsAreFenced | packages/agent/src/broker/idempotency/store.ts:107-123 | From then on its renewal, release and completion change nothing, in any later state |
| ConsumerRuns.StaleFenceIsRefused | packages/agent/src/broker/loops/worker-consumer/index.ts:131-144 | A stale attempt that asks its fence is told no and counts its lease as lost |
| ConsumerRuns.RefusedHeartbeatSilences | packages/agent/src/broker/loops/worker-consumer/index.ts:62-151 | Once the heartbeat of an attempt got anything but a yes, as it does when the attempt is stale, that attempt adds no observation to the log in any later state, passes no fence, and never goes on to complete with a success |
| ConsumerRuns.FenceExcludesOthers | packages/agent/src/broker/loops/worker-consumer/index.ts:131-144 | From a passed fence until the lease it renewed runs out, and while the handler is at work, no other attempt owns the transaction |
| ConsumerRuns.HeartbeatExcludesOthers | packages/agent/src/broker/loops/worker-consumer/index.ts:62-67 | The same from a heartbeat that got a yes: the lease runs anew from then |
| ConsumerRuns.ClaimExcludesOthers | packages/agent/src/broker/idempotency/store.ts:63-88 | And from winning a claim, for a new transaction and for one taken over |
| ConsumerRuns.CommandsNeverExceedClaims | packages/vibeagent_domain/src/server/reactors/tool-run/index.ts:74-107 | Commands started for a transaction never outnumber its claims, and no attempt starts two |
| ConsumerRuns.ReactionsAreNeverRefused | packages/agent/src/broker/loops/reaction-enqueue/index.ts:67-95 | However often a fact is dispatched to a queue, whoever claims under the identity hashed from queue and fact id asks for the same work, since the log keeps the row first stored under an id: none is refused as a conflict |
| ConsumerRuns.ReactionHasItsOwnRow | packages/agent/src/broker/loops/reaction-enqueue/index.ts:67-95 | The row under the identity of a queue and a fact id was opened by a copy of the stored fact and no other message, and at most one of its attempts completes |
| ConsumerRuns.AlteredCopyIsRefused | packages/agent/src/broker/idempotency/store.ts:70-87 | What makes it so: with the row open, a copy under that identity would be refused exactly when its action or payload is not that of the stored fact |
| ConsumerEnvelopes.StepKeepsPlaced | packages/agent/src/broker/ingress/event-draft.ts:18-86 | Every step keeps: a row with a session stands in the stream of that session, and every row that is not a command answers a command of the log |
| ConsumerEnvelopes.RowsAnswerTheirRequest | packages/agent/src/broker/ingress/event-draft.ts:43-86 | In every state of every run, an observation, a conflict or an outcome has the transaction, stream and session of a command, its kind and its action follow from that command, and it goes to the channel the command asked to be answered on; a conflict says it is one |
| ConsumerEnvelopes.ReactionsKeepTheirSession | packages/agent/src/broker/loops/reaction-enqueue/index.ts:79-95 | The command row of a fact and a queue has the session, channel, reply channel, action and payload of the fact, and every row logged for it has that session and, with one, stands in the fact's own stream and goes to the fact's reply channel |
| ConsumerEnvelopes.RowsWereMade | packages/agent/src/broker/ingress/event-draft.ts:18-41 | A command row is, field by field, a message somebody picked up earlier in the run; an observation is what an attempt said earlier, its lease not known lost |
| ConsumerProcess.Broker.Claim | packages/agent/src/broker/idempotency/store.ts:63-88 | The two statements of a claim with other attempts in between are steps of the protocol, and the answer is the one its state gives |
| ConsumerProcess.Broker.WhileHandling | packages/agent/src/broker/loops/worker-consumer/index.ts:60-147 | The lease counts as lost exactly when it did before or a heartbeat or a question got anything but a yes, which it gets exactly from a table that has the attempt as owner; a command starts only behind a passed fence |
| ConsumerProcess.Broker.BeatNow | packages/agent/src/broker/loops/worker-consumer/index.ts:62-67 | A heartbeat loses the lease exactly when its answer is lost or the attempt no longer owns the transaction |
| ConsumerProcess.Broker.FenceNow | packages/agent/src/broker/loops/worker-consumer/index.ts:131-144 | The fence passes exactly on a yes from the table, and loses the lease on a no or an error |
| ConsumerProcess.Broker.RunHandler | packages/agent/src/broker/loops/worker-consumer/index.ts:145-151 | A return is a result to complete with only if every heartbeat got a yes, and a lost lease only if some question was not answered or the attempt no longer owns; a throw is a failure, a dead worker a lost lease |
| ConsumerProcess.Broker.Complete | packages/agent/src/broker/loops/worker-consumer/index.ts:153-170 | Settled exactly when the owner's completion was answered; else a refusal after success loses the lease, an error after success becomes a failure result, and any other completion that is not accepted ends the attempt |
| ConsumerProcess.Broker.GiveUpOrFail | packages/agent/src/broker/loops/worker-consumer/index.ts:158-165 | A lost lease lets the next attempt in below the attempt limit and goes on to settle the transaction as permanently failed at it |
| ConsumerProcess.Broker.Execute | packages/agent/src/broker/loops/worker-consumer/index.ts:57-171 | A claimed execution ends with its verdict in the table, or gone; with nothing failing it is gone only when it no longer keeps the next attempt out |
| ConsumerProcess.Broker.FanOutAll | packages/agent/src/broker/loops/worker-consumer/index.ts:172-188 | If the message goes, everybody recorded when the recipients were read, its own sender among them, has the verdict in the log |
| ConsumerProcess.Broker.Leave | packages/agent/src/broker/loops/worker-consumer/index.ts:45-55 | A message joined to a running transaction goes only when it is not the stored source message, and with nothing failing exactly then |
| ConsumerProcess.Broker.Process | packages/agent/src/broker/loops/worker-consumer/index.ts:35-190 | One delivery, awaited statement by statement, with everybody else in between and errors anywhere, is part of a run of the protocol. It lets go of its message only after telling a conflict, leaving it to the source, or telling everyone recorded the stored verdict; with nothing failing it keeps it only as the source of a running transaction, or when its claim no longer keeps the next attempt out |
| EventStore.InsertNeverCollides | packages/agent/src/broker/event-store/store.ts:114-128 | The event lock makes the insert's conflict branch unreachable: a missing event is still missing when its row is written |
| EventStore.StepKeepsInv | packages/agent/src/broker/event-store/store.ts:105-143 | With transactions interleaved statement by statement and rolled back anywhere, counters match the committed rows and open transactions hold disjoint streams and events |
| EventStore.StreamsAreDense | packages/agent/src/broker/event-store/store.ts:105-143 | The rows of every stream are numbered 1, 2, 3, ... in the order they were committed, and each event id is stored once |
| EventStore.LogOnlyGrows | packages/agent/src/broker/event-store/store.ts:105-143 | What is committed stays committed, in its place |
| EventStore.NothingAppearsBelow | packages/agent/src/broker/event-store/store.ts:160-168 | A row committed later never stands at or below a sequence already committed in its stream: a reader steps over nothing |
| EventStore.EverySequenceIsTaken | packages/agent/src/broker/event-store/store.ts:121-123 | Every number up to the newest of a stream belongs to a row |
| EventStore.AppendReturnsStoredRows | packages/agent/src/broker/event-store/store.ts:115-131 | What an append hands back, found or fresh, is what the log holds once it has committed |
| EventSources.RowsWereAsked | packages/agent/src/broker/event-store/store.ts:105-143 | Every stored row is, unaltered, an event that some transaction of the run was asked to append |
| EventAppend.EventLog.AppendOne | packages/agent/src/broker/event-store/store.ts:114-129 | One event of a batch yields the one row under its id, found or made, or the transaction leaves nothing |
| EventAppend.EventLog.AppendMany | packages/agent/src/broker/event-store/store.ts:105-143 | The whole program refines the protocol: on success each event of the sorted batch has its committed row; on an error the log is as it was; and with nothing failing the only way not to succeed is a lock held by somebody else |
| LogRead.HighWater | packages/agent/src/broker/event-store/store.ts:169-173 | Per stream, the highest sequence of a wanted row, attained by one |
| LogRead.Filter | packages/agent/src/broker/event-store/store.ts:192-203 | Exactly the wanted rows between position and high water |
| LogRead.PageHasNoHoles | packages/agent/src/broker/event-store/store.ts:192-203 | Within a stream, whatever is unread and comes before a row of a page is on the page before it |
| LogRead.ReadIsGood | packages/agent/src/broker/event-store/store.ts:192-203 | A complete page holds all that is unread; an incomplete one is full |
| LogRead.PageAscends | packages/agent/src/broker/event-store/store.ts:215-226 | Within a stream, a page goes up |
| LogRead.PageRepeatsNothing | packages/agent/src/broker/event-store/store.ts:215-226 | No row is on a page twice |
| LogRead.LateRowIsAbove | packages/agent/src/broker/event-store/store.ts:160-168 | Rows that were not there yet are numbered past everything that was |
| ReactionEnqueue.PairsAreTransactions | packages/agent/src/broker/loops/reaction-enqueue/index.ts:79-95 | As the log stores an event id once, copies share an identity exactly when they are of one fact for one queue, and each is what consumers count on |
| ReactionEnqueue.PageIsCovered | packages/agent/src/broker/loops/reaction-enqueue/index.ts:126-138 | Once a page is sent, everything up to the cursor it advances to is sent |
| ReactionEnqueue.CoverSurvivesGrowth | packages/agent/src/broker/loops/reaction-enqueue/index.ts:115-140 | Rows appended meanwhile never open a gap below the cursor |
| ReactionEnqueue.PageShrinksAhead | packages/agent/src/broker/loops/reaction-enqueue/index.ts:122-138 | Every page that is not empty leaves strictly fewer facts ahead |
| ReactionEnqueue.ReactionEnqueue.Seed | packages/agent/src/broker/loops/reaction-enqueue/index.ts:106-113 | A saved position is resumed; without one the loop starts where the log ended when it asked, and saves that; each of the three statements may fail, and the log grow between them |
| ReactionEnqueue.ReactionEnqueue.Restart | packages/agent/src/broker/loops/reaction-enqueue/index.ts:106-113 | After a death, a fact still to be dispatched is behind the new start exactly when no position had been saved |
| ReactionEnqueue.ReactionEnqueue.Drain | packages/agent/src/broker/loops/reaction-enqueue/index.ts:115-140 | Whatever fails or dies, a pass that says it is caught up leaves sent exactly the copies of what is past the start, and of what was sent before that start; what an earlier start left behind it never sends; one that says it is not leaves strictly less; with nothing failing it says one or the other |
| ReactionEnqueue.RestartLosesAFact | packages/agent/src/broker/loops/reaction-enqueue/index.ts:106-140 | The gap at its smallest: one fact, a death before the first save, a restart, a pass that says it is caught up, and nothing sent |
| ReactionEnqueue.ReactionEnqueue.Save | packages/agent/src/broker/loops/reaction-enqueue/index.ts:135-139 | The position in memory moves only once the cursor is saved |
| ReactionEnqueue.ReactionEnqueue.Reconcile | packages/agent/src/broker/loops/reaction-enqueue/index.ts:160-188 | Of the candidates, each is sent again for each of its queues unless the executions hold it settled, and nothing settled is sent, also when the sweep fails or dies on the way |
| SessionStore.AppendAllKeepsOrder | packages/vibeagent_domain/src/server/session/store.ts:160-197 | Appending keeps what is there, keeps ordinals rising, and stores no identity twice |
| SessionStore.AppendOneLooksUp | packages/vibeagent_domain/src/server/session/store.ts:175-193 | First write wins: what is stored under an identity is never replaced |
| SessionStore.SessionStore.AppendMessages | packages/vibeagent_domain/src/server/session/store.ts:160-197 | Appends exactly the messages whose identity is new, in order, or fails on a session that is not open |
| SessionStore.SessionStore.LastAssistantMessage | packages/vibeagent_domain/src/server/session/store.ts:264-273 | The newest assistant message of the iteration, or none when there is none |
| SessionStore.SessionStore.ToolProgress | packages/vibeagent_domain/src/server/session/store.ts:282-291 | Counts the calls inside the assistant messages and the tool rows of one iteration |
| SessionStore.SessionStore.ClaimIterationReady | packages/vibeagent_domain/src/server/session/store.ts:233-240 | True exactly for the first caller of an iteration |
| SessionStore.SessionStore.AllocateSequence | packages/vibeagent_domain/src/server/session/store.ts:141-151 | Hands out a block starting where the counter stood and moves the counter past it |
| TurnInvariant.CompletedCountsIds | packages/vibeagent_domain/src/server/session/store.ts:282-291 | With one row an identity, counting tool rows counts distinct answered call ids |
| TurnInvariant.RequestedIsItsReply | packages/vibeagent_domain/src/server/session/store.ts:282-291 | What an iteration requested is what its one stored reply asks for |
| TurnInvariant.FullCountIsSound | packages/vibeagent_domain/src/server/reactors/tool-join/index.ts:36-39 | The pigeonhole: as many answers as calls means every call is answered, with no assumption that ids differ |
| TurnInvariant.CountIsFullExactlyWhen | packages/vibeagent_domain/src/server/reactors/tool-join/index.ts:36-39 | The count is full exactly when all calls are answered and no two share an id |
| TurnSteps.StepKeepsInv | apps/vibeagent/src/server/reactions/table.ts:22-35 | Every step of every reactor, re-run, concurrent or cut short, keeps: an iteration is reached only through the latches before it, and a latch is held only by an iteration whose calls are all answered |
| TurnOrigins.StepKeepsOrigins | apps/vibeagent/src/server/reactions/table.ts:22-35 | An iteration is worked on only after the fact that opens it is recorded, and a call without an id is never answered |
| TurnMachine.TableMatchesReactors | apps/vibeagent/src/server/reactions/table.ts:22-35 | The table sends every fact to exactly the queues on which a reactor answers for it |
| TurnRuns.FinalIsUnique | packages/vibeagent_domain/src/server/reactors/reply-decide/index.ts:25-47 | However many reactors end a turn, they emit the same final fact |
| TurnContents.FinalSaysTheReply | packages/vibeagent_domain/src/server/reactors/reply-decide/index.ts:25-47 | The answer of a turn is a stored reply of it that asks for no calls, its content without the white space around it; or the budget text, of a reply that asks for calls with no iteration left |
| TurnContents.RowsHaveSources | packages/vibeagent_domain/src/server/reactors/model-call/index.ts:141-149 | In every state of every run, a stored prompt was submitted, a stored reply was given by the model when asked in that iteration, and a stored answer is what the command of that call of the stored reply printed, or the refusal of a call without a command |
| TurnRuns.NothingFollowsTheFinal | packages/vibeagent_domain/src/server/reactors/reply-decide/index.ts:25-67 | The final fact comes from one iteration; no fact of the turn is about a later one, and that iteration never asks for tools |
| TurnRuns.TurnIsBounded | packages/vibeagent_domain/src/server/reactors/reply-decide/index.ts:38-47 | Every iteration stays below the budget, the one a ready fact opens included |
| TurnRuns.JoinIsSound | packages/vibeagent_domain/src/server/reactors/tool-join/index.ts:36-52 | An iteration is declared ready at most once, and only with every call of its stored reply answered |
| TurnRuns.RepeatedIdNeverJoins | packages/vibeagent_domain/src/server/reactors/tool-join/index.ts:36-39 | A reply that repeats a call id is never declared ready, whatever its tools answer |
| TurnReady.GetsReady | apps/vibeagent/src/server/reactions/table.ts:22-35 | From any reachable state whose stored reply asks, within the budget, for calls with ids of their own and whose latch is free, a run leads to the iteration declared ready |
| TurnStalls.ReadyExactlyWhen | packages/vibeagent_domain/src/server/reactors/tool-join/index.ts:36-52 | With the reply stored, some continuation of the run declares the iteration ready exactly when it was declared, the winner of the latch is still there, or the latch is free and the calls, within the budget, each have an id of their own |
| TurnStalls.ReplyDecides | packages/vibeagent_domain/src/server/reactors/tool-join/index.ts:36-52 | Until somebody takes the latch, that depends on the stored reply and the budget alone |
| TurnStalls.BadReplyStalls | packages/vibeagent_domain/src/server/reactors/tool-join/index.ts:36-39 | Any reply with a repeated or an empty call id can be reached, and then nothing that may happen makes its iteration ready; with repeated ids even though every call is answered |
| TurnRuns.ClaimsAreTrue | packages/vibeagent_domain/src/server/reactors/tool-run/index.ts:109-119 | A recorded reply is stored, a completed call is answered, and a requested call is the stored reply's call at its index |
| TurnRuns.ReplyIsForEver | packages/vibeagent_domain/src/server/reactors/model-call/index.ts:141-149 | The first reply stored for an iteration is its reply for the rest of the run |
| TurnRuns.DecisionIsStable | packages/vibeagent_domain/src/server/reactors/reply-decide/index.ts:25-67 | A decision made now is the decision any reactor would make at any later moment |
| TurnRuns.LogHoldsEmittedFacts | packages/agent/src/broker/loops/worker-consumer/index.ts:109-120 | A recorded fact was emitted, under its own key, so a key is recorded once |
| Reactors.Reactors.CallModel | packages/vibeagent_domain/src/server/reactors/model-call/index.ts:49-191 | The iteration is said to have started; the reply is in the history when the model is said to have replied, which it is unless the reaction is stopped |
| Reactors.Reactors.DecideReply | packages/vibeagent_domain/src/server/reactors/reply-decide/index.ts:16-70 | By the first-written reply: with no calls, or no budget for them, the final fact with what that reply says; otherwise one request for each of its calls, by index |
| Reactors.Reactors.JoinTools | packages/vibeagent_domain/src/server/reactors/tool-join/index.ts:27-54 | It declares an iteration ready only with the latch in hand and every call answered; having seen a full count, and not being stopped, it leaves the latch taken |
| Reactors.Reactors.RunTool | packages/vibeagent_domain/src/server/reactors/tool-run/index.ts:27-122 | It says a call is completed only with the answer in the history; not stopped, it does so for every call that is refused or passes its fence |
| Sequencer.StepKeepsInv | packages/vibeagent_domain/src/server/reactors/context/index.ts:114-148 | Every take, refill, late answer and failed refill keeps: no position is held by two handles or held once issued |
| Sequencer.PositionsAreUnique | packages/vibeagent_domain/src/server/reactors/context/index.ts:94-148 | No position of a session is handed out twice by any handles, and each handle hands out rising ones |
| Sequencer.EffectsFollowCauses | packages/vibeagent_domain/src/server/reactors/context/index.ts:173-187 | A handle loaded after a position was issued only ever issues greater ones |
| Sequencer.Sequencer.Next | packages/vibeagent_domain/src/server/reactors/context/index.ts:124-132 | The next position of the block, an error exactly once it is used up, and a refill asked for exactly from half on while none is out |
| Sequencer.Sequencer.RefillDone | packages/vibeagent_domain/src/server/reactors/context/index.ts:134-147 | A block that arrives is started at its beginning; a failed refill leaves the old one |
| ClientFold.FoldIsFold | packages/vibeagent_domain/src/front/model/TurnModel.ts:67-95 | The blocks are exactly those the events name, one a key, each put together from its own events and nothing else |
| ClientConvergence.AssembledPosition | packages/vibeagent_domain/src/front/model/TurnModel.ts:53-56 | A block starts at the earliest position of its events |
| ClientConvergence.AssembledText | packages/vibeagent_domain/src/front/model/TurnModel.ts:67-79 | A text block holds one slice a delta, each at its own position |
| ClientConvergence.AssembledChunks | packages/vibeagent_domain/src/front/model/reducers/tool/index.ts:18-28 | A call holds one slice a chunk, each on its own stream at its own position |
| ClientConvergence.AssembledTells | packages/vibeagent_domain/src/front/model/reducers/tool/index.ts:12-45 | Command, outcome and failure are those of the call's one start, completion and failure, and default until they come |
| ClientConvergence.ViewSorts | packages/vibeagent_domain/src/front/model/state.ts:85-93 | What is shown is the blocks, each once, in the order of their positions |
| ClientConvergence.FoldsConverge | packages/vibeagent_domain/src/front/model/state.ts:86-93 | Any permutation of a turn's events shows the same blocks, in the same order, with the same contents |
| ClientSession.TurnIsItsFold | packages/vibeagent_domain/src/front/model/VibeSessionModel.ts:153-164 | Through duplicates and interleaved turns, a turn is the fold of its own events, each from its first copy |
| ClientArrival.TurnIsWhatArrived | packages/vibeagent_domain/src/front/model/VibeSessionModel.ts:153-164 | With or without positions: events recorded without one take the place in which they came among all client events |
| ClientSession.IterationsIsMax | packages/vibeagent_domain/src/front/model/reducers/iteration/index.ts:12-16 | The iteration count is one more than the highest index started, whatever the order and however often |
| ClientSession.DeliveriesConverge | packages/vibeagent_domain/src/front/model/VibeSessionModel.ts:153-164 | Two deliveries of the same envelopes, permuted and repeated at will, put the same blocks, texts, outcomes and iteration count on screen |
| ClientShown.ViewShowsEvents | packages/vibeagent_domain/src/front/model/state.ts:85-93 | What is shown is one block for every text and call the events name, in the order of their positions: texts are those of their events read by position, calls went as their start, completion and failure say |
| ClientShown.DeliveryShowsEvents | packages/vibeagent_domain/src/front/model/VibeSessionModel.ts:153-164 | So what any delivery puts on screen of a turn is what the delivered events say |
| ClientStanding.DeliveredStands | packages/vibeagent_domain/src/front/model/reducers/turn/index.ts:5-16 | The prompt and the answer are the last that came, the call count is of the calls named when one last started, and a turn that did not fail is done exactly when it was said to be over and not started since |
| ClientStanding.SessionIsAsTold | packages/vibeagent_domain/src/front/model/VibeSessionModel.ts:144-196 | The workspace is the last one told of, an error is shown only if something failed since, and a turn shows a failure only if one was told of it |
| ClientSession.FailureIsShown | packages/vibeagent_domain/src/front/model/VibeSessionModel.ts:166-196 | A failed reaction marks its turn as failed with its error, known before or not, or the session if it belongs to none; other turns are untouched, and so are all by a success |
| ClientSession.HydrationKeepsLiveTurns | packages/vibeagent_domain/src/front/model/VibeSessionModel.ts:123-142 | Hydrating loses and overwrites no live turn, shows every digest in its order and with its own contents, and invents nothing |
| ClientModel.TurnModel.AppendText | packages/vibeagent_domain/src/front/model/TurnModel.ts:67-79 | A slice lands in the block of its kind and iteration, opened if need be; an empty one changes nothing and asks for no render |
| ClientModel.TurnModel.PatchTool | packages/vibeagent_domain/src/front/model/TurnModel.ts:85-95 | The call's block is found or opened, moved to its earliest position, then changed, and no other block is |
| ClientModel.SessionModel.Apply | packages/vibeagent_domain/src/front/model/VibeSessionModel.ts:153-164 | An envelope is applied at most once, to its own turn |
| ClientModel.SessionModel.Hydrate | packages/vibeagent_domain/src/front/model/VibeSessionModel.ts:123-142 | The list is the digests' turns, live ones kept, then the live turns no digest lists |
| Projection.ViewStore.PutBlock | packages/vibeagent_domain/src/server/view/store.ts:81-94 | A row already at the position keeps its identity and takes the new contents |
| Projection.ViewStore.ProjectIteration | packages/vibeagent_domain/src/server/view/store.ts:127-148 | At most one reasoning and one message row, and an iteration count that never falls |
| Projection.ViewStore.ProjectTool | packages/vibeagent_domain/src/server/view/store.ts:151-187 | One row for the call, and the tool count recounted from the rows |
| Projection.ViewStore.Rebuild | packages/vibeagent_domain/src/server/view/store.ts:224-255 | Every fact of the session is replayed in the order of its position |
| Projection.BodySays | packages/vibeagent_domain/src/server/view/store.ts:169-176 | Each stream with more than white space to it, whole, standard output first |
| ProjectionAgrees.TextRowTells | packages/vibeagent_domain/src/server/view/store.ts:102-141 | An iteration's text row says what its text block shows, and there is one exactly when there is the other |
| ProjectionAgrees.ToolRowTells | packages/vibeagent_domain/src/server/view/store.ts:151-178 | A call's row says what its block shows |
| ProjectionRebuild.PutAllFits | packages/vibeagent_domain/src/server/view/store.ts:81-94 | Rows that fit are added where missing; putting them again changes nothing |
| ProjectionRebuild.RebuiltTellsTheFold | packages/vibeagent_domain/src/server/view/store.ts:224-255 | Rebuilt from empty tables, a turn reads block for block as the client fold of the same facts shows it |
| ProjectionRebuild.RebuiltTellsTheScreen | packages/vibeagent_domain/src/server/view/store.ts:280-296 | And so as any delivery of those facts put it on screen |
| ProjectionTurns.RebuiltRowTells | packages/vibeagent_domain/src/server/view/store.ts:224-255 | A rebuilt turn has a row exactly when it was opened, with the opening's prompt, one more than the highest iteration replied to and as many calls as ended; it runs until its closing makes it done, on a final answer, or failed with an error naming what stopped it, and has that closing's answer |
| ProjectionTurns.RebuiltCallTells | packages/vibeagent_domain/src/server/view/store.ts:151-178 | Its call rows are those of the calls that ended, each with its iteration and outcome, and no call is left out |
| ProjectionTurns.UpsertTakesContents | packages/vibeagent_domain/src/server/view/store.ts:81-94 | Written again, a row keeps what it is of and takes the new contents; rows elsewhere stay |
| ProjectionAgain.AgainChangesNothing | packages/vibeagent_domain/src/server/view/store.ts:48-56 | Projecting what the tables already reflect changes nothing but when the turn ended |
| ProjectionAgain.ProjectingAgainChangesNothing | packages/vibeagent_domain/src/server/view/store.ts:48-56 | Any fact of a rebuilt turn can arrive again: only the end time may move |
| ProjectionAgain.RebuildingAgainChangesNothing | packages/vibeagent_domain/src/server/view/store.ts:221-255 | Rebuilding what was rebuilt changes nothing but end times |
| LlmStream.SplitIsExact | packages/vibeagent_domain/src/server/llm/index.ts:187-190 | Cutting into lines loses nothing and leaves no newline inside a line |
| LlmStream.SplitResumes | packages/vibeagent_domain/src/server/llm/index.ts:186-190 | Keeping the partial line is enough: cutting what was read in parts is cutting the whole |
| LlmStream.FramesResume | packages/vibeagent_domain/src/server/llm/index.ts:183-202 | However the text is cut into reads, the same frames come out, once each and in order |
| LlmStream.DataLineReads | packages/vibeagent_domain/src/server/llm/index.ts:191-199 | A trimmed payload on a data line is read back and parsed whole, whatever white space surrounds it and whichever way the line ends; an empty one and the end mark say nothing |
| LlmStream.OtherLinesSayNothing | packages/vibeagent_domain/src/server/llm/index.ts:191-193 | A line that starts with anything else says nothing |
| LlmStream.PassedOnIsTheReplyExactlyWhen | packages/vibeagent_domain/src/server/llm/index.ts:148-164 | The slices passed on add up to the reply exactly when no whole message said anything, as in a stream of deltas |
| LlmStream.CallsAreGathered | packages/vibeagent_domain/src/server/llm/index.ts:165-176 | Fragments interleaved any way across indices give one call an index: its arguments are that index's fragments in order, its id and its name the last ones given for it, or empty |
| LlmStream.CallsComeInOrder | packages/vibeagent_domain/src/server/llm/index.ts:213 | A reply lists the gathered calls by rising index, each once, and leaves none out |
| LlmReply.AnswerIsWhatWasSaid | packages/vibeagent_domain/src/server/llm/index.ts:148-164 | Content and reasoning are what all frames said in order, messages and deltas alike; the finish reason is the last one given |
| LlmReply.NoReplyExactlyWhen | packages/vibeagent_domain/src/server/llm/index.ts:206-208 | There is no reply exactly when no frame said anything and none asked for a call |
| LlmReply.WholeMessageIsTheReply | packages/vibeagent_domain/src/server/llm/index.ts:150-158 | From a server that does not stream, the reply is its message, the calls in the message's own order |
| LlmStream.ChatStream.Flush | packages/vibeagent_domain/src/server/llm/index.ts:133-146 | What waits is passed on exactly when forced or due, as one slice; what was passed on and what waits are together what the deltas said |
| LlmStream.ChatStream.Take | packages/vibeagent_domain/src/server/llm/index.ts:184-201 | After a read, the state is that of the whole text so far |
| LlmStream.ChatStream.Finish | packages/vibeagent_domain/src/server/llm/index.ts:206-216 | Everything said is passed on, and a stream that said nothing has no reply |
| LlmStream.Chat | packages/vibeagent_domain/src/server/llm/index.ts:123-217 | Reply and text passed on depend on the stream's text alone, not on where it was cut nor on any clock |
| Hub.EventStreamHub.ActiveExactlyWhenHeld | packages/agent/src/broker/stream/hub.ts:25-26 | A channel is active exactly while somebody holds it |
| Hub.EventStreamHub.Subscribe | packages/agent/src/broker/stream/hub.ts:28-39 | The index stays the inverse of the subscriber map; the listener is called exactly when the active channels change |
| Hub.EventStreamHub.Unsubscribe | packages/agent/src/broker/stream/hub.ts:40-52 | The same for leaving, which done twice is done once |
| Hub.EventStreamHub.Publish | packages/agent/src/broker/stream/hub.ts:55-57 | Exactly the holders of the event's channel get it, once each |
| TailReads.StrandedExactlyWhen | packages/agent/src/broker/loops/log-tail/index.ts:65-71 | In one read, an event still to be handed on is left out whatever the bounds exactly when another watched channel is past it in its stream |
| TailReads.HandedOnExactlyOnce | packages/agent/src/broker/loops/log-tail/index.ts:62-80 | An event of a watched channel between seed and position was published since, once and no more |
| TailRuns.StepKeepsInv | packages/agent/src/broker/loops/log-tail/index.ts:50-80 | Appends, channels coming and going, and passes keep: positions stay within the log, nothing is published twice or out of order since a channel is watched, and as long as no channel was left behind nothing is left out |
| TailRuns.LostExactlyWhen | packages/agent/src/broker/loops/log-tail/index.ts:50-80 | Over any run that ends in a pass that is caught up, an event owed to a channel watched throughout has not been handed on exactly when some other channel got past it while it was owed, and one has been past it ever since |
| TailRuns.OnlySeatingOvertakes | packages/agent/src/broker/loops/log-tail/index.ts:54-59 | An event that is owed, and that no channel was past, is overtaken in one way only: another channel of its stream is seated at the end of the log |
| TailRuns.OvertakenStaysLost | packages/agent/src/broker/loops/log-tail/index.ts:62-80 | For as long as both channels stay watched, no later pass hands an overtaken event on |
| TailRuns.OneChannelStaysCalm | packages/agent/src/broker/loops/log-tail/index.ts:62-80 | With one watched channel a stream, no pass leaves a channel behind |
| TailRuns.CalmPassHandsOnAll | packages/agent/src/broker/loops/log-tail/index.ts:62-80 | A pass that is caught up, in a run in which no channel was left behind, has handed on everything that was there past each seed |
| LogTail.LogTail.SyncChannels | packages/agent/src/broker/loops/log-tail/index.ts:50-60 | Taken step by step with appends and failures between, the watched channels become the active ones; new ones start at the end of the log, or at the beginning when the end could not be read |
| LogTail.TwoChannelsLoseAnEvent | packages/agent/src/broker/loops/log-tail/index.ts:50-80 | The loss at its smallest: two events of one stream on two channels, the second watched later; the loop says it is caught up and the first has gone to nobody |
| LogTail.LogTail.Drain | packages/agent/src/broker/loops/log-tail/index.ts:62-80 | A pass is a step of the runs, with the bounds it read and appends in between; what it publishes is the page, in order, and what it says is whether the page was the last |
| Mailbox.ConnectionMailbox.Enqueue | packages/agent/src/broker/stream/mailbox/index.ts:12-22 | Accepted exactly while there is room; over capacity, expendable events are dropped and any other closes the connection, once each |
| Mailbox.ConnectionMailbox.OnIdle | packages/agent/src/broker/stream/mailbox/index.ts:24-27 | Run at once when idle, kept otherwise, never both |
| Mailbox.ConnectionMailbox.Flush | packages/agent/src/broker/stream/mailbox/index.ts:38-51 | At most one send is in flight, the oldest first, even if it ends before the call returns |
| Mailbox.ConnectionMailbox.Done | packages/agent/src/broker/stream/mailbox/index.ts:44-50 | The end of a send begins the next and reports the depth; while one is in flight, or once disposed of, no callback runs, and when idle all of them have |
| Mailbox.SentIsASubsequence | packages/agent/src/broker/stream/mailbox/index.ts:12-51 | What was sent is what was put in, in order, some of it left out |
| Pgmq.SettlingAt | packages/agent/src/broker/pgmq/client.ts:42-44 | Each send of a batch gets its own id, or all are rejected |
| Pgmq.PgmqClient.Send | packages/agent/src/broker/pgmq/client.ts:20-31 | A new send is last in its queue's batch or, when that is full, last in a new flight; other queues and flights stay; pending work always has a timer and room |
| Pgmq.PgmqClient.Flush | packages/agent/src/broker/pgmq/client.ts:33-41 | The batch leaves pending for flight whole; without one only a timer goes |
| Pgmq.PgmqClient.Land | packages/agent/src/broker/pgmq/client.ts:40-45 | Each send of the batch is settled for the first and last time, a resolved one with the id of the row in its own queue that holds its own message, in whatever order batches and ids come back; what waited on that queue goes out next |
| Pgmq.ResolvedHaveTheirOwnRows | packages/agent/src/broker/pgmq/client.ts:20-45 | At any moment, two resolved sends name two different rows, each with its own message |
| Organizations.DownIsUp | packages/admin_domain/src/server/projects/index.ts:129-143 | Walking down finds an organisation in the round in which walking up from it finds the start |
| Organizations.ForestsEnd | packages/admin_domain/src/server/organizations/authorization/index.ts:23-32 | In a forest the upward recursion ends |
| Organizations.EndsExactlyWhen | packages/admin_domain/src/server/organizations/authorization/index.ts:23-32 | In any table it ends exactly when it meets no cycle |
| Organizations.CreatingKeepsForest | packages/admin_domain/src/server/organizations/index.ts:243-251 | A new organisation under an existing parent, or none, keeps the table a forest |
| Organizations.DeletingKeepsForest | packages/admin_domain/src/server/organizations/index.ts:367-377 | So does deleting a subtree |
| Organizations.AuthorityReachesDown | packages/admin_domain/src/server/organizations/authorization/index.ts:17-54 | A master has all authority over what exists; anybody else administers exactly what the walk down from one of the user's subtrees finds, and manages exactly that and the organisations the user is responsible for |
| Organizations.AuthorityIsInherited | packages/admin_domain/src/server/organizations/authorization/index.ts:38-53 | Administering an organisation is administering all below it |
| Organizations.CreatingGrantsNothing | packages/admin_domain/src/server/organizations/index.ts:211-253 | Creating changes nobody's authority over what there was; the new one is administered by its parent's administrators and by nobody else |
| Organizations.CreatorAdministersWhatIsCreated | packages/admin_domain/src/server/organizations/index.ts:211-253 | Whoever is not a master creates only below what they administer, and administers the result |
| Organizations.DeletingChangesNoAuthority | packages/admin_domain/src/server/organizations/index.ts:367-377 | Deleting changes nobody's authority over what is left |
| Organizations.DeletingTakesTheSubtree | packages/admin_domain/src/server/organizations/index.ts:367-377 | What goes is exactly what the walk down finds, and the duties over it; everything else is as it was |
| Organizations.OrganizationStore.Ancestors | packages/admin_domain/src/server/organizations/authorization/index.ts:23-32 | Exactly the organisation and those above it |
| Organizations.OrganizationStore.Descendants | packages/admin_domain/src/server/projects/index.ts:131-135 | Exactly the organisation and those below it |
| Organizations.OrganizationStore.ReadAuthority | packages/admin_domain/src/server/organizations/authorization/index.ts:17-54 | What the walk up and the user's duties give, nothing on an unknown organisation |
| Organizations.OrganizationStore.CreateOrganization | packages/admin_domain/src/server/organizations/index.ts:211-253 | Done exactly when the name is not blank and the mode allows this user this parent; refused, nothing changes |
| Organizations.OrganizationStore.DeleteOrganization | packages/admin_domain/src/server/organizations/index.ts:367-377 | Done exactly for a master on an organisation with no project anywhere in its subtree; it takes the subtree and its duties along |
| Organizations.OrganizationStore.AssignResponsible | packages/admin_domain/src/server/organizations/index.ts:327-349 | Done exactly for a manager on a known user, and a subtree duty only by an administrator |
| Organizations.OrganizationStore.BuildOrganizationAccess | packages/admin_domain/src/server/organizations/authorization/index.ts:100-130 | Node for node, in the order asked, what the user's authority allows |
| Organizations.OrganizationStore.ListProjects | packages/admin_domain/src/server/projects/index.ts:129-143 | Exactly the projects of an organisation and of all below it |

## Left out

Of what the model does state, weaker or under a condition:

- ConsumerRuns.NoReplyIsLost: safety only. That some attempt eventually takes the covering message needs fairness of the queue and the clock; `CoveringMessageTells` shows what happens if one does.
- ConsumerRuns.CommandsNeverExceedClaims: the source does not promise at most one command over all attempts, and neither does the model; a claim after an expired lease may start another.
- ConsumerProcess.Broker.Elsewhere: interference is a contract, not other running instances of `Process`; that instances interleave as the protocol allows is the definition of its steps.
- ConsumerProcess.Broker.WhileHandling: heartbeats, fences and observations happen one at a time between the handler's steps, and the answer to a renewal arrives with its effect; timers are not modelled as running in parallel with a statement under way.
- EventStore.StepKeepsInv: batches are appended in the order given. Sorting them only matters to deadlock, which is not a property of the protocol's states; `EventAppend` sorts by an order it is given.
- EventAppend.EventLog.AppendMany: the callback's own writes are not modelled, only that the events commit with it or not at all.
- ReactionEnqueue.ReactionEnqueue.Drain: one lease holder. Two at once re-send and overwrite each other's cursor, which the identities absorb but coverage does not follow.
- ReactionEnqueue.ReactionEnqueue.Reconcile: the candidates are given, from the log. Their age, order and limit are not modelled, so a fact outside the page examined is not promised to be found.
- TurnMachine.Woken: the view's reactor records nothing and is not followed; its folds are `Projection`.
- TurnRuns.JoinIsSound: soundness. That an iteration can become ready is `TurnStalls.ReadyExactlyWhen`, about what may happen; that it does needs fairness of the queues. A death between the latch and the emit leaves the iteration undeclared for good.
- Reactors.Reactors.CallModel: streamed deltas, the empty-reply notice and the choice of endpoint are not facts of the machine and are left out of it.
- Reactors.Reactors.RunTool: the summary written for the model is an input, so its truncation and the exit code read back from it are not modelled.
- Sequencer.Sequencer.Next: a handle always has a way to refill; one made without is a block used up once.
- ClientSession.DeliveriesConverge: for numbered events with distinct positions and at most one start, completion and failure a call. A turn's `phase`, `answer` and live `toolCalls` do depend on the order and do not converge; `ClientStanding.DeliveredStands` says what they are.
- ClientModel.SessionModel.Hydrate: one digest a turn, as the read model's primary key has it.
- ProjectionRebuild.RebuiltTellsTheFold: for a log in which every fact about a block has a position, every delta says something and its iteration was replied to, and every call was started first and has ended. A call refused without a start row falls to position 0 in the read model, where two such share a row.
- ProjectionTurns.RebuiltRowTells: for such a log, with one opening of the turn, before its other facts, and one closing.
- ProjectionAgain.RebuildingAgainChangesNothing: a turn has one opening, before its other facts, and one closing; the copies a dispatcher's commands make are filtered by the query and not part of the log here.
- LlmStream.Chat: the text is already decoded from bytes, and a read that fails half-way is not followed.
- LogTail.LogTail.SyncChannels: if the end of the log cannot be read, the new channels stay at the beginning, as in the source; the loop's backoff is not modelled.
- LogTail.LogTail.Drain: the hub's sends do not call back into the loop.
- TailRuns.LostExactlyWhen: a channel is watched throughout once it has been seated; between the two statements that begin and seat it, what it hands on is not followed.
- Mailbox.ConnectionMailbox.Done: idle callbacks and the connection's close do not call back into the mailbox; a callback is a number.
- Pgmq.PgmqClient.Land: the database stores a batch whole or not at all, under ids new to its queue, and a full list names the rows in the order of the messages; rows are taken to be stored when their answer arrives. A list of the wrong length rejects the batch whether or not rows were stored.
- Organizations.OrganizationStore.CreateOrganization: a command is one step; that a parent may be deleted between its check and the insert is left to the foreign key.

Not modelled:

- Retention: `prune`, `pruneStreamWatermarks`, `pruneChannelCursors` and the execution table's `prune`. Everything holds for histories without them, so the claim that finds its row gone is not a case here.
- `recordRedelivery`, metrics, visibility times, backoff and alerts: they change no state the properties speak of.
- A message's session and turn found in its payload when its envelope has none, and the fields no property speaks of: correlation, causation, run ids, audience on commands, timestamps.
- The websocket transport, channel cursors and replay to a reconnecting client.
- The worker pool: threads, routing and how a task reaches one.
- The session's folder and context: `open`, `writeContext`, and the history put in front of the model.
- Schema creation, migration and backfill.
- Members, users, names, colours, inference models and project settings of organisations; the policy merge.
- Wire parsers, settings, environment reading, process execution and rendering.
