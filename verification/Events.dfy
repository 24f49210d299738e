/**
  What the broker passes around: the envelopes of the durable log, the messages
  of a command queue, and the identities derived for events that may be
  produced more than once.

  A derived identity is a hash of a tagged string. It is modelled as a
  constructor applied to the parts of that string, so two derived identities are
  equal exactly when their parts are.
 */
module Events {
  import opened Wrappers

  datatype Kind = CommandKind | FactKind | ResultKind | ProgressKind | FailureKind | ControlKind

  /** A fact as the reaction loop reads it back from the log. */
  datatype Fact = Fact(id: EventId, action: string, payload: Payload, channel: string,
                       replyChannel: Option<string>, sessionId: Option<string>)

  datatype TxKey =
    | ClientTx(name: string)
    | ReactionTx(queue: string, fact: EventId)

  datatype EventId =
    | Client(name: string)
    | Reaction(queue: string, fact: EventId)
    | Result(tx: TxKey, stream: string, channel: string)
    | ProcessingFailed(tx: TxKey, stream: string, channel: string)
    | Conflict(request: EventId)
    | KeyedFact(stream: string, key: string)
    | Progress(tx: TxKey, stream: string, seqNo: nat)

  datatype ErrorCode = WorkerFailed | PermanentFailure | MissingTerminalResult | IdempotencyConflict

  datatype ResultPayload = Ok(value: string) | Failed(code: ErrorCode, message: string)

  datatype Payload = Text(body: string) | Outcome(result: ResultPayload)

  /** A queue message before the log has given it a place. */
  datatype Ingress = Ingress(id: EventId, tx: TxKey, action: string, payload: Payload, channel: string,
                             replyChannel: Option<string>, sessionId: Option<string>)

  /** A row of the log. */
  datatype Envelope = Envelope(id: EventId, kind: Kind, tx: TxKey, action: string, stream: string, channel: string,
                               replyChannel: Option<string>, sessionId: Option<string>, payload: Payload)

  function StreamOf(sessionId: Option<string>, channel: string): string {
    match sessionId
    case Some(session) => "session:" + session
    case None => "channel:" + channel
  }

  /** Sessions have streams of their own, and so have channels outside any session. */
  lemma StreamsAreApart(a: Option<string>, b: Option<string>, channel: string, other: string)
    ensures StreamOf(a, channel) == StreamOf(b, other) <==> a == b && (a.None? ==> channel == other)
  {
    var s, t := StreamOf(a, channel), StreamOf(b, other);
    assert s[..8] == (if a.Some? then "session:" else "channel:") && s[8..] == a.GetOr(channel);
    assert t[..8] == (if b.Some? then "session:" else "channel:") && t[8..] == b.GetOr(other);
    assert "session:"[0] != "channel:"[0];
  }

  /** An empty name is no name. */
  function Named(name: Option<string>): Option<string> {
    if name == Some("") then None else name
  }

  /** The command row written for a message that was picked up. */
  function CommandDraft(event: Ingress): Envelope {
    Envelope(event.id, CommandKind, event.tx, event.action, StreamOf(Named(event.sessionId), event.channel),
             event.channel, Named(event.replyChannel), Named(event.sessionId), event.payload)
  }

  function FactOf(event: Envelope): Fact {
    Fact(event.id, event.action, event.payload, event.channel, event.replyChannel, event.sessionId)
  }

  /** The message the reaction loop puts on `queue` for `fact`. */
  function Work(fact: Fact, queue: string): Ingress {
    Ingress(Reaction(queue, fact.id), ReactionTx(queue, fact.id), fact.action, fact.payload, fact.channel,
            Named(fact.replyChannel), Named(fact.sessionId))
  }

  /**
    Where a message may come from. A client names its own messages and
    transactions; only the reaction loop uses reaction identities, and what it
    sends under one is made from the row the log has for the fact.
   */
  predicate Genuine(log: map<EventId, Envelope>, event: Ingress) {
    match event.id
    case Client(_) => event.tx.ClientTx?
    case Reaction(queue, fact) =>
      fact in log && !log[fact].kind.CommandKind? && event == Work(FactOf(log[fact]), queue)
    case _ => false
  }

  function ReplyChannelOf(event: Envelope): string {
    event.replyChannel.GetOr(event.channel)
  }

  predicate IsPermanent(payload: ResultPayload) {
    payload.Failed? && payload.code.PermanentFailure?
  }

  /** First write wins: an event id that is already stored keeps its row. */
  function Append(log: map<EventId, Envelope>, event: Envelope): (grown: map<EventId, Envelope>)
    ensures event.id in grown
    ensures log.Keys <= grown.Keys
    ensures forall id <- log :: grown[id] == log[id]
    ensures forall id <- grown :: id in log || id == event.id
  {
    if event.id in log then log else log[event.id := event]
  }
}
