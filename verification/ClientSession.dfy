/** A session on screen: turns found or made by key, one envelope applied at most once. */
module ClientSession {
  import opened Wrappers
  import opened Sequences
  import opened ClientFold
  import opened ClientConvergence

  datatype Phase = Idle | Running | Done | Failed

  datatype Turn = Turn(turnKey: string, prompt: string, phase: Phase, blocks: seq<Block>, answer: string, error: string,
                       iterations: int, toolCalls: nat, bodiesLoaded: bool)

  /** A terminal closes one reaction; progress carries a client event when its payload parses. */
  datatype Body =
    | Terminal(ok: bool, workspace: string, error: string)
    | Progress(event: Option<Event>)

  datatype Envelope = Envelope(id: string, transactionKey: string, turnId: Option<string>, body: Body)

  datatype Session = Session(seen: set<string>, legacySeq: int, turns: seq<Turn>, workspace: string, sessionError: string)

  const OPEN_REFUSED := "세션을 열지 못했습니다."

  function FreshTurn(turnKey: string, prompt: string): Turn {
    Turn(turnKey, prompt, Running, [], "", "", 0, 0, true)
  }

  function FreshSession(): Session {
    Session({}, 0, [], "", "")
  }

  function FindTurn(turns: seq<Turn>, turnKey: string): (i: nat)
    ensures i <= |turns|
    ensures i < |turns| ==> turns[i].turnKey == turnKey
    ensures forall j | 0 <= j < i :: turns[j].turnKey != turnKey
  {
    if turns == [] then 0 else if turns[0].turnKey == turnKey then 0 else 1 + FindTurn(turns[1..], turnKey)
  }

  function Ensured(turns: seq<Turn>, turnKey: string, prompt: string): seq<Turn> {
    if FindTurn(turns, turnKey) < |turns| then turns else turns + [FreshTurn(turnKey, prompt)]
  }

  function OnTurn(turns: seq<Turn>, turnKey: string, change: Turn -> Turn): seq<Turn> {
    var i := FindTurn(turns, turnKey);
    if i < |turns| then turns[i := change(turns[i])] else turns + [change(FreshTurn(turnKey, ""))]
  }

  function CountTools(blocks: seq<Block>): nat {
    if blocks == [] then 0 else CountTools(blocks[..|blocks| - 1]) + if blocks[|blocks| - 1].Tool? then 1 else 0
  }

  function Max(a: int, b: int): int {
    if a < b then b else a
  }

  /** What each event's reducer does to its turn. */
  function React(e: Event): Turn -> Turn {
    (turn: Turn) =>
      match e
      case SessionOpened(_) => turn
      case TurnStarted(_, prompt) => turn.(prompt := if prompt != "" then prompt else turn.prompt, phase := Running)
      case IterationStarted(_, i) => turn.(iterations := Max(turn.iterations, i + 1))
      case TurnFinal(_, answer) => turn.(phase := Done, answer := answer)
      case ToolStarted(_, _, _, _) =>
        turn.(blocks := Touch(turn.blocks, e), toolCalls := CountTools(Touch(turn.blocks, e)))
      case _ => turn.(blocks := Touch(turn.blocks, e))
  }

  function Fail(error: string): Turn -> Turn {
    (turn: Turn) => turn.(phase := Failed, error := error)
  }

  /** Arrival order stands in for the positions of events recorded without one. */
  function Positioned(e: Event, legacySeq: int): Event {
    match e
    case Delta(turn, None, kind, i, text) => Delta(turn, Some(legacySeq), kind, i, text)
    case ToolStarted(turn, None, call, command) => ToolStarted(turn, Some(legacySeq), call, command)
    case ToolChunk(turn, None, call, stream, text) => ToolChunk(turn, Some(legacySeq), call, stream, text)
    case ToolCompleted(turn, None, call, exitCode, timedOut, durationMs) =>
      ToolCompleted(turn, Some(legacySeq), call, exitCode, timedOut, durationMs)
    case ToolFailed(turn, None, call, error) => ToolFailed(turn, Some(legacySeq), call, error)
    case _ => e
  }

  lemma PositionedOnce(e: Event, legacySeq: int)
    requires !e.SessionOpened?
    ensures var positioned := Positioned(e, legacySeq);
            !positioned.SessionOpened? && positioned.turnKey == e.turnKey && Positioned(positioned, 0) == positioned
  {
  }

  function Progressed(s: Session, e: Event): Session {
    var positioned, s := Positioned(e, s.legacySeq), s.(legacySeq := s.legacySeq + 1);
    if e.SessionOpened? then s.(workspace := e.workspace, sessionError := "")
    else s.(turns := OnTurn(s.turns, e.turnKey, React(positioned)))
  }

  function Terminated(s: Session, env: Envelope): Session
    requires env.body.Terminal?
  {
    if env.body.ok then
      if env.body.workspace != "" then s.(workspace := env.body.workspace, sessionError := "") else s
    else if env.turnId.GetOr("") == "" && FindTurn(s.turns, env.transactionKey) == |s.turns| then
      s.(sessionError := if env.body.error != "" then env.body.error else OPEN_REFUSED)
    else s.(turns := OnTurn(s.turns, env.turnId.GetOr(env.transactionKey), Fail(env.body.error)))
  }

  function Receive(s: Session, env: Envelope): Session {
    if env.id in s.seen then s
    else
      var s := s.(seen := s.seen + {env.id});
      match env.body
      case Terminal(_, _, _) => Terminated(s, env)
      case Progress(None) => s
      case Progress(Some(e)) => Progressed(s, e)
  }

  function Received(delivery: seq<Envelope>): Session {
    if delivery == [] then FreshSession()
    else Receive(Received(delivery[..|delivery| - 1]), delivery[|delivery| - 1])
  }

  /** The call's block, found or opened at a position, then changed. */
  function Patched(blocks: seq<Block>, toolCallKey: string, position: int, mutate: Block --> Block): seq<Block>
    requires forall b: Block | b.Tool? :: mutate.requires(b)
  {
    var i := Find(blocks, OfTool(toolCallKey));
    if i < |blocks| then
      blocks[i := mutate(blocks[i].Reaching(position))]
    else blocks + [mutate(Empty(OfTool(toolCallKey), position))]
  }

  function Dropped(turn: Turn): Turn {
    if turn.phase == Running || !turn.bodiesLoaded then turn else turn.(blocks := [], bodiesLoaded := false)
  }

  /** A turn as the read model lists it; its phase is absent when it is not one of the four. */
  datatype Digest = Digest(turnKey: string, prompt: string, phase: Option<Phase>, answer: string, error: string,
                           iterations: int, toolCalls: nat)

  function DigestTurn(digest: Digest): Turn {
    Turn(digest.turnKey, digest.prompt, digest.phase.GetOr(Done), [], digest.answer, digest.error,
         digest.iterations, digest.toolCalls, false)
  }

  /** The digests in their order, a live turn standing for its own. */
  function Listed(turns: seq<Turn>, digests: seq<Digest>): seq<Turn> {
    if digests == [] then []
    else
      var digest := digests[|digests| - 1];
      var i := FindTurn(turns, digest.turnKey);
      Listed(turns, digests[..|digests| - 1]) + [if i < |turns| then turns[i] else DigestTurn(digest)]
  }

  /** The live turns no digest lists. */
  function Unlisted(turns: seq<Turn>, digests: seq<Digest>): seq<Turn> {
    if turns == [] then []
    else
      var last := turns[|turns| - 1];
      Unlisted(turns[..|turns| - 1], digests)
      + if exists digest <- digests :: digest.turnKey == last.turnKey then [] else [last]
  }

  lemma UnlistedNext(turns: seq<Turn>, digests: seq<Digest>, i: nat)
    requires i < |turns|
    ensures Unlisted(turns[..i + 1], digests)
         == Unlisted(turns[..i], digests)
            + if exists digest <- digests :: digest.turnKey == turns[i].turnKey then [] else [turns[i]]
  {
    assert turns[..i + 1][..i] == turns[..i];
  }

  function Hydrated(turns: seq<Turn>, digests: seq<Digest>): seq<Turn> {
    Listed(turns, digests) + Unlisted(turns, digests)
  }

  function At(turns: seq<Turn>, turnKey: string): (turn: Turn)
    ensures turn.turnKey == turnKey
  {
    var i := FindTurn(turns, turnKey);
    if i < |turns| then turns[i] else FreshTurn(turnKey, "")
  }

  // ---- a turn is the fold of its own events ----

  function Ids(delivery: seq<Envelope>): set<string> {
    set env <- delivery :: env.id
  }

  /** The first copy of each envelope. */
  function Firsts(delivery: seq<Envelope>): seq<Envelope> {
    if delivery == [] then []
    else
      var init, last := delivery[..|delivery| - 1], delivery[|delivery| - 1];
      Firsts(init) + if last.id in Ids(init) then [] else [last]
  }

  function OfTurn(turnKey: string): Envelope -> Option<Event> {
    (env: Envelope) =>
      if env.body.Progress? && env.body.event.Some? && !env.body.event.value.SessionOpened?
         && env.body.event.value.turnKey == turnKey
      then env.body.event else None
  }

  function Iterations(es: seq<Event>): int {
    if es == [] then 0
    else
      var last := es[|es| - 1];
      var before := Iterations(es[..|es| - 1]);
      if last.IterationStarted? then Max(before, last.iterationIndex + 1) else before
  }

  ghost predicate Numbered(es: seq<Event>) {
    forall e <- es | KeyOf(e).Some? :: e.position.Some?
  }

  /** What a turn says, apart from how it stands: the blocks as held, and the iteration count. */
  ghost predicate Holds(turn: Turn, es: seq<Event>) {
    turn.blocks == FoldBlocks(es) && turn.iterations == Iterations(es)
  }

  lemma OnTurnAt(turns: seq<Turn>, turnKey: string, change: Turn -> Turn, k: string)
    requires forall t :: change(t).turnKey == t.turnKey
    ensures At(OnTurn(turns, turnKey, change), k) == if k == turnKey then change(At(turns, k)) else At(turns, k)
  {
    var i, after := FindTurn(turns, turnKey), OnTurn(turns, turnKey, change);
    assert forall j | 0 <= j < |turns| :: after[j].turnKey == turns[j].turnKey;
    SameFind(turns, after, k);
    if i == |turns| {
      assert after[i] == change(FreshTurn(turnKey, "")) && after[i].turnKey == turnKey;
    }
  }

  lemma SameFind(turns: seq<Turn>, after: seq<Turn>, k: string)
    requires |turns| <= |after|
    requires forall j | 0 <= j < |turns| :: after[j].turnKey == turns[j].turnKey
    ensures FindTurn(turns, k) < |turns| ==> FindTurn(after, k) == FindTurn(turns, k)
    ensures FindTurn(turns, k) == |turns| ==> FindTurn(after, k) >= |turns|
  {
    var i, j := FindTurn(turns, k), FindTurn(after, k);
    if i < |turns| {
      assert after[i].turnKey == k;
    }
  }

  lemma ReceivingSees(s: Session, env: Envelope)
    ensures Receive(s, env).seen == s.seen + {env.id}
  {
  }

  lemma {:induction false} SeenAreDelivered(delivery: seq<Envelope>)
    ensures Received(delivery).seen == Ids(delivery)
  {
    if delivery != [] {
      var init, last := delivery[..|delivery| - 1], delivery[|delivery| - 1];
      SeenAreDelivered(init);
      ReceivingSees(Received(init), last);
      assert delivery == init + [last];
      assert Ids(delivery) == Ids(init) + {last.id};
    }
  }

  lemma NextHolds(turn: Turn, es: seq<Event>, e: Event)
    requires Holds(turn, es) && !e.SessionOpened?
    ensures Holds(React(e)(turn), es + [e])
  {
    assert (es + [e])[..|es|] == es;
  }

  lemma ProgressHolds(s: Session, turnKey: string, es: seq<Event>, e: Event)
    requires Holds(At(s.turns, turnKey), es)
    requires !e.SessionOpened? && e.turnKey == turnKey && (KeyOf(e).Some? ==> e.position.Some?)
    ensures Holds(At(Progressed(s, e).turns, turnKey), es + [e])
  {
    var positioned := Positioned(e, s.legacySeq);
    OnTurnAt(s.turns, turnKey, React(positioned), turnKey);
    NextHolds(At(s.turns, turnKey), es, positioned);
    if positioned != e {
      assert e.Delta? && e.text == "";
      EmptyDeltaIsNothing(es, e, positioned);
    }
  }

  lemma EmptyDeltaIsNothing(es: seq<Event>, d: Event, e: Event)
    requires KeyOf(d).None? && KeyOf(e).None? && d.Delta? && e.Delta?
    ensures FoldBlocks(es + [d]) == FoldBlocks(es + [e]) && Iterations(es + [d]) == Iterations(es + [e])
  {
    assert (es + [d])[..|es|] == es && (es + [e])[..|es|] == es;
  }

  lemma OtherHolds(s: Session, env: Envelope, turnKey: string, es: seq<Event>)
    requires Holds(At(s.turns, turnKey), es) && OfTurn(turnKey)(env).None?
    ensures Holds(At(Receive(s, env).turns, turnKey), es)
  {
    match env.body
    case Terminal(_, _, error) =>
      OnTurnAt(s.turns, env.turnId.GetOr(env.transactionKey), Fail(error), turnKey);
    case Progress(None) =>
    case Progress(Some(e)) =>
      if !e.SessionOpened? {
        OnTurnAt(s.turns, e.turnKey, React(Positioned(e, s.legacySeq)), turnKey);
      }
  }

  /** What one more copy adds to a turn's events. */
  function More(turnKey: string, seen: set<string>, env: Envelope): seq<Event> {
    var e := OfTurn(turnKey)(env);
    if env.id in seen || e.None? then [] else [e.value]
  }

  lemma ReceiveHolds(s: Session, env: Envelope, turnKey: string, es: seq<Event>)
    requires Holds(At(s.turns, turnKey), es) && Numbered(es + More(turnKey, s.seen, env))
    ensures Holds(At(Receive(s, env).turns, turnKey), es + More(turnKey, s.seen, env))
  {
    if More(turnKey, s.seen, env) == [] {
      assert es + [] == es;
      if env.id !in s.seen {
        OtherHolds(s, env, turnKey, es);
      }
    } else {
      var e := OfTurn(turnKey)(env).value;
      assert e in es + [e];
      ProgressHolds(s.(seen := s.seen + {env.id}), turnKey, es, e);
    }
  }

  lemma NumberedBefore(es: seq<Event>, more: seq<Event>)
    requires Numbered(es + more)
    ensures Numbered(es)
  {
    assert forall e <- es :: e in es + more;
  }

  /** The events of a turn, each from its first copy. */
  function FirstEvents(turnKey: string, delivery: seq<Envelope>): seq<Event> {
    Collect(OfTurn(turnKey), Firsts(delivery))
  }

  lemma FirstsNext(init: seq<Envelope>, env: Envelope)
    ensures Firsts(init + [env]) == if env.id in Ids(init) then Firsts(init) else Firsts(init) + [env]
    ensures Received(init + [env]) == Receive(Received(init), env)
  {
    assert (init + [env])[..|init|] == init;
  }

  lemma FirstEventsNext(turnKey: string, init: seq<Envelope>, env: Envelope)
    ensures FirstEvents(turnKey, init + [env]) == FirstEvents(turnKey, init) + More(turnKey, Ids(init), env)
  {
    assert (init + [env])[..|init|] == init;
    if env.id in Ids(init) {
      assert Firsts(init + [env]) == Firsts(init);
    } else {
      CollectNext(OfTurn(turnKey), Firsts(init), env);
    }
  }

  lemma {:induction false} TurnIsItsFold(delivery: seq<Envelope>, turnKey: string)
    requires Numbered(FirstEvents(turnKey, delivery))
    ensures Holds(At(Received(delivery).turns, turnKey), FirstEvents(turnKey, delivery))
  {
    if delivery != [] {
      var init, last := delivery[..|delivery| - 1], delivery[|delivery| - 1];
      assert delivery == init + [last];
      FirstEventsNext(turnKey, init, last);
      SeenAreDelivered(init);
      NumberedBefore(FirstEvents(turnKey, init), More(turnKey, Ids(init), last));
      TurnIsItsFold(init, turnKey);
      ReceiveHolds(Received(init), last, turnKey, FirstEvents(turnKey, init));
    }
  }

  /**
    A reaction that failed does not go unseen: its turn is shown as failed, known
    before or not, or the session says so if it belongs to no turn. Other turns
    are as they were, and a success changes none.
   */
  lemma FailureIsShown(s: Session, env: Envelope, other: string)
    requires env.id !in s.seen && env.body.Terminal?
    ensures var after, key := Receive(s, env), env.turnId.GetOr(env.transactionKey);
            var ofTurn := env.turnId.GetOr("") != "" || FindTurn(s.turns, env.transactionKey) < |s.turns|;
            && (!env.body.ok && ofTurn ==> At(after.turns, key).phase == Failed && At(after.turns, key).error == env.body.error)
            && (!env.body.ok && !ofTurn ==>
                  after.sessionError != "" && (env.body.error != "" ==> after.sessionError == env.body.error))
            && (env.body.ok || !ofTurn || other != key ==> At(after.turns, other) == At(s.turns, other))
  {
    OnTurnAt(s.turns, env.turnId.GetOr(env.transactionKey), Fail(env.body.error), env.turnId.GetOr(env.transactionKey));
    OnTurnAt(s.turns, env.turnId.GetOr(env.transactionKey), Fail(env.body.error), other);
  }

  // ---- convergence ----

  /** One envelope an id, whatever the number of copies. */
  ghost predicate IdsIdentify(delivery: seq<Envelope>) {
    forall a <- delivery, b <- delivery | a.id == b.id :: a == b
  }

  lemma {:induction false} FirstsAreTheDelivered(delivery: seq<Envelope>)
    requires IdsIdentify(delivery)
    ensures NoDups(Firsts(delivery))
    ensures forall env :: env in Firsts(delivery) <==> env in delivery
  {
    if delivery != [] {
      var init, last := delivery[..|delivery| - 1], delivery[|delivery| - 1];
      assert delivery == init + [last];
      FirstsAreTheDelivered(init);
    }
  }

  lemma {:induction false} IterationsIsMax(es: seq<Event>)
    ensures forall e <- es | e.IterationStarted? :: e.iterationIndex + 1 <= Iterations(es)
    ensures Iterations(es) >= 0
    ensures Iterations(es) == 0 || exists e <- es :: e.IterationStarted? && e.iterationIndex + 1 == Iterations(es)
  {
    if es != [] {
      IterationsIsMax(es[..|es| - 1]);
      assert es == es[..|es| - 1] + [es[|es| - 1]];
    }
  }

  lemma IterationsAgree(es: seq<Event>, fs: seq<Event>)
    requires multiset(es) == multiset(fs)
    ensures Iterations(es) == Iterations(fs)
  {
    SameMembers(es, fs);
    IterationsIsMax(es);
    IterationsIsMax(fs);
  }

  datatype Screen = Screen(shown: seq<Shown>, iterations: int)

  function ScreenOf(s: Session, turnKey: string): Screen {
    var turn := At(s.turns, turnKey);
    Screen(View(turn.blocks), turn.iterations)
  }

  lemma TurnEventsPermute(one: seq<Envelope>, other: seq<Envelope>, turnKey: string)
    requires forall env :: env in one <==> env in other
    requires IdsIdentify(one)
    ensures multiset(FirstEvents(turnKey, one)) == multiset(FirstEvents(turnKey, other))
  {
    FirstsAreTheDelivered(one);
    FirstsAreTheDelivered(other);
    SameElementsPermute(Firsts(one), Firsts(other));
    CollectPermutes(OfTurn(turnKey), Firsts(one), Firsts(other));
  }

  lemma FirstsOfTurn(delivery: seq<Envelope>, turnKey: string)
    requires IdsIdentify(delivery)
    ensures forall e :: e in FirstEvents(turnKey, delivery) <==> e in Collect(OfTurn(turnKey), delivery)
  {
    FirstsAreTheDelivered(delivery);
    CollectMembers(OfTurn(turnKey), Firsts(delivery));
    CollectMembers(OfTurn(turnKey), delivery);
  }

  /**
    Two deliveries of the same envelopes, permuted and repeated at will, put the
    same blocks, texts, tool outcomes and iteration count of a turn on screen.
   */
  lemma DeliveriesConverge(one: seq<Envelope>, other: seq<Envelope>, turnKey: string)
    requires forall env :: env in one <==> env in other
    requires IdsIdentify(one)
    requires Numbered(Collect(OfTurn(turnKey), one)) && Coherent(Collect(OfTurn(turnKey), one))
    ensures ScreenOf(Received(one), turnKey) == ScreenOf(Received(other), turnKey)
  {
    var es, fs := FirstEvents(turnKey, one), FirstEvents(turnKey, other);
    FirstsOfTurn(one, turnKey);
    TurnEventsPermute(one, other, turnKey);
    SameMembers(es, fs);
    TurnIsItsFold(one, turnKey);
    TurnIsItsFold(other, turnKey);
    IterationsAgree(es, fs);
    FoldsConverge(es, fs);
  }

  // ---- hydration ----

  lemma {:induction false} ListedMembers(turns: seq<Turn>, digests: seq<Digest>)
    ensures |Listed(turns, digests)| == |digests|
    ensures forall j | 0 <= j < |digests| ::
              Listed(turns, digests)[j].turnKey == digests[j].turnKey
              && Listed(turns, digests)[j]
              == if FindTurn(turns, digests[j].turnKey) < |turns| then At(turns, digests[j].turnKey) else DigestTurn(digests[j])
  {
    if digests != [] {
      ListedMembers(turns, digests[..|digests| - 1]);
    }
  }

  lemma {:induction false} UnlistedMembers(turns: seq<Turn>, digests: seq<Digest>)
    ensures forall t :: t in Unlisted(turns, digests)
                        <==> t in turns && forall digest <- digests :: digest.turnKey != t.turnKey
  {
    if turns != [] {
      UnlistedMembers(turns[..|turns| - 1], digests);
      assert turns == turns[..|turns| - 1] + [turns[|turns| - 1]];
    }
  }

  /** A turn known by its digest alone: its bodies are still to be loaded, and an unknown phase counts as done. */
  predicate ShowsDigest(turn: Turn, digest: Digest) {
    && turn.prompt == digest.prompt && turn.answer == digest.answer && turn.error == digest.error
    && turn.iterations == digest.iterations && turn.toolCalls == digest.toolCalls
    && (if digest.phase.Some? then turn.phase == digest.phase.value else turn.phase.Done?)
    && turn.blocks == [] && !turn.bodiesLoaded
  }

  /**
    Hydrating neither loses nor overwrites a live turn, shows every digest once,
    in the read model's order, and invents nothing.
   */
  lemma HydrationKeepsLiveTurns(turns: seq<Turn>, digests: seq<Digest>, turnKey: string)
    requires forall i, j | 0 <= i < j < |turns| :: turns[i].turnKey != turns[j].turnKey
    ensures var after := Hydrated(turns, digests);
            && (forall j | 0 <= j < |digests| :: j < |after| && after[j].turnKey == digests[j].turnKey)
            && (forall j | 0 <= j < |digests| && FindTurn(turns, digests[j].turnKey) == |turns| :: ShowsDigest(after[j], digests[j]))
            && (FindTurn(turns, turnKey) < |turns| ==> FindTurn(after, turnKey) < |after| && At(after, turnKey) == At(turns, turnKey))
            && (FindTurn(turns, turnKey) == |turns| ==>
                  (FindTurn(after, turnKey) < |after| <==> exists digest <- digests :: digest.turnKey == turnKey))
  {
    ListedMembers(turns, digests);
    if FindTurn(turns, turnKey) < |turns| {
      LiveTurnIsKept(turns, digests, turnKey);
    } else {
      NoneIsInvented(turns, digests, turnKey);
    }
  }

  lemma LiveTurnIsKept(turns: seq<Turn>, digests: seq<Digest>, turnKey: string)
    requires forall i, j | 0 <= i < j < |turns| :: turns[i].turnKey != turns[j].turnKey
    requires FindTurn(turns, turnKey) < |turns|
    ensures var after := Hydrated(turns, digests);
            FindTurn(after, turnKey) < |after| && At(after, turnKey) == At(turns, turnKey)
  {
    var after := Hydrated(turns, digests);
    ListedMembers(turns, digests);
    UnlistedMembers(turns, digests);
    var i := FindTurn(turns, turnKey);
    if digest :| digest in digests && digest.turnKey == turnKey {
      var j :| 0 <= j < |digests| && digests[j] == digest;
      assert after[j].turnKey == turnKey;
    } else {
      assert turns[i] in Unlisted(turns, digests);
      assert turns[i] in after;
    }
    KeyedAlike(turns, digests, FindTurn(after, turnKey));
  }

  lemma NoneIsInvented(turns: seq<Turn>, digests: seq<Digest>, turnKey: string)
    requires forall i, j | 0 <= i < j < |turns| :: turns[i].turnKey != turns[j].turnKey
    requires FindTurn(turns, turnKey) == |turns|
    ensures var after := Hydrated(turns, digests);
            FindTurn(after, turnKey) < |after| <==> exists digest <- digests :: digest.turnKey == turnKey
  {
    var after := Hydrated(turns, digests);
    ListedMembers(turns, digests);
    assert forall j | 0 <= j < |digests| :: after[j].turnKey == digests[j].turnKey;
    if FindTurn(after, turnKey) < |after| {
      KeyedAlike(turns, digests, FindTurn(after, turnKey));
    }
  }

  lemma KeptAsItIs(turns: seq<Turn>, t: Turn)
    requires forall i, j | 0 <= i < j < |turns| :: turns[i].turnKey != turns[j].turnKey
    requires t in turns
    ensures FindTurn(turns, t.turnKey) < |turns| && t == At(turns, t.turnKey)
  {
    var j :| 0 <= j < |turns| && turns[j] == t;
    var i := FindTurn(turns, t.turnKey);
    assert i <= j;
  }

  lemma KeyedAlike(turns: seq<Turn>, digests: seq<Digest>, k: nat)
    requires forall i, j | 0 <= i < j < |turns| :: turns[i].turnKey != turns[j].turnKey
    requires k < |Hydrated(turns, digests)|
    ensures var t := Hydrated(turns, digests)[k];
            if FindTurn(turns, t.turnKey) < |turns| then t == At(turns, t.turnKey)
            else exists digest <- digests :: digest.turnKey == t.turnKey
  {
    var after := Hydrated(turns, digests);
    ListedMembers(turns, digests);
    if k < |digests| {
      assert after[k] == Listed(turns, digests)[k] && digests[k] in digests;
    } else {
      UnlistedMembers(turns, digests);
      assert after[k] == Unlisted(turns, digests)[k - |digests|];
      assert after[k] in Unlisted(turns, digests);
      KeptAsItIs(turns, after[k]);
    }
  }

  lemma {:induction false} UnlistedKeysDiffer(turns: seq<Turn>, digests: seq<Digest>)
    requires forall i, j | 0 <= i < j < |turns| :: turns[i].turnKey != turns[j].turnKey
    ensures forall i, j | 0 <= i < j < |Unlisted(turns, digests)| ::
              Unlisted(turns, digests)[i].turnKey != Unlisted(turns, digests)[j].turnKey
  {
    if turns != [] {
      var init := turns[..|turns| - 1];
      UnlistedKeysDiffer(init, digests);
      UnlistedMembers(init, digests);
      assert forall t <- Unlisted(init, digests) :: t in init;
    }
  }

  lemma HydratedKeysDiffer(turns: seq<Turn>, digests: seq<Digest>)
    requires forall i, j | 0 <= i < j < |turns| :: turns[i].turnKey != turns[j].turnKey
    requires forall i, j | 0 <= i < j < |digests| :: digests[i].turnKey != digests[j].turnKey
    ensures forall i, j | 0 <= i < j < |Hydrated(turns, digests)| ::
              Hydrated(turns, digests)[i].turnKey != Hydrated(turns, digests)[j].turnKey
  {
    ListedMembers(turns, digests);
    UnlistedMembers(turns, digests);
    UnlistedKeysDiffer(turns, digests);
    forall i, j | 0 <= i < |digests| && 0 <= j < |Unlisted(turns, digests)|
      ensures digests[i].turnKey != Unlisted(turns, digests)[j].turnKey
    {
      assert Unlisted(turns, digests)[j] in Unlisted(turns, digests) && digests[i] in digests;
    }
  }
}
