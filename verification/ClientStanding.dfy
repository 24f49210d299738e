/**
  How a turn and its session stand on screen, told by what was delivered. Unlike
  the blocks this does depend on the order of delivery: the last word counts.
 */
module ClientStanding {
  import opened Wrappers
  import opened Sequences
  import opened ClientFold
  import opened ClientSession

  /** The last prompt that is not empty, or none. */
  ghost predicate IsLastPrompt(es: seq<Event>, prompt: string) {
    || (prompt == "" && forall e <- es | e.TurnStarted? :: e.prompt == "")
    || (prompt != "" && exists k | 0 <= k < |es| :: IsPromptLast(es, prompt, k))
  }

  ghost predicate IsPromptLast(es: seq<Event>, prompt: string, k: nat)
    requires k < |es|
  {
    && es[k].TurnStarted? && es[k].prompt == prompt
    && forall j | k < j < |es| && es[j].TurnStarted? :: es[j].prompt == ""
  }

  /** The last final answer, or none. */
  ghost predicate IsLastAnswer(es: seq<Event>, answer: string) {
    || (answer == "" && forall e <- es :: !e.TurnFinal?)
    || exists k | 0 <= k < |es| :: IsAnswerLast(es, answer, k)
  }

  ghost predicate IsAnswerLast(es: seq<Event>, answer: string, k: nat)
    requires k < |es|
  {
    es[k].TurnFinal? && es[k].answer == answer && forall j | k < j < |es| :: !es[j].TurnFinal?
  }

  /** It was said to be over, and not started since. */
  ghost predicate IsOver(es: seq<Event>) {
    exists k | 0 <= k < |es| :: EndsAt(es, k)
  }

  ghost predicate EndsAt(es: seq<Event>, k: nat)
    requires k < |es|
  {
    es[k].TurnFinal? && forall j | k < j < |es| :: !es[j].TurnStarted?
  }

  /** The calls that events name, by whatever kind of event. */
  function CallsNamed(es: seq<Event>): set<string> {
    set e <- es | KeyOf(e).Some? && KeyOf(e).value.OfTool? :: KeyOf(e).value.toolCallKey
  }

  /** Counted when a call last started. */
  ghost predicate CountsCalls(es: seq<Event>, calls: nat) {
    exists k | 0 <= k <= |es| :: CountsAt(es, calls, k)
  }

  ghost predicate CountsAt(es: seq<Event>, calls: nat, k: nat)
    requires k <= |es|
  {
    && calls == |CallsNamed(es[..k])| && (k > 0 ==> es[k - 1].ToolStarted?)
    && forall j | k <= j < |es| :: !es[j].ToolStarted?
  }

  /** Unless it failed, a turn runs until it is over. */
  ghost predicate Stands(turn: Turn, es: seq<Event>) {
    && IsLastPrompt(es, turn.prompt) && IsLastAnswer(es, turn.answer) && CountsCalls(es, turn.toolCalls)
    && (turn.phase != Failed ==> turn.phase == if IsOver(es) then Done else Running)
  }

  // ---- one event more ----

  lemma PromptNext(es: seq<Event>, prompt: string, e: Event)
    requires IsLastPrompt(es, prompt)
    ensures IsLastPrompt(es + [e], if e.TurnStarted? && e.prompt != "" then e.prompt else prompt)
  {
    if e.TurnStarted? && e.prompt != "" {
      assert IsPromptLast(es + [e], e.prompt, |es|);
    } else if prompt != "" {
      var k :| 0 <= k < |es| && IsPromptLast(es, prompt, k);
      assert IsPromptLast(es + [e], prompt, k);
    }
  }

  lemma AnswerNext(es: seq<Event>, answer: string, e: Event)
    requires IsLastAnswer(es, answer)
    ensures IsLastAnswer(es + [e], if e.TurnFinal? then e.answer else answer)
  {
    if e.TurnFinal? {
      assert IsAnswerLast(es + [e], e.answer, |es|);
    } else if k :| 0 <= k < |es| && IsAnswerLast(es, answer, k) {
      assert IsAnswerLast(es + [e], answer, k);
    }
  }

  lemma OverNext(es: seq<Event>, e: Event)
    ensures IsOver(es + [e]) <==> e.TurnFinal? || (IsOver(es) && !e.TurnStarted?)
  {
    if e.TurnFinal? {
      assert EndsAt(es + [e], |es|);
    } else if k :| 0 <= k < |es| && EndsAt(es, k) {
      assert !e.TurnStarted? ==> EndsAt(es + [e], k);
    }
    if k :| 0 <= k < |es + [e]| && EndsAt(es + [e], k) {
      if k < |es| {
        assert (es + [e])[|es|] == e;
        assert forall j | k < j < |es| :: (es + [e])[j] == es[j];
        assert EndsAt(es, k);
      }
    }
  }

  lemma CountNext(es: seq<Event>, calls: nat, e: Event)
    requires CountsCalls(es, calls)
    ensures CountsCalls(es + [e], if e.ToolStarted? then |CallsNamed(es + [e])| else calls)
  {
    if e.ToolStarted? {
      assert (es + [e])[..|es| + 1] == es + [e];
      assert CountsAt(es + [e], |CallsNamed(es + [e])|, |es| + 1);
    } else {
      var k :| 0 <= k <= |es| && CountsAt(es, calls, k);
      assert (es + [e])[..k] == es[..k];
      assert CountsAt(es + [e], calls, k);
    }
  }

  function CallKeys(blocks: seq<Block>): set<string> {
    set b <- blocks | b.Tool? :: b.toolCallKey
  }

  lemma {:induction false} ToolsAreCalls(blocks: seq<Block>)
    requires KeysDiffer(blocks)
    ensures CountTools(blocks) == |CallKeys(blocks)|
  {
    if blocks != [] {
      var init, last := blocks[..|blocks| - 1], blocks[|blocks| - 1];
      ToolsAreCalls(init);
      assert blocks == init + [last];
      if last.Tool? {
        forall b <- init | b.Tool?
          ensures b.toolCallKey != last.toolCallKey
        {
          assert b.Key() != last.Key();
        }
        assert CallKeys(blocks) == CallKeys(init) + {last.toolCallKey};
      } else {
        assert CallKeys(blocks) == CallKeys(init);
      }
    }
  }

  /** The fold has one tool block for every call the events name. */
  lemma ToolsAreNamed(es: seq<Event>)
    ensures CountTools(FoldBlocks(es)) == |CallsNamed(es)|
  {
    var blocks := FoldBlocks(es);
    FoldIsFold(es);
    ToolsAreCalls(blocks);
    forall call
      ensures call in CallKeys(blocks) <==> call in CallsNamed(es)
    {
      if call in CallKeys(blocks) {
        var b :| b in blocks && b.Tool? && b.toolCallKey == call;
        assert IsAssembled(b, es);
        TouchedTouch(b.Key(), es);
        var ts := Collect(Touching(b.Key()), es);
        assert ts[0] in ts && ts[0] in es;
      }
      if call in CallsNamed(es) {
        var e :| e in es && KeyOf(e) == Some(OfTool(call));
        var i := Find(blocks, OfTool(call));
        assert blocks[i] in blocks && blocks[i].Key() == OfTool(call);
      }
    }
    assert CallKeys(blocks) == CallsNamed(es);
  }

  lemma NextStands(turn: Turn, es: seq<Event>, e: Event)
    requires Holds(turn, es) && Stands(turn, es) && !e.SessionOpened?
    ensures Stands(React(e)(turn), es + [e])
  {
    PromptNext(es, turn.prompt, e);
    AnswerNext(es, turn.answer, e);
    OverNext(es, e);
    CountNext(es, turn.toolCalls, e);
    if e.ToolStarted? {
      assert (es + [e])[..|es|] == es;
      ToolsAreNamed(es + [e]);
    }
  }

  lemma ProgressStands(s: Session, turnKey: string, es: seq<Event>, e: Event)
    requires Holds(At(s.turns, turnKey), es) && Stands(At(s.turns, turnKey), es)
    requires !e.SessionOpened? && e.turnKey == turnKey && (KeyOf(e).Some? ==> e.position.Some?)
    ensures Stands(At(Progressed(s, e).turns, turnKey), es + [e])
  {
    var positioned := Positioned(e, s.legacySeq);
    OnTurnAt(s.turns, turnKey, React(positioned), turnKey);
    NextStands(At(s.turns, turnKey), es, e);
    if positioned != e {
      assert e.Delta? && e.text == "";
      assert React(positioned)(At(s.turns, turnKey)) == React(e)(At(s.turns, turnKey));
    }
  }

  lemma OtherStands(s: Session, env: Envelope, turnKey: string, es: seq<Event>)
    requires Stands(At(s.turns, turnKey), es) && OfTurn(turnKey)(env).None?
    ensures Stands(At(Receive(s, env).turns, turnKey), es)
  {
    match env.body
    case Terminal(_, _, error) => OnTurnAt(s.turns, env.turnId.GetOr(env.transactionKey), Fail(error), turnKey);
    case Progress(None) =>
    case Progress(Some(e)) =>
      if !e.SessionOpened? {
        OnTurnAt(s.turns, e.turnKey, React(Positioned(e, s.legacySeq)), turnKey);
      }
  }

  lemma ReceiveStands(s: Session, env: Envelope, turnKey: string, es: seq<Event>)
    requires Holds(At(s.turns, turnKey), es) && Stands(At(s.turns, turnKey), es)
    requires Numbered(es + More(turnKey, s.seen, env))
    ensures Stands(At(Receive(s, env).turns, turnKey), es + More(turnKey, s.seen, env))
  {
    if More(turnKey, s.seen, env) == [] {
      assert es + [] == es;
      if env.id !in s.seen {
        OtherStands(s, env, turnKey, es);
      }
    } else {
      var e := OfTurn(turnKey)(env).value;
      assert e in es + [e];
      ProgressStands(s.(seen := s.seen + {env.id}), turnKey, es, e);
    }
  }

  /**
    How a turn stands after any delivery: the last prompt and the last answer that
    came, the calls named by the time one last started, and, unless it failed,
    done exactly when it was said to be over and not started since.
   */
  lemma {:induction false} DeliveredStands(delivery: seq<Envelope>, turnKey: string)
    requires Numbered(FirstEvents(turnKey, delivery))
    ensures Stands(At(Received(delivery).turns, turnKey), FirstEvents(turnKey, delivery))
  {
    var es := FirstEvents(turnKey, delivery);
    if delivery == [] {
      assert es == [] && CountsAt(es, 0, 0);
    } else {
      var init, last := delivery[..|delivery| - 1], delivery[|delivery| - 1];
      assert delivery == init + [last];
      FirstEventsNext(turnKey, init, last);
      SeenAreDelivered(init);
      NumberedBefore(FirstEvents(turnKey, init), More(turnKey, Ids(init), last));
      DeliveredStands(init, turnKey);
      TurnIsItsFold(init, turnKey);
      ReceiveStands(Received(init), last, turnKey, FirstEvents(turnKey, init));
    }
  }

  // ---- failures and the session ----

  predicate IsFailure(env: Envelope) {
    env.body.Terminal? && !env.body.ok
  }

  predicate FailsTurn(env: Envelope, turnKey: string) {
    IsFailure(env) && env.turnId.GetOr(env.transactionKey) == turnKey
  }

  /** The workspace an envelope tells of, if it does. */
  function WorkspaceIn(env: Envelope): Option<string> {
    match env.body
    case Terminal(ok, workspace, _) => if ok && workspace != "" then Some(workspace) else None
    case Progress(Some(SessionOpened(workspace))) => Some(workspace)
    case _ => None
  }

  ghost predicate IsLastWorkspace(envs: seq<Envelope>, workspace: string) {
    || (workspace == "" && forall env <- envs :: WorkspaceIn(env).None?)
    || exists k | 0 <= k < |envs| :: IsWorkspaceLast(envs, workspace, k)
  }

  ghost predicate IsWorkspaceLast(envs: seq<Envelope>, workspace: string, k: nat)
    requires k < |envs|
  {
    WorkspaceIn(envs[k]) == Some(workspace) && forall j | k < j < |envs| :: WorkspaceIn(envs[j]).None?
  }

  /** Something failed, and no workspace has come since. */
  ghost predicate FailedSince(envs: seq<Envelope>) {
    exists k | 0 <= k < |envs| :: FailsLast(envs, k)
  }

  ghost predicate FailsLast(envs: seq<Envelope>, k: nat)
    requires k < |envs|
  {
    IsFailure(envs[k]) && forall j | k < j < |envs| :: WorkspaceIn(envs[j]).None?
  }

  ghost predicate SessionStands(s: Session, envs: seq<Envelope>) {
    IsLastWorkspace(envs, s.workspace) && (s.sessionError != "" ==> FailedSince(envs))
  }

  lemma SessionNext(s: Session, envs: seq<Envelope>, env: Envelope)
    requires SessionStands(s, envs) && env.id !in s.seen
    ensures SessionStands(Receive(s, env), envs + [env])
  {
    var longer := envs + [env];
    if WorkspaceIn(env).Some? {
      assert IsWorkspaceLast(longer, WorkspaceIn(env).value, |envs|);
    } else {
      if k :| 0 <= k < |envs| && IsWorkspaceLast(envs, s.workspace, k) {
        assert IsWorkspaceLast(longer, s.workspace, k);
      }
      if k :| 0 <= k < |envs| && FailsLast(envs, k) {
        assert FailsLast(longer, k);
      }
      if IsFailure(env) {
        assert FailsLast(longer, |envs|);
      }
    }
  }

  /** A turn is marked as failed, or keeps an error, only when a failure was told of it. */
  ghost predicate FailsForCause(turn: Turn, envs: seq<Envelope>) {
    turn.phase == Failed || turn.error != "" ==> exists env <- envs :: FailsTurn(env, turn.turnKey)
  }

  lemma CauseNext(s: Session, envs: seq<Envelope>, env: Envelope, turnKey: string)
    requires FailsForCause(At(s.turns, turnKey), envs) && env.id !in s.seen
    ensures FailsForCause(At(Receive(s, env).turns, turnKey), envs + [env])
  {
    assert env in envs + [env] && forall e <- envs :: e in envs + [env];
    match env.body
    case Terminal(_, _, error) => OnTurnAt(s.turns, env.turnId.GetOr(env.transactionKey), Fail(error), turnKey);
    case Progress(None) =>
    case Progress(Some(e)) =>
      if !e.SessionOpened? {
        OnTurnAt(s.turns, e.turnKey, React(Positioned(e, s.legacySeq)), turnKey);
      }
  }

  /**
    The session shows the last workspace it was told of, and an error only if
    something failed since; a turn shows a failure only if one was told of it.
   */
  lemma {:induction false} SessionIsAsTold(delivery: seq<Envelope>, turnKey: string)
    ensures SessionStands(Received(delivery), Firsts(delivery))
    ensures FailsForCause(At(Received(delivery).turns, turnKey), Firsts(delivery))
  {
    if delivery == [] {
      assert Firsts(delivery) == [] && Received(delivery) == FreshSession();
    } else {
      var init, last := delivery[..|delivery| - 1], delivery[|delivery| - 1];
      assert delivery == init + [last];
      FirstsNext(init, last);
      SessionIsAsTold(init, turnKey);
      SeenAreDelivered(init);
      if last.id !in Ids(init) {
        SessionNext(Received(init), Firsts(init), last);
        CauseNext(Received(init), Firsts(init), last, turnKey);
      }
    }
  }
}
