/** The objects a screen subscribes to: turns updated in place, and the session that owns them. */
module ClientModel {
  import opened Wrappers
  import opened ClientFold
  import opened ClientSession

  /** `version` counts the renders asked for. */
  class TurnModel {
    const turnKey: string
    var prompt: string
    var phase: Phase
    var blocks: seq<Block>
    var answer: string
    var error: string
    var iterations: int
    var toolCalls: nat
    var bodiesLoaded: bool
    var version: nat

    constructor (turnKey: string, prompt: string)
      ensures Value() == FreshTurn(turnKey, prompt) && version == 0
    {
      this.turnKey, this.prompt := turnKey, prompt;
      phase, blocks, answer, error, iterations, toolCalls, bodiesLoaded := Running, [], "", "", 0, 0, true;
      version := 0;
    }

    constructor FromDigest(digest: Digest)
      ensures Value() == DigestTurn(digest) && version == 0
    {
      this.turnKey, this.prompt := digest.turnKey, digest.prompt;
      phase := if digest.phase.Some? then digest.phase.value else Done;
      blocks, answer, error, bodiesLoaded := [], digest.answer, digest.error, false;
      iterations, toolCalls := digest.iterations, digest.toolCalls;
      version := 0;
    }

    function Value(): Turn
      reads this
    {
      Turn(turnKey, prompt, phase, blocks, answer, error, iterations, toolCalls, bodiesLoaded)
    }

    method FindBlock(key: BlockKey) returns (i: nat)
      ensures i == Find(blocks, key)
    {
      i := 0;
      while i < |blocks| && blocks[i].Key() != key
        invariant i <= |blocks|
        invariant forall j | 0 <= j < i :: blocks[j].Key() != key
      {
        i := i + 1;
      }
      var found := Find(blocks, key);
      assert !(found < i) && !(i < found);
    }

    /** Files a streamed slice under its block; an empty one is no slice, and asks for no render. */
    method AppendText(kind: TextKind, iterationIndex: int, position: int, text: string)
      modifies this
      ensures Value() == old(Value()).(
                blocks := Touch(old(blocks), Delta(turnKey, Some(position), kind, iterationIndex, text)))
      ensures version == old(version) + if text == "" then 0 else 1
    {
      if text == "" {
        return;
      }
      var i := FindBlock(OfText(kind, iterationIndex));
      if i == |blocks| {
        blocks := blocks + [Text(position, kind, iterationIndex, [Slice(position, text)])];
      } else {
        var existing := blocks[i].Reaching(position);
        blocks := blocks[i := existing.(slices := existing.slices + [Slice(position, text)])];
      }
      assert [] + [Slice(position, text)] == [Slice(position, text)];
      version := version + 1;
    }

    /** Finds or opens the call's block, moves it to its earliest position, then changes it. */
    method PatchTool(toolCallKey: string, position: int, mutate: Block --> Block)
      requires forall b: Block | b.Tool? :: mutate.requires(b)
      modifies this
      ensures Value() == old(Value()).(blocks := Patched(old(blocks), toolCallKey, position, mutate))
      ensures version == old(version) + 1
    {
      var i := FindBlock(OfTool(toolCallKey));
      if i == |blocks| {
        blocks := blocks + [mutate(Empty(OfTool(toolCallKey), position))];
      } else {
        blocks := blocks[i := mutate(blocks[i].Reaching(position))];
      }
      version := version + 1;
    }

    method LoadBlocks(loaded: seq<Block>)
      modifies this
      ensures Value() == old(Value()).(blocks := loaded, bodiesLoaded := true)
      ensures version == old(version) + 1
    {
      blocks, bodiesLoaded := loaded, true;
      version := version + 1;
    }

    /** A running turn is never dropped, nor is one twice. */
    method DropBlocks()
      modifies this
      ensures Value() == Dropped(old(Value()))
      ensures old(phase) == Running ==> Value() == old(Value())
      ensures old(phase) != Running ==> !bodiesLoaded && (old(bodiesLoaded) ==> blocks == [])
      ensures iterations == old(iterations) && toolCalls == old(toolCalls) && answer == old(answer)
      ensures version == old(version) + if Dropped(old(Value())) == old(Value()) then 0 else 1
    {
      if phase == Running || !bodiesLoaded {
        return;
      }
      blocks, bodiesLoaded := [], false;
      version := version + 1;
    }

    method CountTools() returns (n: nat)
      ensures n == ClientSession.CountTools(blocks)
    {
      n := 0;
      for i := 0 to |blocks|
        invariant n == ClientSession.CountTools(blocks[..i])
      {
        assert blocks[..i + 1][..i] == blocks[..i];
        if blocks[i].Tool? {
          n := n + 1;
        }
      }
      assert blocks[..|blocks|] == blocks;
    }

    method ToolStarted(toolCallKey: string, position: int, command: string)
      modifies this
      ensures Value() == React(Event.ToolStarted(turnKey, Some(position), toolCallKey, command))(old(Value()))
    {
      PatchTool(toolCallKey, position, (b: Block) requires b.Tool? => b.(command := command));
      toolCalls := CountTools();
      version := version + 1;
    }

    method ToolChunk(toolCallKey: string, position: int, stream: Stream, text: string)
      modifies this
      ensures Value() == React(Event.ToolChunk(turnKey, Some(position), toolCallKey, stream, text))(old(Value()))
    {
      match stream
      case Out =>
        PatchTool(toolCallKey, position, (b: Block) requires b.Tool? => b.(stdout := b.stdout + [Slice(position, text)]));
      case Err =>
        PatchTool(toolCallKey, position, (b: Block) requires b.Tool? => b.(stderr := b.stderr + [Slice(position, text)]));
    }

    method ToolCompleted(toolCallKey: string, position: int, exitCode: Option<int>, timedOut: bool, durationMs: int)
      modifies this
      ensures Value() == React(Event.ToolCompleted(turnKey, Some(position), toolCallKey, exitCode, timedOut, durationMs))(
                           old(Value()))
    {
      PatchTool(toolCallKey, position, (b: Block) requires b.Tool? =>
        b.(done := true, exitCode := exitCode, timedOut := timedOut, durationMs := durationMs));
    }

    method ToolFailed(toolCallKey: string, position: int, error: string)
      modifies this
      ensures Value() == React(Event.ToolFailed(turnKey, Some(position), toolCallKey, error))(old(Value()))
    {
      PatchTool(toolCallKey, position, (b: Block) requires b.Tool? => b.(done := true, failure := error));
    }

    /** One reducer an event; the positions are settled by now. */
    method Reduce(e: Event)
      requires !e.SessionOpened? && e.turnKey == turnKey && Positioned(e, 0) == e
      modifies this
      ensures Value() == React(e)(old(Value()))
    {
      match e
      case TurnStarted(_, text) =>
        if text != "" {
          prompt := text;
        }
        phase, version := Running, version + 1;
      case IterationStarted(_, i) =>
        iterations, version := Max(iterations, i + 1), version + 1;
      case Delta(_, Some(at), kind, i, text) => AppendText(kind, i, at, text);
      case ToolStarted(_, Some(at), call, command) => ToolStarted(call, at, command);
      case ToolChunk(_, Some(at), call, stream, text) => ToolChunk(call, at, stream, text);
      case ToolCompleted(_, Some(at), call, code, late, ms) => ToolCompleted(call, at, code, late, ms);
      case ToolFailed(_, Some(at), call, reason) => ToolFailed(call, at, reason);
      case TurnFinal(_, text) =>
        phase, answer, version := Done, text, version + 1;
    }

    method Fail(error: string)
      modifies this
      ensures Value() == ClientSession.Fail(error)(old(Value()))
    {
      phase, this.error, version := Failed, error, version + 1;
    }
  }

  class SessionModel {
    var seenEventIds: set<string>
    var legacySeq: int
    var turns: seq<TurnModel>
    var workspace: string
    var sessionError: string

    ghost predicate Valid()
      reads this
    {
      forall i, j | 0 <= i < j < |turns| :: turns[i].turnKey != turns[j].turnKey
    }

    static function Values(turns: seq<TurnModel>): (values: seq<Turn>)
      reads turns
      ensures |values| == |turns| && forall i | 0 <= i < |turns| :: values[i].turnKey == turns[i].turnKey
    {
      seq(|turns|, i requires 0 <= i < |turns| reads turns => turns[i].Value())
    }

    function Value(): Session
      reads this, turns
    {
      Session(seenEventIds, legacySeq, Values(turns), workspace, sessionError)
    }

    constructor ()
      ensures Valid() && Value() == FreshSession()
    {
      seenEventIds, legacySeq, turns, workspace, sessionError := {}, 0, [], "", "";
    }

    method FindTurn(turnKey: string) returns (i: nat)
      ensures i == ClientSession.FindTurn(Values(turns), turnKey)
    {
      i := 0;
      while i < |turns| && turns[i].turnKey != turnKey
        invariant i <= |turns|
        invariant forall j | 0 <= j < i :: turns[j].turnKey != turnKey
      {
        i := i + 1;
      }
      var found := ClientSession.FindTurn(Values(turns), turnKey);
      assert !(found < i) && !(i < found);
    }

    /** The turn with a key, made if need be. */
    method EnsureTurn(turnKey: string, prompt: string) returns (turn: TurnModel)
      requires Valid()
      modifies this`turns
      ensures Valid() && Values(turns) == Ensured(old(Values(turns)), turnKey, prompt)
      ensures var i := ClientSession.FindTurn(Values(turns), turnKey); i < |turns| && turns[i] == turn
      ensures turn.turnKey == turnKey && (turn in old(turns) || fresh(turn))
    {
      var i := FindTurn(turnKey);
      if i < |turns| {
        return turns[i];
      }
      turn := new TurnModel(turnKey, prompt);
      turns := turns + [turn];
      assert Values(turns) == old(Values(turns)) + [FreshTurn(turnKey, prompt)];
      SameFind(old(Values(turns)), Values(turns), turnKey);
      assert Values(turns)[i].turnKey == turnKey;
    }

    method ReduceTurn(e: Event)
      requires Valid() && !e.SessionOpened? && Positioned(e, 0) == e
      modifies this`turns, turns
      ensures Valid() && Values(turns) == OnTurn(old(Values(turns)), e.turnKey, React(e))
    {
      var turn := EnsureTurn(e.turnKey, "");
      ReduceListed(turn, ClientSession.FindTurn(Values(turns), e.turnKey), e);
    }

    method ReduceListed(turn: TurnModel, ghost i: nat, e: Event)
      requires Valid() && i < |turns| && turns[i] == turn
      requires !e.SessionOpened? && e.turnKey == turn.turnKey && Positioned(e, 0) == e
      modifies turn
      ensures Values(turns) == old(Values(turns))[i := React(e)(old(turn.Value()))]
    {
      ghost var before := Values(turns);
      turn.Reduce(e);
      assert forall k | 0 <= k < |turns| && k != i :: turns[k] != turn;
      assert Values(turns) == before[i := turn.Value()];
    }

    method FailTurn(turnKey: string, error: string)
      requires Valid()
      modifies this`turns, turns
      ensures Valid() && Values(turns) == OnTurn(old(Values(turns)), turnKey, Fail(error))
    {
      var turn := EnsureTurn(turnKey, "");
      FailListed(turn, ClientSession.FindTurn(Values(turns), turnKey), error);
    }

    method FailListed(turn: TurnModel, ghost i: nat, error: string)
      requires Valid() && i < |turns| && turns[i] == turn
      modifies turn
      ensures Values(turns) == old(Values(turns))[i := ClientSession.Fail(error)(old(turn.Value()))]
    {
      ghost var before := Values(turns);
      turn.Fail(error);
      assert forall k | 0 <= k < |turns| && k != i :: turns[k] != turn;
      assert Values(turns) == before[i := turn.Value()];
    }

    /** Applies a client event to its turn. */
    method Progress(e: Event)
      requires Valid()
      modifies this, turns
      ensures Valid() && Value() == Progressed(old(Value()), e)
    {
      ghost var before := Value();
      var positioned := Positioned(e, legacySeq);
      legacySeq := legacySeq + 1;
      assert Values(turns) == before.turns;
      if e.SessionOpened? {
        workspace, sessionError := e.workspace, "";
      } else {
        PositionedOnce(e, before.legacySeq);
        ReduceTurn(positioned);
        assert Values(turns) == Progressed(before, e).turns;
      }
    }

    /** Surfaces a reaction that failed; a success was already told by its facts. */
    method ApplyTerminal(env: Envelope)
      requires Valid() && env.body.Terminal?
      modifies this, turns
      ensures Valid() && Value() == Terminated(old(Value()), env)
    {
      if env.body.ok {
        if env.body.workspace != "" {
          workspace, sessionError := env.body.workspace, "";
        }
        return;
      }
      var own := FindTurn(env.transactionKey);
      if env.turnId.GetOr("") == "" && own == |turns| {
        sessionError := if env.body.error != "" then env.body.error else OPEN_REFUSED;
      } else {
        FailTurn(env.turnId.GetOr(env.transactionKey), env.body.error);
      }
    }

    /** One envelope, at most once. */
    method Apply(env: Envelope)
      requires Valid()
      modifies this, turns
      ensures Valid() && Value() == Receive(old(Value()), env)
    {
      if env.id in seenEventIds {
        return;
      }
      seenEventIds := seenEventIds + {env.id};
      match env.body
      case Terminal(_, _, _) => ApplyTerminal(env);
      case Progress(None) =>
      case Progress(Some(e)) => Progress(e);
    }

    /** The digests' turns in their order, the live ones among them as they are. */
    method ListDigests(digests: seq<Digest>) returns (next: seq<TurnModel>)
      requires Valid()
      ensures Values(next) == Listed(Values(turns), digests)
      ensures forall turn <- next :: turn in turns || fresh(turn)
    {
      next := [];
      for i := 0 to |digests|
        invariant Values(next) == Listed(Values(turns), digests[..i])
        invariant forall turn <- next :: turn in turns || fresh(turn)
      {
        assert digests[..i + 1][..i] == digests[..i];
        var k := FindTurn(digests[i].turnKey);
        var turn: TurnModel;
        if k < |turns| {
          turn := turns[k];
        } else {
          turn := new TurnModel.FromDigest(digests[i]);
        }
        next := Extended(next, turn);
      }
      assert digests[..|digests|] == digests;
    }

    /** `list` and one more turn. */
    static function Extended(list: seq<TurnModel>, turn: TurnModel): (longer: seq<TurnModel>)
      reads list, turn
      ensures longer == list + [turn] && Values(longer) == Values(list) + [turn.Value()]
    {
      list + [turn]
    }

    static method IsListed(turnKey: string, digests: seq<Digest>) returns (known: bool)
      ensures known <==> exists digest <- digests :: digest.turnKey == turnKey
    {
      known := false;
      for j := 0 to |digests|
        invariant known <==> exists digest <- digests[..j] :: digest.turnKey == turnKey
      {
        known := known || digests[j].turnKey == turnKey;
      }
      assert digests[..|digests|] == digests;
    }

    /** `listed`, then the live turns no digest lists. */
    method AddUnlisted(listed: seq<TurnModel>, digests: seq<Digest>) returns (next: seq<TurnModel>)
      ensures Values(next) == Values(listed) + Unlisted(Values(turns), digests)
    {
      next := listed;
      ghost var values, all := Values(listed), Values(turns);
      for i := 0 to |turns|
        invariant Values(next) == values + Unlisted(all[..i], digests)
      {
        next := AddIfUnlisted(next, turns[i], digests);
        UnlistedNext(all, digests, i);
        assert all[i] == turns[i].Value();
      }
      assert all[..|turns|] == all;
    }

    static method AddIfUnlisted(list: seq<TurnModel>, turn: TurnModel, digests: seq<Digest>) returns (next: seq<TurnModel>)
      ensures Values(next) == Values(list)
                              + if exists digest <- digests :: digest.turnKey == turn.turnKey then [] else [turn.Value()]
    {
      next := list;
      var known := IsListed(turn.turnKey, digests);
      if !known {
        next := Extended(next, turn);
      }
    }

    /** Seeds the list from the read model, whose turns have one row each. */
    method Hydrate(digests: seq<Digest>)
      requires Valid() && forall i, j | 0 <= i < j < |digests| :: digests[i].turnKey != digests[j].turnKey
      modifies this`turns
      ensures Valid() && Values(turns) == Hydrated(old(Values(turns)), digests)
    {
      var next := ListDigests(digests);
      next := AddUnlisted(next, digests);
      HydratedKeysDiffer(Values(turns), digests);
      assert forall i | 0 <= i < |next| :: next[i].turnKey == Hydrated(Values(turns), digests)[i].turnKey;
      turns := next;
    }
  }
}
