/** Every step of the choreography keeps its invariant. */
module TurnSteps {
  import opened Wrappers
  import opened SessionStore
  import opened TurnMachine
  import opened TurnInvariant

  /** Stored messages stay as they are; only identities of `added` may be new. */
  ghost predicate Grows(s: Store, s': Store, added: Option<Message>) {
    && s'.maxIterations == s.maxIterations && s.latches <= s'.latches
    && (forall id :: Lookup(s.rows, id).Some? ==> Lookup(s'.rows, id) == Lookup(s.rows, id))
    && (forall id :: Lookup(s'.rows, id).Some? ==>
          Lookup(s.rows, id).Some? || (added.Some? && id == IdentityOf(added.value)))
    && (added.Some? ==> Lookup(s'.rows, IdentityOf(added.value)).Some?)
  }

  lemma WritingGrows(s: Store, c: Change)
    requires Ordered(s.rows)
    ensures Grows(s, Write(s, c), c.append) && Ordered(Write(s, c).rows)
  {
    if c.append.Some? {
      var m := c.append.value;
      var top := MaxOrdinal(s.rows);
      assert [m][..0] == [];
      assert AppendAll(s.rows, top, [m]) == AppendOne(s.rows, top + 1, m);
      AppendAllKeepsOrder(s.rows, top, [m]);
      forall id
        ensures Lookup(AppendOne(s.rows, top + 1, m), id)
                == if Lookup(s.rows, id).None? && id == IdentityOf(m) then Some(m) else Lookup(s.rows, id)
      {
        AppendOneLooksUp(s.rows, top + 1, m, id);
      }
    }
  }

  lemma IdentityStaysOk(s: Store, s': Store, added: Option<Message>, id: Identity)
    requires Grows(s, s', added) && IdentityOk(s, id)
    ensures IdentityOk(s', id)
  {
    if id.role.Tool? {
      assert CallsOf(s', id.turn, id.iteration) == CallsOf(s, id.turn, id.iteration);
    }
  }

  lemma JoinStaysSound(s: Store, s': Store, added: Option<Message>, turn: string, i: nat)
    requires Grows(s, s', added) && JoinSound(s, turn, i)
    ensures JoinSound(s', turn, i)
  {
    assert CallsOf(s', turn, i) == CallsOf(s, turn, i);
  }

  lemma EndingStays(s: Store, s': Store, added: Option<Message>, turn: string, i: nat, final: Fact)
    requires Grows(s, s', added) && EndsWith(s, turn, i, final)
    ensures EndsWith(s', turn, i, final)
  {
  }

  lemma CallStaysOk(s: Store, s': Store, added: Option<Message>, turn: string, i: nat, index: nat, call: ToolCall)
    requires Grows(s, s', added) && CallOk(s, turn, i, index, call)
    ensures CallOk(s', turn, i, index, call)
  {
  }

  lemma FactStaysOk(s: Store, s': Store, added: Option<Message>, fact: Fact)
    requires Grows(s, s', added) && FactOk(s, fact)
    ensures FactOk(s', fact)
  {
    match fact
    case TurnFinal(turn, _, _) =>
      var i: nat :| EndsWith(s, turn, i, fact);
      EndingStays(s, s', added, turn, i, fact);
    case ToolFailed(turn, i, index) =>
      var call :| CallOk(s, turn, i, index, call);
      CallStaysOk(s, s', added, turn, i, index, call);
    case ToolStarted(turn, i, index) =>
      var call :| CallOk(s, turn, i, index, call);
      CallStaysOk(s, s', added, turn, i, index, call);
    case ToolCompleted(turn, i, index) =>
      assert CallsOf(s', turn, i) == CallsOf(s, turn, i);
    case _ =>
  }

  lemma PcStaysOk(s: Store, s': Store, added: Option<Message>, pc: Pc)
    requires Grows(s, s', added) && PcOk(s, pc)
    ensures PcOk(s', pc)
  {
    match pc
    case Ending(turn, i, final) => EndingStays(s, s', added, turn, i, final);
    case Counted(turn, i, requested, completed) =>
      if requested > 0 && completed >= requested {
        JoinStaysSound(s, s', added, turn, i);
      }
    case _ =>
  }

  /** What one reactor step writes, emits and becomes is in order. */
  ghost predicate Legal(s: Store, c: Change) {
    var s' := Write(s, c);
    && (c.append.Some? ==> IdentityOk(s', IdentityOf(c.append.value)))
    && (c.latch.Some? ==> LatchOk(s', c.latch.value))
    && (forall k | 0 <= k < |c.emit| :: FactOk(s', c.emit[k]))
    && (c.next.Some? ==> PcOk(s', c.next.value))
  }

  lemma ModelStepIsLegal(s: Store, pc: Pc, choice: Choice)
    requires RowsOk(s) && PcOk(s, pc)
    requires pc.Opening? || pc.Opened? || pc.Asking? || pc.Inferring? || pc.Answering? || pc.Answered?
    ensures Legal(s, React(s, pc, choice))
  {
    WritingGrows(s, React(s, pc, choice));
  }

  lemma DecisionStepIsLegal(s: Store, pc: Pc, choice: Choice)
    requires RowsOk(s) && PcOk(s, pc) && (pc.Deciding? || pc.Requesting? || pc.Ending?)
    ensures Legal(s, React(s, pc, choice))
  {
    if pc.Ending? {
      assert FactOk(s, pc.final);
    }
  }

  /** Answering a call stores an answer the iteration asked for. */
  lemma AnswerIsLegal(s: Store, turn: string, i: nat, index: nat, call: ToolCall, output: string)
    requires RowsOk(s) && CallOk(s, turn, i, index, call)
    ensures Legal(s, Go(ToolAnswered(turn, i, index, call)).(
                       append := Some(Message(turn, i, Tool, output, [], call.id))))
  {
    var c := Go(ToolAnswered(turn, i, index, call)).(append := Some(Message(turn, i, Tool, output, [], call.id)));
    WritingGrows(s, c);
    CallStaysOk(s, Write(s, c), c.append, turn, i, index, call);
    assert CallsOf(Write(s, c), turn, i)[index].id == call.id;
  }

  lemma ToolStartIsLegal(s: Store, pc: Pc, choice: Choice)
    requires PcOk(s, pc) && (pc.ToolWoken? || pc.ToolUnanswered? || pc.ToolRunning? || pc.ToolAnswered?)
    ensures Legal(s, React(s, pc, choice))
  {
    assert CallOk(s, pc.turn, pc.iteration, pc.index, pc.call);
    assert Write(s, React(s, pc, choice)) == s;
  }

  lemma ToolStepIsLegal(s: Store, pc: Pc, choice: Choice)
    requires RowsOk(s) && PcOk(s, pc)
    requires pc.ToolWoken? || pc.ToolRefused? || pc.ToolUnanswered? || pc.ToolRunning? || pc.ToolExited? || pc.ToolAnswered?
    ensures Legal(s, React(s, pc, choice))
  {
    if choice.Stop? {
    } else if pc.ToolRefused? {
      AnswerIsLegal(s, pc.turn, pc.iteration, pc.index, pc.call,
                    "error: the bash tool requires a non-empty `command` string.");
    } else if pc.ToolExited? {
      AnswerIsLegal(s, pc.turn, pc.iteration, pc.index, pc.call, pc.output);
    } else {
      ToolStartIsLegal(s, pc, choice);
    }
  }

  lemma CountingIsLegal(s: Store, turn: string, i: nat, choice: Choice)
    requires RowsOk(s) && PcOk(s, Joining(turn, i))
    ensures Legal(s, React(s, Joining(turn, i), choice))
  {
    if Requested(s.rows, turn, i) > 0 && Completed(s.rows, turn, i) >= Requested(s.rows, turn, i) {
      FullCountIsSound(s, turn, i);
    }
  }

  lemma ClaimingIsLegal(s: Store, pc: Pc, choice: Choice)
    requires RowsOk(s) && PcOk(s, pc) && (pc.Counted? || pc.Won?)
    ensures Legal(s, React(s, pc, choice))
  {
    var c := React(s, pc, choice);
    WritingGrows(s, c);
    if c.latch.Some? {
      JoinStaysSound(s, Write(s, c), None, pc.turn, pc.iteration);
    }
  }

  lemma StepIsLegal(s: Store, pc: Pc, choice: Choice)
    requires RowsOk(s) && PcOk(s, pc)
    ensures Legal(s, React(s, pc, choice))
  {
    if pc.Joining? {
      CountingIsLegal(s, pc.turn, pc.iteration, choice);
    } else if pc.Counted? || pc.Won? {
      ClaimingIsLegal(s, pc, choice);
    } else if pc.Deciding? || pc.Requesting? || pc.Ending? {
      DecisionStepIsLegal(s, pc, choice);
    } else if pc.Opening? || pc.Opened? || pc.Asking? || pc.Inferring? || pc.Answering? || pc.Answered? {
      ModelStepIsLegal(s, pc, choice);
    } else {
      ToolStepIsLegal(s, pc, choice);
    }
  }

  lemma LegalKeepsStore(s: Store, c: Change)
    requires RowsOk(s) && LatchesOk(s) && Legal(s, c)
    ensures RowsOk(Write(s, c)) && LatchesOk(Write(s, c))
  {
    var s' := Write(s, c);
    WritingGrows(s, c);
    forall id | Lookup(s'.rows, id).Some?
      ensures IdentityOk(s', id)
    {
      if Lookup(s.rows, id).Some? {
        IdentityStaysOk(s, s', c.append, id);
      }
    }
    forall latch <- s'.latches
      ensures LatchOk(s', latch)
    {
      if latch in s.latches {
        assert LatchOk(s, latch);
        JoinStaysSound(s, s', c.append, latch.0, latch.1);
      }
    }
  }

  lemma LegalKeepsFacts(s: State, p: nat, c: Change)
    requires FactsOk(s) && ReactorsOk(s) && Ordered(s.store.rows) && Legal(s.store, c)
    ensures FactsOk(Commit(s, p, c)) && ReactorsOk(Commit(s, p, c))
  {
    var s' := Commit(s, p, c);
    WritingGrows(s.store, c);
    forall k | 0 <= k < |s'.emitted|
      ensures FactOk(s'.store, s'.emitted[k])
    {
      if k < |s.emitted| {
        FactStaysOk(s.store, s'.store, c.append, s.emitted[k]);
      }
    }
    forall q <- s'.reactors
      ensures PcOk(s'.store, s'.reactors[q])
    {
      if q != p {
        PcStaysOk(s.store, s'.store, c.append, s.reactors[q]);
      }
    }
  }

  /** Only the winner of a latch declares, in its last step; a win takes a latch nobody had. */
  ghost predicate Declares(s: Store, pc: Pc, c: Change) {
    && |c.emit| <= 1
    && (c.emit != [] && c.emit[0].Ready? ==> c.next.None? && pc == Won(c.emit[0].turn, c.emit[0].iteration))
    && (c.next.Some? && c.next.value.Won? ==>
          && c.emit == [] && (c.next.value.turn, c.next.value.iteration) !in s.latches
          && c.latch == Some((c.next.value.turn, c.next.value.iteration)))
  }

  lemma OnlyWinnersDeclare(s: Store, pc: Pc, choice: Choice)
    requires PcOk(s, pc)
    ensures Declares(s, pc, React(s, pc, choice))
  {
  }

  /** Winners and declared iterations hold their latch. */
  lemma WinnersAreLatched(s: State)
    requires FactsOk(s) && ReactorsOk(s)
    ensures forall q <- s.reactors | s.reactors[q].Won? :: (s.reactors[q].turn, s.reactors[q].iteration) in s.store.latches
    ensures forall k | 0 <= k < |s.emitted| && s.emitted[k].Ready? ::
              (s.emitted[k].turn, s.emitted[k].iteration) in s.store.latches
  {
    forall q <- s.reactors | s.reactors[q].Won?
      ensures (s.reactors[q].turn, s.reactors[q].iteration) in s.store.latches
    {
      assert PcOk(s.store, s.reactors[q]);
    }
    forall k | 0 <= k < |s.emitted| && s.emitted[k].Ready?
      ensures (s.emitted[k].turn, s.emitted[k].iteration) in s.store.latches
    {
      assert FactOk(s.store, s.emitted[k]);
    }
  }

  lemma RunKeepsDeclarer(s: State, p: nat, c: Change)
    requires FactsOk(s) && ReactorsOk(s) && OneDeclarer(s) && p in s.reactors && Declares(s.store, s.reactors[p], c)
    ensures OneDeclarer(Commit(s, p, c))
  {
    WinnersAreLatched(s);
  }

  lemma RecordedIsOk(s: State, fact: Fact)
    requires FactsOk(s) && fact in s.log.Values
    ensures FactOk(s.store, fact)
  {
    var k :| 0 <= k < |s.emitted| && s.emitted[k] == fact;
  }

  lemma WakingIsOk(s: Store, fact: Fact, queue: Queue)
    requires FactOk(s, fact) && Woken(fact, queue).Some?
    requires fact.Ready? ==> LatchOk(s, (fact.turn, fact.iteration))
    ensures PcOk(s, Woken(fact, queue).value) && !Woken(fact, queue).value.Won?
  {
  }

  lemma RunKeepsInv(s: State, p: nat, choice: Choice)
    requires Inv(s) && p in s.reactors
    ensures Inv(Apply(s, Run(p, choice)))
  {
    var c := React(s.store, s.reactors[p], choice);
    StepIsLegal(s.store, s.reactors[p], choice);
    LegalKeepsStore(s.store, c);
    LegalKeepsFacts(s, p, c);
    OnlyWinnersDeclare(s.store, s.reactors[p], choice);
    RunKeepsDeclarer(s, p, c);
  }

  lemma StepKeepsInv(s: State, step: Step)
    requires Inv(s) && Enabled(s, step)
    ensures Inv(Apply(s, step))
  {
    match step
    case Run(p, choice) => RunKeepsInv(s, p, choice);
    case Wake(p, fact, queue) => WakeKeepsInv(s, p, fact, queue);
    case _ =>
  }

  lemma WakeKeepsInv(s: State, p: nat, fact: Fact, queue: Queue)
    requires Inv(s) && Enabled(s, Wake(p, fact, queue))
    ensures Inv(Apply(s, Wake(p, fact, queue)))
  {
    RecordedIsOk(s, fact);
    WakingIsOk(s.store, fact, queue);
  }
}
