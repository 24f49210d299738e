/** A turn shows the fold of its events in any case: those recorded without a position take their place by arrival. */
module ClientArrival {
  import opened Wrappers
  import opened Sequences
  import opened ClientFold
  import opened ClientSession

  predicate HasPlace(e: Event) {
    e.Delta? || e.ToolStarted? || e.ToolChunk? || e.ToolCompleted? || e.ToolFailed?
  }

  /** The event at its own position, or at `n` if it has none. */
  function Filled(e: Event, n: int): Event {
    if HasPlace(e) then e.(position := Some(e.position.GetOr(n))) else e
  }

  predicate IsHeard(env: Envelope) {
    env.body.Progress? && env.body.event.Some?
  }

  /** How many client events there are, of any turn or none. */
  function Heard(envs: seq<Envelope>): nat {
    if envs == [] then 0 else Heard(envs[..|envs| - 1]) + if IsHeard(envs[|envs| - 1]) then 1 else 0
  }

  /** The turn's events, each filled in with how many client events came before it. */
  function Arrived(turnKey: string, envs: seq<Envelope>): seq<Event> {
    if envs == [] then []
    else
      var init, e := envs[..|envs| - 1], OfTurn(turnKey)(envs[|envs| - 1]);
      Arrived(turnKey, init) + if e.Some? then [Filled(e.value, Heard(init))] else []
  }

  lemma PositionedIsFilled(e: Event, n: int)
    ensures Positioned(e, n) == Filled(e, n)
  {
  }

  lemma ProgressArrives(s: Session, turnKey: string, es: seq<Event>, e: Event)
    requires Holds(At(s.turns, turnKey), es) && !e.SessionOpened? && e.turnKey == turnKey
    ensures Holds(At(Progressed(s, e).turns, turnKey), es + [Filled(e, s.legacySeq)])
  {
    var positioned := Positioned(e, s.legacySeq);
    PositionedIsFilled(e, s.legacySeq);
    OnTurnAt(s.turns, turnKey, React(positioned), turnKey);
    NextHolds(At(s.turns, turnKey), es, positioned);
  }

  lemma ArrivedNext(turnKey: string, envs: seq<Envelope>, env: Envelope)
    ensures var e := OfTurn(turnKey)(env);
            Arrived(turnKey, envs + [env])
            == if e.Some? then Arrived(turnKey, envs) + [Filled(e.value, Heard(envs))] else Arrived(turnKey, envs)
    ensures Heard(envs + [env]) == Heard(envs) + if IsHeard(env) then 1 else 0
  {
    assert (envs + [env])[..|envs|] == envs;
  }

  lemma NextArrives(s: Session, envs: seq<Envelope>, env: Envelope, turnKey: string)
    requires Holds(At(s.turns, turnKey), Arrived(turnKey, envs)) && s.legacySeq == Heard(envs) && env.id !in s.seen
    ensures Holds(At(Receive(s, env).turns, turnKey), Arrived(turnKey, envs + [env]))
  {
    ArrivedNext(turnKey, envs, env);
    var e := OfTurn(turnKey)(env);
    if e.Some? {
      ProgressArrives(s.(seen := s.seen + {env.id}), turnKey, Arrived(turnKey, envs), e.value);
    } else {
      OtherHolds(s, env, turnKey, Arrived(turnKey, envs));
    }
  }

  lemma NextIsHeard(s: Session, envs: seq<Envelope>, env: Envelope)
    requires s.legacySeq == Heard(envs) && env.id !in s.seen
    ensures Receive(s, env).legacySeq == Heard(envs + [env])
  {
    ArrivedNext("", envs, env);
  }

  /**
    Whatever was delivered, and whether or not its events have positions, a turn
    shows the fold of its events, those without a position at the place in which
    they came among all client events.
   */
  lemma {:induction false} TurnIsWhatArrived(delivery: seq<Envelope>, turnKey: string)
    ensures Holds(At(Received(delivery).turns, turnKey), Arrived(turnKey, Firsts(delivery)))
    ensures Received(delivery).legacySeq == Heard(Firsts(delivery))
  {
    if delivery != [] {
      var init, last := delivery[..|delivery| - 1], delivery[|delivery| - 1];
      assert delivery == init + [last];
      FirstsNext(init, last);
      TurnIsWhatArrived(init, turnKey);
      SeenAreDelivered(init);
      if last.id !in Ids(init) {
        NextArrives(Received(init), Firsts(init), last, turnKey);
        NextIsHeard(Received(init), Firsts(init), last);
      }
    }
  }
}
