/**
  Positions of a session's facts, handed out by any number of handles on any
  number of machines, each from a block it took and refills before it runs dry.
 */
module Sequencer {
  import opened Wrappers

  /** A refill goes out, is answered by the database, and arrives; it may fail before or after the answer. */
  datatype Refill = Idle | Asked | Granted(start: nat)

  /** `born` is where the session's counter stood when the handle was made. */
  datatype Handle = Handle(start: nat, size: nat, used: nat, refill: Refill, born: nat)

  datatype Issue = Issue(handle: nat, position: nat)

  datatype State = State(next: nat, handles: map<nat, Handle>, issued: seq<Issue>)

  datatype Step =
    | Load(h: nat, size: nat)
    | Take(h: nat)
    | Grant(h: nat)
    | Arrive(h: nat)
    | Fail(h: nat)

  predicate Init(s: State) {
    s.handles == map[] && s.issued == []
  }

  function Block(size: nat): nat {
    if size < 1 then 1 else size
  }

  function Taken(handle: Handle): Handle {
    var used := handle.used + 1;
    handle.(used := used, refill := if handle.refill.Idle? && used * 2 >= handle.size then Asked else handle.refill)
  }

  function Arrived(handle: Handle): Handle
    requires handle.refill.Granted?
  {
    handle.(start := handle.refill.start, used := 0, refill := Idle)
  }

  predicate Enabled(s: State, step: Step) {
    match step
    case Load(h, _) => h !in s.handles
    case Take(h) => h in s.handles && s.handles[h].used < s.handles[h].size
    case Grant(h) => h in s.handles && s.handles[h].refill.Asked?
    case Arrive(h) => h in s.handles && s.handles[h].refill.Granted?
    case Fail(h) => h in s.handles && !s.handles[h].refill.Idle?
  }

  function Apply(s: State, step: Step): State
    requires Enabled(s, step)
  {
    match step
    case Load(h, size) =>
      s.(next := s.next + Block(size), handles := s.handles[h := Handle(s.next, size, 0, Idle, s.next)])
    case Take(h) =>
      var handle := s.handles[h];
      s.(handles := s.handles[h := Taken(handle)], issued := s.issued + [Issue(h, handle.start + handle.used)])
    case Grant(h) =>
      s.(next := s.next + Block(s.handles[h].size), handles := s.handles[h := s.handles[h].(refill := Granted(s.next))])
    case Arrive(h) => s.(handles := s.handles[h := Arrived(s.handles[h])])
    case Fail(h) => s.(handles := s.handles[h := s.handles[h].(refill := Idle)])
  }

  /** Positions a handle may still hand out, now or once its refill has arrived. */
  predicate Holds(handle: Handle, p: nat) {
    || handle.start + handle.used <= p < handle.start + handle.size
    || (handle.refill.Granted? && handle.refill.start <= p < handle.refill.start + handle.size)
  }

  predicate BlocksAreTaken(handle: Handle, next: nat) {
    && handle.used <= handle.size && handle.born <= handle.start && handle.start + handle.size <= next
    && (handle.refill.Granted? ==>
          handle.start + handle.size <= handle.refill.start && handle.refill.start + handle.size <= next)
  }

  /** What was issued lies behind the handle that issued it, and nobody holds it any more. */
  ghost predicate IsSpent(s: State, issue: Issue) {
    && issue.handle in s.handles
    && s.handles[issue.handle].born <= issue.position
    && issue.position < s.handles[issue.handle].start + s.handles[issue.handle].used
    && issue.position < s.next
    && forall h <- s.handles :: !Holds(s.handles[h], issue.position)
  }

  predicate InOrder(first: Issue, later: Issue) {
    && first.position != later.position
    && (first.handle == later.handle ==> first.position < later.position)
  }

  ghost predicate Inv(s: State) {
    && (forall h <- s.handles :: BlocksAreTaken(s.handles[h], s.next))
    && (forall h, k, p: nat | h in s.handles && k in s.handles && Holds(s.handles[h], p) && Holds(s.handles[k], p) :: h == k)
    && (forall i | 0 <= i < |s.issued| :: IsSpent(s, s.issued[i]))
    && (forall i, j | 0 <= i < j < |s.issued| :: InOrder(s.issued[i], s.issued[j]))
  }

  /** The one handle a step rewrites, and what it may come to hold: its own positions, or a block never issued. */
  ghost predicate Rewrites(s: State, s': State, h: nat) {
    && s.next <= s'.next
    && h in s'.handles
    && s'.handles == s.handles[h := s'.handles[h]]
    && BlocksAreTaken(s'.handles[h], s'.next)
    && (h in s.handles ==>
          && s.handles[h].born == s'.handles[h].born
          && s.handles[h].start + s.handles[h].used <= s'.handles[h].start + s'.handles[h].used)
    && forall p: nat | Holds(s'.handles[h], p) :: (h in s.handles && Holds(s.handles[h], p)) || s.next <= p
  }

  lemma RewritesKeepsHolders(s: State, s': State, h: nat)
    requires Inv(s) && Rewrites(s, s', h)
    ensures forall h <- s'.handles :: BlocksAreTaken(s'.handles[h], s'.next)
    ensures forall h, k, p: nat | h in s'.handles && k in s'.handles && Holds(s'.handles[h], p) && Holds(s'.handles[k], p) ::
              h == k
  {
  }

  lemma SpentStaysSpent(s: State, s': State, h: nat, issue: Issue)
    requires Inv(s) && Rewrites(s, s', h) && IsSpent(s, issue)
    ensures IsSpent(s', issue)
  {
  }

  lemma QuietStepKeepsInv(s: State, step: Step)
    requires Inv(s) && Enabled(s, step) && !step.Take?
    ensures Inv(Apply(s, step))
  {
    var s' := Apply(s, step);
    assert Rewrites(s, s', step.h);
    RewritesKeepsHolders(s, s', step.h);
    forall i | 0 <= i < |s.issued| ensures IsSpent(s', s.issued[i]) {
      SpentStaysSpent(s, s', step.h, s.issued[i]);
    }
  }

  lemma TakeKeepsInv(s: State, h: nat)
    requires Inv(s) && Enabled(s, Take(h))
    ensures Inv(Apply(s, Take(h)))
  {
    var s' := Apply(s, Take(h));
    var p := s.handles[h].start + s.handles[h].used;
    assert Holds(s.handles[h], p);
    assert Rewrites(s, s', h);
    RewritesKeepsHolders(s, s', h);
    forall i | 0 <= i < |s.issued| ensures IsSpent(s', s.issued[i]) && InOrder(s.issued[i], Issue(h, p)) {
      SpentStaysSpent(s, s', h, s.issued[i]);
    }
    assert IsSpent(s', Issue(h, p));
  }

  lemma StepKeepsInv(s: State, step: Step)
    requires Inv(s) && Enabled(s, step)
    ensures Inv(Apply(s, step))
  {
    if step.Take? {
      TakeKeepsInv(s, step.h);
    } else {
      QuietStepKeepsInv(s, step);
    }
  }

  ghost predicate Next(s: State, s': State) {
    exists step :: Enabled(s, step) && s' == Apply(s, step)
  }

  ghost predicate IsRun(run: seq<State>) {
    && |run| > 0 && Init(run[0])
    && forall i | 0 < i < |run| :: Linked(run, i)
  }

  ghost predicate Linked(run: seq<State>, i: nat)
    requires 0 < i < |run|
  {
    Next(run[i - 1], run[i])
  }

  lemma {:induction false} Reached(run: seq<State>, i: nat)
    requires IsRun(run) && i < |run|
    ensures Inv(run[i])
  {
    if i > 0 {
      Reached(run, i - 1);
      assert Linked(run, i);
      var step :| Enabled(run[i - 1], step) && run[i] == Apply(run[i - 1], step);
      StepKeepsInv(run[i - 1], step);
    }
  }

  /** No position of a session is handed out twice, and each handle hands out rising ones. */
  lemma PositionsAreUnique(run: seq<State>, n: nat, i: nat, j: nat)
    requires IsRun(run) && n < |run| && i < j < |run[n].issued|
    ensures run[n].issued[i].position != run[n].issued[j].position
    ensures run[n].issued[i].handle == run[n].issued[j].handle ==>
              run[n].issued[i].position < run[n].issued[j].position
  {
    Reached(run, n);
  }

  lemma StepKeepsHandles(s: State, step: Step)
    requires Enabled(s, step)
    ensures forall h <- s.handles :: h in Apply(s, step).handles && Apply(s, step).handles[h].born == s.handles[h].born
    ensures s.issued <= Apply(s, step).issued
  {
  }

  lemma {:induction false} HandlesStay(run: seq<State>, i: nat, j: nat, h: nat)
    requires IsRun(run) && i <= j < |run|
    ensures h in run[i].handles ==> h in run[j].handles && run[j].handles[h].born == run[i].handles[h].born
    ensures run[i].issued <= run[j].issued
    decreases j
  {
    if i < j {
      HandlesStay(run, i, j - 1, h);
      assert Linked(run, j);
      var step :| Enabled(run[j - 1], step) && run[j] == Apply(run[j - 1], step);
      StepKeepsHandles(run[j - 1], step);
    }
  }

  /**
    A reaction comes after what caused it: a handle loaded once a fact was
    numbered only ever hands out positions above that fact's.
   */
  lemma EffectsFollowCauses(run: seq<State>, i: nat, j: nat, cause: nat, effect: nat)
    requires IsRun(run) && i < j < |run| && cause < |run[i].issued| && effect < |run[j].issued|
    requires run[j].issued[effect].handle !in run[i].handles
    ensures run[i].issued[cause].position < run[j].issued[effect].position
    decreases j - i
  {
    Reached(run, i);
    Reached(run, j);
    Reached(run, i + 1);
    var h := run[j].issued[effect].handle;
    assert Linked(run, i + 1);
    var step :| Enabled(run[i], step) && run[i + 1] == Apply(run[i], step);
    StepKeepsHandles(run[i], step);
    if h in run[i + 1].handles {
      assert run[i + 1].handles[h].born == run[i].next;
      HandlesStay(run, i + 1, j, h);
    } else {
      assert i + 1 < j;
      assert run[i + 1].issued[cause] == run[i].issued[cause];
      EffectsFollowCauses(run, i + 1, j, cause, effect);
    }
  }

  /** The handle itself: `Next` answers at once, and says when it is time to ask for another block. */
  class Sequencer {
    var start: nat
    const size: nat
    var used: nat
    var refilling: bool

    constructor (start: nat, size: nat)
      ensures this.start == start && this.size == size && used == 0 && !refilling
    {
      this.start, this.size, used, refilling := start, size, 0, false;
    }

    /** What the handle looks like from outside, given what its refill is up to. */
    function Seen(refill: Refill, born: nat): Handle
      reads this
    {
      Handle(start, size, used, refill, born)
    }

    /** Running out is an error: the caller gets no position and nothing changes. */
    method Next() returns (position: Option<nat>, ask: bool)
      modifies this
      ensures position.None? <==> old(used) >= size
      ensures position.None? ==> !ask && Seen(Idle, 0) == old(Seen(Idle, 0)) && refilling == old(refilling)
      ensures position.Some? ==> position == Some(old(start + used)) && used == old(used) + 1 && start == old(start)
      ensures ask <==> position.Some? && !old(refilling) && used * 2 >= size
      ensures forall refill: Refill, born: nat | position.Some? && (refill.Idle? <==> !old(refilling)) ::
                Taken(old(Seen(refill, born))) == Seen(if ask then Asked else refill, born)
      ensures refilling == (old(refilling) || ask)
    {
      ask := false;
      if used >= size {
        return None, false;
      }
      position := Some(start + used);
      used := used + 1;
      if !refilling && used * 2 >= size {
        refilling := true;
        ask := true;
      }
    }

    /** The refill's answer, or its failure. */
    method RefillDone(answer: Option<nat>)
      requires refilling
      modifies this
      ensures !refilling
      ensures answer.Some? ==> forall born :: Arrived(old(Seen(Granted(answer.value), born))) == Seen(Idle, born)
      ensures answer.None? ==> start == old(start) && used == old(used)
      ensures answer.Some? ==> start == answer.value && used == 0
    {
      if answer.Some? {
        start := answer.value;
        used := 0;
      }
      refilling := false;
    }
  }
}
