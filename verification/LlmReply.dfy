/** What the reply to a stream holds, frame by frame: what was said, by messages and deltas alike. */
module LlmReply {
  import opened Wrappers
  import opened Sequences
  import opened Sorting
  import opened LlmStream

  /** What one frame says. A whole message goes before a delta beside it. */
  function SaidIn(frame: Choice): Slice {
    if frame.message.Some? then Slice(frame.message.value.content, frame.message.value.reasoning)
    else if frame.delta.Some? then Slice(frame.delta.value.content, frame.delta.value.reasoning)
    else Slice("", "")
  }

  function SaidInAll(frames: seq<Choice>): seq<Slice> {
    seq(|frames|, i requires 0 <= i < |frames| => SaidIn(frames[i]))
  }

  predicate CallsNothing(frame: Choice) {
    if frame.message.Some? then frame.message.value.calls == [] else frame.delta.Some? ==> frame.delta.value.parts == []
  }

  /** The last reason that was given, or none. */
  ghost predicate IsLastReason(frames: seq<Choice>, reason: string) {
    || (reason == "" && forall frame <- frames :: frame.finishReason == "")
    || (reason != "" && exists k | 0 <= k < |frames| :: IsReasonLast(frames, reason, k))
  }

  ghost predicate IsReasonLast(frames: seq<Choice>, reason: string, k: nat)
    requires k < |frames|
  {
    frames[k].finishReason == reason && forall j | k < j < |frames| :: frames[j].finishReason == ""
  }

  lemma OneMoreReason(init: seq<Choice>, last: Choice, reason: string)
    requires IsLastReason(init, reason)
    ensures IsLastReason(init + [last], if last.finishReason != "" then last.finishReason else reason)
  {
    var frames := init + [last];
    if last.finishReason != "" {
      assert IsReasonLast(frames, last.finishReason, |init|);
    } else if k :| 0 <= k < |init| && IsReasonLast(init, reason, k) {
      assert IsReasonLast(frames, reason, k);
    }
  }

  /** Content and reasoning are what all frames said, in order; the finish reason is the last one given. */
  lemma {:induction false} AnswerIsWhatWasSaid(frames: seq<Choice>)
    ensures Slice(Answered(frames).content, Answered(frames).reasoning) == Joined(SaidInAll(frames))
    ensures IsLastReason(frames, Answered(frames).finishReason)
  {
    if frames != [] {
      var init, last := frames[..|frames| - 1], frames[|frames| - 1];
      assert frames == init + [last];
      AnswerIsWhatWasSaid(init);
      assert SaidInAll(frames)[..|frames| - 1] == SaidInAll(init);
      OneMoreReason(init, last, Answered(init).finishReason);
    }
  }

  lemma {:induction false} PartsAdd(calls: seq<(int, ToolCall)>, parts: seq<Part>)
    ensures WithParts(calls, parts) == [] <==> calls == [] && parts == []
  {
    if parts != [] {
      PartsAdd(calls, parts[..|parts| - 1]);
    }
  }

  lemma {:induction false} WholeAdds(calls: seq<(int, ToolCall)>, whole: seq<ToolCall>)
    ensures WithWhole(calls, whole) == [] <==> calls == [] && whole == []
  {
    if whole != [] {
      WholeAdds(calls, whole[..|whole| - 1]);
    }
  }

  lemma {:induction false} NoCallsExactlyWhen(frames: seq<Choice>)
    ensures Answered(frames).calls == [] <==> forall frame <- frames :: CallsNothing(frame)
  {
    if frames != [] {
      var init, last := frames[..|frames| - 1], frames[|frames| - 1];
      assert frames == init + [last];
      NoCallsExactlyWhen(init);
      assert last in frames;
      if last.message.Some? {
        WholeAdds(Answered(init).calls, last.message.value.calls);
      } else if last.delta.Some? {
        PartsAdd(Answered(init).calls, last.delta.value.parts);
      }
    }
  }

  lemma {:induction false} JoinedIsNothing(slices: seq<Slice>)
    ensures Joined(slices) == Slice("", "") <==> forall slice <- slices :: slice == Slice("", "")
  {
    if slices != [] {
      var init, last := slices[..|slices| - 1], slices[|slices| - 1];
      assert slices == init + [last];
      JoinedIsNothing(init);
      assert last in slices && forall slice <- init :: slice in slices;
      assert |Joined(slices).content| == |Joined(init).content| + |last.content|;
      assert |Joined(slices).reasoning| == |Joined(init).reasoning| + |last.reasoning|;
    }
  }

  /** There is no reply exactly when no frame said anything: no content, no reasoning and no call. */
  lemma NoReplyExactlyWhen(json: string -> Option<Choice>, text: string, listening: bool)
    ensures ReplyTo(json, text, listening).None? <==>
              forall frame <- Frames(json, text) :: SaidIn(frame) == Slice("", "") && CallsNothing(frame)
  {
    var frames := Frames(json, text);
    AnswerIsWhatWasSaid(frames);
    NoCallsExactlyWhen(frames);
    var said := SaidInAll(frames);
    JoinedIsNothing(said);
    assert forall k | 0 <= k < |frames| :: said[k] == SaidIn(frames[k]) && frames[k] in frames && said[k] in said;
    forall frame <- frames | (forall slice <- said :: slice == Slice("", ""))
      ensures SaidIn(frame) == Slice("", "")
    {
      var k :| 0 <= k < |frames| && frames[k] == frame;
    }
    forall slice <- said | (forall frame <- frames :: SaidIn(frame) == Slice("", ""))
      ensures slice == Slice("", "")
    {
      var k :| 0 <= k < |said| && said[k] == slice;
    }
  }

  // ---- a server that does not stream ----

  lemma {:induction false} WholeIsItself(whole: seq<ToolCall>)
    ensures var calls := WithWhole([], whole);
            |calls| == |whole| && forall i | 0 <= i < |whole| :: calls[i] == (i, whole[i])
  {
    if whole != [] {
      WholeIsItself(whole[..|whole| - 1]);
    }
  }

  lemma {:induction false} SortedStays(entries: seq<(int, ToolCall)>)
    requires Sorted(EntryLeq, entries)
    ensures Sort(EntryLeq, entries) == entries
  {
    if entries != [] {
      SortedStays(entries[..|entries| - 1]);
    }
  }

  /** A whole message in a stream of nothing else is the reply, its calls in its own order. */
  lemma WholeMessageIsTheReply(frame: Choice)
    requires frame.message.Some?
    ensures var a, m := Answered([frame]), frame.message.value;
            && a.content == m.content && a.reasoning == m.reasoning && a.finishReason == frame.finishReason
            && InOrder(a.calls) == m.calls
  {
    assert [frame][..0] == [];
    WholeIsItself(frame.message.value.calls);
    var calls := WithWhole([], frame.message.value.calls);
    assert Answered([frame]) == Applied(Answered([]), frame);
    SortedStays(calls);
    CollectAll(Second, calls);
  }
}
