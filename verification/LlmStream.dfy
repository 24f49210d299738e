/** The streamed model reply: text cut into reads anywhere, decoded line by line, passed on in coalesced slices. */
module LlmStream {
  import opened Wrappers
  import opened Whitespace
  import opened Sequences
  import opened Sorting

  datatype ToolCall = ToolCall(id: string, name: string, arguments: string)

  /** A fragment of a call; what it leaves out keeps its earlier value, and no index means the first. */
  datatype Part = Part(index: Option<int>, id: Option<string>, name: Option<string>, arguments: Option<string>)

  datatype Delta = Delta(content: string, reasoning: string, parts: seq<Part>)

  datatype Message = Message(content: string, reasoning: string, calls: seq<ToolCall>)

  datatype Choice = Choice(finishReason: string, message: Option<Message>, delta: Option<Delta>)

  /** Calls by index, in the order the indices were first seen. */
  datatype Answer = Answer(content: string, reasoning: string, finishReason: string, calls: seq<(int, ToolCall)>)

  datatype Slice = Slice(content: string, reasoning: string)

  datatype Reply = Reply(content: string, reasoning: string, calls: seq<ToolCall>, finishReason: string, streamed: bool)

  // ---- lines ----

  /** One more character at the front: a newline opens an empty piece, anything else joins the first. */
  function Prepend(c: char, lines: seq<string>): (longer: seq<string>)
    requires lines != []
    ensures longer != []
  {
    if c == '\n' then [""] + lines else [[c] + lines[0]] + lines[1..]
  }

  /** The pieces between newlines; the last one has no newline after it. */
  function Split(text: string): (lines: seq<string>)
    ensures lines != []
  {
    if text == "" then [""] else Prepend(text[0], Split(text[1..]))
  }

  function Complete(text: string): seq<string> {
    Split(text)[..|Split(text)| - 1]
  }

  function Partial(text: string): string {
    Split(text)[|Split(text)| - 1]
  }

  function Unsplit(lines: seq<string>): string {
    if |lines| == 0 then "" else if |lines| == 1 then lines[0] else lines[0] + "\n" + Unsplit(lines[1..])
  }

  /** Splitting loses nothing and leaves no newline inside a piece. */
  lemma {:induction false} SplitIsExact(text: string)
    ensures Unsplit(Split(text)) == text
    ensures forall line <- Split(text) :: '\n' !in line
  {
    if text != "" {
      SplitIsExact(text[1..]);
      var rest := Split(text[1..]);
      if text[0] == '\n' {
        assert Split(text)[1..] == rest;
        assert text == "" + "\n" + text[1..];
      } else {
        assert Split(text)[1..] == rest[1..];
        assert text == [text[0]] + text[1..];
        if |rest| > 1 {
          assert ([text[0]] + rest[0]) + "\n" + Unsplit(rest[1..]) == [text[0]] + (rest[0] + "\n" + Unsplit(rest[1..]));
        }
      }
    }
  }

  lemma PrependLater(c: char, first: seq<string>, rest: seq<string>)
    requires first != []
    ensures Prepend(c, first + rest) == Prepend(c, first) + rest
  {
  }

  lemma PrependInit(c: char, lines: seq<string>)
    requires |lines| > 1 || (c == '\n' && lines != [])
    ensures var longer := Prepend(c, lines);
            && longer[..|longer| - 1] == (if |lines| > 1 then Prepend(c, lines[..|lines| - 1]) else [""])
            && longer[|longer| - 1] == lines[|lines| - 1]
  {
  }

  /** The text so far need not be kept: its partial line is all that later text can change. */
  lemma {:induction false} SplitResumes(before: string, more: string)
    ensures Split(before + more) == Complete(before) + Split(Partial(before) + more)
  {
    if before == "" {
      assert before + more == more == Partial(before) + more;
    } else {
      var c, rest := before[0], Split(before[1..]);
      assert (before + more)[1..] == before[1..] + more;
      SplitResumes(before[1..], more);
      if |rest| > 1 {
        PrependInit(c, rest);
        PrependLater(c, Complete(before[1..]), Split(Partial(before[1..]) + more));
      } else if c == '\n' {
        PrependInit(c, rest);
      } else {
        assert Partial(before) == [c] + rest[0];
        assert (Partial(before) + more)[1..] == rest[0] + more;
      }
    }
  }

  lemma ReadResumes(before: string, more: string)
    ensures Complete(before + more) == Complete(before) + Complete(Partial(before) + more)
    ensures Partial(before + more) == Partial(Partial(before) + more)
  {
    SplitResumes(before, more);
  }

  // ---- frames ----

  /** A line's choice, if it is a data line, not the end mark, and its payload parses. */
  function Frame(json: string -> Option<Choice>): string -> Option<Choice> {
    (raw: string) =>
      var line := Trim(raw);
      if !("data:" <= line) then None
      else
        var data := Trim(line[5..]);
        if data == "" || data == "[DONE]" then None else json(data)
  }

  /**
    A payload on a data line is the payload parsed, with white space anywhere around
    it and whichever way the line ends; an empty one and the end mark say nothing.
   */
  lemma DataLineReads(json: string -> Option<Choice>, before: string, gap: string, payload: string, after: string)
    requires IsBlank(before) && IsBlank(gap) && IsBlank(after) && payload == Trim(payload)
    ensures Frame(json)(before + ("data:" + gap + payload) + after)
         == if payload == "" || payload == "[DONE]" then None else json(payload)
  {
    TrimPads(before, "data:" + gap + payload, after);
    if payload == "" {
      DataLineIsEmpty(gap);
    } else {
      DataLineIsKept(gap, payload);
    }
  }

  lemma DataLineIsEmpty(gap: string)
    requires IsBlank(gap)
    ensures Trim("data:" + gap + "") == "data:" && Trim("data:"[5..]) == ""
  {
    assert "data:" + gap + "" == "" + "data:" + gap && "data:"[0] == 'd' && "data:"[4] == ':';
    TrimFinds("", "data:", gap);
  }

  lemma DataLineIsKept(gap: string, payload: string)
    requires IsBlank(gap) && payload == Trim(payload) && payload != ""
    ensures Trim("data:" + gap + payload) == "data:" + gap + payload
    ensures Trim(("data:" + gap + payload)[5..]) == payload
  {
    var line := "data:" + gap + payload;
    var b, a := TrimIsTheMiddle(payload);
    assert line[0] == 'd' && line[|line| - 1] == payload[|payload| - 1];
    TrimFinds("", line, "");
    assert "" + line + "" == line && line[5..] == gap + payload + "";
    TrimFinds(gap, payload, "");
  }

  /** A line that starts with anything else says nothing. */
  lemma OtherLinesSayNothing(json: string -> Option<Choice>, before: string, line: string)
    requires IsBlank(before) && line != "" && !IsSpace(line[0]) && !("data:" <= line)
    ensures Frame(json)(before + line).None?
  {
    assert before + line + "" == before + line;
    TrimPads(before, line, "");
    var b, a := TrimIsTheMiddle(line);
  }

  function Frames(json: string -> Option<Choice>, text: string): seq<Choice> {
    Collect(Frame(json), Complete(text))
  }

  lemma FramesResume(json: string -> Option<Choice>, before: string, more: string)
    ensures Frames(json, before + more) == Frames(json, before) + Frames(json, Partial(before) + more)
  {
    ReadResumes(before, more);
    CollectSplits(Frame(json), Complete(before), Complete(Partial(before) + more));
  }

  /** Complete lines of the buffer add their frames; its partial line is the text's. */
  lemma TakeResumes(json: string -> Option<Choice>, before: string, more: string, lines: seq<string>)
    requires lines == Split(Partial(before) + more)
    ensures Frames(json, before) + Collect(Frame(json), lines[..|lines| - 1]) == Frames(json, before + more)
    ensures lines[|lines| - 1] == Partial(before + more)
  {
    FramesResume(json, before, more);
    ReadResumes(before, more);
  }

  // ---- what the frames say ----

  function IndexOf(calls: seq<(int, ToolCall)>, index: int): (i: nat)
    ensures i <= |calls|
    ensures i < |calls| ==> calls[i].0 == index
    ensures forall j | 0 <= j < i :: calls[j].0 != index
  {
    if calls == [] then 0 else if calls[0].0 == index then 0 else 1 + IndexOf(calls[1..], index)
  }

  function Set(calls: seq<(int, ToolCall)>, index: int, call: ToolCall): seq<(int, ToolCall)> {
    var i := IndexOf(calls, index);
    if i < |calls| then calls[i := (index, call)] else calls + [(index, call)]
  }

  function Get(calls: seq<(int, ToolCall)>, index: int): ToolCall {
    var i := IndexOf(calls, index);
    if i < |calls| then calls[i].1 else ToolCall("", "", "")
  }

  function WithPart(calls: seq<(int, ToolCall)>, part: Part): seq<(int, ToolCall)> {
    var index := part.index.GetOr(0);
    var existing := Get(calls, index);
    Set(calls, index, ToolCall(part.id.GetOr(existing.id), part.name.GetOr(existing.name),
                               existing.arguments + part.arguments.GetOr("")))
  }

  function WithParts(calls: seq<(int, ToolCall)>, parts: seq<Part>): seq<(int, ToolCall)> {
    if parts == [] then calls else WithPart(WithParts(calls, parts[..|parts| - 1]), parts[|parts| - 1])
  }

  function WithWhole(calls: seq<(int, ToolCall)>, whole: seq<ToolCall>): seq<(int, ToolCall)> {
    if whole == [] then calls
    else Set(WithWhole(calls, whole[..|whole| - 1]), |whole| - 1, whole[|whole| - 1])
  }

  function Applied(a: Answer, choice: Choice): Answer {
    var a := if choice.finishReason != "" then a.(finishReason := choice.finishReason) else a;
    match (choice.message, choice.delta)
    case (Some(m), _) =>
      a.(content := a.content + m.content, reasoning := a.reasoning + m.reasoning, calls := WithWhole(a.calls, m.calls))
    case (None, Some(d)) =>
      a.(content := a.content + d.content, reasoning := a.reasoning + d.reasoning, calls := WithParts(a.calls, d.parts))
    case (None, None) => a
  }

  function Answered(frames: seq<Choice>): Answer {
    if frames == [] then Answer("", "", "", [])
    else Applied(Answered(frames[..|frames| - 1]), frames[|frames| - 1])
  }

  /** What the deltas said, and no whole message. */
  function Spoken(frames: seq<Choice>): Slice {
    if frames == [] then Slice("", "")
    else
      var before, last := Spoken(frames[..|frames| - 1]), frames[|frames| - 1];
      if last.message.None? && last.delta.Some? then
        Slice(before.content + last.delta.value.content, before.reasoning + last.delta.value.reasoning)
      else before
  }

  /** Slices put end to end. */
  function Joined(slices: seq<Slice>): Slice {
    if slices == [] then Slice("", "")
    else
      var before, last := Joined(slices[..|slices| - 1]), slices[|slices| - 1];
      Slice(before.content + last.content, before.reasoning + last.reasoning)
  }

  ghost predicate DeltaOnly(frames: seq<Choice>) {
    forall frame <- frames :: frame.message.None?
  }

  ghost predicate MessagesSayNothing(frames: seq<Choice>) {
    forall frame <- frames | frame.message.Some? :: frame.message.value.content == "" && frame.message.value.reasoning == ""
  }

  lemma {:induction false} MessagesOnlyAdd(frames: seq<Choice>)
    ensures |Spoken(frames).content| <= |Answered(frames).content|
    ensures |Spoken(frames).reasoning| <= |Answered(frames).reasoning|
    ensures !MessagesSayNothing(frames) ==>
              |Spoken(frames).content| + |Spoken(frames).reasoning| < |Answered(frames).content| + |Answered(frames).reasoning|
  {
    if frames != [] {
      var init, last := frames[..|frames| - 1], frames[|frames| - 1];
      assert frames == init + [last];
      MessagesOnlyAdd(init);
    }
  }

  /** What is passed on is the whole reply exactly when no whole message said anything, as in a stream of deltas. */
  lemma {:induction false} PassedOnIsTheReplyExactlyWhen(frames: seq<Choice>)
    ensures Spoken(frames) == Slice(Answered(frames).content, Answered(frames).reasoning) <==> MessagesSayNothing(frames)
  {
    MessagesOnlyAdd(frames);
    if frames != [] && MessagesSayNothing(frames) {
      var init, last := frames[..|frames| - 1], frames[|frames| - 1];
      assert frames == init + [last];
      PassedOnIsTheReplyExactlyWhen(init);
    }
  }

  // ---- fragments of calls ----

  function PartsOf(frames: seq<Choice>): seq<Part> {
    if frames == [] then []
    else
      var last := frames[|frames| - 1];
      PartsOf(frames[..|frames| - 1])
      + if last.message.None? && last.delta.Some? then last.delta.value.parts else []
  }

  function ArgumentsAt(parts: seq<Part>, index: int): string {
    if parts == [] then ""
    else
      var last := parts[|parts| - 1];
      ArgumentsAt(parts[..|parts| - 1], index) + if last.index.GetOr(0) == index then last.arguments.GetOr("") else ""
  }

  predicate Names(part: Part, index: int) {
    part.index.GetOr(0) == index
  }

  function IdIn(part: Part): Option<string> {
    part.id
  }

  function NameIn(part: Part): Option<string> {
    part.name
  }

  /** What the last part that names the index and has the field says, or nothing if none has it. */
  ghost predicate IsLastGiven(parts: seq<Part>, index: int, field: Part -> Option<string>, value: string) {
    || (value == "" && forall part <- parts | Names(part, index) :: field(part).None?)
    || exists k | 0 <= k < |parts| :: IsGivenLast(parts, index, field, value, k)
  }

  ghost predicate IsGivenLast(parts: seq<Part>, index: int, field: Part -> Option<string>, value: string, k: nat)
    requires k < |parts|
  {
    && Names(parts[k], index) && field(parts[k]) == Some(value)
    && forall j | k < j < |parts| && Names(parts[j], index) :: field(parts[j]).None?
  }

  lemma OneMoreGiven(parts: seq<Part>, part: Part, index: int, field: Part -> Option<string>, value: string)
    requires IsLastGiven(parts, index, field, value)
    ensures IsLastGiven(parts + [part], index, field, if Names(part, index) then field(part).GetOr(value) else value)
  {
    var longer := parts + [part];
    if Names(part, index) && field(part).Some? {
      assert IsGivenLast(longer, index, field, field(part).value, |parts|);
    } else if k :| 0 <= k < |parts| && IsGivenLast(parts, index, field, value, k) {
      assert IsGivenLast(longer, index, field, value, k);
    }
  }

  /**
    One entry an index some part names: its arguments are that index's fragments
    in order, its id and its name the last ones given for it.
   */
  ghost predicate Gathers(calls: seq<(int, ToolCall)>, parts: seq<Part>) {
    && (forall i, j | 0 <= i < j < |calls| :: calls[i].0 != calls[j].0)
    && (forall index :: IndexOf(calls, index) < |calls| <==> exists part <- parts :: Names(part, index))
    && (forall index :: GathersAt(Get(calls, index), parts, index))
  }

  ghost predicate GathersAt(call: ToolCall, parts: seq<Part>, index: int) {
    && call.arguments == ArgumentsAt(parts, index)
    && IsLastGiven(parts, index, IdIn, call.id) && IsLastGiven(parts, index, NameIn, call.name)
  }

  lemma SetGets(calls: seq<(int, ToolCall)>, index: int, call: ToolCall, other: int)
    ensures Get(Set(calls, index, call), other) == if other == index then call else Get(calls, other)
    ensures IndexOf(Set(calls, index, call), other) < |Set(calls, index, call)|
            <==> other == index || IndexOf(calls, other) < |calls|
  {
    var after := Set(calls, index, call);
    var i, j, k := IndexOf(calls, index), IndexOf(calls, other), IndexOf(after, other);
    assert forall m | 0 <= m < |calls| :: after[m].0 == calls[m].0;
    assert after[i] == (index, call);
    if j < |calls| {
      assert after[j].0 == other;
    }
  }

  lemma PartGathers(calls: seq<(int, ToolCall)>, parts: seq<Part>, part: Part)
    requires Gathers(calls, parts)
    ensures Gathers(WithPart(calls, part), parts + [part])
  {
    var after := WithPart(calls, part);
    forall index
      ensures IndexOf(after, index) < |after| <==> exists p <- parts + [part] :: Names(p, index)
      ensures GathersAt(Get(after, index), parts + [part], index)
    {
      PartAt(calls, parts, part, index);
      assert part in parts + [part] && forall p <- parts :: p in parts + [part];
    }
  }

  /** One fragment adds to its own index and to no other. */
  lemma PartAt(calls: seq<(int, ToolCall)>, parts: seq<Part>, part: Part, index: int)
    requires GathersAt(Get(calls, index), parts, index)
    ensures var after := WithPart(calls, part);
            && GathersAt(Get(after, index), parts + [part], index)
            && (IndexOf(after, index) < |after| <==> Names(part, index) || IndexOf(calls, index) < |calls|)
  {
    var at, existing := part.index.GetOr(0), Get(calls, part.index.GetOr(0));
    var call := ToolCall(part.id.GetOr(existing.id), part.name.GetOr(existing.name),
                         existing.arguments + part.arguments.GetOr(""));
    SetGets(calls, at, call, index);
    assert (parts + [part])[..|parts|] == parts;
    OneMoreGiven(parts, part, index, IdIn, Get(calls, index).id);
    OneMoreGiven(parts, part, index, NameIn, Get(calls, index).name);
  }

  lemma {:induction false} PartsGather(calls: seq<(int, ToolCall)>, parts: seq<Part>, more: seq<Part>)
    requires Gathers(calls, parts)
    ensures Gathers(WithParts(calls, more), parts + more)
  {
    if more == [] {
      assert parts + more == parts;
    } else {
      var init, last := more[..|more| - 1], more[|more| - 1];
      PartsGather(calls, parts, init);
      PartGathers(WithParts(calls, init), parts + init, last);
      assert parts + more == parts + init + [last];
    }
  }

  /** Fragments interleaved any way across indices are put together index by index. */
  lemma {:induction false} CallsAreGathered(frames: seq<Choice>)
    requires DeltaOnly(frames)
    ensures Gathers(Answered(frames).calls, PartsOf(frames))
  {
    if frames != [] {
      var init, last := frames[..|frames| - 1], frames[|frames| - 1];
      assert frames == init + [last];
      CallsAreGathered(init);
      assert last in frames;
      if last.delta.Some? {
        PartsGather(Answered(init).calls, PartsOf(init), last.delta.value.parts);
      } else {
        assert PartsOf(frames) == PartsOf(init);
      }
    }
  }

  // ---- the reader ----

  predicate EntryLeq(a: (int, ToolCall), b: (int, ToolCall)) {
    a.0 <= b.0
  }

  function Second(entry: (int, ToolCall)): Option<ToolCall> {
    Some(entry.1)
  }

  function InOrder(calls: seq<(int, ToolCall)>): seq<ToolCall> {
    Collect(Second, Sort(EntryLeq, calls))
  }

  function First(entry: (int, ToolCall)): Option<int> {
    Some(entry.0)
  }

  predicate EntryBefore(a: (int, ToolCall), b: (int, ToolCall)) {
    a.0 < b.0
  }

  /** A reply lists the gathered calls by rising index, each once, and leaves none out. */
  lemma CallsComeInOrder(calls: seq<(int, ToolCall)>, parts: seq<Part>) returns (order: seq<(int, ToolCall)>)
    requires Gathers(calls, parts)
    ensures multiset(order) == multiset(calls) && Sorted(EntryBefore, order)
    ensures |InOrder(calls)| == |order| && forall i | 0 <= i < |order| :: InOrder(calls)[i] == order[i].1
  {
    order := Sort(EntryLeq, calls);
    SortSorts(EntryLeq, calls);
    CollectAll(Second, order);
    CollectAll(First, calls);
    CollectAll(First, order);
    CollectPermutes(First, calls, order);
    NoDupsPermutes(Collect(First, calls), Collect(First, order));
    forall i, k | 0 <= i < k < |order|
      ensures EntryBefore(order[i], order[k])
    {
      assert EntryLeq(order[i], order[k]) && Collect(First, order)[i] != Collect(First, order)[k];
    }
  }

  /** The reply to a stream with this text: none when it said nothing at all. */
  function ReplyTo(json: string -> Option<Choice>, text: string, listening: bool): Option<Reply> {
    var frames := Frames(json, text);
    var a := Answered(frames);
    if a.content == "" && a.reasoning == "" && a.calls == [] then None
    else Some(Reply(a.content, a.reasoning, InOrder(a.calls), a.finishReason, listening && Spoken(frames) != Slice("", "")))
  }

  /** One read: its text, and the clock when it is asked and when it is kept. */
  datatype Chunk = Chunk(text: string, now: int, later: int)

  function TextOf(chunks: seq<Chunk>): string {
    if chunks == [] then "" else TextOf(chunks[..|chunks| - 1]) + chunks[|chunks| - 1].text
  }

  class ChatStream {
    const json: string -> Option<Choice>
    const flushMs: int
    const listening: bool
    var content: string
    var reasoning: string
    var finishReason: string
    var streamed: bool
    var calls: seq<(int, ToolCall)>
    var pendingContent: string
    var pendingReasoning: string
    var lastFlush: int
    var buffer: string
    /** What was passed on. */
    var emitted: seq<Slice>

    constructor (json: string -> Option<Choice>, flushMs: int, listening: bool, now: int)
      ensures this.json == json && this.listening == listening && Heard("") && emitted == []
    {
      this.json, this.flushMs, this.listening := json, flushMs, listening;
      content, reasoning, finishReason, streamed, calls := "", "", "", false, [];
      pendingContent, pendingReasoning, lastFlush, buffer, emitted := "", "", now, "", [];
    }

    function Value(): Answer
      reads `content, `reasoning, `finishReason, `calls
    {
      Answer(content, reasoning, finishReason, calls)
    }

    /** What was passed on and what waits are together what the deltas said. */
    ghost predicate PassesOn(spoken: Slice)
      reads `streamed, `emitted, `pendingContent, `pendingReasoning
    {
      && streamed == (emitted != [])
      && (forall slice <- emitted :: slice != Slice("", ""))
      && (listening ==> spoken == Joined(emitted + [Slice(pendingContent, pendingReasoning)]))
      && (!listening ==> emitted == [])
    }

    ghost predicate Holds(rest: string, answer: Answer, spoken: Slice)
      reads this
    {
      buffer == rest && Value() == answer && PassesOn(spoken)
    }

    /** The state after reading a text, however it was cut. */
    ghost predicate Heard(text: string)
      reads this
    {
      Holds(Partial(text), Answered(Frames(json, text)), Spoken(Frames(json, text)))
    }

    method Flush(force: bool, now: int, later: int, ghost rest: string, ghost answer: Answer, ghost spoken: Slice)
      requires Holds(rest, answer, spoken)
      modifies this`pendingContent, this`pendingReasoning, this`streamed, this`lastFlush, this`emitted
      ensures Holds(rest, answer, spoken)
      ensures var slice, due := old(Slice(pendingContent, pendingReasoning)), force || now - old(lastFlush) >= flushMs;
              if slice != Slice("", "") && due then
                && pendingContent == "" && pendingReasoning == "" && lastFlush == later
                && emitted == old(emitted) + if listening then [slice] else []
              else
                && Slice(pendingContent, pendingReasoning) == slice && lastFlush == old(lastFlush) && emitted == old(emitted)
    {
      if pendingContent == "" && pendingReasoning == "" {
        return;
      }
      if !force && now - lastFlush < flushMs {
        return;
      }
      PassOn(rest, answer, spoken);
      lastFlush := later;
    }

    /** Hands what waits to the listener, if there is one. */
    method PassOn(ghost rest: string, ghost answer: Answer, ghost spoken: Slice)
      requires Holds(rest, answer, spoken) && Slice(pendingContent, pendingReasoning) != Slice("", "")
      modifies this`pendingContent, this`pendingReasoning, this`streamed, this`emitted
      ensures Holds(rest, answer, spoken) && pendingContent == "" && pendingReasoning == ""
      ensures emitted == old(emitted) + if listening then [old(Slice(pendingContent, pendingReasoning))] else []
    {
      if listening {
        EmptySlice(emitted + [Slice(pendingContent, pendingReasoning)]);
        emitted := emitted + [Slice(pendingContent, pendingReasoning)];
        streamed := true;
      }
      pendingContent, pendingReasoning := "", "";
    }

    method TakeMessage(whole: Message)
      modifies this`content, this`reasoning, this`calls
      ensures content == old(content) + whole.content && reasoning == old(reasoning) + whole.reasoning
      ensures calls == WithWhole(old(calls), whole.calls)
    {
      content, reasoning := content + whole.content, reasoning + whole.reasoning;
      for i := 0 to |whole.calls|
        invariant calls == WithWhole(old(calls), whole.calls[..i])
        invariant content == old(content) + whole.content && reasoning == old(reasoning) + whole.reasoning
      {
        assert whole.calls[..i + 1][..i] == whole.calls[..i];
        calls := Set(calls, i, whole.calls[i]);
      }
      assert whole.calls[..|whole.calls|] == whole.calls;
    }

    method TakeParts(parts: seq<Part>)
      modifies this`calls
      ensures calls == WithParts(old(calls), parts)
    {
      for i := 0 to |parts|
        invariant calls == WithParts(old(calls), parts[..i])
      {
        assert parts[..i + 1][..i] == parts[..i];
        calls := WithPart(calls, parts[i]);
      }
      assert parts[..|parts|] == parts;
    }

    method ApplyChoice(choice: Choice, ghost frames: seq<Choice>)
      requires Value() == Answered(frames) && PassesOn(Spoken(frames))
      modifies this`content, this`reasoning, this`finishReason, this`calls, this`pendingContent, this`pendingReasoning
      ensures Value() == Answered(frames + [choice]) && PassesOn(Spoken(frames + [choice]))
    {
      OneMoreFrame(frames, choice);
      if choice.finishReason != "" {
        finishReason := choice.finishReason;
      }
      if choice.message.Some? {
        TakeMessage(choice.message.value);
      } else if choice.delta.Some? {
        TakeDelta(choice.delta.value, Spoken(frames));
      }
    }

    /** Deltas are kept for the reply and gathered for the listener. */
    method TakeDelta(delta: Delta, ghost spoken: Slice)
      requires PassesOn(spoken)
      modifies this`content, this`reasoning, this`calls, this`pendingContent, this`pendingReasoning
      ensures content == old(content) + delta.content && reasoning == old(reasoning) + delta.reasoning
      ensures calls == WithParts(old(calls), delta.parts)
      ensures PassesOn(Slice(spoken.content + delta.content, spoken.reasoning + delta.reasoning))
    {
      Waits(emitted, Slice(pendingContent, pendingReasoning), Slice(delta.content, delta.reasoning));
      content, pendingContent := content + delta.content, pendingContent + delta.content;
      reasoning, pendingReasoning := reasoning + delta.reasoning, pendingReasoning + delta.reasoning;
      TakeParts(delta.parts);
    }

    method TakeLine(raw: string, ghost frames: seq<Choice>)
      requires Value() == Answered(frames) && PassesOn(Spoken(frames))
      modifies this`content, this`reasoning, this`finishReason, this`calls, this`pendingContent, this`pendingReasoning
      ensures var more := if Frame(json)(raw).Some? then frames + [Frame(json)(raw).value] else frames;
              Value() == Answered(more) && PassesOn(Spoken(more))
    {
      var choice := Frame(json)(raw);
      if choice.Some? {
        ApplyChoice(choice.value, frames);
      }
    }

    method TakeLines(lines: seq<string>, ghost frames: seq<Choice>)
      requires Value() == Answered(frames) && PassesOn(Spoken(frames))
      modifies this`content, this`reasoning, this`finishReason, this`calls, this`pendingContent, this`pendingReasoning
      ensures var more := frames + Collect(Frame(json), lines); Value() == Answered(more) && PassesOn(Spoken(more))
    {
      ghost var taken := frames;
      for i := 0 to |lines|
        invariant taken == frames + Collect(Frame(json), lines[..i])
        invariant Value() == Answered(taken) && PassesOn(Spoken(taken))
      {
        TakeLine(lines[i], taken);
        OneMoreLine(json, frames, lines, i);
        taken := frames + Collect(Frame(json), lines[..i + 1]);
      }
      assert lines[..|lines|] == lines;
    }

    /** One read of the loop: the complete lines are applied, the partial one is kept. */
    method Take(chunk: Chunk, ghost text: string)
      requires Heard(text)
      modifies this
      ensures Heard(text + chunk.text) && old(emitted) <= emitted
    {
      ghost var rest, answer, spoken := TakeText(chunk.text, text);
      Flush(false, chunk.now, chunk.later, rest, answer, spoken);
    }

    method TakeText(more: string, ghost text: string) returns (ghost rest: string, ghost answer: Answer, ghost spoken: Slice)
      requires Heard(text)
      modifies this
      ensures emitted == old(emitted) && Holds(rest, answer, spoken)
      ensures var frames := Frames(json, text + more);
              rest == Partial(text + more) && answer == Answered(frames) && spoken == Spoken(frames)
    {
      var lines := Split(buffer + more);
      TakeResumes(json, text, more, lines);
      buffer := lines[|lines| - 1];
      TakeLines(lines[..|lines| - 1], Frames(json, text));
      ghost var frames := Frames(json, text + more);
      rest, answer, spoken := buffer, Answered(frames), Spoken(frames);
    }

    /** What is left goes out at the end, whatever the clock says; an incomplete last line does not count. */
    method Finish(now: int, ghost text: string) returns (reply: Option<Reply>)
      requires Heard(text)
      modifies this
      ensures Heard(text) && reply == ReplyTo(json, text, listening)
      ensures listening ==> Joined(emitted) == Spoken(Frames(json, text))
      ensures reply.Some? ==> (reply.value.streamed <==> emitted != [])
    {
      Flush(true, now, now, Partial(text), Answered(Frames(json, text)), Spoken(Frames(json, text)));
      EmptySlice(emitted);
      assert pendingContent == "" && pendingReasoning == "";
      if listening && emitted != [] {
        JoinedSays(emitted);
      }
      if content == "" && reasoning == "" && calls == [] {
        return None;
      }
      return Some(Reply(content, reasoning, InOrder(calls), finishReason, streamed));
    }
  }

  lemma {:induction false} JoinedSays(slices: seq<Slice>)
    requires slices != [] && forall slice <- slices :: slice != Slice("", "")
    ensures Joined(slices) != Slice("", "")
  {
    var last := slices[|slices| - 1];
    assert last in slices;
  }

  /**
    The whole call. The reply and the text passed on depend on the stream's
    text alone: not on where it was cut, nor on any clock.
   */
  method Chat(json: string -> Option<Choice>, chunks: seq<Chunk>, flushMs: int, listening: bool, start: int, end: int)
    returns (reply: Option<Reply>, emitted: seq<Slice>)
    ensures reply == ReplyTo(json, TextOf(chunks), listening)
    ensures listening ==> Joined(emitted) == Spoken(Frames(json, TextOf(chunks)))
    ensures !listening ==> emitted == []
    ensures reply.Some? ==> (reply.value.streamed <==> emitted != [])
    ensures forall slice <- emitted :: slice != Slice("", "")
  {
    var stream := new ChatStream(json, flushMs, listening, start);
    for i := 0 to |chunks|
      invariant stream.Heard(TextOf(chunks[..i]))
    {
      assert chunks[..i + 1][..i] == chunks[..i];
      stream.Take(chunks[i], TextOf(chunks[..i]));
    }
    assert chunks[..|chunks|] == chunks;
    reply := stream.Finish(end, TextOf(chunks));
    emitted := stream.emitted;
  }

  lemma OneMoreLine(json: string -> Option<Choice>, frames: seq<Choice>, lines: seq<string>, i: nat)
    requires i < |lines|
    ensures var taken := frames + Collect(Frame(json), lines[..i]);
            frames + Collect(Frame(json), lines[..i + 1])
            == if Frame(json)(lines[i]).Some? then taken + [Frame(json)(lines[i]).value] else taken
  {
    assert lines[..i + 1] == lines[..i] + [lines[i]];
    CollectNext(Frame(json), lines[..i], lines[i]);
  }

  lemma OneMoreFrame(frames: seq<Choice>, choice: Choice)
    ensures Answered(frames + [choice]) == Applied(Answered(frames), choice)
    ensures Spoken(frames + [choice])
         == if choice.message.None? && choice.delta.Some? then
              Slice(Spoken(frames).content + choice.delta.value.content, Spoken(frames).reasoning + choice.delta.value.reasoning)
            else Spoken(frames)
  {
    assert (frames + [choice])[..|frames|] == frames;
  }

  lemma EmptySlice(slices: seq<Slice>)
    ensures Joined(slices + [Slice("", "")]) == Joined(slices)
  {
    assert (slices + [Slice("", "")])[..|slices|] == slices;
  }

  lemma Waits(emitted: seq<Slice>, pending: Slice, more: Slice)
    ensures var before := Joined(emitted + [pending]);
            Joined(emitted + [Slice(pending.content + more.content, pending.reasoning + more.reasoning)])
            == Slice(before.content + more.content, before.reasoning + more.reasoning)
  {
    var after := Slice(pending.content + more.content, pending.reasoning + more.reasoning);
    assert (emitted + [pending])[..|emitted|] == emitted && (emitted + [after])[..|emitted|] == emitted;
    var j := Joined(emitted);
    assert j.content + (pending.content + more.content) == (j.content + pending.content) + more.content;
    assert j.reasoning + (pending.reasoning + more.reasoning) == (j.reasoning + pending.reasoning) + more.reasoning;
  }
}
