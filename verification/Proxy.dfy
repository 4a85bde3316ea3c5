/** Rebuilding a streamed answer from lines of text that come in any chunks: packages/agent/src/proxy.ts. */
module ProxyStreams {
  import opened Common

  datatype ProxyEvent =
    | Start
    | TextStart(index: nat)
    | TextDelta(index: nat, delta: string)
    | TextEnd(index: nat, signature: string)
    | ThinkingStart(index: nat)
    | ThinkingDelta(index: nat, delta: string)
    | ThinkingEnd(index: nat, signature: string)
    | ToolCallStart(index: nat, id: string, name: string)
    | ToolCallDelta(index: nat, delta: string)
    | ToolCallEnd(index: nat)
    | Finish(reason: string)
    | Failure(reason: string, message: string)

  /** A tool call's arguments are parsed from the JSON that had come by its last delta. */
  datatype Block =
    | Text(text: string, signature: string)
    | Thinking(thinking: string, thinkingSignature: string)
    | ToolCall(id: string, name: string, partialJson: Option<string>, parsed: Option<string>)

  /** The message as rebuilt so far; its content may have holes. */
  datatype Partial = Partial(content: map<nat, Block>, stopReason: string, errorMessage: string)

  const EMPTY: Partial := Partial(map[], "stop", "")
  const FRESH: Run := Run(EMPTY, [], None)

  /** What is passed on, if anything, or the exception. */
  datatype Reaction = Push(event: ProxyEvent) | Ignore | Throw(message: string)

  function Received(kind: string, wanted: string): Reaction {
    Throw("Received " + kind + " for non-" + wanted + " content")
  }

  function SetBlock(p: Partial, i: nat, b: Block): Partial { p.(content := p.content[i := b]) }

  // ----- processProxyEvent

  function StepBlock(p: Partial, e: ProxyEvent): (Partial, Reaction) {
    match e
    case Start => (p, Push(e))
    case TextStart(i) => (SetBlock(p, i, Text("", "")), Push(e))
    case TextDelta(i, d) =>
      if i in p.content && p.content[i].Text? then
        (SetBlock(p, i, p.content[i].(text := p.content[i].text + d)), Push(e))
      else (p, Received("text_delta", "text"))
    case TextEnd(i, s) =>
      if i in p.content && p.content[i].Text? then (SetBlock(p, i, p.content[i].(signature := s)), Push(e))
      else (p, Received("text_end", "text"))
    case ThinkingStart(i) => (SetBlock(p, i, Thinking("", "")), Push(e))
    case ThinkingDelta(i, d) =>
      if i in p.content && p.content[i].Thinking? then
        (SetBlock(p, i, p.content[i].(thinking := p.content[i].thinking + d)), Push(e))
      else (p, Received("thinking_delta", "thinking"))
    case ThinkingEnd(i, s) =>
      if i in p.content && p.content[i].Thinking? then (SetBlock(p, i, p.content[i].(thinkingSignature := s)), Push(e))
      else (p, Received("thinking_end", "thinking"))
    case ToolCallStart(i, id, name) => (SetBlock(p, i, ToolCall(id, name, Some(""), None)), Push(e))
    case ToolCallDelta(i, d) =>
      if i in p.content && p.content[i].ToolCall? then
        // after its end a call has no partial JSON, and undefined is added to as a word
        var json := (if p.content[i].partialJson.Some? then p.content[i].partialJson.value else "undefined") + d;
        (SetBlock(p, i, p.content[i].(partialJson := Some(json), parsed := Some(json))), Push(e))
      else (p, Received("toolcall_delta", "toolCall"))
    case ToolCallEnd(i) =>
      if i in p.content && p.content[i].ToolCall? then (SetBlock(p, i, p.content[i].(partialJson := None)), Push(e))
      else (p, Ignore)
    case Finish(reason) => (p.(stopReason := reason), Push(e))
    case Failure(reason, message) => (p.(stopReason := reason, errorMessage := message), Push(e))
  }

  /** A run over events; the first exception ends it. */
  datatype Run = Run(partial: Partial, pushed: seq<ProxyEvent>, error: Option<string>)

  function After(r: Run, e: ProxyEvent): Run {
    if r.error.Some? then r
    else
      var (p, reaction) := StepBlock(r.partial, e);
      match reaction
      case Push(event) => Run(p, r.pushed + [event], None)
      case Ignore => Run(p, r.pushed, None)
      case Throw(message) => Run(p, r.pushed, Some(message))
  }

  function RunEvents(events: seq<ProxyEvent>): Run {
    if events == [] then FRESH else After(RunEvents(events[..|events| - 1]), events[|events| - 1])
  }

  // ----- what is rebuilt

  predicate Starts(e: ProxyEvent, i: nat) {
    (e.TextStart? || e.ThinkingStart? || e.ToolCallStart?) && e.index == i
  }

  predicate Extends(e: ProxyEvent, i: nat) {
    (e.TextDelta? || e.ThinkingDelta? || e.ToolCallDelta?) && e.index == i
  }

  /** How the block at i was last started. */
  function StartOf(events: seq<ProxyEvent>, i: nat): Option<ProxyEvent> {
    if events == [] then None
    else if Starts(events[|events| - 1], i) then Some(events[|events| - 1])
    else StartOf(events[..|events| - 1], i)
  }

  /** The deltas of the block at i since then, put together. */
  function DeltasOf(events: seq<ProxyEvent>, i: nat): string {
    if events == [] || Starts(events[|events| - 1], i) then ""
    else
      DeltasOf(events[..|events| - 1], i) + if Extends(events[|events| - 1], i) then events[|events| - 1].delta else ""
  }

  /** The tool call at i has ended since it was last started. */
  predicate EndedOf(events: seq<ProxyEvent>, i: nat) {
    if events == [] || Starts(events[|events| - 1], i) then false
    else (events[|events| - 1].ToolCallEnd? && events[|events| - 1].index == i) || EndedOf(events[..|events| - 1], i)
  }

  predicate IsEnd(e: ProxyEvent, i: nat) { e.ToolCallEnd? && e.index == i }

  predicate IsDelta(e: ProxyEvent, i: nat) { e.ToolCallDelta? && e.index == i }

  /** No tool call at i gets a delta after its end. */
  predicate InOrder(events: seq<ProxyEvent>, i: nat) {
    events == []
    || (InOrder(events[..|events| - 1], i)
        && !(IsDelta(events[|events| - 1], i) && EndedOf(events[..|events| - 1], i)))
  }

  /** The last the tool call at i has got, since it was started, is an end. */
  predicate Closed(events: seq<ProxyEvent>, i: nat) {
    if events == [] || Starts(events[|events| - 1], i) || IsDelta(events[|events| - 1], i) then false
    else IsEnd(events[|events| - 1], i) || Closed(events[..|events| - 1], i)
  }

  /** The deltas that had come, since the start at i, when last one came after an end; None if none ever did. */
  function Resumed(events: seq<ProxyEvent>, i: nat): Option<string> {
    if events == [] || Starts(events[|events| - 1], i) then None
    else if IsDelta(events[|events| - 1], i) && Closed(events[..|events| - 1], i) then
      Some(DeltasOf(events[..|events| - 1], i))
    else Resumed(events[..|events| - 1], i)
  }

  /** The deltas from then on. */
  function Since(events: seq<ProxyEvent>, i: nat): string {
    if events == [] || Starts(events[|events| - 1], i) then ""
    else if IsDelta(events[|events| - 1], i) && Closed(events[..|events| - 1], i) then events[|events| - 1].delta
    else Since(events[..|events| - 1], i) + if Extends(events[|events| - 1], i) then events[|events| - 1].delta else ""
  }

  /** What the block at i has to be, given how it was started and what came since. */
  predicate Fits(b: Block, start: ProxyEvent, deltas: string, ended: bool) {
    match start
    case TextStart(_) => b.Text? && b.text == deltas
    case ThinkingStart(_) => b.Thinking? && b.thinking == deltas
    case ToolCallStart(_, id, name) =>
      b.ToolCall? && b.id == id && b.name == name
      && b.partialJson == (if ended then None else Some(deltas))
      && (b.parsed == Some(deltas) || (b.parsed == None && deltas == ""))
    case _ => false
  }

  ghost predicate Rebuilt(events: seq<ProxyEvent>, i: nat, content: map<nat, Block>) {
    && (i in content <==> StartOf(events, i).Some?)
    && (i in content ==> Fits(content[i], StartOf(events, i).value, DeltasOf(events, i), EndedOf(events, i)))
  }

  const UNDEFINED: string := "undefined"

  /**
   * No delta came late, or the call has ended again and what was lost in between happens to be the word put in its
   * place.
   */
  ghost predicate ReadsWell(events: seq<ProxyEvent>, i: nat) {
    Resumed(events, i).None? || (Closed(events, i) && Resumed(events, i) == Some(UNDEFINED))
  }

  lemma {:induction false} DeltasJoin(events: seq<ProxyEvent>, i: nat)
    ensures DeltasOf(events, i)
            == (if Resumed(events, i).Some? then Resumed(events, i).value else "") + Since(events, i)
    ensures EndedOf(events, i) <==> Closed(events, i) || Resumed(events, i).Some?
  {
    if events != [] {
      var init, e := events[..|events| - 1], events[|events| - 1];
      DeltasJoin(init, i);
      var lost, since := if Resumed(init, i).Some? then Resumed(init, i).value else "", Since(init, i);
      if Extends(e, i) { assert lost + since + e.delta == lost + (since + e.delta); }
    }
  }

  /** The JSON kept for the tool call at i. */
  function Json(events: seq<ProxyEvent>, i: nat): string {
    (if Resumed(events, i).Some? then UNDEFINED else "") + Since(events, i)
  }

  /** What the block at i is, late deltas or not. */
  predicate Keeps(b: Block, start: ProxyEvent, deltas: string, json: string, closed: bool, resumed: bool) {
    match start
    case TextStart(_) => b.Text? && b.text == deltas && !resumed
    case ThinkingStart(_) => b.Thinking? && b.thinking == deltas && !resumed
    case ToolCallStart(_, id, name) =>
      b.ToolCall? && b.id == id && b.name == name
      && b.partialJson == (if closed then None else Some(json))
      && (b.parsed == Some(json) || (b.parsed == None && json == ""))
    case _ => false
  }

  ghost predicate Kept(events: seq<ProxyEvent>, i: nat, content: map<nat, Block>) {
    && (i in content <==> StartOf(events, i).Some?)
    && (i !in content ==> Resumed(events, i).None?)
    && (i in content ==>
        Keeps(content[i], StartOf(events, i).value, DeltasOf(events, i), Json(events, i), Closed(events, i),
              Resumed(events, i).Some?))
  }

  lemma {:induction false} BlocksAreKept(events: seq<ProxyEvent>, i: nat)
    requires RunEvents(events).error.None?
    ensures Kept(events, i, RunEvents(events).partial.content)
  {
    if events != [] {
      var init, e := events[..|events| - 1], events[|events| - 1];
      BlocksAreKept(init, i);
      StepKeeps(RunEvents(init).partial, init, e, i, events);
    }
  }

  lemma {:induction false} StepKeeps(p: Partial, init: seq<ProxyEvent>, e: ProxyEvent, i: nat, events: seq<ProxyEvent>)
    requires events != [] && events[..|events| - 1] == init && events[|events| - 1] == e
    requires Kept(init, i, p.content) && !StepBlock(p, e).1.Throw?
    ensures Kept(events, i, StepBlock(p, e).0.content)
  {
    if !Starts(e, i) { JsonNext(init, e, i, events); } else { assert Json(events, i) == ""; }
    assert DeltasOf(init, i) + "" == DeltasOf(init, i);
  }

  lemma {:induction false} JsonNext(init: seq<ProxyEvent>, e: ProxyEvent, i: nat, events: seq<ProxyEvent>)
    requires events != [] && events[..|events| - 1] == init && events[|events| - 1] == e && !Starts(e, i)
    ensures IsDelta(e, i) ==> Json(events, i) == (if Closed(init, i) then UNDEFINED else Json(init, i)) + e.delta
    ensures !Extends(e, i) ==> Json(events, i) == Json(init, i)
  {
    var word := if Resumed(init, i).Some? then UNDEFINED else "";
    if Extends(e, i) { assert word + Since(init, i) + e.delta == word + (Since(init, i) + e.delta); }
    assert Since(init, i) + "" == Since(init, i);
  }

  lemma {:induction false} SameTail(a: string, b: string, tail: string)
    ensures a + tail == b + tail <==> a == b
  {
    if a + tail == b + tail {
      assert a == (a + tail)[..|a|] && b == (b + tail)[..|b|];
    }
  }

  /**
   * The block at each index is what was started there last and the deltas since, whatever happened at other indices,
   * if and only if none of these deltas came after an end, or the one coincidence holds that `ReadsWell` names.
   */
  lemma {:induction false} BlocksAreRebuilt(events: seq<ProxyEvent>, i: nat)
    requires RunEvents(events).error.None?
    ensures Rebuilt(events, i, RunEvents(events).partial.content) <==> ReadsWell(events, i)
  {
    BlocksAreKept(events, i);
    DeltasJoin(events, i);
    if Resumed(events, i).Some? {
      SameTail(UNDEFINED, Resumed(events, i).value, Since(events, i));
    }
  }

  ghost predicate RebuiltAt(events: seq<ProxyEvent>, i: nat, k: nat)
    requires k <= |events|
  {
    Rebuilt(events[..k], i, RunEvents(events[..k]).partial.content)
  }

  lemma {:induction false} InOrderNeverResumes(events: seq<ProxyEvent>, i: nat)
    requires InOrder(events, i)
    ensures Resumed(events, i).None?
  {
    if events != [] {
      InOrderNeverResumes(events[..|events| - 1], i);
      DeltasJoin(events[..|events| - 1], i);
    }
  }

  lemma {:induction false} PrefixRuns(events: seq<ProxyEvent>, i: nat, k: nat)
    requires k <= |events| && RunEvents(events).error.None?
    ensures RunEvents(events[..k]).error.None?
    ensures InOrder(events, i) ==> InOrder(events[..k], i)
    decreases |events|
  {
    if k < |events| {
      PrefixRuns(events[..|events| - 1], i, k);
      assert events[..|events| - 1][..k] == events[..k];
    } else {
      assert events[..k] == events;
    }
  }

  /** The first late delta is seen in the block at once. */
  lemma {:induction false} LateDeltaIsSeen(events: seq<ProxyEvent>, i: nat) returns (k: nat)
    requires RunEvents(events).error.None? && !InOrder(events, i)
    ensures k <= |events| && !RebuiltAt(events, i, k)
  {
    var n := |events| - 1;
    if InOrder(events[..n], i) {
      InOrderNeverResumes(events[..n], i);
      DeltasJoin(events[..n], i);
      BlocksAreRebuilt(events, i);
      k := |events|;
      assert events[..k] == events;
    } else {
      k := LateDeltaIsSeen(events[..n], i);
      assert events[..n][..k] == events[..k];
    }
  }

  /** After every event every block is what it has to be, if and only if no tool call gets a delta after its end. */
  lemma {:induction false} AlwaysRebuilt(events: seq<ProxyEvent>, i: nat)
    requires RunEvents(events).error.None?
    ensures (forall k | 0 <= k <= |events| :: RebuiltAt(events, i, k)) <==> InOrder(events, i)
  {
    if InOrder(events, i) {
      forall k | 0 <= k <= |events| ensures RebuiltAt(events, i, k) {
        PrefixRuns(events, i, k);
        InOrderNeverResumes(events[..k], i);
        BlocksAreRebuilt(events[..k], i);
      }
    } else {
      var _ := LateDeltaIsSeen(events, i);
    }
  }

  lemma {:induction false} RunNext(events: seq<ProxyEvent>, e: ProxyEvent)
    ensures RunEvents(events + [e]) == After(RunEvents(events), e)
  {
    assert (events + [e])[..|events|] == events;
  }

  /** A delta after the end of its tool call puts the word undefined in front of the rebuilt JSON. */
  lemma {:induction false} DeltaAfterEnd(id: string, name: string, delta: string)
    ensures var events := [ToolCallStart(0, id, name)] + [ToolCallEnd(0)] + [ToolCallDelta(0, delta)];
            RunEvents(events).error.None?
              && RunEvents(events).partial.content
                == map[0 := ToolCall(id, name, Some("undefined" + delta), Some("undefined" + delta))]
  {
    var start, end := ToolCallStart(0, id, name), ToolCallEnd(0);
    RunNext([], start);
    assert [] + [start] == [start];
    assert RunEvents([start]).partial.content == map[0 := ToolCall(id, name, Some(""), None)];
    RunNext([start], end);
    assert RunEvents([start] + [end]).partial.content == map[0 := ToolCall(id, name, None, None)];
    RunNext([start] + [end], ToolCallDelta(0, delta));
  }

  // ----- lines

  /** The lines that have been ended, and what has come since. */
  datatype Framed = Framed(lines: seq<string>, rest: string)

  function AddChar(f: Framed, c: char): Framed {
    if c == '\n' then Framed(f.lines + [f.rest], "") else Framed(f.lines, f.rest + [c])
  }

  function Frame(text: string): Framed {
    if text == "" then Framed([], "") else AddChar(Frame(text[..|text| - 1]), text[|text| - 1])
  }

  /** Framing goes on from what was left over. */
  lemma {:induction false} FrameConcat(a: string, b: string)
    ensures Frame(a + b) == Framed(Frame(a).lines + Frame(Frame(a).rest + b).lines, Frame(Frame(a).rest + b).rest)
  {
    if b == "" {
      assert a + b == a && Frame(a).rest + b == Frame(a).rest;
      RestIsOpen(a);
      assert Frame(a).lines + [] == Frame(a).lines;
    } else {
      var init, c := b[..|b| - 1], b[|b| - 1];
      FrameConcat(a, init);
      assert (a + b)[..|a + b| - 1] == a + init
        && (Frame(a).rest + b)[..|Frame(a).rest + b| - 1] == Frame(a).rest + init;
      var tail := Frame(Frame(a).rest + init);
      assert Frame(a).lines + (tail.lines + [tail.rest]) == Frame(a).lines + tail.lines + [tail.rest];
    }
  }

  /** What is left over holds no line end. */
  lemma {:induction false} RestIsOpen(text: string)
    ensures Frame(Frame(text).rest) == Framed([], Frame(text).rest)
  {
    if text != "" {
      RestIsOpen(text[..|text| - 1]);
      var rest, c := Frame(text[..|text| - 1]).rest, text[|text| - 1];
      if c != '\n' { assert (rest + [c])[..|rest|] == rest; }
    }
  }

  /** The lines and what is left over are the text, with a line end after each line. */
  function Unframe(lines: seq<string>, rest: string): string
    decreases |lines|
  {
    if lines == [] then rest else Unframe(lines[..|lines| - 1], lines[|lines| - 1]) + "\n" + rest
  }

  lemma {:induction false} LineEnds(lines: seq<string>, line: string)
    ensures Unframe(lines + [line], "") == Unframe(lines, line) + "\n"
  {
    assert (lines + [line])[..|lines|] == lines;
    assert Unframe(lines, line) + "\n" + "" == Unframe(lines, line) + "\n";
  }

  lemma {:induction false} CharKeepsText(f: Framed, c: char)
    ensures TextOf(AddChar(f, c)) == TextOf(f) + [c]
  {
    if c == '\n' {
      LineEnds(f.lines, f.rest);
      assert [c] == "\n";
    } else {
      RestGrows(f.lines, f.rest, c);
    }
  }

  /** The text a framing stands for. */
  function TextOf(f: Framed): string { Unframe(f.lines, f.rest) }

  lemma {:induction false} FrameKeepsText(text: string)
    ensures TextOf(Frame(text)) == text
  {
    if text != "" {
      var init, c := text[..|text| - 1], text[|text| - 1];
      FrameKeepsText(init);
      CharKeepsText(Frame(init), c);
      assert Frame(text) == AddChar(Frame(init), c) && init + [c] == text;
    }
  }

  /** No line holds a line end, nor does what is left over. */
  lemma {:induction false} LinesAreLines(text: string)
    ensures forall k | 0 <= k < |Frame(text).lines| :: '\n' !in Frame(text).lines[k]
    ensures '\n' !in Frame(text).rest
  {
    if text != "" {
      LinesAreLines(text[..|text| - 1]);
    }
  }

  lemma {:induction false} RestGrows(lines: seq<string>, rest: string, c: char)
    ensures Unframe(lines, rest + [c]) == Unframe(lines, rest) + [c]
  {
    if lines != [] {
      var before := Unframe(lines[..|lines| - 1], lines[|lines| - 1]) + "\n";
      assert before + (rest + [c]) == before + rest + [c];
    }
  }

  // ----- the read loop

  predicate IsWhite(c: char) {
    c == ' ' || '\t' <= c <= '\r' || c == '\U{a0}' || c == '\U{1680}' || '\U{2000}' <= c <= '\U{200a}'
    || c == '\U{2028}' || c == '\U{2029}' || c == '\U{202f}' || c == '\U{205f}' || c == '\U{3000}' || c == '\U{feff}'
  }

  function TrimWhiteStart(s: string): string {
    if s != "" && IsWhite(s[0]) then TrimWhiteStart(s[1..]) else s
  }

  function TrimWhiteEnd(s: string): string {
    if s != "" && IsWhite(s[|s| - 1]) then TrimWhiteEnd(s[..|s| - 1]) else s
  }

  const DATA: string := "data: "

  /** The JSON of a line, if it carries any. */
  function Payload(line: string): Option<string> {
    if DATA <= line then
      var data := TrimWhiteEnd(TrimWhiteStart(line[|DATA|..]));
      if data == "" then None else Some(data)
    else None
  }

  /** What JSON.parse gives for a payload: an event, or the message of its exception. */
  datatype Parsed = Good(event: ProxyEvent) | Bad(message: string)

  /** One line; `parse` stands for JSON.parse. */
  function AfterLine(r: Run, line: string, parse: string -> Parsed): Run {
    if r.error.Some? || Payload(line).None? then r
    else
      match parse(Payload(line).value)
      case Good(event) => After(r, event)
      case Bad(message) => r.(error := Some(message))
  }

  function RunLines(r: Run, lines: seq<string>, parse: string -> Parsed): Run {
    if lines == [] then r else AfterLine(RunLines(r, lines[..|lines| - 1], parse), lines[|lines| - 1], parse)
  }

  lemma {:induction false} RunMoreLines(r: Run, a: seq<string>, b: seq<string>, parse: string -> Parsed)
    ensures RunLines(r, a + b, parse) == RunLines(RunLines(r, a, parse), b, parse)
  {
    if b == [] {
      assert a + b == a;
    } else {
      RunMoreLines(r, a, b[..|b| - 1], parse);
      assert (a + b)[..|a + b| - 1] == a + b[..|b| - 1];
    }
  }

  lemma {:induction false} FailedStays(r: Run, lines: seq<string>, parse: string -> Parsed)
    requires r.error.Some?
    ensures RunLines(r, lines, parse) == r
  {
    if lines != [] { FailedStays(r, lines[..|lines| - 1], parse); }
  }

  lemma {:induction false} NextLine(r: Run, lines: seq<string>, k: nat, parse: string -> Parsed)
    requires k < |lines|
    ensures RunLines(r, lines[..k + 1], parse) == AfterLine(RunLines(r, lines[..k], parse), lines[k], parse)
  {
    assert lines[..k + 1][..k] == lines[..k];
  }

  lemma {:induction false} LinesFail(r: Run, lines: seq<string>, k: nat, parse: string -> Parsed)
    requires k <= |lines| && RunLines(r, lines[..k], parse).error.Some?
    ensures RunLines(r, lines, parse) == RunLines(r, lines[..k], parse)
  {
    RunMoreLines(r, lines[..k], lines[k..], parse);
    assert lines[..k] + lines[k..] == lines;
    FailedStays(RunLines(r, lines[..k], parse), lines[k..], parse);
  }

  /** The event a line carries. */
  function EventIn(line: string, parse: string -> Parsed): Option<ProxyEvent> {
    if Payload(line).Some? && parse(Payload(line).value).Good? then Some(parse(Payload(line).value).event) else None
  }

  /** What is thrown for a line that carries something else. */
  function ErrorIn(line: string, parse: string -> Parsed): Option<string> {
    if Payload(line).Some? && parse(Payload(line).value).Bad? then Some(parse(Payload(line).value).message) else None
  }

  /** The events that lines carry, up to the first line that does not parse. */
  function EventsOf(lines: seq<string>, parse: string -> Parsed): seq<ProxyEvent> {
    if lines == [] then []
    else
      var before, event := EventsOf(lines[..|lines| - 1], parse), EventIn(lines[|lines| - 1], parse);
      if BadLine(lines[..|lines| - 1], parse).None? && event.Some? then before + [event.value] else before
  }

  /** What is thrown for that line, if there is one. */
  function BadLine(lines: seq<string>, parse: string -> Parsed): Option<string> {
    if lines == [] then None
    else
      var before := BadLine(lines[..|lines| - 1], parse);
      if before.Some? then before else ErrorIn(lines[|lines| - 1], parse)
  }

  /** A run whose lines are cut short by one that does not parse. */
  function CutShort(r: Run, bad: Option<string>): Run {
    if r.error.None? then r.(error := bad) else r
  }

  lemma {:induction false} LineIsEvent(events: seq<ProxyEvent>, bad: Option<string>, line: string,
                                       parse: string -> Parsed)
    ensures AfterLine(CutShort(RunEvents(events), bad), line, parse)
         == if bad.Some? then CutShort(RunEvents(events), bad)
            else if EventIn(line, parse).Some? then RunEvents(events + [EventIn(line, parse).value])
            else CutShort(RunEvents(events), ErrorIn(line, parse))
  {
    if EventIn(line, parse).Some? { RunNext(events, EventIn(line, parse).value); }
  }

  /** Reading lines is running over the events they carry. */
  lemma {:induction false} LinesAreEvents(lines: seq<string>, parse: string -> Parsed)
    ensures RunLines(FRESH, lines, parse) == CutShort(RunEvents(EventsOf(lines, parse)), BadLine(lines, parse))
  {
    if lines != [] {
      var init, line := lines[..|lines| - 1], lines[|lines| - 1];
      LinesAreEvents(init, parse);
      LineIsEvent(EventsOf(init, parse), BadLine(init, parse), line, parse);
    }
  }

  /** The run over the first k chunks, and the text it leaves over. */
  function RunTo(chunks: seq<string>, k: nat, parse: string -> Parsed): Run
    requires k <= |chunks|
  {
    RunLines(FRESH, Frame(Flatten(chunks[..k])).lines, parse)
  }

  function RestAt(chunks: seq<string>, k: nat): string
    requires k <= |chunks|
  {
    Frame(Flatten(chunks[..k])).rest
  }

  lemma {:induction false} NextChunk(chunks: seq<string>, k: nat, parse: string -> Parsed)
    requires k < |chunks|
    ensures RunTo(chunks, k + 1, parse)
            == RunLines(RunTo(chunks, k, parse), Frame(RestAt(chunks, k) + chunks[k]).lines, parse)
    ensures RestAt(chunks, k + 1) == Frame(RestAt(chunks, k) + chunks[k]).rest
  {
    assert chunks[..k + 1][..k] == chunks[..k];
    var before := Flatten(chunks[..k]);
    FrameConcat(before, chunks[k]);
    RunMoreLines(FRESH, Frame(before).lines, Frame(RestAt(chunks, k) + chunks[k]).lines, parse);
  }

  /** A run that failed has failed for all further chunks. */
  lemma {:induction false} StaysFailed(chunks: seq<string>, k: nat, n: nat, parse: string -> Parsed)
    requires k <= n <= |chunks| && RunTo(chunks, k, parse).error.Some?
    ensures RunTo(chunks, n, parse) == RunTo(chunks, k, parse)
    decreases n
  {
    if k < n {
      StaysFailed(chunks, k, n - 1, parse);
      NextChunk(chunks, n - 1, parse);
      NextStaysFailed(RunTo(chunks, n - 1, parse), Frame(RestAt(chunks, n - 1) + chunks[n - 1]).lines,
                      RunTo(chunks, n, parse), parse);
    }
  }

  lemma {:induction false} NextStaysFailed(r: Run, lines: seq<string>, next: Run, parse: string -> Parsed)
    requires r.error.Some? && next == RunLines(r, lines, parse)
    ensures next == r
  {
    FailedStays(r, lines, parse);
  }

  // ----- the whole stream

  /** Whether an abort that comes after so many chunks comes before the stream's end. */
  predicate AbortSeen(chunks: seq<string>, abortAfter: Option<nat>) { abortAfter.Some? && abortAfter.value <= |chunks| }

  /** How many chunks are handled. */
  function Handled(chunks: seq<string>, abortAfter: Option<nat>): (n: nat)
    ensures n <= |chunks|
  {
    if AbortSeen(chunks, abortAfter) then abortAfter.value else |chunks|
  }

  const ABORTED: string := "Request aborted by user"

  /** The catch block: the message takes the reason, and an error event is the last that is passed on. */
  function Caught(r: Run, reason: string, message: string): Run {
    Run(r.partial.(stopReason := reason, errorMessage := message), r.pushed + [Failure(reason, message)], Some(message))
  }

  /** How a run ends whose signal is aborted, or not, before its last check. */
  function Ended(r: Run, aborted: bool): Run {
    if r.error.Some? then Caught(r, "error", r.error.value) else if aborted then Caught(r, "aborted", ABORTED) else r
  }

  /** What a stream of that text comes to. */
  function StreamRun(text: string, parse: string -> Parsed, aborted: bool): Run {
    Ended(RunLines(FRESH, Frame(text).lines, parse), aborted)
  }

  /**
   * However its text is cut into chunks, a stream that ends well has passed on the events of its ended lines, and
   * after each of them every block is what they say, if and only if no tool call gets a delta after its end.
   */
  lemma {:induction false} StreamRebuilds(chunks: seq<string>, parse: string -> Parsed, aborted: bool, i: nat)
    requires StreamRun(Flatten(chunks), parse, aborted).error.None?
    ensures var events := EventsOf(Frame(Flatten(chunks)).lines, parse);
            var run := StreamRun(Flatten(chunks), parse, aborted);
            && run == RunEvents(events)
            && ((forall k | 0 <= k <= |events| :: RebuiltAt(events, i, k)) <==> InOrder(events, i))
            && (Rebuilt(events, i, run.partial.content) <==> ReadsWell(events, i))
  {
    var lines := Frame(Flatten(chunks)).lines;
    LinesAreEvents(lines, parse);
    AlwaysRebuilt(EventsOf(lines, parse), i);
    BlocksAreRebuilt(EventsOf(lines, parse), i);
  }

  class PartialMessage {
    var content: map<nat, Block>
    var stopReason: string
    var errorMessage: string

    function Current(): Partial
      reads this
    {
      Partial(content, stopReason, errorMessage)
    }

    constructor ()
      ensures Current() == EMPTY
    {
      content, stopReason, errorMessage := map[], "stop", "";
    }

    /** processProxyEvent. */
    method ProcessProxyEvent(e: ProxyEvent) returns (reaction: Reaction)
      modifies this
      ensures (Current(), reaction) == StepBlock(old(Current()), e)
    {
      reaction := Push(e);
      match e {
        case Start =>
        case TextStart(i) => content := content[i := Text("", "")];
        case TextDelta(i, d) =>
          if i !in content || !content[i].Text? { return Received("text_delta", "text"); }
          content := content[i := content[i].(text := content[i].text + d)];
        case TextEnd(i, s) =>
          if i !in content || !content[i].Text? { return Received("text_end", "text"); }
          content := content[i := content[i].(signature := s)];
        case ThinkingStart(i) => content := content[i := Thinking("", "")];
        case ThinkingDelta(i, d) =>
          if i !in content || !content[i].Thinking? { return Received("thinking_delta", "thinking"); }
          content := content[i := content[i].(thinking := content[i].thinking + d)];
        case ThinkingEnd(i, s) =>
          if i !in content || !content[i].Thinking? { return Received("thinking_end", "thinking"); }
          content := content[i := content[i].(thinkingSignature := s)];
        case ToolCallStart(i, id, name) => content := content[i := ToolCall(id, name, Some(""), None)];
        case ToolCallDelta(i, d) =>
          if i !in content || !content[i].ToolCall? { return Received("toolcall_delta", "toolCall"); }
          var json := (if content[i].partialJson.Some? then content[i].partialJson.value else "undefined") + d;
          content := content[i := content[i].(partialJson := Some(json), parsed := Some(json))];
        case ToolCallEnd(i) =>
          if i !in content || !content[i].ToolCall? { return Ignore; }
          content := content[i := content[i].(partialJson := None)];
        case Finish(reason) => stopReason := reason;
        case Failure(reason, message) => stopReason, errorMessage := reason, message;
      }
    }

    /** The lines of one read. */
    method ProcessLines(lines: seq<string>, parse: string -> Parsed, before: seq<ProxyEvent>)
      returns (pushed: seq<ProxyEvent>, error: Option<string>)
      modifies this
      ensures Run(Current(), pushed, error) == RunLines(Run(old(Current()), before, None), lines, parse)
    {
      pushed, error := before, None;
      ghost var start := Run(Current(), before, None);
      var k := 0;
      while k < |lines|
        invariant 0 <= k <= |lines| && Run(Current(), pushed, error) == RunLines(start, lines[..k], parse)
                  && error.None?
      {
        NextLine(start, lines, k, parse);
        var payload := Payload(lines[k]);
        if payload.Some? {
          var parsed := parse(payload.value);
          var reaction;
          if parsed.Good? {
            reaction := ProcessProxyEvent(parsed.event);
          } else {
            reaction := Throw(parsed.message);
          }
          if reaction.Throw? {
            LinesFail(start, lines, k + 1, parse);
            return pushed, Some(reaction.message);
          }
          if reaction.Push? {
            pushed := pushed + [reaction.event];
          }
        }
        k := k + 1;
      }
      assert lines[..k] == lines;
    }

    /**
     * The read loop over decoded chunks. An abort after `abortAfter` chunks is seen at the next read, or at the end if
     * there is none.
     */
    method ReadAll(chunks: seq<string>, parse: string -> Parsed, abortAfter: Option<nat>)
      returns (pushed: seq<ProxyEvent>, error: Option<string>, aborted: bool)
      requires Current() == EMPTY
      modifies this
      ensures Run(Current(), pushed, error) == RunTo(chunks, Handled(chunks, abortAfter), parse)
      ensures error.None? ==> aborted == AbortSeen(chunks, abortAfter)
    {
      pushed, error := [], None;
      var buffer, k := "", 0;
      while k < |chunks|
        invariant 0 <= k <= |chunks| && buffer == RestAt(chunks, k) && error.None?
        invariant abortAfter.Some? ==> k <= abortAfter.value
        invariant Run(Current(), pushed, error) == RunTo(chunks, k, parse)
      {
        if abortAfter == Some(k) {
          return pushed, error, true;
        }
        NextChunk(chunks, k, parse);
        var framed := Frame(buffer + chunks[k]);
        buffer := framed.rest;
        pushed, error := ProcessLines(framed.lines, parse, pushed);
        k := k + 1;
        if error.Some? {
          StaysFailed(chunks, k, Handled(chunks, abortAfter), parse);
          return pushed, error, false;
        }
      }
      aborted := abortAfter == Some(k);
    }

    /** streamProxy: the events handed to the stream, the last of them the error event if something ended the run. */
    method StreamProxy(chunks: seq<string>, parse: string -> Parsed, abortAfter: Option<nat>)
      returns (pushed: seq<ProxyEvent>, error: Option<string>)
      requires Current() == EMPTY
      modifies this
      ensures Run(Current(), pushed, error)
           == StreamRun(Flatten(chunks[..Handled(chunks, abortAfter)]), parse, AbortSeen(chunks, abortAfter))
    {
      var aborted;
      pushed, error, aborted := ReadAll(chunks, parse, abortAfter);
      var reason := "error";
      if error.None? && aborted {
        error, reason := Some(ABORTED), "aborted";
      }
      if error.Some? {
        stopReason, errorMessage := reason, error.value;
        pushed := pushed + [Failure(reason, error.value)];
      }
    }
  }
}
