/**
 The Claude Agent SDK transcript (packages/agent-runs/src/adapters.ts).

 `SdkStreamTranscriber` is an online transducer: it keeps one pending response, a queue of
 events held behind it and a map of tool names.  `Transcript` is the offline description of the
 same stream, which looks at the whole stream at once and keeps no state.  The main result is
 that the two agree on every stream.
 */
module Transcriber {
  import opened Wrappers

  // ---------------------------------------------------------------- data

  /** A JSON value that may or may not be a number. */
  datatype RawNumber = NotNumber | NonFinite | Finite(value: int)

  datatype RawUsage = RawUsage(input: RawNumber, output: RawNumber, cacheRead: RawNumber,
                               cacheWrite: RawNumber, thinking: RawNumber)

  datatype RunUsage = RunUsage(input: nat, output: nat, cacheRead: nat, cacheWrite: nat,
                               thinking: Option<nat>)

  datatype RawBlock =
    | RawText(text: string)
    | RawToolUse(id: string, name: string, input: string)
    | RawThinking(thinking: Option<string>)
    | RawRedactedThinking
    | RawUnknown

  datatype ContentBlock =
    | Text(text: string)
    | ToolUse(id: string, name: string, input: string)
    | Thinking(text: string, redacted: bool)

  /** A block of a user message; only tool results are transcribed. */
  datatype UserBlock =
    | ToolResultBlock(toolUseId: string, output: string, isError: bool)
    | OtherUserBlock

  datatype Message =
    | Assistant(id: string, model: string, content: seq<RawBlock>, stopReason: Option<string>,
                hitOutputLimit: bool, usage: RawUsage, requestId: Option<string>)
    | User(blocks: seq<UserBlock>)
    | Result(resultStop: Option<string>, payload: string)
    | Notice(payload: string)

  datatype Event =
    | Response(model: string, content: seq<ContentBlock>, stopReason: Option<string>,
               usage: RunUsage, messageId: string, requestId: Option<string>)
    | ToolCall(id: string, name: string, input: string)
    | ToolResult(id: string, name: string, output: string, isError: bool)
    | SdkMessage(message: Message)

  datatype PendingResponse = PendingResponse(messageId: string, model: string,
                                             content: seq<ContentBlock>, stopReason: Option<string>,
                                             usage: RunUsage, requestId: Option<string>)

  // ---------------------------------------------------------------- pure helpers

  function Num(n: RawNumber): nat {
    if n.Finite? && n.value > 0 then n.value else 0
  }

  function UsageFromProvider(u: RawUsage): RunUsage {
    RunUsage(Num(u.input), Num(u.output), Num(u.cacheRead), Num(u.cacheWrite),
             if u.thinking.NotNumber? then None else Some(Num(u.thinking)))
  }

  function Max(a: int, b: int): int {
    if a >= b then a else b
  }

  function MaxUsage(a: RunUsage, b: RunUsage): RunUsage {
    var thinking := Max(if a.thinking.Some? then a.thinking.value else -1,
                        if b.thinking.Some? then b.thinking.value else -1);
    RunUsage(Max(a.input, b.input), Max(a.output, b.output), Max(a.cacheRead, b.cacheRead),
             Max(a.cacheWrite, b.cacheWrite), if thinking >= 0 then Some(thinking) else None)
  }

  const NO_USAGE := RunUsage(0, 0, 0, 0, None)

  function Normalize(b: RawBlock): seq<ContentBlock> {
    match b
    case RawText(text) => [Text(text)]
    case RawToolUse(id, name, input) => [ToolUse(id, name, input)]
    case RawThinking(thinking) => [Thinking(thinking.GetOr(""), thinking.GetOr("") == "")]
    case RawRedactedThinking => [Thinking("", true)]
    case RawUnknown => []
  }

  function ContentBlocks(raw: seq<RawBlock>): seq<ContentBlock> {
    if raw == [] then [] else ContentBlocks(raw[..|raw| - 1]) + Normalize(raw[|raw| - 1])
  }

  /** The tool calls announced by a list of content blocks, in order. */
  function ToolCalls(content: seq<ContentBlock>): seq<Event> {
    if content == [] then []
    else
      var last := content[|content| - 1];
      ToolCalls(content[..|content| - 1]) +
      (if last.ToolUse? then [ToolCall(last.id, last.name, last.input)] else [])
  }

  predicate AsksForTools(content: seq<ContentBlock>) {
    exists b :: b in content && b.ToolUse?
  }

  function Learn(names: map<string, string>, content: seq<ContentBlock>): map<string, string> {
    if content == [] then names
    else
      var last := content[|content| - 1];
      var before := Learn(names, content[..|content| - 1]);
      if last.ToolUse? then before[last.id := last.name] else before
  }

  function Named(names: map<string, string>, id: string): string {
    if id in names then names[id] else ""
  }

  function ToolResults(names: map<string, string>, blocks: seq<UserBlock>): seq<Event> {
    if blocks == [] then []
    else
      var last := blocks[|blocks| - 1];
      ToolResults(names, blocks[..|blocks| - 1]) +
      (if last.ToolResultBlock?
       then [ToolResult(last.toolUseId, Named(names, last.toolUseId), last.output, last.isError)]
       else [])
  }

  // ---------------------------------------------------------------- the online machine

  datatype State = State(pending: Option<PendingResponse>, held: seq<Event>,
                         toolNames: map<string, string>)

  const INITIAL := State(None, [], map[])

  function StopReasonOf(p: PendingResponse, followedByResponse: bool): Option<string> {
    if p.stopReason.Some? then p.stopReason
    else if followedByResponse && AsksForTools(p.content) then Some("tool_use")
    else None
  }

  function ResponseOf(p: PendingResponse, followedByResponse: bool): Event {
    Response(p.model, p.content, StopReasonOf(p, followedByResponse), p.usage, p.messageId, p.requestId)
  }

  function EmitStep(st: State, followedByResponse: bool): (State, seq<Event>) {
    (State(None, [], st.toolNames),
     match st.pending
     case None => st.held
     case Some(p) => [ResponseOf(p, followedByResponse)] + ToolCalls(p.content) + st.held)
  }

  function Absorb(p: PendingResponse, m: Message): PendingResponse
    requires m.Assistant?
  {
    PendingResponse(
      p.messageId, p.model, p.content + ContentBlocks(m.content),
      if m.stopReason.Some? then m.stopReason
      else if m.hitOutputLimit then Some("max_tokens") else p.stopReason,
      MaxUsage(p.usage, UsageFromProvider(m.usage)),
      if p.requestId.None? then m.requestId else p.requestId)
  }

  function PushStep(st: State, m: Message): (State, seq<Event>) {
    match m
    case Assistant(id, model, content, _, _, _, _) =>
      var (before, out) :=
        if st.pending.Some? && st.pending.value.messageId != id then EmitStep(st, true) else (st, []);
      var p := if before.pending.Some? then before.pending.value
               else PendingResponse(id, model, [], None, NO_USAGE, None);
      (State(Some(Absorb(p, m)), before.held, Learn(before.toolNames, ContentBlocks(content))), out)
    case Result(stop, _) =>
      var pending := if st.pending.Some? && st.pending.value.stopReason.None? && stop.Some?
                     then Some(st.pending.value.(stopReason := stop)) else st.pending;
      var (after, out) := EmitStep(st.(pending := pending), false);
      (after, out + [SdkMessage(m)])
    case _ =>
      var events := if m.User? then ToolResults(st.toolNames, m.blocks) else [SdkMessage(m)];
      if st.pending.None? then (st, events) else (st.(held := st.held + events), [])
  }

  /** Everything a transcriber emits for the messages from `n` on, with the closing flush. */
  function Online(st: State, ms: seq<Message>, n: nat): seq<Event>
    requires n <= |ms|
    decreases |ms| - n
  {
    if n == |ms| then EmitStep(st, false).1
    else
      var (next, out) := PushStep(st, ms[n]);
      out + Online(next, ms, n + 1)
  }

  // ---------------------------------------------------------------- the offline description

  /** Does message `m` end the run of frames of response `id`? */
  predicate Breaks(m: Message, id: string) {
    m.Result? || (m.Assistant? && m.id != id)
  }

  /** The end of the run of response `id`: the first breaking message from `j` on, or the end. */
  function RunEnd(ms: seq<Message>, id: string, j: nat): (e: nat)
    requires j <= |ms|
    ensures j <= e <= |ms|
    ensures forall k :: j <= k < e ==> !Breaks(ms[k], id)
    ensures e < |ms| ==> Breaks(ms[e], id)
    decreases |ms| - j
  {
    if j == |ms| || Breaks(ms[j], id) then j else RunEnd(ms, id, j + 1)
  }

  // What the assistant frames among `ms` say together; other messages say nothing here.

  /** The concatenated content of the frames. */
  function ContentOf(ms: seq<Message>): seq<ContentBlock> {
    if ms == [] then []
    else
      var last := ms[|ms| - 1];
      ContentOf(ms[..|ms| - 1]) + (if last.Assistant? then ContentBlocks(last.content) else [])
  }

  /** The pointwise maximum of the frames' usage. */
  function UsageOf(ms: seq<Message>): RunUsage {
    if ms == [] then NO_USAGE
    else
      var last := ms[|ms| - 1];
      var before := UsageOf(ms[..|ms| - 1]);
      if last.Assistant? then MaxUsage(before, UsageFromProvider(last.usage)) else before
  }

  /** The last stop reason a frame carries itself. */
  function StopIn(ms: seq<Message>): Option<string> {
    if ms == [] then None
    else
      var last := ms[|ms| - 1];
      if last.Assistant? && last.stopReason.Some? then last.stopReason
      else if last.Assistant? && last.hitOutputLimit then Some("max_tokens")
      else StopIn(ms[..|ms| - 1])
  }

  /** The first request id a frame carries. */
  function RequestIn(ms: seq<Message>): Option<string> {
    if ms == [] then None
    else if ms[0].Assistant? && ms[0].requestId.Some? then ms[0].requestId
    else RequestIn(ms[1..])
  }

  /** The stop reason of the response whose run is `ms[i..e]`. */
  function StopReason(ms: seq<Message>, i: nat, e: nat): Option<string>
    requires i <= e <= |ms|
  {
    var run := ms[i..e];
    if StopIn(run).Some? then StopIn(run)
    else if e < |ms| && ms[e].Result? then ms[e].resultStop
    else if e < |ms| && ms[e].Assistant? && AsksForTools(ContentOf(run))
      then Some("tool_use")
    else None
  }

  /** The name a tool use of the earlier messages gave to `id`; the latest one counts. */
  function NamesIn(ms: seq<Message>): map<string, string> {
    if ms == [] then map[]
    else
      var last := ms[|ms| - 1];
      var before := NamesIn(ms[..|ms| - 1]);
      if last.Assistant? then Learn(before, ContentBlocks(last.content)) else before
  }

  /** What message `n` contributes on its own, if it is not an assistant frame. */
  function EventsAt(ms: seq<Message>, n: nat): seq<Event>
    requires n < |ms|
  {
    match ms[n]
    case Assistant(_, _, _, _, _, _, _) => []
    case User(blocks) => ToolResults(NamesIn(ms[..n]), blocks)
    case _ => [SdkMessage(ms[n])]
  }

  function EventsIn(ms: seq<Message>, i: nat, e: nat): seq<Event>
    requires i <= e <= |ms|
  {
    if i == e then [] else EventsIn(ms, i, e - 1) + EventsAt(ms, e - 1)
  }

  /** The events of one run: the response, its tool calls, then what arrived between its frames. */
  function RunEvents(ms: seq<Message>, i: nat, e: nat): seq<Event>
    requires i < e <= |ms| && ms[i].Assistant?
  {
    var run := ms[i..e];
    [Response(ms[i].model, ContentOf(run), StopReason(ms, i, e), UsageOf(run), ms[i].id, RequestIn(run))]
    + ToolCalls(ContentOf(run)) + EventsIn(ms, i, e)
  }

  /** The offline transcript of the messages from `i` on. */
  function Transcript(ms: seq<Message>, i: nat): seq<Event>
    requires i <= |ms|
    decreases |ms| - i
  {
    if i == |ms| then []
    else if ms[i].Assistant? then
      var e := RunEnd(ms, ms[i].id, i + 1);
      RunEvents(ms, i, e) + Transcript(ms, e)
    else EventsAt(ms, i) + Transcript(ms, i + 1)
  }

  // ---------------------------------------------------------------- online equals offline

  /** The pending response after the frames of `ms[i..n]`. */
  ghost function PendingAfter(ms: seq<Message>, i: nat, n: nat): PendingResponse
    requires i < n <= |ms| && ms[i].Assistant?
  {
    var run := ms[i..n];
    PendingResponse(ms[i].id, ms[i].model, ContentOf(run), StopIn(run), UsageOf(run), RequestIn(run))
  }

  lemma {:induction false} RequestInSnoc(ms: seq<Message>, m: Message)
    ensures RequestIn(ms + [m]) ==
            if RequestIn(ms).Some? then RequestIn(ms) else if m.Assistant? then m.requestId else None
  {
    if ms != [] {
      assert (ms + [m])[1..] == ms[1..] + [m];
      RequestInSnoc(ms[1..], m);
    } else {
      assert [m][1..] == [];
    }
  }

  lemma FoldsSnoc(ms: seq<Message>, m: Message)
    ensures ContentOf(ms + [m]) == ContentOf(ms) + (if m.Assistant? then ContentBlocks(m.content) else [])
    ensures UsageOf(ms + [m]) ==
            if m.Assistant? then MaxUsage(UsageOf(ms), UsageFromProvider(m.usage)) else UsageOf(ms)
    ensures StopIn(ms + [m]) ==
            if m.Assistant? && m.stopReason.Some? then m.stopReason
            else if m.Assistant? && m.hitOutputLimit then Some("max_tokens") else StopIn(ms)
  {
    assert (ms + [m])[..|ms|] == ms;
  }

  /** Folding one more frame into the pending response is what `Absorb` does. */
  lemma {:induction false} AbsorbFrame(ms: seq<Message>, i: nat, n: nat)
    requires i < n < |ms| && ms[i].Assistant?
    ensures PendingAfter(ms, i, n + 1) ==
            if ms[n].Assistant? then Absorb(PendingAfter(ms, i, n), ms[n]) else PendingAfter(ms, i, n)
  {
    hide ContentOf, UsageOf, StopIn, RequestIn, MaxUsage, ContentBlocks;
    assert ms[i..n + 1] == ms[i..n] + [ms[n]];
    FoldsSnoc(ms[i..n], ms[n]);
    RequestInSnoc(ms[i..n], ms[n]);
  }

  lemma FirstFrame(ms: seq<Message>, i: nat)
    requires i < |ms| && ms[i].Assistant?
    ensures PendingAfter(ms, i, i + 1) ==
            Absorb(PendingResponse(ms[i].id, ms[i].model, [], None, NO_USAGE, None), ms[i])
  {
    FoldsSnoc([], ms[i]);
    RequestInSnoc([], ms[i]);
    assert ms[i..i + 1] == [] + [ms[i]];
  }

  lemma NamesSnoc(ms: seq<Message>, n: nat)
    requires n < |ms|
    ensures NamesIn(ms[..n + 1]) ==
            if ms[n].Assistant? then Learn(NamesIn(ms[..n]), ContentBlocks(ms[n].content)) else NamesIn(ms[..n])
  {
    assert ms[..n + 1] == ms[..n] + [ms[n]];
  }

  /** With no response pending, the rest of the stream is transcribed as the offline description says. */
  lemma {:induction false} OnlineIdle(ms: seq<Message>, n: nat)
    requires n <= |ms|
    ensures Online(State(None, [], NamesIn(ms[..n])), ms, n) == Transcript(ms, n)
    decreases |ms| - n, 0
  {
    if n < |ms| {
      if ms[n].Assistant? {
        RunOpens(ms, n);
        OnlineRun(ms, n, n + 1, RunState(ms, n, n + 1));
      } else {
        NamesSnoc(ms, n);
        OnlineIdle(ms, n + 1);
      }
    }
  }

  /** The state of a transcriber that opened a run at `i` and has read up to `n`. */
  ghost function RunState(ms: seq<Message>, i: nat, n: nat): State
    requires i < n <= |ms| && ms[i].Assistant?
  {
    State(Some(PendingAfter(ms, i, n)), EventsIn(ms, i, n), NamesIn(ms[..n]))
  }

  /** A message that does not break the run only grows the pending response or the held queue. */
  lemma {:induction false} RunContinues(ms: seq<Message>, i: nat, n: nat)
    requires i < n < |ms| && ms[i].Assistant? && !Breaks(ms[n], ms[i].id)
    ensures PushStep(RunState(ms, i, n), ms[n]) == (RunState(ms, i, n + 1), [])
  {
    NamesSnoc(ms, n);
    var st := RunState(ms, i, n);
    assert EventsIn(ms, i, n + 1) == EventsIn(ms, i, n) + EventsAt(ms, n);
    if ms[n].Assistant? {
      AbsorbFrame(ms, i, n);
      assert st.held + [] == st.held;
      assert PushStep(st, ms[n]).0.pending == Some(PendingAfter(ms, i, n + 1));
    } else {
      AbsorbFrame(ms, i, n);
    }
  }

  lemma {:induction false} RunOpens(ms: seq<Message>, n: nat)
    requires n < |ms| && ms[n].Assistant?
    ensures PushStep(State(None, [], NamesIn(ms[..n])), ms[n]) == (RunState(ms, n, n + 1), [])
  {
    NamesSnoc(ms, n);
    FirstFrame(ms, n);
    assert EventsIn(ms, n, n) == [];
    assert EventsIn(ms, n, n + 1) == [];
  }

  /** Emitting at the end of a run gives the events the offline description gives it. */
  lemma {:induction false} RunCloses(ms: seq<Message>, i: nat, n: nat)
    requires i < n <= |ms| && ms[i].Assistant?
    requires n < |ms| ==> Breaks(ms[n], ms[i].id)
    ensures n == |ms| ==> EmitStep(RunState(ms, i, n), false).1 == RunEvents(ms, i, n)
    ensures n < |ms| && ms[n].Assistant? ==>
              PushStep(RunState(ms, i, n), ms[n]) == (RunState(ms, n, n + 1), RunEvents(ms, i, n))
    ensures n < |ms| && ms[n].Result? ==>
              PushStep(RunState(ms, i, n), ms[n]) ==
              (State(None, [], NamesIn(ms[..n + 1])), RunEvents(ms, i, n) + EventsAt(ms, n))
  {
    if n < |ms| {
      NamesSnoc(ms, n);
      if ms[n].Assistant? {
        RunOpens(ms, n);
      }
    }
  }

  lemma OnlineUnfolds(st: State, ms: seq<Message>, n: nat, next: State, out: seq<Event>)
    requires n < |ms| && PushStep(st, ms[n]) == (next, out)
    ensures Online(st, ms, n) == out + Online(next, ms, n + 1)
  {
  }

  lemma OnlineEnds(st: State, ms: seq<Message>)
    ensures Online(st, ms, |ms|) == EmitStep(st, false).1
  {
  }

  lemma TranscriptUnfolds(ms: seq<Message>, i: nat)
    requires i < |ms|
    ensures ms[i].Assistant? ==>
              Transcript(ms, i) == RunEvents(ms, i, RunEnd(ms, ms[i].id, i + 1)) + Transcript(ms, RunEnd(ms, ms[i].id, i + 1))
    ensures !ms[i].Assistant? ==> Transcript(ms, i) == EventsAt(ms, i) + Transcript(ms, i + 1)
  {
  }

  lemma RunEndUnfolds(ms: seq<Message>, id: string, n: nat)
    requires n <= |ms|
    ensures n == |ms| ==> RunEnd(ms, id, n) == n && Transcript(ms, n) == []
    ensures n < |ms| && Breaks(ms[n], id) ==> RunEnd(ms, id, n) == n && (ms[n].Assistant? || ms[n].Result?)
    ensures n < |ms| && !Breaks(ms[n], id) ==> RunEnd(ms, id, n) == RunEnd(ms, id, n + 1)
  {
  }

  /** With a run open since `i`, the rest is the whole run followed by the rest after its end. */
  lemma {:induction false} OnlineRun(ms: seq<Message>, i: nat, n: nat, st: State)
    requires i < n <= |ms| && ms[i].Assistant? && st == RunState(ms, i, n)
    ensures Online(st, ms, n) ==
            var e := RunEnd(ms, ms[i].id, n); RunEvents(ms, i, e) + Transcript(ms, e)
    decreases |ms| - n, 1
  {
    hide *;
    RunEndUnfolds(ms, ms[i].id, n);
    if n == |ms| {
      OnlineEnds(st, ms);
      RunCloses(ms, i, n);
    } else if Breaks(ms[n], ms[i].id) {
      RunEnds(ms, i, n, st);
    } else {
      RunContinues(ms, i, n);
      var next := RunState(ms, i, n + 1);
      OnlineUnfolds(st, ms, n, next, []);
      OnlineRun(ms, i, n + 1, next);
    }
  }

  lemma {:induction false} RunEnds(ms: seq<Message>, i: nat, n: nat, st: State)
    requires i < n < |ms| && ms[i].Assistant? && st == RunState(ms, i, n)
    requires Breaks(ms[n], ms[i].id) && (ms[n].Assistant? || ms[n].Result?)
    ensures Online(st, ms, n) == RunEvents(ms, i, n) + Transcript(ms, n)
    decreases |ms| - n, 0
  {
    hide *;
    RunCloses(ms, i, n);
    TranscriptUnfolds(ms, n);
    if ms[n].Assistant? {
      var next := RunState(ms, n, n + 1);
      OnlineUnfolds(st, ms, n, next, RunEvents(ms, i, n));
      OnlineRun(ms, n, n + 1, next);
    } else {
      var next := State(None, [], NamesIn(ms[..n + 1]));
      OnlineUnfolds(st, ms, n, next, RunEvents(ms, i, n) + EventsAt(ms, n));
      OnlineIdle(ms, n + 1);
    }
  }

  /** The online transducer computes the offline transcript, for every message stream. */
  lemma OnlineIsOffline(ms: seq<Message>)
    ensures Online(INITIAL, ms, 0) == Transcript(ms, 0)
  {
    OnlineIdle(ms, 0);
  }

  // ---------------------------------------------------------------- what the transcript keeps

  function Keep(evs: seq<Event>, p: Event -> bool): seq<Event> {
    if evs == [] then []
    else (if p(evs[0]) then [evs[0]] else []) + Keep(evs[1..], p)
  }

  lemma {:induction false} KeepConcat(a: seq<Event>, b: seq<Event>, p: Event -> bool)
    ensures Keep(a + b, p) == Keep(a, p) + Keep(b, p)
  {
    if a == [] {
      assert a + b == b;
    } else {
      KeepConcat(a[1..], b, p);
      KeepNext(a, b, p);
      KeepNext(a, [], p);
      assert a + [] == a && a[1..] + [] == a[1..];
      hide Keep;
      Reassociate(if p(a[0]) then [a[0]] else [], Keep(a[1..], p), Keep(b, p));
    }
  }

  lemma KeepNext(a: seq<Event>, b: seq<Event>, p: Event -> bool)
    requires a != []
    ensures Keep(a + b, p) == (if p(a[0]) then [a[0]] else []) + Keep(a[1..] + b, p)
  {
    assert (a + b)[1..] == a[1..] + b;
  }

  lemma Reassociate(a: seq<Event>, b: seq<Event>, c: seq<Event>)
    ensures a + (b + c) == (a + b) + c
  {
  }

  lemma {:induction false} KeepAll(a: seq<Event>, p: Event -> bool)
    requires forall x :: x in a ==> p(x)
    ensures Keep(a, p) == a
  {
    if a != [] {
      KeepAll(a[1..], p);
      assert a == [a[0]] + a[1..];
    }
  }

  lemma {:induction false} KeepNone(a: seq<Event>, p: Event -> bool)
    requires forall x :: x in a ==> !p(x)
    ensures Keep(a, p) == []
  {
    if a != [] {
      KeepNone(a[1..], p);
    }
  }

  predicate IsCall(e: Event) { e.ToolCall? }
  predicate IsOther(e: Event) { e.ToolResult? || e.SdkMessage? }

  lemma {:induction false} ToolCallsAreCalls(content: seq<ContentBlock>)
    ensures forall e :: e in ToolCalls(content) ==> IsCall(e)
  {
    if content != [] {
      ToolCallsAreCalls(content[..|content| - 1]);
    }
  }

  lemma {:induction false} ToolResultsAreOther(names: map<string, string>, blocks: seq<UserBlock>)
    ensures forall e :: e in ToolResults(names, blocks) ==> e.ToolResult?
  {
    if blocks != [] {
      ToolResultsAreOther(names, blocks[..|blocks| - 1]);
    }
  }

  lemma {:induction false} EventsInAreOther(ms: seq<Message>, i: nat, e: nat)
    requires i <= e <= |ms|
    ensures forall x :: x in EventsIn(ms, i, e) ==> IsOther(x)
  {
    if i < e {
      EventsInAreOther(ms, i, e - 1);
      if ms[e - 1].User? {
        ToolResultsAreOther(NamesIn(ms[..e - 1]), ms[e - 1].blocks);
      }
    }
  }

  lemma {:induction false} EventsInSplit(ms: seq<Message>, i: nat, j: nat, e: nat)
    requires i <= j <= e <= |ms|
    ensures EventsIn(ms, i, e) == EventsIn(ms, i, j) + EventsIn(ms, j, e)
    decreases e - j
  {
    if j < e {
      EventsInSplit(ms, i, j, e - 1);
    }
  }

  /** The tool calls of the frames in `ms[i..e]`, in order. */
  function CallsIn(ms: seq<Message>, i: nat, e: nat): seq<Event>
    requires i <= e <= |ms|
  {
    ToolCalls(ContentOf(ms[i..e]))
  }

  lemma RunShape(ms: seq<Message>, i: nat, e: nat) returns (response: Event)
    requires i < e <= |ms| && ms[i].Assistant?
    ensures response.Response?
    ensures RunEvents(ms, i, e) == [response] + CallsIn(ms, i, e) + EventsIn(ms, i, e)
    ensures forall x :: x in CallsIn(ms, i, e) ==> IsCall(x)
    ensures forall x :: x in EventsIn(ms, i, e) ==> IsOther(x)
  {
    response := RunEvents(ms, i, e)[0];
    ToolCallsAreCalls(ContentOf(ms[i..e]));
    EventsInAreOther(ms, i, e);
  }

  lemma {:induction false} RunKeeps(ms: seq<Message>, i: nat, e: nat)
    requires i < e <= |ms| && ms[i].Assistant?
    ensures Keep(RunEvents(ms, i, e), IsOther) == EventsIn(ms, i, e)
    ensures Keep(RunEvents(ms, i, e), IsCall) == CallsIn(ms, i, e)
  {
    hide RunEvents, CallsIn, EventsIn;
    var response := RunShape(ms, i, e);
    KeepsOfRun(response, CallsIn(ms, i, e), EventsIn(ms, i, e));
  }

  lemma KeepsOfRun(response: Event, calls: seq<Event>, others: seq<Event>)
    requires response.Response?
    requires forall x :: x in calls ==> IsCall(x)
    requires forall x :: x in others ==> IsOther(x)
    ensures Keep([response] + calls + others, IsOther) == others
    ensures Keep([response] + calls + others, IsCall) == calls
  {
    CallsAndOthersDiffer(calls, others);
    KeepConcat([response] + calls, others, IsOther);
    KeepConcat([response], calls, IsOther);
    KeepNone([response], IsOther);
    KeepNone(calls, IsOther);
    KeepAll(others, IsOther);
    KeepConcat([response] + calls, others, IsCall);
    KeepConcat([response], calls, IsCall);
    KeepNone([response], IsCall);
    KeepAll(calls, IsCall);
    KeepNone(others, IsCall);
  }

  lemma CallsAndOthersDiffer(calls: seq<Event>, others: seq<Event>)
    requires forall x :: x in calls ==> IsCall(x)
    requires forall x :: x in others ==> IsOther(x)
    ensures forall x :: x in calls ==> !IsOther(x)
    ensures forall x :: x in others ==> !IsCall(x)
  {
  }

  /**
   Every tool result and SDK notice appears exactly once and in its original order, whatever
   responses it interleaves with.
   */
  lemma {:induction false} OtherEventsKeepOrder(ms: seq<Message>, i: nat)
    requires i <= |ms|
    ensures Keep(Transcript(ms, i), IsOther) == EventsIn(ms, i, |ms|)
    decreases |ms| - i
  {
    if i < |ms| {
      if ms[i].Assistant? {
        var e := RunEnd(ms, ms[i].id, i + 1);
        OtherEventsKeepOrder(ms, e);
        RunKeeps(ms, i, e);
        KeepConcat(RunEvents(ms, i, e), Transcript(ms, e), IsOther);
        EventsInSplit(ms, i, e, |ms|);
      } else {
        OtherEventsKeepOrder(ms, i + 1);
        EventsInSplit(ms, i, i + 1, |ms|);
        EventsInOne(ms, i);
        EventsInAreOther(ms, i, i + 1);
        KeepAll(EventsAt(ms, i), IsOther);
        KeepConcat(EventsAt(ms, i), Transcript(ms, i + 1), IsOther);
      }
    }
  }

  lemma Associates<T>(a: seq<T>, b: seq<T>, c: seq<T>)
    ensures (a + b) + c == a + (b + c)
  {
  }

  lemma {:induction false} ContentConcat(a: seq<Message>, b: seq<Message>)
    ensures ContentOf(a + b) == ContentOf(a) + ContentOf(b)
  {
    if b == [] {
      assert a + b == a;
    } else {
      var b', last := b[..|b| - 1], b[|b| - 1];
      ContentConcat(a, b');
      assert b == b' + [last] && a + b == (a + b') + [last];
      ContentSnocs(a, b', last);
    }
  }

  lemma ContentSnocs(a: seq<Message>, b: seq<Message>, last: Message)
    requires ContentOf(a + b) == ContentOf(a) + ContentOf(b)
    ensures ContentOf((a + b) + [last]) == ContentOf(a) + ContentOf(b + [last])
  {
    hide *;
    FoldsSnoc(a + b, last);
    FoldsSnoc(b, last);
    Associates(ContentOf(a), ContentOf(b), if last.Assistant? then ContentBlocks(last.content) else []);
  }

  lemma {:induction false} ToolCallsConcat(a: seq<ContentBlock>, b: seq<ContentBlock>)
    ensures ToolCalls(a + b) == ToolCalls(a) + ToolCalls(b)
  {
    if b == [] {
      assert a + b == a;
    } else {
      var b' := b[..|b| - 1];
      assert (a + b)[..|a + b| - 1] == a + b';
      ToolCallsConcat(a, b');
    }
  }

  lemma {:induction false} CallsInSplit(ms: seq<Message>, i: nat, k: nat, e: nat)
    requires i <= k <= e <= |ms|
    ensures CallsIn(ms, i, e) == CallsIn(ms, i, k) + CallsIn(ms, k, e)
  {
    hide ContentOf, ToolCalls;
    assert ms[i..e] == ms[i..k] + ms[k..e];
    ContentConcat(ms[i..k], ms[k..e]);
    ToolCallsConcat(ContentOf(ms[i..k]), ContentOf(ms[k..e]));
  }

  lemma CallsInNone(ms: seq<Message>, i: nat)
    requires i <= |ms|
    ensures CallsIn(ms, i, i) == []
  {
    assert ms[i..i] == [];
  }

  lemma CallsInOne(ms: seq<Message>, i: nat)
    requires i < |ms|
    ensures CallsIn(ms, i, i + 1) == if ms[i].Assistant? then ToolCalls(ContentBlocks(ms[i].content)) else []
  {
    FoldsSnoc([], ms[i]);
    assert ms[i..i + 1] == [] + [ms[i]];
    assert ContentOf([]) == [];
    if ms[i].Assistant? {
      assert [] + ContentBlocks(ms[i].content) == ContentBlocks(ms[i].content);
    }
  }

  /** Every tool use of every frame becomes exactly one tool call, in stream order. */
  lemma {:induction false} ToolCallsKeepOrder(ms: seq<Message>, i: nat)
    requires i <= |ms|
    ensures Keep(Transcript(ms, i), IsCall) == CallsIn(ms, i, |ms|)
    decreases |ms| - i
  {
    if i == |ms| {
      assert ms[i..|ms|] == [];
    } else {
      hide Keep, CallsIn, EventsIn, RunEvents;
      var e := if ms[i].Assistant? then RunEnd(ms, ms[i].id, i + 1) else i + 1;
      CallsInSplit(ms, i, e, |ms|);
      ToolCallsKeepOrder(ms, e);
      if ms[i].Assistant? {
        RunKeeps(ms, i, e);
        KeepConcat(RunEvents(ms, i, e), Transcript(ms, e), IsCall);
      } else {
        CallsInOne(ms, i);
        EventsInOne(ms, i);
        EventsInAreOther(ms, i, i + 1);
        CallsAndOthersDiffer([], EventsAt(ms, i));
        KeepNone(EventsAt(ms, i), IsCall);
        KeepConcat(EventsAt(ms, i), Transcript(ms, i + 1), IsCall);
      }
    }
  }

  lemma EventsInOne(ms: seq<Message>, i: nat)
    requires i < |ms|
    ensures EventsIn(ms, i, i + 1) == EventsAt(ms, i)
  {
    assert EventsIn(ms, i, i) == [];
  }

  // ---------------------------------------------------------------- calls precede their results

  /** Some call with this id and name is among the events. */
  ghost predicate Called(evs: seq<Event>, id: string, name: string) {
    exists k :: 0 <= k < |evs| && evs[k].ToolCall? && evs[k].id == id && evs[k].name == name
  }

  lemma CalledGrows(a: seq<Event>, b: seq<Event>, id: string, name: string)
    requires Called(a, id, name) || Called(b, id, name)
    ensures Called(a + b, id, name)
  {
    if Called(a, id, name) {
      var k :| 0 <= k < |a| && a[k].ToolCall? && a[k].id == id && a[k].name == name;
      assert (a + b)[k] == a[k];
    } else {
      var k :| 0 <= k < |b| && b[k].ToolCall? && b[k].id == id && b[k].name == name;
      assert (a + b)[|a| + k] == b[k];
    }
  }

  /** Every named tool result of `evs` has its call before it, counting the events of `before`. */
  ghost predicate ResultsFollowCalls(before: seq<Event>, evs: seq<Event>) {
    forall k :: 0 <= k < |evs| && evs[k].ToolResult? && evs[k].name != "" ==>
      Called(before + evs[..k], evs[k].id, evs[k].name)
  }

  ghost predicate NamesCalled(names: map<string, string>, evs: seq<Event>) {
    forall id :: id in names ==> Called(evs, id, names[id])
  }

  /** All names learnt from `content` on top of `names` are called in `evs`. */
  lemma {:induction false} LearntAreCalled(names: map<string, string>, content: seq<ContentBlock>, evs: seq<Event>)
    requires NamesCalled(names, evs)
    ensures NamesCalled(Learn(names, content), evs + ToolCalls(content))
  {
    var all := Learn(names, content);
    if content == [] {
      assert evs + [] == evs;
    } else {
      var last := content[|content| - 1];
      var rest := content[..|content| - 1];
      LearntAreCalled(names, rest, evs);
      var tail := if last.ToolUse? then [ToolCall(last.id, last.name, last.input)] else [];
      assert evs + ToolCalls(content) == (evs + ToolCalls(rest)) + tail;
      forall id | id in all
        ensures Called(evs + ToolCalls(content), id, all[id])
      {
        if last.ToolUse? && id == last.id {
          assert tail[0].ToolCall? && tail[0].id == id && tail[0].name == all[id];
          assert Called(tail, id, all[id]);
        } else {
          assert id in Learn(names, rest) && all[id] == Learn(names, rest)[id];
        }
        CalledGrows(evs + ToolCalls(rest), tail, id, all[id]);
      }
    }
  }

  lemma NamesCalledGrows(names: map<string, string>, a: seq<Event>, b: seq<Event>)
    requires NamesCalled(names, a)
    ensures NamesCalled(names, a + b)
  {
    forall id | id in names ensures Called(a + b, id, names[id]) {
      CalledGrows(a, b, id, names[id]);
    }
  }

  /** After the calls of the frames in `ms[i..n]`, every name known at `n` has been called. */
  lemma {:induction false} NamesAreCalled(ms: seq<Message>, i: nat, n: nat, before: seq<Event>)
    requires i <= n <= |ms|
    requires NamesCalled(NamesIn(ms[..i]), before)
    ensures NamesCalled(NamesIn(ms[..n]), before + CallsIn(ms, i, n))
    decreases n
  {
    hide *;
    if i == n {
      CallsInNone(ms, i);
      assert before + CallsIn(ms, i, n) == before;
    } else {
      NamesAreCalled(ms, i, n - 1, before);
      NamesSnoc(ms, n - 1);
      CallsInOne(ms, n - 1);
      CallsInSplit(ms, i, n - 1, n);
      var before' := before + CallsIn(ms, i, n - 1);
      assert before + CallsIn(ms, i, n) == before' + CallsIn(ms, n - 1, n);
      if ms[n - 1].Assistant? {
        LearntAreCalled(NamesIn(ms[..n - 1]), ContentBlocks(ms[n - 1].content), before');
      } else {
        assert before' + [] == before';
      }
    }
  }

  lemma {:induction false} ResultsNamed(names: map<string, string>, blocks: seq<UserBlock>, before: seq<Event>)
    requires NamesCalled(names, before)
    ensures forall e :: e in ToolResults(names, blocks) ==> e.ToolResult? && (e.name != "" ==> Called(before, e.id, e.name))
  {
    if blocks != [] {
      ResultsNamed(names, blocks[..|blocks| - 1], before);
    }
  }

  /** The held events of a run, given that the calls made so far cover every name used in it. */
  lemma {:induction false} HeldResultsNamed(ms: seq<Message>, i: nat, n: nat, before: seq<Event>)
    requires i <= n <= |ms|
    requires forall k :: i <= k < n ==> NamesCalled(NamesIn(ms[..k]), before)
    ensures forall e :: e in EventsIn(ms, i, n) && e.ToolResult? && e.name != "" ==> Called(before, e.id, e.name)
  {
    if i < n {
      HeldResultsNamed(ms, i, n - 1, before);
      if ms[n - 1].User? {
        ResultsNamed(NamesIn(ms[..n - 1]), ms[n - 1].blocks, before);
      }
    }
  }

  lemma FollowConcat(before: seq<Event>, a: seq<Event>, b: seq<Event>)
    requires ResultsFollowCalls(before, a) && ResultsFollowCalls(before + a, b)
    ensures ResultsFollowCalls(before, a + b)
  {
    var evs := a + b;
    forall k | 0 <= k < |evs| && evs[k].ToolResult? && evs[k].name != ""
      ensures Called(before + evs[..k], evs[k].id, evs[k].name)
    {
      if k < |a| {
        assert evs[..k] == a[..k];
      } else {
        assert before + evs[..k] == (before + a) + b[..k - |a|];
      }
    }
  }

  lemma FollowCovered(before: seq<Event>, evs: seq<Event>)
    requires forall e :: e in evs && e.ToolResult? && e.name != "" ==> Called(before, e.id, e.name)
    ensures ResultsFollowCalls(before, evs)
  {
    forall k | 0 <= k < |evs| && evs[k].ToolResult? && evs[k].name != ""
      ensures Called(before + evs[..k], evs[k].id, evs[k].name)
    {
      CalledGrows(before, evs[..k], evs[k].id, evs[k].name);
    }
  }

  lemma {:induction false} CallsNamesMonotone(ms: seq<Message>, i: nat, k: nat, e: nat, before: seq<Event>)
    requires i <= k <= e <= |ms|
    requires NamesCalled(NamesIn(ms[..i]), before)
    ensures NamesCalled(NamesIn(ms[..k]), before + CallsIn(ms, i, e))
  {
    hide *;
    NamesAreCalled(ms, i, k, before);
    CallsInSplit(ms, i, k, e);
    NamesCalledGrows(NamesIn(ms[..k]), before + CallsIn(ms, i, k), CallsIn(ms, k, e));
    assert (before + CallsIn(ms, i, k)) + CallsIn(ms, k, e) == before + CallsIn(ms, i, e);
  }

  lemma CallsAreNotResults(response: Event, calls: seq<Event>)
    requires response.Response?
    requires forall x :: x in calls ==> IsCall(x)
    ensures forall x :: x in [response] + calls ==> !x.ToolResult?
  {
  }

  lemma {:induction false} RunFollows(ms: seq<Message>, i: nat, e: nat, before: seq<Event>)
    requires i < e <= |ms| && ms[i].Assistant?
    requires NamesCalled(NamesIn(ms[..i]), before)
    ensures ResultsFollowCalls(before, RunEvents(ms, i, e))
    ensures NamesCalled(NamesIn(ms[..e]), before + RunEvents(ms, i, e))
  {
    hide *;
    var response := RunShape(ms, i, e);
    var calls, others := CallsIn(ms, i, e), EventsIn(ms, i, e);
    CallsAreNotResults(response, calls);
    NamesCalledGrows(NamesIn(ms[..i]), before, [response]);
    var done := before + ([response] + calls);
    assert (before + [response]) + calls == done;
    forall k | i <= k <= e
      ensures NamesCalled(NamesIn(ms[..k]), done)
    {
      CallsNamesMonotone(ms, i, k, e, before + [response]);
    }
    FollowCovered(before, [response] + calls);
    HeldResultsNamed(ms, i, e, done);
    FollowCovered(done, others);
    FollowConcat(before, [response] + calls, others);
    NamesCalledGrows(NamesIn(ms[..e]), done, others);
    assert done + others == before + RunEvents(ms, i, e);
  }

  /** A tool result whose name was resolved never precedes the tool call it answers. */
  lemma {:induction false} NamedResultsFollowCalls(ms: seq<Message>, i: nat, before: seq<Event>)
    requires i <= |ms|
    requires NamesCalled(NamesIn(ms[..i]), before)
    ensures ResultsFollowCalls(before, Transcript(ms, i))
    decreases |ms| - i
  {
    if i < |ms| {
      if ms[i].Assistant? {
        var e := RunEnd(ms, ms[i].id, i + 1);
        RunFollows(ms, i, e, before);
        NamedResultsFollowCalls(ms, e, before + RunEvents(ms, i, e));
        FollowConcat(before, RunEvents(ms, i, e), Transcript(ms, e));
      } else {
        NamesSnoc(ms, i);
        EventsInOne(ms, i);
        HeldResultsNamed(ms, i, i + 1, before);
        FollowCovered(before, EventsAt(ms, i));
        NamesCalledGrows(NamesIn(ms[..i]), before, EventsAt(ms, i));
        NamedResultsFollowCalls(ms, i + 1, before + EventsAt(ms, i));
        FollowConcat(before, EventsAt(ms, i), Transcript(ms, i + 1));
      }
    }
  }

  // ---------------------------------------------------------------- usage

  ghost predicate Covers(u: RunUsage, v: RunUsage) {
    u.input >= v.input && u.output >= v.output && u.cacheRead >= v.cacheRead && u.cacheWrite >= v.cacheWrite
    && (v.thinking.Some? ==> u.thinking.Some? && u.thinking.value >= v.thinking.value)
  }

  lemma MaxUsageIsLeastCover(a: RunUsage, b: RunUsage, bound: RunUsage)
    ensures Covers(MaxUsage(a, b), a) && Covers(MaxUsage(a, b), b)
    ensures Covers(bound, a) && Covers(bound, b) ==> Covers(bound, MaxUsage(a, b))
  {
  }

  lemma CoversTransitive(a: RunUsage, b: RunUsage, c: RunUsage)
    requires Covers(a, b) && Covers(b, c)
    ensures Covers(a, c)
  {
  }

  /** The usage of a response is the least usage that covers every frame's. */
  lemma {:induction false} UsageIsPointwiseMaximum(ms: seq<Message>, bound: RunUsage)
    ensures forall m :: m in ms && m.Assistant? ==> Covers(UsageOf(ms), UsageFromProvider(m.usage))
    ensures (forall m :: m in ms && m.Assistant? ==> Covers(bound, UsageFromProvider(m.usage))) ==>
              Covers(bound, UsageOf(ms))
  {
    if ms != [] {
      var rest := ms[..|ms| - 1];
      var last := ms[|ms| - 1];
      assert ms == rest + [last];
      UsageIsPointwiseMaximum(rest, bound);
      if last.Assistant? {
        hide Covers, MaxUsage, UsageFromProvider;
        MaxUsageIsLeastCover(UsageOf(rest), UsageFromProvider(last.usage), bound);
        forall m | m in rest && m.Assistant? ensures Covers(UsageOf(ms), UsageFromProvider(m.usage)) {
          CoversTransitive(UsageOf(ms), UsageOf(rest), UsageFromProvider(m.usage));
        }
      }
    }
  }

  // ---------------------------------------------------------------- the class

  class SdkStreamTranscriber {
    var pending: Option<PendingResponse>
    var held: seq<Event>
    var toolNames: map<string, string>

    ghost function View(): State
      reads this
    {
      State(pending, held, toolNames)
    }

    constructor ()
      ensures View() == INITIAL
    {
      pending, held, toolNames := None, [], map[];
    }

    /** Emits the pending response, its tool calls and everything held behind it. */
    method Emit(followedByResponse: bool) returns (out: seq<Event>)
      modifies this
      ensures (View(), out) == EmitStep(old(View()), followedByResponse)
    {
      var p, h := pending, held;
      pending, held := None, [];
      match p
      case None => out := h;
      case Some(response) =>
        out := [ResponseOf(response, followedByResponse)] + ToolCalls(response.content) + h;
    }

    method Flush() returns (out: seq<Event>)
      modifies this
      ensures (View(), out) == EmitStep(old(View()), false)
    {
      out := Emit(false);
    }

    method LearnNames(blocks: seq<ContentBlock>)
      modifies this`toolNames
      ensures toolNames == Learn(old(toolNames), blocks)
    {
      for k := 0 to |blocks|
        invariant toolNames == Learn(old(toolNames), blocks[..k])
      {
        assert blocks[..k + 1][..k] == blocks[..k];
        if blocks[k].ToolUse? {
          toolNames := toolNames[blocks[k].id := blocks[k].name];
        }
      }
      assert blocks[..|blocks|] == blocks;
    }

    method ReadToolResults(blocks: seq<UserBlock>) returns (events: seq<Event>)
      ensures events == ToolResults(toolNames, blocks)
    {
      events := [];
      for k := 0 to |blocks|
        invariant events == ToolResults(toolNames, blocks[..k])
      {
        assert blocks[..k + 1][..k] == blocks[..k];
        match blocks[k]
        case OtherUserBlock =>
        case ToolResultBlock(id, output, isError) =>
          events := events + [ToolResult(id, Named(toolNames, id), output, isError)];
      }
      assert blocks[..|blocks|] == blocks;
    }

    method PushFrame(m: Message) returns (out: seq<Event>)
      requires m.Assistant?
      modifies this
      ensures (View(), out) == PushStep(old(View()), m)
    {
      out := [];
      if pending.Some? && pending.value.messageId != m.id {
        out := Emit(true);
      }
      if pending.None? {
        pending := Some(PendingResponse(m.id, m.model, [], None, NO_USAGE, None));
      }
      var blocks := ContentBlocks(m.content);
      pending := Some(pending.value.(content := pending.value.content + blocks));
      LearnNames(blocks);
      if m.stopReason.Some? {
        pending := Some(pending.value.(stopReason := m.stopReason));
      } else if m.hitOutputLimit {
        pending := Some(pending.value.(stopReason := Some("max_tokens")));
      }
      pending := Some(pending.value.(usage := MaxUsage(pending.value.usage, UsageFromProvider(m.usage))));
      if pending.value.requestId.None? && m.requestId.Some? {
        pending := Some(pending.value.(requestId := m.requestId));
      }
    }

    method Push(m: Message) returns (out: seq<Event>)
      modifies this
      ensures (View(), out) == PushStep(old(View()), m)
    {
      if m.Assistant? {
        out := PushFrame(m);
        return;
      }
      if m.Result? {
        if pending.Some? && pending.value.stopReason.None? && m.resultStop.Some? {
          pending := Some(pending.value.(stopReason := m.resultStop));
        }
        var flushed := Flush();
        return flushed + [SdkMessage(m)];
      }
      var events := [];
      if m.User? {
        events := ReadToolResults(m.blocks);
      } else {
        events := [SdkMessage(m)];
      }
      if pending.None? {
        return events;
      }
      held := held + events;
      out := [];
    }
  }

  /** Pushing a whole stream through a new transcriber and flushing it writes the offline transcript. */
  method TranscribeAll(ms: seq<Message>) returns (out: seq<Event>)
    ensures out == Transcript(ms, 0)
  {
    var t := new SdkStreamTranscriber();
    out := [];
    for n := 0 to |ms|
      invariant fresh(t)
      invariant out + Online(t.View(), ms, n) == Online(INITIAL, ms, 0)
    {
      var events := t.Push(ms[n]);
      out := out + events;
    }
    var rest := t.Flush();
    out := out + rest;
    OnlineIsOffline(ms);
  }
}
