/**
 The agent tool loop (packages/agent-core/src/tool-loop.ts).

 The model port, the middleware hooks, the tools, the event listener and the abort signal are one
 environment of arbitrary functions.  Each is also given the number of environment calls made so
 far, so that it may answer the same question differently each time.  A hook or the listener may
 throw; the loop does not catch that, so the run then ends without a result.
 */
module ToolLoop {
  import opened Wrappers

  // ---------------------------------------------------------------- data

  datatype Json = JString(text: string) | JArray(items: seq<Json>) | JObject(fields: seq<Field>) | JOther(n: int)

  datatype Field = Field(key: string, value: Json)

  datatype Part =
    | Text(text: string)
    | ToolUse(id: string, name: string, input: Json)
    | ToolResult(toolUseId: string, output: string, isError: bool)

  /** What a model response may contain. */
  type ReplyPart = p: Part | !p.ToolResult? witness Text("")

  datatype Role = User | Assistant

  datatype Message = Message(role: Role, content: seq<Part>)

  datatype Usage = Usage(input: int, output: int, cacheRead: int, cacheWrite: int)

  datatype Pricing = Pricing(input: real, output: real, cacheWrite: real, cacheRead: real)

  datatype AgentState = AgentState(turnCount: nat, toolCallCount: nat, testsRan: bool, gaveUp: bool,
                                   giveUpReason: Option<string>, tokenUsage: Usage,
                                   toolHistory: seq<Field>)

  datatype Reply = Reply(content: seq<ReplyPart>, usage: Usage, stopReason: Option<string>)

  datatype Generated = Replied(reply: Reply) | Failed(code: string, message: string)

  datatype Event =
    | MessageEvent(content: string)
    | Injected(content: string)
    | ToolCallEvent(id: string, name: string, input: Json)
    | ToolResultEvent(id: string, name: string, output: string, isError: bool)
    | TurnStart(turn: nat)
    | TurnEnd(turn: nat, tokenUsage: Usage)
    | Completed(summary: string)
    | Error(code: string, message: string)

  datatype Completion = Completion(success: bool, summary: string, turnCount: nat, toolCallCount: nat,
                                   testsRan: bool, tokenUsage: Usage, toolHistory: seq<Field>)

  datatype Call = Call(id: string, name: string, input: Json)

  datatype Verdict = VerdictThrew | Verdict(allow: bool, inject: Option<string>, after: AgentState)
  datatype Check = CheckThrew | Check(inject: Option<string>, after: AgentState)
  datatype After = AfterThrew | After(after: AgentState)
  datatype Execution = Done(output: string) | Threw(message: string)

  datatype Environment = Environment(
    generate: (nat, seq<Message>) -> Generated,
    preTool: (nat, Call, AgentState) -> Verdict,
    execute: (nat, Call) -> Execution,
    postTool: (nat, Call, string, bool, AgentState) -> After,
    preCompletion: (nat, AgentState) -> Check,
    hears: (nat, Event) -> bool,
    aborted: nat -> bool)

  datatype Options = Options(userMessage: string, maxTurns: int, tools: set<string>,
                             budgetUsd: Option<real>, pricing: Pricing, redact: string -> string)

  // ---------------------------------------------------------------- pure helpers

  function CalculateCost(u: Usage, p: Pricing): real {
    u.input as real / 1_000_000.0 * p.input + u.output as real / 1_000_000.0 * p.output
    + u.cacheWrite as real / 1_000_000.0 * p.cacheWrite + u.cacheRead as real / 1_000_000.0 * p.cacheRead
  }

  function AddUsage(a: Usage, b: Usage): Usage {
    Usage(a.input + b.input, a.output + b.output, a.cacheRead + b.cacheRead, a.cacheWrite + b.cacheWrite)
  }

  function RedactValue(v: Json, redact: string -> string): Json {
    match v
    case JString(text) => JString(redact(text))
    case JArray(items) => JArray(RedactItems(items, redact))
    case JObject(fields) => JObject(RedactFields(fields, redact))
    case JOther(_) => v
  }

  function RedactItems(items: seq<Json>, redact: string -> string): seq<Json> {
    if items == [] then [] else [RedactValue(items[0], redact)] + RedactItems(items[1..], redact)
  }

  function RedactFields(fields: seq<Field>, redact: string -> string): seq<Field> {
    if fields == [] then []
    else [RedactField(fields[0], redact)] + RedactFields(fields[1..], redact)
  }

  function RedactField(f: Field, redact: string -> string): Field {
    Field(redact(f.key), RedactValue(f.value, redact))
  }

  function RedactPart(p: ReplyPart, redact: string -> string): ReplyPart {
    match p
    case Text(text) => Text(redact(text))
    case ToolUse(id, name, input) => ToolUse(redact(id), redact(name), RedactValue(input, redact))
  }

  function RedactContent(content: seq<ReplyPart>, redact: string -> string): (r: seq<ReplyPart>)
    ensures |r| == |content|
    ensures forall k :: 0 <= k < |r| ==> r[k] == RedactPart(content[k], redact)
  {
    seq(|content|, k requires 0 <= k < |content| => RedactPart(content[k], redact))
  }

  function RedactEvent(e: Event, redact: string -> string): Event {
    match e
    case MessageEvent(content) => MessageEvent(redact(content))
    case Injected(content) => Injected(redact(content))
    case ToolCallEvent(id, name, input) => ToolCallEvent(redact(id), redact(name), RedactValue(input, redact))
    case ToolResultEvent(id, name, output, isError) =>
      ToolResultEvent(redact(id), redact(name), redact(output), isError)
    case Completed(summary) => Completed(redact(summary))
    case Error(code, message) => Error(redact(code), redact(message))
    case _ => e
  }

  function ToResult(success: bool, summary: string, st: AgentState, redact: string -> string): Completion {
    Completion(success, redact(summary), st.turnCount, st.toolCallCount, st.testsRan, st.tokenUsage,
               RedactFields(st.toolHistory, redact))
  }

  function ToolUses(content: seq<Part>): seq<Part> {
    if content == [] then []
    else ToolUses(content[..|content| - 1]) +
         (if content[|content| - 1].ToolUse? then [content[|content| - 1]] else [])
  }

  predicate TakesToolBranch(r: Reply) {
    r.stopReason != Some("end_turn") && exists p :: p in r.content && p.ToolUse?
  }

  // ---------------------------------------------------------------- what a run is judged by

  /** What the loop leaves behind: the model calls with their histories and the usage known at each. */
  datatype ModelCall = ModelCall(history: seq<Message>, usageBefore: Usage, answer: Generated)

  /** Hooks that leave the turn counter alone. */
  ghost predicate KeepsTurnCount(env: Environment) {
    && (forall n: nat, c: Call, st: AgentState ::
          env.preTool(n, c, st).Verdict? ==> env.preTool(n, c, st).after.turnCount == st.turnCount)
    && (forall n: nat, c: Call, o: string, e: bool, st: AgentState ::
          env.postTool(n, c, o, e, st).After? ==> env.postTool(n, c, o, e, st).after.turnCount == st.turnCount)
    && (forall n: nat, st: AgentState ::
          env.preCompletion(n, st).Check? ==> env.preCompletion(n, st).after.turnCount == st.turnCount)
  }

  /** What a run asked of its middleware, tools and listener, with the number of the environment call: before a tool, the
      tool itself, after a tool, before completion, an event. */
  datatype Contact =
    | Asked(n: nat, call: Call, st: AgentState)
    | Executed(n: nat, call: Call)
    | Told(n: nat, call: Call, output: string, isError: bool, st: AgentState)
    | Checked(n: nat, st: AgentState)
    | Emitted(n: nat, event: Event)

  /** The hook or the listener threw on that contact.  A tool that throws does not count: the loop catches it. */
  predicate ThrewAt(env: Environment, c: Contact) {
    match c
    case Asked(n, call, st) => env.preTool(n, call, st).VerdictThrew?
    case Executed(_, _) => false
    case Told(n, call, output, isError, st) => env.postTool(n, call, output, isError, st).AfterThrew?
    case Checked(n, st) => env.preCompletion(n, st).CheckThrew?
    case Emitted(n, event) => !env.hears(n, event)
  }

  predicate Thrown(env: Environment, cs: seq<Contact>) { exists c :: c in cs && ThrewAt(env, c) }

  /** Nothing is asked of anyone after a throw. */
  predicate ThrowsLast(env: Environment, cs: seq<Contact>) { forall i :: 0 <= i < |cs| - 1 ==> !ThrewAt(env, cs[i]) }

  predicate EndsInListener(cs: seq<Contact>) { cs != [] && cs[|cs| - 1].Emitted? }

  /** The hook left the token usage alone on that contact. */
  predicate KeepsUsageAt(env: Environment, c: Contact) {
    match c
    case Asked(n, call, st) =>
      env.preTool(n, call, st).Verdict? ==> env.preTool(n, call, st).after.tokenUsage == st.tokenUsage
    case Executed(_, _) => true
    case Emitted(_, _) => true
    case Told(n, call, output, isError, st) =>
      env.postTool(n, call, output, isError, st).After? ==>
        env.postTool(n, call, output, isError, st).after.tokenUsage == st.tokenUsage
    case Checked(n, st) =>
      env.preCompletion(n, st).Check? ==> env.preCompletion(n, st).after.tokenUsage == st.tokenUsage
  }

  predicate UsageKept(env: Environment, cs: seq<Contact>) { forall c :: c in cs ==> KeepsUsageAt(env, c) }

  lemma NothingThrown(env: Environment)
    ensures !Thrown(env, []) && ThrowsLast(env, []) && UsageKept(env, [])
  {
  }

  lemma OneContact(env: Environment, c: Contact)
    ensures Thrown(env, [c]) <==> ThrewAt(env, c)
    ensures UsageKept(env, [c]) <==> KeepsUsageAt(env, c)
    ensures ThrowsLast(env, [c])
  {
    hide ThrewAt, KeepsUsageAt;
    assert [c][0] in [c];
  }

  lemma ContactsConcat(env: Environment, a: seq<Contact>, b: seq<Contact>)
    ensures Thrown(env, a + b) <==> Thrown(env, a) || Thrown(env, b)
    ensures UsageKept(env, a + b) <==> UsageKept(env, a) && UsageKept(env, b)
    ensures !Thrown(env, a) && ThrowsLast(env, b) ==> ThrowsLast(env, a + b)
    ensures EndsInListener(b) ==> EndsInListener(a + b)
  {
    hide ThrewAt, KeepsUsageAt;
    assert forall c :: c in a + b <==> c in a || c in b;
    if !Thrown(env, a) && ThrowsLast(env, b) {
      forall i | 0 <= i < |a + b| - 1 ensures !ThrewAt(env, (a + b)[i]) {
        assert if i < |a| then (a + b)[i] in a else (a + b)[i] == b[i - |a|];
      }
    }
  }

  // ---------------------------------------------------------------- events

  /** Events given to the listener, up to the first on which it throws. */
  datatype Emission = Emission(ok: bool, step: nat, events: seq<Event>, contacts: seq<Contact>)

  function EmitAll(env: Environment, step: nat, events: seq<Event>): Emission {
    if events == [] then Emission(true, step, [], [])
    else
      var last := events[|events| - 1];
      var before := EmitAll(env, step, events[..|events| - 1]);
      if !before.ok then before
      else Emission(env.hears(before.step, last), before.step + 1, before.events + [last],
                    before.contacts + [Emitted(before.step, last)])
  }

  /** The events of an emission are given in order, all of them unless the listener throws on the last one given. */
  lemma {:induction false} EmissionMeans(env: Environment, step: nat, events: seq<Event>)
    ensures var m := EmitAll(env, step, events);
            && m.events <= events && (m.ok ==> m.events == events) && (!m.ok ==> m.events != [])
            && (forall c :: c in m.contacts ==> c.Emitted?) && (m.events != [] ==> EndsInListener(m.contacts))
            && (m.ok <==> !Thrown(env, m.contacts)) && ThrowsLast(env, m.contacts) && UsageKept(env, m.contacts)
  {
    hide Thrown, ThrowsLast, UsageKept;
    if events == [] {
      NothingThrown(env);
    } else {
      var n := |events| - 1;
      EmissionMeans(env, step, events[..n]);
      var before := EmitAll(env, step, events[..n]);
      if before.ok {
        OneContact(env, Emitted(before.step, events[n]));
        ContactsConcat(env, before.contacts, [Emitted(before.step, events[n])]);
      }
    }
  }

  lemma EmitNext(env: Environment, step: nat, events: seq<Event>, e: Event)
    ensures EmitAll(env, step, events + [e]) ==
            var m := EmitAll(env, step, events);
            if !m.ok then m else Emission(env.hears(m.step, e), m.step + 1, m.events + [e], m.contacts + [Emitted(m.step, e)])
  {
    assert (events + [e])[..|events|] == events;
  }

  lemma {:induction false} EmitStops(env: Environment, step: nat, events: seq<Event>, n: nat)
    requires n <= |events| && !EmitAll(env, step, events[..n]).ok
    ensures EmitAll(env, step, events) == EmitAll(env, step, events[..n])
    decreases |events|
  {
    if n < |events| {
      assert events[..|events| - 1][..n] == events[..n];
      EmitStops(env, step, events[..|events| - 1], n);
    } else {
      assert events[..n] == events;
    }
  }

  /** Gives events to the listener, in order. */
  method Emit(env: Environment, step0: nat, all: seq<Event>)
    returns (ok: bool, step: nat, events: seq<Event>, contacts: seq<Contact>)
    ensures Emission(ok, step, events, contacts) == EmitAll(env, step0, all)
  {
    ok, step, events, contacts := true, step0, [], [];
    for k := 0 to |all|
      invariant ok && Emission(ok, step, events, contacts) == EmitAll(env, step0, all[..k])
    {
      assert all[..k + 1] == all[..k] + [all[k]];
      EmitNext(env, step0, all[..k], all[k]);
      events, contacts := events + [all[k]], contacts + [Emitted(step, all[k])];
      ok := env.hears(step, all[k]);
      step := step + 1;
      if !ok {
        EmitStops(env, step0, all, k + 1);
        return;
      }
    }
    assert all[..|all|] == all;
  }

  /** A text the redactor produced. */
  ghost predicate Clean(text: string, redact: string -> string) {
    exists raw: string :: redact(raw) == text
  }

  /** The user message `results` answers the tool uses `uses`, one redacted result each, in order. */
  ghost predicate Answers(results: seq<Part>, uses: seq<Part>, redact: string -> string) {
    && |results| == |uses|
    && forall k :: 0 <= k < |uses| ==>
         && results[k].ToolResult? && uses[k].ToolUse? && results[k].toolUseId == uses[k].id
         && Clean(results[k].output, redact)
  }

  /** One redacted text. */
  ghost predicate IsText(content: seq<Part>, redact: string -> string) {
    |content| == 1 && content[0].Text? && Clean(content[0].text, redact)
  }

  /** A history after `replies`: one user message, then an assistant and a user message for each reply. */
  ghost predicate HistoryOf(history: seq<Message>, replies: seq<Reply>, redact: string -> string) {
    && |history| == 2 * |replies| + 1
    && history[0].role == User && IsText(history[0].content, redact)
    && forall k :: 0 <= k < |replies| ==>
         && history[2 * k + 1] == Message(Assistant, RedactContent(replies[k].content, redact))
         && history[2 * k + 2].role == User
         && if TakesToolBranch(replies[k])
            then Answers(history[2 * k + 2].content, ToolUses(history[2 * k + 1].content), redact)
            else IsText(history[2 * k + 2].content, redact)
  }

  predicate Alternates(history: seq<Message>) {
    && history != [] && history[0].role == User && history[|history| - 1].role == User
    && forall k :: 0 <= k < |history| - 1 ==> history[k].role != history[k + 1].role
  }

  /** The turn boundaries among the events, in order. */
  function Marks(events: seq<Event>): seq<(bool, nat)> {
    if events == [] then []
    else
      var last := events[|events| - 1];
      Marks(events[..|events| - 1]) +
      (if last.TurnStart? then [(true, last.turn)] else if last.TurnEnd? then [(false, last.turn)] else [])
  }

  /** Turn starts and ends alternate and number the turns after `first` consecutively. */
  ghost predicate TurnsInOrder(marks: seq<(bool, nat)>, first: nat) {
    forall k :: 0 <= k < |marks| ==> marks[k] == (k % 2 == 0, first + 1 + k / 2)
  }

  predicate IsTerminal(e: Event) { e.Completed? || e.Error? }

  function Terminals(events: seq<Event>): seq<Event> {
    if events == [] then []
    else
      var last := events[|events| - 1];
      Terminals(events[..|events| - 1]) + (if IsTerminal(last) then [last] else [])
  }

  /** An event between two turn boundaries that does not end the run. */
  predicate IsPlain(e: Event) { !IsTerminal(e) && !e.TurnStart? && !e.TurnEnd? }

  lemma {:induction false} MarksConcat(a: seq<Event>, b: seq<Event>)
    ensures Marks(a + b) == Marks(a) + Marks(b)
  {
    if b == [] {
      assert a + b == a;
    } else {
      MarksConcat(a, b[..|b| - 1]);
      assert (a + b)[..|a + b| - 1] == a + b[..|b| - 1];
    }
  }

  lemma {:induction false} TerminalsConcat(a: seq<Event>, b: seq<Event>)
    ensures Terminals(a + b) == Terminals(a) + Terminals(b)
  {
    if b == [] {
      assert a + b == a;
    } else {
      TerminalsConcat(a, b[..|b| - 1]);
      assert (a + b)[..|a + b| - 1] == a + b[..|b| - 1];
    }
  }

  lemma EventsConcat(a: seq<Event>, b: seq<Event>)
    ensures Marks(a + b) == Marks(a) + Marks(b) && Terminals(a + b) == Terminals(a) + Terminals(b)
  {
    MarksConcat(a, b);
    TerminalsConcat(a, b);
  }

  lemma {:induction false} PlainEvents(events: seq<Event>)
    requires forall e :: e in events ==> IsPlain(e)
    ensures Marks(events) == [] && Terminals(events) == []
  {
    if events != [] {
      PlainEvents(events[..|events| - 1]);
      assert events[|events| - 1] in events;
    }
  }

  /** The events of a turn: plain ones between its start and the events that close it. */
  lemma TurnEvents(turn: nat, plain: seq<Event>, closing: seq<Event>)
    requires forall e :: e in plain ==> IsPlain(e)
    ensures Marks([TurnStart(turn)] + plain + closing) == [(true, turn)] + Marks(closing)
    ensures Terminals([TurnStart(turn)] + plain + closing) == Terminals(closing)
  {
    OneEvent(TurnStart(turn));
    assert Terminals([TurnStart(turn)]) == [];
    PlainEvents(plain);
    TurnConcat([TurnStart(turn)], plain, closing);
  }

  lemma TurnConcat(a: seq<Event>, b: seq<Event>, c: seq<Event>)
    requires Marks(b) == [] && Terminals(a) == Terminals(b) == []
    ensures Marks(a + b + c) == Marks(a) + Marks(c)
    ensures Terminals(a + b + c) == Terminals(c)
  {
    hide *;
    EventsConcat(a + b, c);
    EventsConcat(a, b);
  }

  lemma OneEvent(e: Event)
    ensures Marks([e]) == if e.TurnStart? then [(true, e.turn)] else if e.TurnEnd? then [(false, e.turn)] else []
    ensures Terminals([e]) == if IsTerminal(e) then [e] else []
  {
    assert [e][..0] == [];
  }

  lemma TwoEvents(d: Event, e: Event)
    ensures Marks([d, e]) == Marks([d]) + Marks([e]) && Terminals([d, e]) == Terminals([d]) + Terminals([e])
  {
    EventsConcat([d], [e]);
    assert [d] + [e] == [d, e];
  }

  lemma RedactKeepsKind(e: Event, redact: string -> string)
    ensures IsPlain(RedactEvent(e, redact)) == IsPlain(e) && IsTerminal(RedactEvent(e, redact)) == IsTerminal(e)
  {
  }

  lemma {:induction false} ToolUsesRedacted(content: seq<ReplyPart>, redact: string -> string)
    ensures ToolUses(RedactContent(content, redact)) != [] <==> exists p :: p in content && p.ToolUse?
    ensures forall u :: u in ToolUses(RedactContent(content, redact)) ==> u.ToolUse?
  {
    var all := RedactContent(content, redact);
    if content != [] {
      var rest := content[..|content| - 1];
      assert all[..|all| - 1] == RedactContent(rest, redact);
      ToolUsesRedacted(rest, redact);
      assert content == rest + [content[|content| - 1]];
    }
  }

  /** A history of replies starts with a user message, alternates roles and ends with a user message. */
  lemma HistoriesAlternate(history: seq<Message>, replies: seq<Reply>, redact: string -> string)
    requires HistoryOf(history, replies, redact)
    ensures Alternates(history)
  {
    hide Answers, IsText, TakesToolBranch, ToolUses;
    forall k | 0 <= k < |history| - 1 ensures history[k].role != history[k + 1].role {
      if k % 2 == 0 {
        assert history[2 * (k / 2) + 1].role == Assistant;
        if k > 0 {
          assert history[2 * (k / 2 - 1) + 2].role == User;
        }
      } else {
        assert history[2 * (k / 2) + 1].role == Assistant && history[2 * (k / 2) + 2].role == User;
      }
    }
    if |replies| > 0 {
      assert history[2 * (|replies| - 1) + 2].role == User;
    }
  }

  lemma HistoryGrows(history: seq<Message>, replies: seq<Reply>, redact: string -> string, r: Reply, user: Message)
    requires HistoryOf(history, replies, redact) && user.role == User
    requires if TakesToolBranch(r) then Answers(user.content, ToolUses(RedactContent(r.content, redact)), redact)
             else IsText(user.content, redact)
    ensures HistoryOf(history + [Message(Assistant, RedactContent(r.content, redact))] + [user], replies + [r], redact)
  {
  }

  function RepliesOf(calls: seq<ModelCall>): seq<Reply>
    requires forall c :: c in calls ==> c.answer.Replied?
  {
    if calls == [] then []
    else
      assert forall c :: c in calls[..|calls| - 1] ==> c in calls;
      RepliesOf(calls[..|calls| - 1]) + [calls[|calls| - 1].answer.reply]
  }

  lemma {:induction false} RepliesAre(calls: seq<ModelCall>)
    requires forall c :: c in calls ==> c.answer.Replied?
    ensures |RepliesOf(calls)| == |calls|
    ensures forall k :: 0 <= k < |calls| ==> RepliesOf(calls)[k] == calls[k].answer.reply
  {
    if calls != [] {
      assert forall c :: c in calls[..|calls| - 1] ==> c in calls;
      RepliesAre(calls[..|calls| - 1]);
    }
  }

  /** Every call but the last was answered, and each was made on the history of the answers before it. */
  ghost predicate CallsInOrder(calls: seq<ModelCall>, redact: string -> string) {
    && (forall k :: 0 <= k < |calls| - 1 ==> calls[k].answer.Replied?)
    && forall k :: 0 <= k < |calls| ==> HistoryBefore(calls, k, redact)
  }

  ghost predicate HistoryBefore(calls: seq<ModelCall>, k: nat, redact: string -> string)
    requires k < |calls|
  {
    && (forall c :: c in calls[..k] ==> c.answer.Replied?)
    && HistoryOf(calls[k].history, RepliesOf(calls[..k]), redact)
  }

  // ---------------------------------------------------------------- one turn's tools

  datatype ToolOutcome = Answered(result: Part) | ToolGaveUp(summary: string) | CallbackThrew

  datatype ToolsOutcome = AllAnswered(results: seq<Part>) | GaveUp(summary: string) | SomeCallbackThrew

  /** What a step of the loop leaves: its outcome, the state, how many environment calls were made, its events
      and its contacts. */
  datatype ToolEffect = ToolEffect(outcome: ToolOutcome, st: AgentState, step: nat, events: seq<Event>, contacts: seq<Contact>)

  function ResultEvent(options: Options, use: Part, output: string, isError: bool): Event
    requires use.ToolUse?
  {
    RedactEvent(ToolResultEvent(use.id, options.redact(use.name), output, isError), options.redact)
  }

  /** Announces the answer to a tool use and records it. */
  function AnswerStep(options: Options, env: Environment, st: AgentState, step: nat, use: Part, output: string): ToolEffect
    requires use.ToolUse?
  {
    var m := EmitAll(env, step, [ResultEvent(options, use, output, true)]);
    ToolEffect(if m.ok then Answered(ToolResult(use.id, output, true)) else CallbackThrew, st, m.step, m.events, m.contacts)
  }

  /** The hook after a tool, which may end the run. */
  function TellStep(options: Options, env: Environment, st: AgentState, step: nat, use: Part, output: string, isError: bool): ToolEffect
    requires use.ToolUse?
  {
    var redact := options.redact;
    var call := Call(use.id, redact(use.name), RedactValue(use.input, redact));
    var told := [Told(step, call, output, isError, st)];
    match env.postTool(step, call, output, isError, st)
    case AfterThrew => ToolEffect(CallbackThrew, st, step + 1, [], told)
    case After(last) =>
      ToolEffect(if last.gaveUp then ToolGaveUp(redact(last.giveUpReason.GetOr("Agent gave up")))
                 else Answered(ToolResult(use.id, output, isError)), last, step + 1, [], told)
  }

  /** An allowed tool: it runs, its result is announced and the hook after it is told. */
  function ExecuteStep(options: Options, env: Environment, st: AgentState, step: nat, use: Part): ToolEffect
    requires use.ToolUse?
  {
    var redact := options.redact;
    var raw := Call(use.id, use.name, use.input);
    var run := env.execute(step, raw);
    var output := redact(if run.Done? then redact(run.output) else "Error: " + redact(run.message));
    var m := EmitAll(env, step + 1, [ResultEvent(options, use, output, run.Threw?)]);
    if !m.ok then ToolEffect(CallbackThrew, st, m.step, m.events, [Executed(step, raw)] + m.contacts)
    else
      var t := TellStep(options, env, st, m.step, use, output, run.Threw?);
      t.(events := m.events, contacts := [Executed(step, raw)] + m.contacts + t.contacts)
  }

  /** One tool call: unknown tools and blocked ones answer with an error and are not executed. */
  function ToolStep(options: Options, env: Environment, st0: AgentState, step: nat, use: Part): ToolEffect
    requires use.ToolUse?
  {
    var redact := options.redact;
    var call := Call(use.id, redact(use.name), RedactValue(use.input, redact));
    var st := st0.(toolCallCount := st0.toolCallCount + 1, toolHistory := st0.toolHistory + [Field(call.name, call.input)]);
    if use.name !in options.tools then
      AnswerStep(options, env, st, step, use, redact("Error: Unknown tool \"" + use.name + "\""))
    else
      var asked := [Asked(step, call, st)];
      match env.preTool(step, call, st)
      case VerdictThrew => ToolEffect(CallbackThrew, st, step + 1, [], asked)
      case Verdict(false, inject, after) =>
        var e := AnswerStep(options, env, after, step + 1, use, redact(inject.GetOr("Tool call blocked by middleware.")));
        e.(contacts := asked + e.contacts)
      case Verdict(true, _, after) =>
        var e := ExecuteStep(options, env, after, step + 1, use);
        e.(contacts := asked + e.contacts)
  }

  /** What a tool step keeps: the turn number, the usage if its hooks do, and a throw only at the end. */
  ghost predicate ToolKeeps(env: Environment, st: AgentState, e: ToolEffect) {
    && (UsageKept(env, e.contacts) ==> e.st.tokenUsage == st.tokenUsage)
    && (e.outcome.CallbackThrew? <==> Thrown(env, e.contacts)) && ThrowsLast(env, e.contacts)
  }

  lemma KeepsAfter(env: Environment, before: AgentState, st: AgentState, c: seq<Contact>, e: ToolEffect)
    requires ToolKeeps(env, st, e) && !Thrown(env, c) && (UsageKept(env, c) ==> st.tokenUsage == before.tokenUsage)
    ensures ToolKeeps(env, before, e.(contacts := c + e.contacts))
  {
    hide UsageKept, Thrown, ThrowsLast;
    ContactsConcat(env, c, e.contacts);
  }

  lemma AnswerKeeps(options: Options, env: Environment, st: AgentState, step: nat, use: Part, output: string)
    requires use.ToolUse?
    ensures ToolKeeps(env, st, AnswerStep(options, env, st, step, use, output))
  {
    hide UsageKept, Thrown, ThrowsLast, ResultEvent;
    EmissionMeans(env, step, [ResultEvent(options, use, output, true)]);
  }

  lemma TellKeeps(options: Options, env: Environment, st: AgentState, step: nat, use: Part, output: string, isError: bool)
    requires use.ToolUse?
    ensures ToolKeeps(env, st, TellStep(options, env, st, step, use, output, isError))
  {
    hide UsageKept, Thrown, ThrowsLast;
    OneContact(env, TellStep(options, env, st, step, use, output, isError).contacts[0]);
  }

  lemma ExecuteKeeps(options: Options, env: Environment, st: AgentState, step: nat, use: Part)
    requires use.ToolUse?
    ensures ToolKeeps(env, st, ExecuteStep(options, env, st, step, use))
  {
    hide UsageKept, Thrown, ThrowsLast, ResultEvent, EmitAll, TellStep, RedactValue;
    var raw := Call(use.id, use.name, use.input);
    var run := env.execute(step, raw);
    var output := options.redact(if run.Done? then options.redact(run.output) else "Error: " + options.redact(run.message));
    var event := ResultEvent(options, use, output, run.Threw?);
    var m := EmitAll(env, step + 1, [event]);
    EmissionMeans(env, step + 1, [event]);
    OneContact(env, Executed(step, raw));
    ContactsConcat(env, [Executed(step, raw)], m.contacts);
    if m.ok {
      TellKeeps(options, env, st, m.step, use, output, run.Threw?);
      KeepsAfter(env, st, st, [Executed(step, raw)] + m.contacts, TellStep(options, env, st, m.step, use, output, run.Threw?));
    }
  }

  lemma ToolStepKeeps(options: Options, env: Environment, st0: AgentState, step: nat, use: Part)
    requires use.ToolUse?
    ensures ToolKeeps(env, st0, ToolStep(options, env, st0, step, use))
  {
    hide UsageKept, Thrown, ThrowsLast, AnswerStep, ExecuteStep, RedactValue, ToolKeeps;
    var redact := options.redact;
    var call := Call(use.id, redact(use.name), RedactValue(use.input, redact));
    var st := st0.(toolCallCount := st0.toolCallCount + 1, toolHistory := st0.toolHistory + [Field(call.name, call.input)]);
    if use.name !in options.tools {
      AnswerKeeps(options, env, st, step, use, redact("Error: Unknown tool \"" + use.name + "\""));
      SameUsageKeeps(env, st0, st, ToolStep(options, env, st0, step, use));
    } else {
      var asked := Asked(step, call, st);
      OneContact(env, asked);
      match env.preTool(step, call, st)
      case VerdictThrew => AskedKeeps(env, st0, ToolStep(options, env, st0, step, use));
      case Verdict(false, inject, after) =>
        var output := redact(inject.GetOr("Tool call blocked by middleware."));
        AnswerKeeps(options, env, after, step + 1, use, output);
        KeepsAfter(env, st0, after, [asked], AnswerStep(options, env, after, step + 1, use, output));
      case Verdict(true, _, after) =>
        ExecuteKeeps(options, env, after, step + 1, use);
        KeepsAfter(env, st0, after, [asked], ExecuteStep(options, env, after, step + 1, use));
    }
  }

  lemma SameUsageKeeps(env: Environment, before: AgentState, st: AgentState, e: ToolEffect)
    requires ToolKeeps(env, st, e) && before.tokenUsage == st.tokenUsage
    ensures ToolKeeps(env, before, e)
  {
  }

  lemma AskedKeeps(env: Environment, st: AgentState, e: ToolEffect)
    requires |e.contacts| == 1 && Thrown(env, e.contacts) && e.outcome.CallbackThrew? && e.st.tokenUsage == st.tokenUsage
    ensures ToolKeeps(env, st, e)
  {
  }

  lemma ToolStepCounts(options: Options, env: Environment, st0: AgentState, step: nat, use: Part)
    requires KeepsTurnCount(env) && use.ToolUse?
    ensures ToolStep(options, env, st0, step, use).st.turnCount == st0.turnCount
  {
    hide ResultEvent, RedactValue, EmitAll;
  }

  /** An answer is redacted and carries the id of its use; events are plain. */
  ghost predicate ToolAnswers(options: Options, use: Part, e: ToolEffect)
    requires use.ToolUse?
  {
    && (e.outcome.ToolGaveUp? ==> e.st.gaveUp)
    && (e.outcome.Answered? ==>
          e.outcome.result.ToolResult? && e.outcome.result.toolUseId == use.id && Clean(e.outcome.result.output, options.redact))
    && (forall x :: x in e.events ==> IsPlain(x))
  }

  lemma ResultIsPlain(options: Options, env: Environment, step: nat, use: Part, output: string, isError: bool)
    requires use.ToolUse?
    ensures forall x :: x in EmitAll(env, step, [ResultEvent(options, use, output, isError)]).events ==> IsPlain(x)
  {
    EmissionMeans(env, step, [ResultEvent(options, use, output, isError)]);
    hide EmitAll, Thrown, ThrowsLast, UsageKept, EndsInListener;
    assert IsPlain(ResultEvent(options, use, output, isError));
  }

  lemma AnswerAnswers(options: Options, env: Environment, st: AgentState, step: nat, use: Part, raw: string)
    requires use.ToolUse?
    ensures ToolAnswers(options, use, AnswerStep(options, env, st, step, use, options.redact(raw)))
  {
    ResultIsPlain(options, env, step, use, options.redact(raw), true);
    hide ResultEvent, EmitAll, IsPlain;
  }

  lemma ToolStepAnswers(options: Options, env: Environment, st0: AgentState, step: nat, use: Part)
    requires use.ToolUse?
    ensures ToolAnswers(options, use, ToolStep(options, env, st0, step, use))
  {
    hide RedactValue, ResultEvent, EmitAll, IsPlain, AnswerStep;
    var redact := options.redact;
    var call := Call(use.id, redact(use.name), RedactValue(use.input, redact));
    var st := st0.(toolCallCount := st0.toolCallCount + 1, toolHistory := st0.toolHistory + [Field(call.name, call.input)]);
    if use.name !in options.tools {
      AnswerAnswers(options, env, st, step, use, "Error: Unknown tool \"" + use.name + "\"");
    } else {
      match env.preTool(step, call, st)
      case VerdictThrew =>
      case Verdict(false, inject, after) =>
        AnswerAnswers(options, env, after, step + 1, use, inject.GetOr("Tool call blocked by middleware."));
      case Verdict(true, _, after) =>
        var run := env.execute(step + 1, Call(use.id, use.name, use.input));
        var output := redact(if run.Done? then redact(run.output) else "Error: " + redact(run.message));
        ResultIsPlain(options, env, step + 2, use, output, run.Threw?);
    }
  }

  /** Executes an allowed tool, announces its result and reports it to the hook. */
  method ExecuteTool(options: Options, env: Environment, st0: AgentState, step0: nat, use: Part)
    returns (outcome: ToolOutcome, st: AgentState, step: nat, events: seq<Event>, contacts: seq<Contact>)
    requires use.ToolUse?
    ensures ToolEffect(outcome, st, step, events, contacts) == ExecuteStep(options, env, st0, step0, use)
  {
    hide RedactEvent, RedactValue, ResultEvent, EmitAll;
    var redact := options.redact;
    st, step := st0, step0;
    var call := Call(use.id, redact(use.name), RedactValue(use.input, redact));
    var raw := Call(use.id, use.name, use.input);
    var execution := env.execute(step, raw);
    var isError := execution.Threw?;
    var output := redact(if execution.Done? then redact(execution.output) else "Error: " + redact(execution.message));
    var heard, emitted;
    heard, step, events, emitted := Emit(env, step + 1, [ResultEvent(options, use, output, isError)]);
    contacts := [Executed(step0, raw)] + emitted;
    if !heard {
      return CallbackThrew, st, step, events, contacts;
    }
    contacts := contacts + [Told(step, call, output, isError, st)];
    var post := env.postTool(step, call, output, isError, st);
    step := step + 1;
    if post.AfterThrew? {
      return CallbackThrew, st, step, events, contacts;
    }
    st := post.after;
    if st.gaveUp {
      return ToolGaveUp(redact(st.giveUpReason.GetOr("Agent gave up"))), st, step, events, contacts;
    }
    outcome := Answered(ToolResult(use.id, output, isError));
  }

  /** Answers a tool use that is not executed. */
  method AnswerTool(options: Options, env: Environment, st: AgentState, step0: nat, use: Part, output: string)
    returns (outcome: ToolOutcome, step: nat, events: seq<Event>, contacts: seq<Contact>)
    requires use.ToolUse?
    ensures ToolEffect(outcome, st, step, events, contacts) == AnswerStep(options, env, st, step0, use, output)
  {
    var heard;
    heard, step, events, contacts := Emit(env, step0, [ResultEvent(options, use, output, true)]);
    outcome := if heard then Answered(ToolResult(use.id, output, true)) else CallbackThrew;
  }

  lemma ToolStepFacts(options: Options, env: Environment, st0: AgentState, step: nat, use: Part)
    requires KeepsTurnCount(env) && use.ToolUse?
    ensures var e := ToolStep(options, env, st0, step, use);
            && e.st.turnCount == st0.turnCount
            && (UsageKept(env, e.contacts) ==> e.st.tokenUsage == st0.tokenUsage)
            && (e.outcome.CallbackThrew? <==> Thrown(env, e.contacts)) && ThrowsLast(env, e.contacts)
            && (e.outcome.ToolGaveUp? ==> e.st.gaveUp)
            && (e.outcome.Answered? ==>
                  e.outcome.result.ToolResult? && e.outcome.result.toolUseId == use.id && Clean(e.outcome.result.output, options.redact))
            && (forall x :: x in e.events ==> IsPlain(x))
  {
    hide ToolStep, UsageKept, Thrown, ThrowsLast, Clean, IsPlain;
    ToolStepCounts(options, env, st0, step, use);
    ToolStepKeeps(options, env, st0, step, use);
    ToolStepAnswers(options, env, st0, step, use);
  }

  /** Runs one tool call. */
  method RunTool(options: Options, env: Environment, st0: AgentState, step0: nat, use: Part)
    returns (outcome: ToolOutcome, st: AgentState, step: nat, events: seq<Event>, contacts: seq<Contact>)
    requires KeepsTurnCount(env) && use.ToolUse?
    ensures ToolEffect(outcome, st, step, events, contacts) == ToolStep(options, env, st0, step0, use)
    ensures st.turnCount == st0.turnCount
    ensures UsageKept(env, contacts) ==> st.tokenUsage == st0.tokenUsage
    ensures (outcome.CallbackThrew? <==> Thrown(env, contacts)) && ThrowsLast(env, contacts)
    ensures outcome.ToolGaveUp? ==> st.gaveUp
    ensures outcome.Answered? ==>
              outcome.result.ToolResult? && outcome.result.toolUseId == use.id && Clean(outcome.result.output, options.redact)
    ensures forall e :: e in events ==> IsPlain(e)
  {
    hide KeepsTurnCount, UsageKept, Thrown, ThrowsLast, Clean, IsPlain, RedactEvent, RedactValue, ExecuteStep, AnswerStep, ResultEvent,
         EmitAll;
    st, step, events := st0, step0, [];
    var redact := options.redact;
    var call := Call(use.id, redact(use.name), RedactValue(use.input, redact));
    st := st.(toolCallCount := st.toolCallCount + 1, toolHistory := st.toolHistory + [Field(call.name, call.input)]);
    if use.name !in options.tools {
      outcome, step, events, contacts := AnswerTool(options, env, st, step, use, redact("Error: Unknown tool \"" + use.name + "\""));
    } else {
      contacts := [Asked(step, call, st)];
      var pre := env.preTool(step, call, st);
      step := step + 1;
      if pre.VerdictThrew? {
        outcome := CallbackThrew;
      } else {
        var more;
        st := pre.after;
        if !pre.allow {
          var blocked := redact(pre.inject.GetOr("Tool call blocked by middleware."));
          outcome, step, events, more := AnswerTool(options, env, st, step, use, blocked);
        } else {
          outcome, st, step, events, more := ExecuteTool(options, env, st, step, use);
        }
        contacts := contacts + more;
      }
    }
    assert ToolEffect(outcome, st, step, events, contacts) == ToolStep(options, env, st0, step0, use);
    hide ToolStep;
    ToolStepFacts(options, env, st0, step0, use);
  }

  datatype ToolsEffect = ToolsEffect(outcome: ToolsOutcome, st: AgentState, step: nat, events: seq<Event>, contacts: seq<Contact>)

  /** The tool calls of a turn, in order, up to the first that ends the run. */
  function ToolSteps(options: Options, env: Environment, st: AgentState, step: nat, toolCalls: seq<Part>): ToolsEffect
    requires forall c :: c in toolCalls ==> c.ToolUse?
  {
    if toolCalls == [] then ToolsEffect(AllAnswered([]), st, step, [], [])
    else
      var n := |toolCalls| - 1;
      assert toolCalls[n] in toolCalls && forall c :: c in toolCalls[..n] ==> c in toolCalls;
      var before := ToolSteps(options, env, st, step, toolCalls[..n]);
      if !before.outcome.AllAnswered? then before
      else
        var one := ToolStep(options, env, before.st, before.step, toolCalls[n]);
        ToolsEffect(match one.outcome
                    case CallbackThrew => SomeCallbackThrew
                    case ToolGaveUp(summary) => GaveUp(summary)
                    case Answered(result) => AllAnswered(before.outcome.results + [result]),
                    one.st, one.step, before.events + one.events, before.contacts + one.contacts)
  }

  lemma {:induction false} EndedStaysEnded(options: Options, env: Environment, st: AgentState, step: nat, toolCalls: seq<Part>, n: nat)
    requires n <= |toolCalls| && forall c :: c in toolCalls ==> c.ToolUse?
    requires !ToolSteps(options, env, st, step, toolCalls[..n]).outcome.AllAnswered?
    ensures ToolSteps(options, env, st, step, toolCalls) == ToolSteps(options, env, st, step, toolCalls[..n])
    decreases |toolCalls|
  {
    hide ToolStep;
    if n < |toolCalls| {
      var k := |toolCalls| - 1;
      assert toolCalls[..k][..n] == toolCalls[..n];
      EndedStaysEnded(options, env, st, step, toolCalls[..k], n);
    } else {
      assert toolCalls[..n] == toolCalls;
    }
  }

  lemma NoToolCalls(options: Options, env: Environment, st: AgentState, step: nat)
    ensures ToolSteps(options, env, st, step, []) == ToolsEffect(AllAnswered([]), st, step, [], [])
    ensures Answers([], [], options.redact)
  {
  }

  lemma ToolStepsNext(options: Options, env: Environment, st: AgentState, step: nat, toolCalls: seq<Part>, k: nat)
    requires (forall c :: c in toolCalls ==> c.ToolUse?) && k < |toolCalls|
    requires ToolSteps(options, env, st, step, toolCalls[..k]).outcome.AllAnswered?
    ensures var before := ToolSteps(options, env, st, step, toolCalls[..k]);
            var one := ToolStep(options, env, before.st, before.step, toolCalls[k]);
            ToolSteps(options, env, st, step, toolCalls[..k + 1]) ==
            ToolsEffect(match one.outcome
                        case CallbackThrew => SomeCallbackThrew
                        case ToolGaveUp(summary) => GaveUp(summary)
                        case Answered(result) => AllAnswered(before.outcome.results + [result]),
                        one.st, one.step, before.events + one.events, before.contacts + one.contacts)
  {
    hide ToolStep;
    assert toolCalls[..k + 1][..k] == toolCalls[..k] && toolCalls[..k + 1][k] == toolCalls[k];
  }

  lemma AnswersNext(results: seq<Part>, uses: seq<Part>, k: nat, result: Part, redact: string -> string)
    requires k < |uses| && Answers(results, uses[..k], redact) && uses[k].ToolUse?
    requires result.ToolResult? && result.toolUseId == uses[k].id && Clean(result.output, redact)
    ensures Answers(results + [result], uses[..k + 1], redact)
  {
    hide Clean;
  }

  /** Runs the tool calls of a turn, in order. */
  method RunTools(options: Options, env: Environment, st0: AgentState, step0: nat, toolCalls: seq<Part>)
    returns (outcome: ToolsOutcome, st: AgentState, step: nat, events: seq<Event>, contacts: seq<Contact>)
    requires KeepsTurnCount(env) && forall c :: c in toolCalls ==> c.ToolUse?
    ensures ToolsEffect(outcome, st, step, events, contacts) == ToolSteps(options, env, st0, step0, toolCalls)
    ensures st.turnCount == st0.turnCount
    ensures UsageKept(env, contacts) ==> st.tokenUsage == st0.tokenUsage
    ensures (outcome.SomeCallbackThrew? <==> Thrown(env, contacts)) && ThrowsLast(env, contacts)
    ensures outcome.AllAnswered? ==> Answers(outcome.results, toolCalls, options.redact)
    ensures outcome.GaveUp? ==> st.gaveUp
    ensures forall e :: e in events ==> IsPlain(e)
  {
    hide KeepsTurnCount, UsageKept, Thrown, ThrowsLast, ToolStep, RedactEvent, ToolSteps, Answers, IsPlain, Clean;
    NoToolCalls(options, env, st0, step0);
    st, step, events, contacts := st0, step0, [], [];
    NothingThrown(env);
    var results: seq<Part> := [];
    for k := 0 to |toolCalls|
      invariant st.turnCount == st0.turnCount
      invariant UsageKept(env, contacts) ==> st.tokenUsage == st0.tokenUsage
      invariant !Thrown(env, contacts) && ThrowsLast(env, contacts)
      invariant ToolSteps(options, env, st0, step0, toolCalls[..k])
                == ToolsEffect(AllAnswered(results), st, step, events, contacts)
      invariant Answers(results, toolCalls[..k], options.redact)
      invariant forall e :: e in events ==> IsPlain(e)
    {
      var one, more, asked;
      ToolStepsNext(options, env, st0, step0, toolCalls, k);
      one, st, step, more, asked := RunTool(options, env, st, step, toolCalls[k]);
      ContactsConcat(env, contacts, asked);
      events, contacts := events + more, contacts + asked;
      match one {
        case CallbackThrew =>
          EndedStaysEnded(options, env, st0, step0, toolCalls, k + 1);
          return SomeCallbackThrew, st, step, events, contacts;
        case ToolGaveUp(summary) =>
          EndedStaysEnded(options, env, st0, step0, toolCalls, k + 1);
          return GaveUp(summary), st, step, events, contacts;
        case Answered(result) =>
          AnswersNext(results, toolCalls, k, result, options.redact);
          results := results + [result];
      }
    }
    assert toolCalls[..|toolCalls|] == toolCalls;
    outcome := AllAnswered(results);
  }

  function Announcement(p: ReplyPart, redact: string -> string): Event {
    RedactEvent(match p case Text(text) => MessageEvent(text) case ToolUse(id, name, input) => ToolCallEvent(id, name, input), redact)
  }

  /** The events that announce the parts of a response, in order. */
  function Announced(content: seq<ReplyPart>, redact: string -> string): (events: seq<Event>)
    ensures forall e :: e in events ==> IsPlain(e)
  {
    seq(|content|, k requires 0 <= k < |content| => Announcement(content[k], redact))
  }

  function LastText(content: seq<ReplyPart>, before: string): string {
    if content == [] then before
    else if content[|content| - 1].Text? then content[|content| - 1].text
    else LastText(content[..|content| - 1], before)
  }

  /** Announces the parts of a response and collects its tool uses. */
  method ReadContent(options: Options, env: Environment, step0: nat, content: seq<ReplyPart>, lastText0: string)
    returns (ok: bool, toolCalls: seq<Part>, lastText: string, step: nat, events: seq<Event>, contacts: seq<Contact>)
    ensures Emission(ok, step, events, contacts) == EmitAll(env, step0, Announced(content, options.redact))
    ensures ok ==> toolCalls == ToolUses(content) && lastText == LastText(content, lastText0)
  {
    hide RedactEvent;
    ok, toolCalls, lastText, step, events, contacts := true, [], lastText0, step0, [], [];
    ghost var all := Announced(content, options.redact);
    for k := 0 to |content|
      invariant toolCalls == ToolUses(content[..k]) && lastText == LastText(content[..k], lastText0)
      invariant ok && Emission(ok, step, events, contacts) == EmitAll(env, step0, all[..k])
    {
      assert content[..k + 1][..k] == content[..k];
      assert all[..k + 1] == all[..k] + [all[k]];
      EmitNext(env, step0, all[..k], all[k]);
      if content[k].Text? {
        lastText := content[k].text;
      } else {
        toolCalls := toolCalls + [content[k]];
      }
      var event := Announcement(content[k], options.redact);
      events, contacts := events + [event], contacts + [Emitted(step, event)];
      ok := env.hears(step, event);
      step := step + 1;
      if !ok {
        EmitStops(env, step0, all, k + 1);
        return;
      }
    }
    assert content[..|content|] == content && all[..|content|] == all;
  }

  // ---------------------------------------------------------------- one turn

  datatype TurnOutcome =
    | NextTurn(user: Message)
    | Finished(completion: Completion)
    | Crashed

  /** The last event ends the run, or closes the turn right after the event that does. */
  predicate EndsClosed(events: seq<Event>) {
    var n := |events|;
    n > 0 && (IsTerminal(events[n - 1]) || (n > 1 && events[n - 1].TurnEnd? && IsTerminal(events[n - 2])))
  }

  /** How a turn may close, by its outcome. */
  ghost predicate ClosesAs(turn: nat, outcome: TurnOutcome, closing: seq<Event>) {
    match outcome
    case NextTurn(_) => Marks(closing) == [(false, turn)] && Terminals(closing) == []
    case Finished(completion) =>
      && (Marks(closing) == [] || Marks(closing) == [(false, turn)])
      && |Terminals(closing)| == 1 && (completion.success <==> Terminals(closing)[0].Completed?)
    case Crashed =>
      && (Marks(closing) == [] || Marks(closing) == [(false, turn)])
      && |Terminals(closing)| <= 1 && (Terminals(closing) != [] ==> EndsClosed(closing))
  }

  /** A turn that crashed while it closed was stopped by the listener. */
  predicate ClosedByListener(outcome: TurnOutcome, closing: seq<Event>, contacts: seq<Contact>) {
    outcome.Crashed? && closing != [] ==> EndsInListener(contacts)
  }

  ghost predicate WithinBudget(options: Options, u: Usage) {
    options.budgetUsd.Some? ==> CalculateCost(u, options.pricing) <= options.budgetUsd.value
  }

  datatype Closing = Closing(outcome: TurnOutcome, st: AgentState, step: nat, plain: seq<Event>, closing: seq<Event>,
                             contacts: seq<Contact>)

  function Failing(options: Options, env: Environment, st: AgentState, step: nat, code: string, message: string, summary: string): Closing {
    var m := EmitAll(env, step, [RedactEvent(Error(code, message), options.redact)]);
    Closing(if m.ok then Finished(ToResult(false, summary, st, options.redact)) else Crashed, st, m.step, [], m.events, m.contacts)
  }

  function Succeeding(options: Options, env: Environment, st: AgentState, step: nat, summary: string): Closing {
    var m := EmitAll(env, step, [RedactEvent(Completed(summary), options.redact), TurnEnd(st.turnCount, st.tokenUsage)]);
    Closing(if m.ok then Finished(ToResult(true, summary, st, options.redact)) else Crashed, st, m.step, [], m.events, m.contacts)
  }

  /** Goes on with a user message once the events that close the turn are given. */
  function Continuing(env: Environment, st: AgentState, step: nat, user: Message, events: seq<Event>): Closing {
    var m := EmitAll(env, step, events);
    Closing(if m.ok then NextTurn(user) else Crashed, st, m.step, [], m.events, m.contacts)
  }

  function CompleteStep(options: Options, env: Environment, st: AgentState, step: nat, lastText: string): Closing {
    var checked := [Checked(step, st)];
    match env.preCompletion(step, st)
    case CheckThrew => Closing(Crashed, st, step + 1, [], [], checked)
    case Check(inject, after) =>
      var end :=
        if inject.GetOr("") == "" then Succeeding(options, env, after, step + 1, lastText)
        else
          var text := options.redact(inject.value);
          Continuing(env, after, step + 1, Message(User, [Text(text)]),
                     [RedactEvent(Injected(text), options.redact), TurnEnd(after.turnCount, after.tokenUsage)]);
      end.(contacts := checked + end.contacts)
  }

  function UseToolsStep(options: Options, env: Environment, st: AgentState, step: nat, toolCalls: seq<Part>): Closing
    requires forall c :: c in toolCalls ==> c.ToolUse?
  {
    var tools := ToolSteps(options, env, st, step, toolCalls);
    match tools.outcome
    case SomeCallbackThrew => Closing(Crashed, tools.st, tools.step, tools.events, [], tools.contacts)
    case GaveUp(summary) =>
      var end := Succeeding(options, env, tools.st, tools.step, summary);
      end.(plain := tools.events, contacts := tools.contacts + end.contacts)
    case AllAnswered(results) =>
      var end := Continuing(env, tools.st, tools.step, Message(User, results), [TurnEnd(tools.st.turnCount, tools.st.tokenUsage)]);
      end.(plain := tools.events, contacts := tools.contacts + end.contacts)
  }

  /** What the closing of a turn keeps. */
  ghost predicate CloseKeeps(env: Environment, turn: nat, outcome: TurnOutcome, closing: seq<Event>, contacts: seq<Contact>) {
    && ClosesAs(turn, outcome, closing) && ClosedByListener(outcome, closing, contacts)
    && (outcome.Crashed? <==> Thrown(env, contacts)) && ThrowsLast(env, contacts)
  }

  lemma EmittedKeeps(env: Environment, turn: nat, step: nat, events: seq<Event>, outcome: TurnOutcome)
    requires !outcome.Crashed? && ClosesAs(turn, outcome, events)
    requires |events| == 1 || (|events| == 2 && !events[0].TurnEnd? && events[1].TurnEnd?)
    ensures var m := EmitAll(env, step, events);
            && UsageKept(env, m.contacts)
            && CloseKeeps(env, turn, if m.ok then outcome else Crashed, m.events, m.contacts)
  {
    var m := EmitAll(env, step, events);
    EmissionMeans(env, step, events);
    hide EmitAll, Thrown, ThrowsLast, UsageKept, Marks, Terminals;
    if !m.ok {
      PartCloses(turn, events, m.events, outcome);
    }
  }

  lemma PartCloses(turn: nat, events: seq<Event>, part: seq<Event>, outcome: TurnOutcome)
    requires !outcome.Crashed? && ClosesAs(turn, outcome, events) && part != [] && part <= events
    requires |events| == 1 || (|events| == 2 && !events[0].TurnEnd? && events[1].TurnEnd?)
    ensures ClosesAs(turn, Crashed, part)
  {
    hide Marks, Terminals;
    OneEvent(events[0]);
    if |events| == 2 {
      TwoEvents(events[0], events[1]);
      OneEvent(events[1]);
      assert events == [events[0], events[1]];
    } else {
      assert events == [events[0]];
    }
    assert part == events || part == [events[0]];
  }

  lemma CloseKeepsAfter(env: Environment, turn: nat, before: seq<Contact>, outcome: TurnOutcome, closing: seq<Event>, contacts: seq<Contact>)
    requires !Thrown(env, before) && CloseKeeps(env, turn, outcome, closing, contacts)
    requires outcome.Crashed? ==> contacts != []
    ensures CloseKeeps(env, turn, outcome, closing, before + contacts)
  {
    hide ClosesAs, Thrown, ThrowsLast;
    ContactsConcat(env, before, contacts);
  }

  lemma CrashHasContact(env: Environment, contacts: seq<Contact>)
    requires Thrown(env, contacts)
    ensures contacts != []
  {
  }

  /** Ends the run with an error event. */
  method Fail(options: Options, env: Environment, st: AgentState, step0: nat, code: string, message: string, summary: string)
    returns (outcome: TurnOutcome, step: nat, closing: seq<Event>, contacts: seq<Contact>)
    ensures Closing(outcome, st, step, [], closing, contacts) == Failing(options, env, st, step0, code, message, summary)
    ensures CloseKeeps(env, st.turnCount, outcome, closing, contacts) && UsageKept(env, contacts)
    ensures outcome.Crashed? || (outcome.Finished? && !outcome.completion.success)
    ensures |closing| == 1 && closing[0].Error?
  {
    hide EmitAll, CloseKeeps, UsageKept, Thrown, ThrowsLast;
    var error := RedactEvent(Error(code, message), options.redact);
    assert error.Error?;
    hide RedactEvent;
    OneEvent(error);
    outcome := Finished(ToResult(false, summary, st, options.redact));
    EmittedKeeps(env, st.turnCount, step0, [error], outcome);
    EmissionMeans(env, step0, [error]);
    var heard;
    heard, step, closing, contacts := Emit(env, step0, [error]);
    if !heard {
      outcome := Crashed;
    }
  }

  /** Ends the run with a completion. */
  method Succeed(options: Options, env: Environment, st: AgentState, step0: nat, summary: string)
    returns (outcome: TurnOutcome, step: nat, closing: seq<Event>, contacts: seq<Contact>)
    ensures Closing(outcome, st, step, [], closing, contacts) == Succeeding(options, env, st, step0, summary)
    ensures CloseKeeps(env, st.turnCount, outcome, closing, contacts) && UsageKept(env, contacts)
    ensures outcome.Crashed? || (outcome.Finished? && outcome.completion.success)
  {
    hide EmitAll, CloseKeeps, UsageKept, Thrown, ThrowsLast;
    var end := TurnEnd(st.turnCount, st.tokenUsage);
    var done := RedactEvent(Completed(summary), options.redact);
    TwoEvents(done, end);
    OneEvent(done);
    OneEvent(end);
    outcome := Finished(ToResult(true, summary, st, options.redact));
    EmittedKeeps(env, st.turnCount, step0, [done, end], outcome);
    var heard;
    heard, step, closing, contacts := Emit(env, step0, [done, end]);
    if !heard {
      outcome := Crashed;
    }
  }

  /** Closes the turn and goes on with a user message. */
  method Continue(env: Environment, st: AgentState, step0: nat, user: Message, events: seq<Event>)
    returns (outcome: TurnOutcome, step: nat, closing: seq<Event>, contacts: seq<Contact>)
    requires ClosesAs(st.turnCount, NextTurn(user), events)
    requires |events| == 1 || (|events| == 2 && !events[0].TurnEnd? && events[1].TurnEnd?)
    ensures Closing(outcome, st, step, [], closing, contacts) == Continuing(env, st, step0, user, events)
    ensures CloseKeeps(env, st.turnCount, outcome, closing, contacts) && UsageKept(env, contacts)
    ensures outcome.Crashed? || outcome == NextTurn(user)
  {
    hide EmitAll, CloseKeeps, UsageKept, Thrown, ThrowsLast;
    EmittedKeeps(env, st.turnCount, step0, events, NextTurn(user));
    var heard;
    heard, step, closing, contacts := Emit(env, step0, events);
    outcome := if heard then NextTurn(user) else Crashed;
  }

  /** The completion branch: stop, or go on with the message a hook injects. */
  method Complete(options: Options, env: Environment, st0: AgentState, step0: nat, lastText: string)
    returns (outcome: TurnOutcome, st: AgentState, step: nat, closing: seq<Event>, contacts: seq<Contact>)
    requires KeepsTurnCount(env)
    ensures Closing(outcome, st, step, [], closing, contacts) == CompleteStep(options, env, st0, step0, lastText)
    ensures outcome.Finished? ==> outcome.completion.success
    ensures st.turnCount == st0.turnCount
    ensures UsageKept(env, contacts) ==> st.tokenUsage == st0.tokenUsage
    ensures outcome.NextTurn? ==> outcome.user.role == User && IsText(outcome.user.content, options.redact)
    ensures CloseKeeps(env, st.turnCount, outcome, closing, contacts)
  {
    hide RedactEvent, ToResult, Thrown, ThrowsLast, UsageKept, ClosesAs, Succeeding, Continuing;
    var check := env.preCompletion(step0, st0);
    var checked := [Checked(step0, st0)];
    OneContact(env, checked[0]);
    st, step := st0, step0 + 1;
    if check.CheckThrew? {
      NothingCloses(st.turnCount);
      return Crashed, st, step, [], checked;
    }
    st := check.after;
    if check.inject.GetOr("") != "" {
      var text := options.redact(check.inject.value);
      var injected := RedactEvent(Injected(text), options.redact);
      InjectionCloses(st, text, options.redact);
      outcome, step, closing, contacts :=
        Continue(env, st, step, Message(User, [Text(text)]), [injected, TurnEnd(st.turnCount, st.tokenUsage)]);
    } else {
      outcome, step, closing, contacts := Succeed(options, env, st, step, lastText);
    }
    ContactsConcat(env, checked, contacts);
    if outcome.Crashed? {
      CrashHasContact(env, contacts);
    }
    CloseKeepsAfter(env, st.turnCount, checked, outcome, closing, contacts);
    contacts := checked + contacts;
  }

  lemma NothingCloses(turn: nat)
    ensures ClosesAs(turn, Crashed, [])
  {
  }

  lemma InjectionCloses(st: AgentState, text: string, redact: string -> string)
    ensures var injected := RedactEvent(Injected(text), redact);
            && !injected.TurnEnd?
            && ClosesAs(st.turnCount, NextTurn(Message(User, [Text(text)])), [injected, TurnEnd(st.turnCount, st.tokenUsage)])
  {
    hide Marks, Terminals;
    var injected, end := RedactEvent(Injected(text), redact), TurnEnd(st.turnCount, st.tokenUsage);
    TwoEvents(injected, end);
    OneEvent(injected);
    OneEvent(end);
  }

  /** The tool branch: run every tool and answer with their results. */
  method UseTools(options: Options, env: Environment, st0: AgentState, step0: nat, toolCalls: seq<Part>)
    returns (outcome: TurnOutcome, st: AgentState, step: nat, plain: seq<Event>, closing: seq<Event>, contacts: seq<Contact>)
    requires KeepsTurnCount(env) && forall c :: c in toolCalls ==> c.ToolUse?
    ensures Closing(outcome, st, step, plain, closing, contacts) == UseToolsStep(options, env, st0, step0, toolCalls)
    ensures outcome.Finished? ==> outcome.completion.success && st.gaveUp
    ensures st.turnCount == st0.turnCount
    ensures UsageKept(env, contacts) ==> st.tokenUsage == st0.tokenUsage
    ensures outcome.NextTurn? ==> outcome.user.role == User && Answers(outcome.user.content, toolCalls, options.redact)
    ensures forall e :: e in plain ==> IsPlain(e)
    ensures CloseKeeps(env, st.turnCount, outcome, closing, contacts)
  {
    hide RedactEvent, ToResult, Thrown, ThrowsLast, UsageKept, ClosesAs, Succeeding, Continuing, ToolSteps, KeepsTurnCount, Answers;
    var tools, asked;
    tools, st, step, plain, asked := RunTools(options, env, st0, step0, toolCalls);
    match tools {
      case SomeCallbackThrew =>
        NothingCloses(st.turnCount);
        return Crashed, st, step, plain, [], asked;
      case GaveUp(summary) =>
        outcome, step, closing, contacts := Succeed(options, env, st, step, summary);
      case AllAnswered(results) =>
        var end := TurnEnd(st.turnCount, st.tokenUsage);
        TurnEndCloses(end.turn, end.tokenUsage, Message(User, results));
        outcome, step, closing, contacts := Continue(env, st, step, Message(User, results), [end]);
    }
    ContactsConcat(env, asked, contacts);
    if outcome.Crashed? {
      CrashHasContact(env, contacts);
    }
    CloseKeepsAfter(env, st.turnCount, asked, outcome, closing, contacts);
    contacts := asked + contacts;
  }

  lemma TurnEndCloses(turn: nat, usage: Usage, user: Message)
    ensures ClosesAs(turn, NextTurn(user), [TurnEnd(turn, usage)])
  {
    OneEvent(TurnEnd(turn, usage));
  }

  datatype TurnEffect = TurnEffect(closing: Closing, call: Option<ModelCall>, lastText: string)

  /** A turn that has a reply within budget: announce it, then complete or use tools. */
  function ReplyStep(options: Options, env: Environment, st: AgentState, step: nat, reply: Reply, lastText: string): Closing {
    var content := RedactContent(reply.content, options.redact);
    var m := EmitAll(env, step, Announced(content, options.redact));
    if !m.ok then Closing(Crashed, st, m.step, m.events, [], m.contacts)
    else
      var toolCalls := ToolUses(content);
      ToolUsesAreUses(content);
      var end := if reply.stopReason == Some("end_turn") || toolCalls == []
                 then CompleteStep(options, env, st, m.step, LastText(content, lastText))
                 else UseToolsStep(options, env, st, m.step, toolCalls);
      end.(plain := m.events + end.plain, contacts := m.contacts + end.contacts)
  }

  lemma {:induction false} ToolUsesAreUses(content: seq<Part>)
    ensures forall c :: c in ToolUses(content) ==> c.ToolUse?
  {
    if content != [] {
      ToolUsesAreUses(content[..|content| - 1]);
    }
  }

  /** One turn, whose number is already in the state and announced. */
  function BodyStep(options: Options, env: Environment, st: AgentState, step: nat, messages: seq<Message>, lastText: string): TurnEffect {
    if env.aborted(step) then
      TurnEffect(Failing(options, env, st, step + 1, "CANCELLED", "Run was cancelled", "Cancelled"), None, lastText)
    else
      var answer := env.generate(step + 1, messages);
      var call := Some(ModelCall(messages, st.tokenUsage, answer));
      match answer
      case Failed(code, message) =>
        TurnEffect(Failing(options, env, st, step + 2, code, options.redact(message), options.redact(message)), call, lastText)
      case Replied(reply) =>
        var spent := st.(tokenUsage := AddUsage(st.tokenUsage, reply.usage));
        if options.budgetUsd.Some? && CalculateCost(spent.tokenUsage, options.pricing) > options.budgetUsd.value then
          TurnEffect(Failing(options, env, spent, step + 2, "BUDGET_EXCEEDED", "Budget exceeded", "Budget exceeded"), call, lastText)
        else
          var end := ReplyStep(options, env, spent, step + 2, reply, lastText);
          TurnEffect(end, call, if end.outcome.NextTurn? then LastText(RedactContent(reply.content, options.redact), lastText) else lastText)
  }

  /** The turn starts when it is announced. */
  function TurnStep(options: Options, env: Environment, st: AgentState, step: nat, messages: seq<Message>, lastText: string): TurnEffect {
    var m := EmitAll(env, step, [TurnStart(st.turnCount)]);
    if !m.ok then TurnEffect(Closing(Crashed, st, m.step, [], [], m.contacts), None, lastText)
    else
      var t := BodyStep(options, env, st, m.step, messages, lastText);
      t.(closing := t.closing.(contacts := m.contacts + t.closing.contacts))
  }

  /** Why a turn ends the run: success needs a reply that did not ask for tools, or an agent that gave up; failure needs
      a cancellation, a failed call or an exceeded budget. */
  ghost predicate TurnExplains(options: Options, env: Environment, st: AgentState, call: Option<ModelCall>, success: bool) {
    if success
    then call.Some? && call.value.answer.Replied? && (TakesToolBranch(call.value.answer.reply) ==> st.gaveUp)
    else
      || (call.None? && exists n: nat :: env.aborted(n))
      || (call.Some? && call.value.answer.Failed?)
      || (call.Some? && !WithinBudget(options, st.tokenUsage))
  }

  /** What a turn with its call guarantees. */
  ghost predicate TurnOk(options: Options, env: Environment, st0: AgentState, messages: seq<Message>, outcome: TurnOutcome,
                         call: Option<ModelCall>, st: AgentState, plain: seq<Event>, closing: seq<Event>, contacts: seq<Contact>) {
    && (outcome.Finished? ==> TurnExplains(options, env, st, call, outcome.completion.success))
    && st.turnCount == st0.turnCount
    && (forall e :: e in plain ==> IsPlain(e))
    && CloseKeeps(env, st.turnCount, outcome, closing, contacts)
    && (call.Some? ==> call.value.history == messages && call.value.usageBefore == st0.tokenUsage)
    && (UsageKept(env, contacts) ==>
          st.tokenUsage == if call.Some? && call.value.answer.Replied?
                           then AddUsage(st0.tokenUsage, call.value.answer.reply.usage) else st0.tokenUsage)
    && (outcome.NextTurn? ==>
          && call.Some? && call.value.answer.Replied?
          && outcome.user.role == User
          && (UsageKept(env, contacts) ==> WithinBudget(options, st.tokenUsage))
          && var reply := call.value.answer.reply;
             if TakesToolBranch(reply)
             then Answers(outcome.user.content, ToolUses(RedactContent(reply.content, options.redact)), options.redact)
             else IsText(outcome.user.content, options.redact))
  }

  lemma TurnOkAfter(options: Options, env: Environment, st0: AgentState, messages: seq<Message>, outcome: TurnOutcome,
                    call: Option<ModelCall>, st: AgentState, plain: seq<Event>, closing: seq<Event>,
                    before: seq<Contact>, contacts: seq<Contact>)
    requires !Thrown(env, before) && UsageKept(env, before)
    requires TurnOk(options, env, st0, messages, outcome, call, st, plain, closing, contacts)
    ensures TurnOk(options, env, st0, messages, outcome, call, st, plain, closing, before + contacts)
  {
    ContactsConcat(env, before, contacts);
    if outcome.Crashed? {
      CrashHasContact(env, contacts);
    }
    CloseKeepsAfter(env, st.turnCount, before, outcome, closing, contacts);
    hide Thrown, ThrowsLast, UsageKept, ClosesAs, TurnExplains, AddUsage, IsPlain, TakesToolBranch, Answers, IsText, ToolUses,
         RedactContent, WithinBudget, CloseKeeps;
  }

  /** A turn that a callback stops before it closes. */
  lemma CrashIsOk(options: Options, env: Environment, st0: AgentState, messages: seq<Message>, call: Option<ModelCall>, st: AgentState,
                  plain: seq<Event>, contacts: seq<Contact>)
    requires st.turnCount == st0.turnCount && (forall e :: e in plain ==> IsPlain(e))
    requires Thrown(env, contacts) && ThrowsLast(env, contacts)
    requires call.Some? ==> call.value.history == messages && call.value.usageBefore == st0.tokenUsage
    requires st.tokenUsage == if call.Some? && call.value.answer.Replied?
                              then AddUsage(st0.tokenUsage, call.value.answer.reply.usage) else st0.tokenUsage
    ensures TurnOk(options, env, st0, messages, Crashed, call, st, plain, [], contacts)
  {
    hide Thrown, ThrowsLast, UsageKept, IsPlain;
    NothingCloses(st.turnCount);
  }

  /** One turn of the loop, whose number is already in the state: it is announced, and then runs. */
  method Turn(options: Options, env: Environment, st0: AgentState, step0: nat, messages: seq<Message>, lastText0: string)
    returns (outcome: TurnOutcome, call: Option<ModelCall>, st: AgentState, step: nat, lastText: string,
             plain: seq<Event>, closing: seq<Event>, contacts: seq<Contact>)
    requires KeepsTurnCount(env)
    ensures TurnEffect(Closing(outcome, st, step, plain, closing, contacts), call, lastText)
            == TurnStep(options, env, st0, step0, messages, lastText0)
    ensures TurnOk(options, env, st0, messages, outcome, call, st, plain, closing, contacts)
  {
    hide KeepsTurnCount, EmitAll, BodyStep, TurnOk, UsageKept, Thrown, ThrowsLast;
    var start := TurnStart(st0.turnCount);
    EmissionMeans(env, step0, [start]);
    var heard, began, announced;
    heard, step, began, announced := Emit(env, step0, [start]);
    if !heard {
      CrashIsOk(options, env, st0, messages, None, st0, [], announced);
      return Crashed, None, st0, step, lastText0, [], [], announced;
    }
    outcome, call, st, step, lastText, plain, closing, contacts := RunTurn(options, env, st0, step, messages, lastText0);
    TurnOkAfter(options, env, st0, messages, outcome, call, st, plain, closing, announced, contacts);
    contacts := announced + contacts;
  }

  /** The turn after its announcement. */
  method RunTurn(options: Options, env: Environment, st0: AgentState, step0: nat, messages: seq<Message>, lastText0: string)
    returns (outcome: TurnOutcome, call: Option<ModelCall>, st: AgentState, step: nat, lastText: string,
             plain: seq<Event>, closing: seq<Event>, contacts: seq<Contact>)
    requires KeepsTurnCount(env)
    ensures TurnEffect(Closing(outcome, st, step, plain, closing, contacts), call, lastText)
            == BodyStep(options, env, st0, step0, messages, lastText0)
    ensures TurnOk(options, env, st0, messages, outcome, call, st, plain, closing, contacts)
  {
    hide KeepsTurnCount, UsageKept, Thrown, ThrowsLast, CloseKeeps, IsPlain, AddUsage, ReplyStep, Failing, CalculateCost, RedactContent,
         TakesToolBranch, Answers, IsText, ToolUses;
    st, step, lastText, call, plain := st0, step0, lastText0, None, [];
    var aborted := env.aborted(step);
    step := step + 1;
    if aborted {
      outcome, step, closing, contacts := Fail(options, env, st, step, "CANCELLED", "Run was cancelled", "Cancelled");
      return;
    }
    var answer := env.generate(step, messages);
    step := step + 1;
    call := Some(ModelCall(messages, st.tokenUsage, answer));
    if answer.Failed? {
      var message := options.redact(answer.message);
      outcome, step, closing, contacts := Fail(options, env, st, step, answer.code, message, message);
      return;
    }
    st := st.(tokenUsage := AddUsage(st.tokenUsage, answer.reply.usage));
    if options.budgetUsd.Some? && CalculateCost(st.tokenUsage, options.pricing) > options.budgetUsd.value {
      outcome, step, closing, contacts := Fail(options, env, st, step, "BUDGET_EXCEEDED", "Budget exceeded", "Budget exceeded");
      return;
    }
    var said;
    outcome, st, step, said, plain, closing, contacts := TakeReply(options, env, st, step, answer.reply, lastText);
    if outcome.NextTurn? {
      lastText := said;
    }
  }

  /** Announces a reply that is within budget, then completes or uses tools. */
  method TakeReply(options: Options, env: Environment, st0: AgentState, step0: nat, reply: Reply, lastText0: string)
    returns (outcome: TurnOutcome, st: AgentState, step: nat, lastText: string,
             plain: seq<Event>, closing: seq<Event>, contacts: seq<Contact>)
    requires KeepsTurnCount(env)
    ensures Closing(outcome, st, step, plain, closing, contacts) == ReplyStep(options, env, st0, step0, reply, lastText0)
    ensures outcome.NextTurn? ==> lastText == LastText(RedactContent(reply.content, options.redact), lastText0)
    ensures outcome.Finished? ==> outcome.completion.success && (TakesToolBranch(reply) ==> st.gaveUp)
    ensures st.turnCount == st0.turnCount
    ensures UsageKept(env, contacts) ==> st.tokenUsage == st0.tokenUsage
    ensures outcome.NextTurn? ==>
              && outcome.user.role == User
              && if TakesToolBranch(reply)
                 then Answers(outcome.user.content, ToolUses(RedactContent(reply.content, options.redact)), options.redact)
                 else IsText(outcome.user.content, options.redact)
    ensures forall e :: e in plain ==> IsPlain(e)
    ensures CloseKeeps(env, st.turnCount, outcome, closing, contacts)
  {
    hide KeepsTurnCount, UsageKept, Thrown, ThrowsLast, ClosesAs, IsPlain, ToolUses, Announced, LastText, EmitAll,
         CompleteStep, UseToolsStep, RedactContent, EndsInListener, Answers, IsText;
    var content := RedactContent(reply.content, options.redact);
    EmissionMeans(env, step0, Announced(content, options.redact));
    var heard, toolCalls, said, more, asked;
    st := st0;
    heard, toolCalls, lastText, step, said, contacts := ReadContent(options, env, step0, content, lastText0);
    assert forall e :: e in said ==> e in Announced(content, options.redact);
    if !heard {
      NothingCloses(st.turnCount);
      return Crashed, st, step, lastText, said, [], contacts;
    }
    ToolUsesRedacted(reply.content, options.redact);
    if reply.stopReason == Some("end_turn") || toolCalls == [] {
      more := [];
      outcome, st, step, closing, asked := Complete(options, env, st, step, lastText);
    } else {
      outcome, st, step, more, closing, asked := UseTools(options, env, st, step, toolCalls);
    }
    ContactsConcat(env, contacts, asked);
    if outcome.Crashed? {
      CrashHasContact(env, asked);
    }
    CloseKeepsAfter(env, st.turnCount, contacts, outcome, closing, asked);
    plain, contacts := said + more, contacts + asked;
  }

  // ---------------------------------------------------------------- the loop

  datatype Run = Run(result: Option<Completion>, calls: seq<ModelCall>, events: seq<Event>, state: AgentState,
                     contacts: seq<Contact>)

  /** The first call is made with the initial usage, and the usage known at each later one is the usage known at the one before plus what that one reported. */
  ghost predicate UsageAddsUp(calls: seq<ModelCall>, initial: Usage) {
    && (calls != [] ==> calls[0].usageBefore == initial)
    && forall k :: 0 < k < |calls| && calls[k - 1].answer.Replied? ==>
      calls[k].usageBefore == AddUsage(calls[k - 1].usageBefore, calls[k - 1].answer.reply.usage)
  }

  /** Every call after the first was made with the cost so far within budget. */
  ghost predicate SpendsWithinBudget(options: Options, calls: seq<ModelCall>) {
    forall k :: 0 < k < |calls| ==> WithinBudget(options, calls[k].usageBefore)
  }

  function UsageAfter(calls: seq<ModelCall>, initial: Usage): Usage {
    if calls == [] then initial
    else
      var last := calls[|calls| - 1];
      if last.answer.Replied? then AddUsage(last.usageBefore, last.answer.reply.usage) else last.usageBefore
  }

  ghost predicate AllReplied(calls: seq<ModelCall>) {
    forall c :: c in calls ==> c.answer.Replied?
  }

  lemma CallSnoc(calls: seq<ModelCall>, call: ModelCall, redact: string -> string)
    requires AllReplied(calls) && CallsInOrder(calls, redact)
    requires HistoryOf(call.history, RepliesOf(calls), redact)
    ensures CallsInOrder(calls + [call], redact)
    ensures call.answer.Replied? ==>
              AllReplied(calls + [call]) && RepliesOf(calls + [call]) == RepliesOf(calls) + [call.answer.reply]
  {
    var all := calls + [call];
    assert all[..|calls|] == calls;
    forall k | 0 <= k < |all| ensures HistoryBefore(all, k, redact) {
      if k < |calls| {
        assert all[..k] == calls[..k];
        assert HistoryBefore(calls, k, redact);
      }
    }
  }

  lemma MarksGrow(marks: seq<(bool, nat)>, first: nat, turn: nat, closed: bool)
    requires TurnsInOrder(marks, first) && |marks| == 2 * (turn - first - 1) && turn > first
    ensures TurnsInOrder(marks + [(true, turn)], first)
    ensures TurnsInOrder(marks + [(true, turn), (false, turn)], first)
  {
  }

  /** The state of a run at the head of the loop. */
  ghost predicate LoopInvariant(options: Options, env: Environment, initial: AgentState, st: AgentState,
                                messages: seq<Message>, calls: seq<ModelCall>, events: seq<Event>, contacts: seq<Contact>) {
    && st.turnCount == initial.turnCount + |calls|
    && AllReplied(calls) && CallsInOrder(calls, options.redact)
    && HistoryOf(messages, RepliesOf(calls), options.redact)
    && TurnsInOrder(Marks(events), initial.turnCount) && |Marks(events)| == 2 * |calls|
    && Terminals(events) == [] && !Thrown(env, contacts) && ThrowsLast(env, contacts)
    && (UsageKept(env, contacts) ==>
          && st.tokenUsage == UsageAfter(calls, initial.tokenUsage)
          && UsageAddsUp(calls, initial.tokenUsage) && SpendsWithinBudget(options, calls)
          && (calls != [] ==> WithinBudget(options, st.tokenUsage)))
  }

  /** Why a run ended: as its last turn explains, or because the turns were used up. */
  ghost predicate Explained(options: Options, env: Environment, run: Run)
    requires run.result.Some?
  {
    || (!run.result.value.success && run.state.turnCount >= options.maxTurns)
    || exists call: Option<ModelCall> :: (call.Some? ==> run.calls != [] && call.value == run.calls[|run.calls| - 1])
                      && TurnExplains(options, env, run.state, call, run.result.value.success)
  }

  /** The events of a run without a result: one of them is terminal only if the listener stopped the run there, on that event
      or on the end of its turn. */
  ghost predicate UnendedOk(events: seq<Event>, contacts: seq<Contact>) {
    && |Terminals(events)| <= 1 && (Terminals(events) != [] <==> EndsClosed(events))
    && (Terminals(events) != [] ==> EndsInListener(contacts))
  }

  /** The events of a run: turns in order, one terminal event if there is a result. */
  ghost predicate EventsOk(result: Option<Completion>, first: nat, turn: nat, events: seq<Event>, contacts: seq<Contact>) {
    && TurnsInOrder(Marks(events), first) && turn == first + (|Marks(events)| + 1) / 2
    && (if result.Some?
        then |Terminals(events)| == 1 && (result.value.success <==> Terminals(events)[0].Completed?)
        else UnendedOk(events, contacts))
  }

  /** What every run guarantees.  Its events are those given to the listener. */
  ghost predicate RunOk(options: Options, env: Environment, initial: AgentState, run: Run) {
    && CallsInOrder(run.calls, options.redact)
    && (|run.calls| == 0 || |run.calls| <= options.maxTurns - initial.turnCount)
    && (run.result.None? <==> Thrown(env, run.contacts)) && ThrowsLast(env, run.contacts)
    && EventsOk(run.result, initial.turnCount, run.state.turnCount, run.events, run.contacts)
    && (run.result.Some? ==> Explained(options, env, run))
    && (UsageKept(env, run.contacts) ==>
          && UsageAddsUp(run.calls, initial.tokenUsage) && SpendsWithinBudget(options, run.calls)
          && run.state.tokenUsage == UsageAfter(run.calls, initial.tokenUsage))
  }

  /** The calls after a turn that made `call`. */
  lemma CallsGrow(options: Options, env: Environment, initial: AgentState, st: AgentState,
                  messages: seq<Message>, calls: seq<ModelCall>, events: seq<Event>, contacts: seq<Contact>, call: ModelCall)
    requires LoopInvariant(options, env, initial, st, messages, calls, events, contacts)
    requires call.history == messages && call.usageBefore == st.tokenUsage
    ensures CallsInOrder(calls + [call], options.redact)
    ensures UsageKept(env, contacts) ==>
              UsageAddsUp(calls + [call], initial.tokenUsage) && SpendsWithinBudget(options, calls + [call])
    ensures call.answer.Replied? ==>
              AllReplied(calls + [call]) && RepliesOf(calls + [call]) == RepliesOf(calls) + [call.answer.reply]
  {
    CallSnoc(calls, call, options.redact);
    hide UsageKept, CallsInOrder, AddUsage, WithinBudget;
    var all := calls + [call];
    if UsageKept(env, contacts) {
      forall k | 0 < k < |all|
        ensures WithinBudget(options, all[k].usageBefore)
        ensures all[k - 1].answer.Replied? ==>
                  all[k].usageBefore == AddUsage(all[k - 1].usageBefore, all[k - 1].answer.reply.usage)
      {
        if k == |calls| {
          assert calls[k - 1] in calls;
        }
      }
    }
  }

  lemma EndIsTerminal(events: seq<Event>)
    ensures EndsClosed(events) ==> Terminals(events) != []
  {
    hide Marks, IsTerminal;
    if EndsClosed(events) {
      var n := |events|;
      if !IsTerminal(events[n - 1]) {
        assert events[..n - 1][..n - 2] == events[..n - 2];
        assert Terminals(events[..n - 1]) == Terminals(events[..n - 2]) + [events[n - 2]];
      }
    }
  }

  lemma EndIsTail(events: seq<Event>, closing: seq<Event>)
    ensures EndsClosed(closing) ==> EndsClosed(events + closing)
  {
  }

  lemma EventsGrow(events: seq<Event>, initial: nat, turn: nat, plain: seq<Event>, closing: seq<Event>, outcome: TurnOutcome)
    requires TurnsInOrder(Marks(events), initial) && |Marks(events)| == 2 * (turn - initial - 1) && turn > initial
    requires Terminals(events) == [] && ClosesAs(turn, outcome, closing)
    requires forall e :: e in plain ==> IsPlain(e)
    ensures var all := events + ([TurnStart(turn)] + plain + closing);
            && Terminals(all) == Terminals(closing)
            && TurnsInOrder(Marks(all), initial)
            && turn == initial + (|Marks(all)| + 1) / 2
            && (outcome.NextTurn? ==> |Marks(all)| == 2 * (turn - initial))
            && (outcome.Crashed? ==> (Terminals(all) != [] <==> EndsClosed(all)))
  {
    EndIsTerminal(events + ([TurnStart(turn)] + plain + closing));
    EndIsTail(events + ([TurnStart(turn)] + plain), closing);
    assert events + ([TurnStart(turn)] + plain + closing) == events + ([TurnStart(turn)] + plain) + closing;
    hide Marks, Terminals, EndsClosed;
    TurnEvents(turn, plain, closing);
    EventsConcat(events, [TurnStart(turn)] + plain + closing);
    MarksGrow(Marks(events), initial, turn, true);
    assert [(true, turn)] + [] == [(true, turn)];
    assert [(true, turn)] + [(false, turn)] == [(true, turn), (false, turn)];
  }

  /** The whole run from a loop head on, as a function of the environment. */
  function LoopFrom(options: Options, env: Environment, st: AgentState, step: nat, messages: seq<Message>, lastText: string,
                    calls: seq<ModelCall>, events: seq<Event>, contacts: seq<Contact>): Run
    requires KeepsTurnCount(env)
    decreases options.maxTurns - st.turnCount
  {
    if st.turnCount >= options.maxTurns then
      var end := Failing(options, env, st, step, "MAX_TURNS_EXCEEDED", "Reached maximum turns",
                         if lastText != "" then lastText else "Max turns exceeded");
      Run(ResultOf(end.outcome), calls, events + end.closing, st, contacts + end.contacts)
    else
      var turn := st.turnCount + 1;
      var t := TurnStep(options, env, st.(turnCount := turn), step, messages, lastText);
      var end := t.closing;
      TurnKeepsCount(options, env, st.(turnCount := turn), step, messages, lastText);
      var more, asked := events + ([TurnStart(turn)] + end.plain + end.closing), contacts + end.contacts;
      if end.outcome.NextTurn? then
        NextTurnHasReply(options, env, st.(turnCount := turn), step, messages, lastText);
        LoopFrom(options, env, end.st, end.step,
                 messages + [Message(Assistant, RedactContent(t.call.value.answer.reply.content, options.redact))] + [end.outcome.user],
                 t.lastText, calls + [t.call.value], more, asked)
      else
        Run(ResultOf(end.outcome), if t.call.Some? then calls + [t.call.value] else calls, more, end.st, asked)
  }

  function ResultOf(outcome: TurnOutcome): Option<Completion> {
    if outcome.Finished? then Some(outcome.completion) else None
  }

  lemma {:induction false} ToolsKeepCount(options: Options, env: Environment, st: AgentState, step: nat, toolCalls: seq<Part>)
    requires KeepsTurnCount(env) && forall c :: c in toolCalls ==> c.ToolUse?
    ensures ToolSteps(options, env, st, step, toolCalls).st.turnCount == st.turnCount
  {
    if toolCalls != [] {
      var n := |toolCalls| - 1;
      assert toolCalls[n] in toolCalls && forall c :: c in toolCalls[..n] ==> c in toolCalls;
      ToolsKeepCount(options, env, st, step, toolCalls[..n]);
      var before := ToolSteps(options, env, st, step, toolCalls[..n]);
      ToolStepCounts(options, env, before.st, before.step, toolCalls[n]);
      hide ToolStep, KeepsTurnCount;
    }
  }

  lemma TurnKeepsCount(options: Options, env: Environment, st: AgentState, step: nat, messages: seq<Message>, lastText: string)
    requires KeepsTurnCount(env)
    ensures TurnStep(options, env, st, step, messages, lastText).closing.st.turnCount == st.turnCount
  {
    hide BodyStep, EmitAll;
    BodyKeepsCount(options, env, st, EmitAll(env, step, [TurnStart(st.turnCount)]).step, messages, lastText);
  }

  lemma BodyKeepsCount(options: Options, env: Environment, st: AgentState, step: nat, messages: seq<Message>, lastText: string)
    requires KeepsTurnCount(env)
    ensures BodyStep(options, env, st, step, messages, lastText).closing.st.turnCount == st.turnCount
  {
    hide RedactContent, Announced, ToolSteps, CalculateCost, ToolUses, LastText, EmitAll, RedactEvent, ToResult;
    var answer := env.generate(step + 1, messages);
    if answer.Replied? {
      var spent := st.(tokenUsage := AddUsage(st.tokenUsage, answer.reply.usage));
      var content := RedactContent(answer.reply.content, options.redact);
      ToolUsesAreUses(content);
      ToolsKeepCount(options, env, spent, EmitAll(env, step + 2, Announced(content, options.redact)).step, ToolUses(content));
    }
  }

  lemma NextTurnHasReply(options: Options, env: Environment, st: AgentState, step: nat, messages: seq<Message>, lastText: string)
    requires TurnStep(options, env, st, step, messages, lastText).closing.outcome.NextTurn?
    ensures var call := TurnStep(options, env, st, step, messages, lastText).call; call.Some? && call.value.answer.Replied?
  {
    hide ReplyStep, CalculateCost, EmitAll, RedactEvent, ToResult;
  }

  /** The whole run. */
  function WholeRun(options: Options, env: Environment, initial: AgentState): Run
    requires KeepsTurnCount(env)
  {
    LoopFrom(options, env, initial, 0, [Message(User, [Text(options.redact(options.userMessage))])], "", [], [], [])
  }

  method RunLoop(options: Options, env: Environment, initial: AgentState) returns (run: Run)
    requires KeepsTurnCount(env)
    ensures run == WholeRun(options, env, initial)
    ensures RunOk(options, env, initial, run)
  {
    hide KeepsTurnCount, UsageKept, Thrown, ThrowsLast, CallsInOrder, HistoryOf, TurnsInOrder, Marks, Terminals, IsPlain, ClosesAs,
         UsageAddsUp, SpendsWithinBudget, WithinBudget, AddUsage, TakesToolBranch, ToolUses, Answers, IsText, Clean, AllReplied,
         RepliesOf, LoopInvariant, RunOk, TurnExplains, TurnStep, RedactContent, TurnOk, Failing, CloseKeeps;
    var st, step, lastText := initial, 0, "";
    var messages := [Message(User, [Text(options.redact(options.userMessage))])];
    var calls: seq<ModelCall> := [];
    var events: seq<Event> := [];
    var contacts: seq<Contact> := [];
    CleanText(options.userMessage, options.redact);
    LoopStarts(options, env, initial, messages);
    var outcome, closing, asked;
    while st.turnCount < options.maxTurns
      invariant LoopInvariant(options, env, initial, st, messages, calls, events, contacts)
      invariant LoopFrom(options, env, st, step, messages, lastText, calls, events, contacts) == WholeRun(options, env, initial)
      invariant calls == [] || st.turnCount <= options.maxTurns
      decreases options.maxTurns - st.turnCount
    {
      ghost var before := st;
      st := st.(turnCount := st.turnCount + 1);
      var call, plain;
      var turn := st.turnCount;
      TurnKeepsCount(options, env, st, step, messages, lastText);
      outcome, call, st, step, lastText, plain, closing, asked := Turn(options, env, st, step, messages, lastText);
      ghost var events0, contacts0 := events, contacts;
      contacts := contacts + asked;
      events := events + ([TurnStart(turn)] + plain + closing);
      if outcome.NextTurn? {
        TurnContinues(options, env, initial, before, st, messages, calls, events0, contacts0, call, outcome, plain, closing, asked);
        messages := messages + [Message(Assistant, RedactContent(call.value.answer.reply.content, options.redact))] + [outcome.user];
        calls := calls + [call.value];
      } else {
        run := Run(ResultOf(outcome), if call.Some? then calls + [call.value] else calls, events, st, contacts);
        TurnEnds(options, env, initial, before, st, messages, calls, events0, contacts0, call, outcome, plain, closing, asked, run);
        return;
      }
    }
    outcome, step, closing, asked := Fail(options, env, st, step, "MAX_TURNS_EXCEEDED", "Reached maximum turns",
                                          if lastText != "" then lastText else "Max turns exceeded");
    run := Run(ResultOf(outcome), calls, events + closing, st, contacts + asked);
    LoopExhausted(options, env, initial, messages, events, contacts, outcome, closing, asked, run);
  }

  lemma CleanText(raw: string, redact: string -> string)
    ensures IsText([Text(redact(raw))], redact)
  {
  }

  lemma LoopStarts(options: Options, env: Environment, initial: AgentState, messages: seq<Message>)
    requires |messages| == 1 && messages[0].role == User && IsText(messages[0].content, options.redact)
    ensures LoopInvariant(options, env, initial, initial, messages, [], [], [])
  {
  }

  lemma NothingIsTerminal()
    ensures Terminals([]) == []
  {
  }

  lemma ListenerLast(a: seq<Contact>, b: seq<Contact>)
    ensures EndsInListener(b) ==> EndsInListener(a + b)
  {
  }

  lemma TurnEventsOk(events: seq<Event>, first: nat, turn: nat, plain: seq<Event>, closing: seq<Event>, outcome: TurnOutcome,
                     contacts: seq<Contact>, asked: seq<Contact>)
    requires TurnsInOrder(Marks(events), first) && |Marks(events)| == 2 * (turn - first - 1) && turn > first
    requires Terminals(events) == [] && ClosesAs(turn, outcome, closing) && !outcome.NextTurn?
    requires forall e :: e in plain ==> IsPlain(e)
    requires ClosedByListener(outcome, closing, asked)
    ensures EventsOk(ResultOf(outcome), first, turn, events + ([TurnStart(turn)] + plain + closing), contacts + asked)
  {
    hide Marks, Terminals, TurnsInOrder, EndsClosed, IsPlain, EndsInListener;
    EventsGrow(events, first, turn, plain, closing, outcome);
    NothingIsTerminal();
    ListenerLast(contacts, asked);
  }

  lemma LastEventOk(events: seq<Event>, first: nat, turn: nat, outcome: TurnOutcome, error: Event, contacts: seq<Contact>, asked: seq<Contact>)
    requires TurnsInOrder(Marks(events), first) && |Marks(events)| == 2 * (turn - first) && turn >= first && Terminals(events) == []
    requires error.Error? && ClosedByListener(outcome, [error], asked)
    requires outcome.Crashed? || (outcome.Finished? && !outcome.completion.success)
    ensures EventsOk(ResultOf(outcome), first, turn, events + [error], contacts + asked)
  {
    hide Marks, Terminals, TurnsInOrder, EndsInListener;
    EventsConcat(events, [error]);
    OneEvent(error);
    assert Marks(events) + [] == Marks(events);
    assert EndsClosed(events + [error]);
    ListenerLast(contacts, asked);
  }

  lemma LoopExhausted(options: Options, env: Environment, initial: AgentState, messages: seq<Message>, events: seq<Event>,
                      contacts: seq<Contact>, outcome: TurnOutcome, closing: seq<Event>, asked: seq<Contact>, run: Run)
    requires LoopInvariant(options, env, initial, run.state, messages, run.calls, events, contacts)
    requires (run.calls == [] || run.state.turnCount <= options.maxTurns) && run.state.turnCount >= options.maxTurns
    requires CloseKeeps(env, run.state.turnCount, outcome, closing, asked) && UsageKept(env, asked)
    requires |closing| == 1 && closing[0].Error? && run.events == events + closing && run.contacts == contacts + asked
    requires outcome.Crashed? || (outcome.Finished? && !outcome.completion.success)
    requires run.result == ResultOf(outcome)
    ensures RunOk(options, env, initial, run)
  {
    hide Thrown, ThrowsLast, UsageKept, Marks, Terminals, CallsInOrder, TurnsInOrder, AddUsage, WithinBudget, RepliesOf, HistoryOf,
         AllReplied, EndsClosed, EndsInListener, UsageAddsUp, SpendsWithinBudget, ClosesAs, UnendedOk;
    ContactsConcat(env, contacts, asked);
    assert closing == [closing[0]];
    LastEventOk(events, initial.turnCount, run.state.turnCount, outcome, closing[0], contacts, asked);
    hide EventsOk, ClosedByListener;
  }

  lemma TurnContinues(options: Options, env: Environment, initial: AgentState, before: AgentState, after: AgentState,
                      messages: seq<Message>, calls: seq<ModelCall>, events: seq<Event>, contacts: seq<Contact>, call: Option<ModelCall>,
                      outcome: TurnOutcome, plain: seq<Event>, closing: seq<Event>, asked: seq<Contact>)
    requires LoopInvariant(options, env, initial, before, messages, calls, events, contacts) && outcome.NextTurn?
    requires TurnOk(options, env, before.(turnCount := before.turnCount + 1), messages, outcome, call, after, plain, closing, asked)
    ensures call.Some? && call.value.answer.Replied?
    ensures LoopInvariant(
      options, env, initial, after,
      messages + [Message(Assistant, RedactContent(call.value.answer.reply.content, options.redact))] + [outcome.user],
      calls + [call.value], events + ([TurnStart(after.turnCount)] + plain + closing), contacts + asked)
  {
    ContactsConcat(env, contacts, asked);
    hide UsageKept, Thrown, ThrowsLast, CallsInOrder, HistoryOf, TurnsInOrder, Marks, Terminals, IsPlain, UsageAddsUp,
         SpendsWithinBudget, WithinBudget, AddUsage, TakesToolBranch, ToolUses, Answers, IsText, Clean, RepliesOf;
    CallsGrow(options, env, initial, before, messages, calls, events, contacts, call.value);
    HistoryGrows(messages, RepliesOf(calls), options.redact, call.value.answer.reply, outcome.user);
    EventsGrow(events, initial.turnCount, after.turnCount, plain, closing, outcome);
  }

  lemma TurnEnds(options: Options, env: Environment, initial: AgentState, before: AgentState, after: AgentState,
                 messages: seq<Message>, calls: seq<ModelCall>, events: seq<Event>, contacts: seq<Contact>, call: Option<ModelCall>,
                 outcome: TurnOutcome, plain: seq<Event>, closing: seq<Event>, asked: seq<Contact>, run: Run)
    requires LoopInvariant(options, env, initial, before, messages, calls, events, contacts) && !outcome.NextTurn?
    requires before.turnCount + 1 <= options.maxTurns
    requires TurnOk(options, env, before.(turnCount := before.turnCount + 1), messages, outcome, call, after, plain, closing, asked)
    requires run.result == ResultOf(outcome) && run.contacts == contacts + asked
    requires run.calls == if call.Some? then calls + [call.value] else calls
    requires run.events == events + ([TurnStart(after.turnCount)] + plain + closing) && run.state == after
    ensures RunOk(options, env, initial, run)
  {
    hide UsageKept, Thrown, ThrowsLast, CallsInOrder, HistoryOf, TurnsInOrder, Marks, Terminals, IsPlain, EndsClosed, EndsInListener,
         SpendsWithinBudget, WithinBudget, AddUsage, AllReplied, RepliesOf, TurnExplains, TakesToolBranch, Answers, IsText, ClosesAs, UnendedOk,
         ToolUses, RedactContent;
    ContactsConcat(env, contacts, asked);
    TurnEventsOk(events, initial.turnCount, after.turnCount, plain, closing, outcome, contacts, asked);
    hide EventsOk, ClosedByListener;
    if call.Some? {
      CallsGrow(options, env, initial, before, messages, calls, events, contacts, call.value);
    }
  }

  // ---------------------------------------------------------------- the guarantees, spelled out

  lemma CostAdds(a: Usage, b: Usage, p: Pricing)
    ensures CalculateCost(AddUsage(a, b), p) == CalculateCost(a, p) + CalculateCost(b, p)
  {
    TermAdds(a.input, b.input, p.input);
    TermAdds(a.output, b.output, p.output);
    TermAdds(a.cacheWrite, b.cacheWrite, p.cacheWrite);
    TermAdds(a.cacheRead, b.cacheRead, p.cacheRead);
  }

  lemma TermAdds(x: int, y: int, price: real)
    ensures (x + y) as real / 1_000_000.0 * price == x as real / 1_000_000.0 * price + y as real / 1_000_000.0 * price
  {
    var a, b := x as real / 1_000_000.0, y as real / 1_000_000.0;
    assert (x + y) as real / 1_000_000.0 == a + b;
    assert (a + b) * price == a * price + b * price;
  }

  /** What the last call of a run was charged; nothing if it failed or there was none. */
  function LastCharge(run: Run, pricing: Pricing): real {
    if run.calls != [] && run.calls[|run.calls| - 1].answer.Replied?
    then CalculateCost(run.calls[|run.calls| - 1].answer.reply.usage, pricing)
    else 0.0
  }

  /** A run that starts within its budget, or makes a second call, overspends by at most what its last call was charged,
      if the hooks that it called left the usage alone. */
  lemma OverspendIsOneResponse(options: Options, env: Environment, initial: AgentState, run: Run)
    requires RunOk(options, env, initial, run) && UsageKept(env, run.contacts)
    requires options.budgetUsd.Some? && (|run.calls| > 1 || WithinBudget(options, initial.tokenUsage))
    ensures CalculateCost(run.state.tokenUsage, options.pricing) <= options.budgetUsd.value + LastCharge(run, options.pricing)
  {
    if run.calls != [] {
      var last := run.calls[|run.calls| - 1];
      assert WithinBudget(options, last.usageBefore);
      if last.answer.Replied? {
        CostAdds(last.usageBefore, last.answer.reply.usage, options.pricing);
      }
    }
  }

  /** At every model call the history starts with a user message, alternates and ends with a user message. */
  lemma EveryCallSeesAnAlternatingHistory(options: Options, env: Environment, initial: AgentState, run: Run, k: nat)
    requires RunOk(options, env, initial, run) && k < |run.calls|
    ensures Alternates(run.calls[k].history) && |run.calls[k].history| == 2 * k + 1
  {
    assert HistoryBefore(run.calls, k, options.redact);
    assert forall c :: c in run.calls[..k] ==> c.answer.Replied?;
    RepliesAre(run.calls[..k]);
    HistoriesAlternate(run.calls[k].history, RepliesOf(run.calls[..k]), options.redact);
  }

  /** The reply to an earlier call that took the tool branch was answered with one result for each tool use, in order. */
  lemma EveryToolUseIsAnswered(options: Options, env: Environment, initial: AgentState, run: Run, j: nat, k: nat)
    requires RunOk(options, env, initial, run) && j < k < |run.calls|
    ensures run.calls[j].answer.Replied? && |run.calls[k].history| == 2 * k + 1
    ensures TakesToolBranch(run.calls[j].answer.reply) ==>
              var history := run.calls[k].history;
              && history[2 * j + 1] == Message(Assistant, RedactContent(run.calls[j].answer.reply.content, options.redact))
              && history[2 * j + 2].role == User
              && Answers(history[2 * j + 2].content, ToolUses(history[2 * j + 1].content), options.redact)
  {
    assert HistoryBefore(run.calls, k, options.redact);
    assert forall c :: c in run.calls[..k] ==> c.answer.Replied?;
    RepliesAre(run.calls[..k]);
    assert run.calls[..k][j] == run.calls[j];
    assert RepliesOf(run.calls[..k])[j] == run.calls[j].answer.reply;
  }

  ghost predicate CleanJson(v: Json, redact: string -> string) {
    match v
    case JString(text) => Clean(text, redact)
    case JArray(items) => forall i :: i in items ==> CleanJson(i, redact)
    case JObject(fields) => forall f :: f in fields ==> Clean(f.key, redact) && CleanJson(f.value, redact)
    case JOther(_) => true
  }

  ghost predicate CleanPart(p: Part, redact: string -> string) {
    match p
    case Text(text) => Clean(text, redact)
    case ToolUse(id, name, input) => Clean(id, redact) && Clean(name, redact) && CleanJson(input, redact)
    case ToolResult(id, output, _) => Clean(id, redact) && Clean(output, redact)
  }

  ghost predicate CleanMessage(m: Message, redact: string -> string) {
    forall k :: 0 <= k < |m.content| ==> CleanPart(m.content[k], redact)
  }

  lemma {:induction false} RedactedValueIsClean(v: Json, redact: string -> string)
    ensures CleanJson(RedactValue(v, redact), redact)
    decreases v, 0
  {
    match v
    case JString(_) =>
    case JArray(items) => RedactedItemsAreClean(items, redact);
    case JObject(fields) => RedactedFieldsAreClean(fields, redact);
    case JOther(_) =>
  }

  lemma {:induction false} RedactedItemsAreClean(items: seq<Json>, redact: string -> string)
    ensures forall i :: i in RedactItems(items, redact) ==> CleanJson(i, redact)
    decreases items, 0
  {
    if items != [] {
      RedactedValueIsClean(items[0], redact);
      RedactedItemsAreClean(items[1..], redact);
    }
  }

  lemma {:induction false} RedactedFieldsAreClean(fields: seq<Field>, redact: string -> string)
    ensures forall f :: f in RedactFields(fields, redact) ==> Clean(f.key, redact) && CleanJson(f.value, redact)
    decreases fields, 0
  {
    if fields != [] {
      var f := fields[0];
      RedactedValueIsClean(f.value, redact);
      RedactedFieldsAreClean(fields[1..], redact);
    }
  }

  lemma RedactedReplyIsClean(content: seq<ReplyPart>, redact: string -> string)
    ensures CleanMessage(Message(Assistant, RedactContent(content, redact)), redact)
    ensures forall u :: u in RedactContent(content, redact) ==> CleanPart(u, redact)
  {
    var r := RedactContent(content, redact);
    forall k | 0 <= k < |r| ensures CleanPart(r[k], redact) {
      if content[k].ToolUse? {
        RedactedValueIsClean(content[k].input, redact);
      }
    }
  }

  lemma {:induction false} ToolUsesAreParts(content: seq<Part>)
    ensures forall u :: u in ToolUses(content) ==> u in content
  {
    if content != [] {
      ToolUsesAreParts(content[..|content| - 1]);
    }
  }

  /** Nothing reaches the model that the redactor did not produce: no text, id, name, input or tool output. */
  lemma OnlyRedactedTextReachesTheModel(options: Options, env: Environment, initial: AgentState, run: Run, k: nat, m: nat)
    requires RunOk(options, env, initial, run) && k < |run.calls| && m < |run.calls[k].history|
    ensures CleanMessage(run.calls[k].history[m], options.redact)
  {
    assert HistoryBefore(run.calls, k, options.redact);
    assert forall c :: c in run.calls[..k] ==> c.answer.Replied?;
    RepliesAre(run.calls[..k]);
    HistoryIsClean(run.calls[k].history, RepliesOf(run.calls[..k]), options.redact, m);
  }

  lemma HistoryIsClean(history: seq<Message>, replies: seq<Reply>, redact: string -> string, m: nat)
    requires HistoryOf(history, replies, redact) && m < |history|
    ensures CleanMessage(history[m], redact)
  {
    hide CleanPart, Clean, ToolUses, Answers, RedactContent, TakesToolBranch;
    if m == 0 {
      TextIsClean(history[0], redact);
    } else {
      var j := (m - 1) / 2;
      assert m == 2 * j + 1 || m == 2 * j + 2;
      RedactedReplyIsClean(replies[j].content, redact);
      assert history[2 * j + 1] == Message(Assistant, RedactContent(replies[j].content, redact));
      if m == 2 * j + 2 {
        if TakesToolBranch(replies[j]) {
          ResultsAreClean(history[m], RedactContent(replies[j].content, redact), redact);
        } else {
          TextIsClean(history[m], redact);
        }
      }
    }
  }

  lemma TextIsClean(message: Message, redact: string -> string)
    requires IsText(message.content, redact)
    ensures CleanMessage(message, redact)
  {
  }

  lemma ResultsAreClean(message: Message, said: seq<Part>, redact: string -> string)
    requires Answers(message.content, ToolUses(said), redact) && forall u :: u in said ==> CleanPart(u, redact)
    ensures CleanMessage(message, redact)
  {
    hide ToolUses, CleanJson, Clean;
    ToolUsesAreParts(said);
    forall i | 0 <= i < |message.content| ensures CleanPart(message.content[i], redact) {
      assert ToolUses(said)[i] in said;
      assert CleanPart(ToolUses(said)[i], redact);
    }
  }

  // ---------------------------------------------------------------- callbacks that throw

  const NO_USAGE := Usage(0, 0, 0, 0)

  ghost predicate HearsAll(env: Environment) { forall n: nat, e: Event :: env.hears(n, e) }

  lemma HearsOne(env: Environment, n: nat, e: Event)
    requires HearsAll(env)
    ensures env.hears(n, e)
  {
  }

  lemma NothingEmitted(env: Environment, step: nat)
    ensures EmitAll(env, step, []) == Emission(true, step, [], [])
  {
  }

  lemma {:induction false} AllHeard(env: Environment, step: nat, events: seq<Event>)
    requires HearsAll(env)
    ensures EmitAll(env, step, events).ok && EmitAll(env, step, events).events == events
    decreases |events|
  {
    hide *;
    if events == [] {
      NothingEmitted(env, step);
    } else {
      var n := |events| - 1;
      AllHeard(env, step, events[..n]);
      HearsOne(env, EmitAll(env, step, events[..n]).step, events[n]);
      EmitNext(env, step, events[..n], events[n]);
      assert events == events[..n] + [events[n]];
    }
  }

  /** A reply of one text, in a run whose completion hook throws, ends the turn in a crash with no terminal event. */
  lemma TextTurnCrashes(options: Options, env: Environment, st: AgentState, step: nat, messages: seq<Message>, text: string)
    requires (forall n: nat :: !env.aborted(n)) && HearsAll(env)
    requires forall n: nat, m: seq<Message> :: env.generate(n, m) == Replied(Reply([Text(text)], NO_USAGE, None))
    requires options.budgetUsd == None && forall n: nat, a: AgentState :: env.preCompletion(n, a) == CheckThrew
    ensures var t := TurnStep(options, env, st, step, messages, "");
            && t.closing.outcome.Crashed? && t.closing.closing == []
            && t.closing.plain == [Announcement(Text(options.redact(text)), options.redact)]
            && t.closing.contacts != [] && ThrewAt(env, t.closing.contacts[|t.closing.contacts| - 1])
            && t.call == Some(ModelCall(messages, st.tokenUsage, Replied(Reply([Text(text)], NO_USAGE, None))))
  {
    hide EmitAll, Announcement, UseToolsStep;
    var content := RedactContent([Text(text)], options.redact);
    assert content == [Text(options.redact(text))];
    assert content[..0] == [];
    assert ToolUses(content) == [];
    AllHeard(env, step, [TurnStart(st.turnCount)]);
    var start := EmitAll(env, step, [TurnStart(st.turnCount)]).step;
    AllHeard(env, start + 2, Announced(content, options.redact));
    assert Announced(content, options.redact) == [Announcement(Text(options.redact(text)), options.redact)];
  }

  lemma TextRunCrashes(options: Options, env: Environment, initial: AgentState, text: string)
    requires KeepsTurnCount(env) && initial.turnCount < options.maxTurns && options.budgetUsd == None
    requires (forall n: nat :: !env.aborted(n)) && HearsAll(env)
    requires forall n: nat, a: AgentState :: env.preCompletion(n, a) == CheckThrew
    requires forall n: nat, m: seq<Message> :: env.generate(n, m) == Replied(Reply([Text(text)], NO_USAGE, None))
    ensures var run := WholeRun(options, env, initial);
            && |run.calls| == 1 && run.calls[0].answer.Replied? && Thrown(env, run.contacts)
            && run.result == None && run.events != [] && Terminals(run.events) == []
  {
    hide KeepsTurnCount, TurnStep, RedactEvent;
    var messages := [Message(User, [Text(options.redact(options.userMessage))])];
    var turn := initial.turnCount + 1;
    TextTurnCrashes(options, env, initial.(turnCount := turn), 0, messages, text);
    var run := WholeRun(options, env, initial);
    var t := TurnStep(options, env, initial.(turnCount := turn), 0, messages, "");
    var events := [TurnStart(turn)] + t.closing.plain + [];
    assert run.events == [] + events && run.contacts == [] + t.closing.contacts;
    assert run.contacts[|run.contacts| - 1] in run.contacts;
    RedactKeepsKind(MessageEvent(options.redact(text)), options.redact);
    TurnEvents(turn, t.closing.plain, []);
    assert [] + events == events;
  }

  /** A model that answers with one text, hooks that allow everything, and a listener that hears everything. */
  const AGREEABLE := Environment(
    (n: nat, messages: seq<Message>) => Replied(Reply([Text("done")], NO_USAGE, None)),
    (n: nat, call: Call, st: AgentState) => Verdict(true, None, st), (n: nat, call: Call) => Done(""),
    (n: nat, call: Call, output: string, isError: bool, st: AgentState) => After(st),
    (n: nat, st: AgentState) => Check(None, st), (n: nat, e: Event) => true, (n: nat) => false)

  const CRASHING := AGREEABLE.(preCompletion := (n: nat, st: AgentState) => CheckThrew)

  const DEAF := AGREEABLE.(hears := (n: nat, e: Event) => false)

  const THREE_TURNS := Options("go", 3, {}, None, Pricing(0.0, 0.0, 0.0, 0.0), (text: string) => text)

  const NEW_AGENT := AgentState(0, 0, false, false, None, NO_USAGE, [])

  /** A completion hook that throws: one replied call, no result and no terminal event. */
  lemma ThrowingHookLeavesNoResult()
    ensures KeepsTurnCount(CRASHING)
    ensures var run := WholeRun(THREE_TURNS, CRASHING, NEW_AGENT);
            && |run.calls| == 1 && run.calls[0].answer.Replied? && Thrown(CRASHING, run.contacts)
            && run.result == None && run.events != [] && Terminals(run.events) == []
  {
    hide WholeRun, Terminals, Thrown, Marks;
    TextRunCrashes(THREE_TURNS, CRASHING, NEW_AGENT, "done");
  }

  /** A listener that throws on the start of the first turn: no call, no result and no terminal event, and no hook threw. */
  lemma ThrowingListenerLeavesNoResult()
    ensures KeepsTurnCount(DEAF)
    ensures WholeRun(THREE_TURNS, DEAF, NEW_AGENT)
            == Run(None, [], [TurnStart(1)], NEW_AGENT.(turnCount := 1), [Emitted(0, TurnStart(1))])
    ensures Terminals([TurnStart(1)]) == []
  {
    hide BodyStep;
    OneEvent(TurnStart(1));
    var m := EmitAll(DEAF, 0, [TurnStart(1)]);
    assert [TurnStart(1)][..0] == [];
    assert m == Emission(false, 1, [TurnStart(1)], [Emitted(0, TurnStart(1))]);
  }

  // ---------------------------------------------------------------- tools that are not executed

  /** The contact `before` allowed the execution that follows it. */
  predicate Allows(options: Options, env: Environment, before: Contact, c: Contact) {
    && c.Executed? && c.call.name in options.tools
    && before.Asked? && before.n + 1 == c.n && before.call == Call(c.call.id, options.redact(c.call.name), RedactValue(c.call.input, options.redact))
    && env.preTool(before.n, before.call, before.st).Verdict? && env.preTool(before.n, before.call, before.st).allow
  }

  predicate ExecutesAllowed(options: Options, env: Environment, cs: seq<Contact>) {
    forall i :: 0 <= i < |cs| && cs[i].Executed? ==> i > 0 && Allows(options, env, cs[i - 1], cs[i])
  }

  lemma AllowedConcat(options: Options, env: Environment, a: seq<Contact>, b: seq<Contact>)
    requires ExecutesAllowed(options, env, a) && ExecutesAllowed(options, env, b)
    ensures ExecutesAllowed(options, env, a + b)
  {
    hide Allows;
    var cs := a + b;
    forall i | 0 <= i < |cs| && cs[i].Executed? ensures i > 0 && Allows(options, env, cs[i - 1], cs[i]) {
      if i >= |a| {
        assert cs[i] == b[i - |a|] && cs[i - 1] == b[i - |a| - 1];
      }
    }
  }

  /** Both environments give the executions among the contacts the same outcome. */
  predicate SameExecutions(env: Environment, other: (nat, Call) -> Execution, cs: seq<Contact>) {
    forall c :: c in cs && c.Executed? ==> other(c.n, c.call) == env.execute(c.n, c.call)
  }

  lemma SameConcat(env: Environment, other: (nat, Call) -> Execution, a: seq<Contact>, b: seq<Contact>)
    requires SameExecutions(env, other, a + b)
    ensures SameExecutions(env, other, a) && SameExecutions(env, other, b)
  {
    assert forall c :: c in a + b <==> c in a || c in b;
  }

  lemma {:induction false} EmitAllSame(env: Environment, other: (nat, Call) -> Execution, step: nat, events: seq<Event>)
    ensures EmitAll(env.(execute := other), step, events) == EmitAll(env, step, events)
  {
    if events != [] {
      EmitAllSame(env, other, step, events[..|events| - 1]);
    }
  }

  lemma EmissionAllowed(options: Options, env: Environment, step: nat, events: seq<Event>)
    ensures ExecutesAllowed(options, env, EmitAll(env, step, events).contacts)
  {
    EmissionMeans(env, step, events);
    hide EmitAll, Allows, Thrown, ThrowsLast, UsageKept, EndsInListener;
    var cs := EmitAll(env, step, events).contacts;
    assert forall i :: 0 <= i < |cs| ==> cs[i] in cs;
  }

  lemma ExecuteStepSame(options: Options, env: Environment, other: (nat, Call) -> Execution, st: AgentState, step: nat, use: Part)
    requires use.ToolUse?
    requires var raw := Call(use.id, use.name, use.input); other(step, raw) == env.execute(step, raw)
    ensures ExecuteStep(options, env.(execute := other), st, step, use) == ExecuteStep(options, env, st, step, use)
  {
    var run := env.execute(step, Call(use.id, use.name, use.input));
    var output := options.redact(if run.Done? then options.redact(run.output) else "Error: " + options.redact(run.message));
    EmitAllSame(env, other, step + 1, [ResultEvent(options, use, output, run.Threw?)]);
    hide ResultEvent, RedactValue, EmitAll;
  }

  lemma AnswerStepSame(options: Options, env: Environment, other: (nat, Call) -> Execution, st: AgentState, step: nat, use: Part, output: string)
    requires use.ToolUse?
    ensures AnswerStep(options, env.(execute := other), st, step, use, output) == AnswerStep(options, env, st, step, use, output)
  {
    EmitAllSame(env, other, step, [ResultEvent(options, use, output, true)]);
    hide ResultEvent, EmitAll;
  }

  lemma ToolStepSame(options: Options, env: Environment, other: (nat, Call) -> Execution, st0: AgentState, step: nat, use: Part)
    requires use.ToolUse? && SameExecutions(env, other, ToolStep(options, env, st0, step, use).contacts)
    ensures ToolStep(options, env.(execute := other), st0, step, use) == ToolStep(options, env, st0, step, use)
  {
    hide ResultEvent, RedactValue, EmitAll, AnswerStep, TellStep;
    var redact := options.redact;
    var call := Call(use.id, redact(use.name), RedactValue(use.input, redact));
    var st := st0.(toolCallCount := st0.toolCallCount + 1, toolHistory := st0.toolHistory + [Field(call.name, call.input)]);
    if use.name !in options.tools {
      AnswerStepSame(options, env, other, st, step, use, redact("Error: Unknown tool \"" + use.name + "\""));
    } else {
      match env.preTool(step, call, st)
      case VerdictThrew =>
      case Verdict(false, inject, after) =>
        AnswerStepSame(options, env, other, after, step + 1, use, redact(inject.GetOr("Tool call blocked by middleware.")));
      case Verdict(true, _, after) =>
        var cs := ToolStep(options, env, st0, step, use).contacts;
        assert cs[1] == Executed(step + 1, Call(use.id, use.name, use.input)) && cs[1] in cs;
        ExecuteStepSame(options, env, other, after, step + 1, use);
    }
  }

  /** One execution after the question that allowed it, and no other. */
  lemma OneExecutionAllowed(options: Options, env: Environment, cs: seq<Contact>)
    requires |cs| > 1 && Allows(options, env, cs[0], cs[1]) && forall i :: 0 <= i < |cs| && i != 1 ==> !cs[i].Executed?
    ensures ExecutesAllowed(options, env, cs)
  {
  }

  lemma ToolStepAllowed(options: Options, env: Environment, st0: AgentState, step: nat, use: Part)
    requires use.ToolUse?
    ensures ExecutesAllowed(options, env, ToolStep(options, env, st0, step, use).contacts)
  {
    hide ResultEvent, RedactValue, EmitAll, ExecutesAllowed;
    var redact := options.redact;
    var call := Call(use.id, redact(use.name), RedactValue(use.input, redact));
    var st := st0.(toolCallCount := st0.toolCallCount + 1, toolHistory := st0.toolHistory + [Field(call.name, call.input)]);
    if use.name !in options.tools {
      EmissionAllowed(options, env, step, [ResultEvent(options, use, redact("Error: Unknown tool \"" + use.name + "\""), true)]);
    } else {
      OneAskAllowed(options, env, Asked(step, call, st));
      match env.preTool(step, call, st)
      case VerdictThrew =>
      case Verdict(false, inject, after) =>
        var events := [ResultEvent(options, use, redact(inject.GetOr("Tool call blocked by middleware.")), true)];
        EmissionAllowed(options, env, step + 1, events);
        AllowedConcat(options, env, [Asked(step, call, st)], EmitAll(env, step + 1, events).contacts);
      case Verdict(true, _, after) =>
        ExecuteAllowed(options, env, st, after, step, use, call);
    }
  }

  lemma OneAskAllowed(options: Options, env: Environment, c: Contact)
    requires !c.Executed?
    ensures ExecutesAllowed(options, env, [c])
  {
  }

  lemma ExecuteAllowed(options: Options, env: Environment, st: AgentState, after: AgentState, step: nat, use: Part, call: Call)
    requires use.ToolUse? && use.name in options.tools
    requires call == Call(use.id, options.redact(use.name), RedactValue(use.input, options.redact))
    requires env.preTool(step, call, st).Verdict? && env.preTool(step, call, st).allow
    ensures ExecutesAllowed(options, env, [Asked(step, call, st)] + ExecuteStep(options, env, after, step + 1, use).contacts)
  {
    var run := env.execute(step + 1, Call(use.id, use.name, use.input));
    var output := options.redact(if run.Done? then options.redact(run.output) else "Error: " + options.redact(run.message));
    var m := EmitAll(env, step + 2, [ResultEvent(options, use, output, run.Threw?)]);
    EmissionMeans(env, step + 2, [ResultEvent(options, use, output, run.Threw?)]);
    hide ResultEvent, RedactValue, EmitAll, Thrown, ThrowsLast, UsageKept, EndsInListener, ExecutesAllowed;
    assert forall i :: 0 <= i < |m.contacts| ==> m.contacts[i] in m.contacts;
    OneExecutionAllowed(options, env, [Asked(step, call, st)] + ExecuteStep(options, env, after, step + 1, use).contacts);
  }

  lemma {:induction false} ToolStepsSame(options: Options, env: Environment, other: (nat, Call) -> Execution, st: AgentState, step: nat,
                                         toolCalls: seq<Part>)
    requires forall c :: c in toolCalls ==> c.ToolUse?
    requires SameExecutions(env, other, ToolSteps(options, env, st, step, toolCalls).contacts)
    ensures ToolSteps(options, env.(execute := other), st, step, toolCalls) == ToolSteps(options, env, st, step, toolCalls)
    ensures ExecutesAllowed(options, env, ToolSteps(options, env, st, step, toolCalls).contacts)
  {
    hide ToolStep, SameExecutions, ExecutesAllowed;
    if toolCalls == [] {
      NothingExecuted(options, env);
    } else {
      var n := |toolCalls| - 1;
      assert toolCalls[n] in toolCalls && forall c :: c in toolCalls[..n] ==> c in toolCalls;
      var before := ToolSteps(options, env, st, step, toolCalls[..n]);
      if before.outcome.AllAnswered? {
        var one := ToolStep(options, env, before.st, before.step, toolCalls[n]);
        SameConcat(env, other, before.contacts, one.contacts);
        ToolStepsSame(options, env, other, st, step, toolCalls[..n]);
        ToolStepSame(options, env, other, before.st, before.step, toolCalls[n]);
        ToolStepAllowed(options, env, before.st, before.step, toolCalls[n]);
        AllowedConcat(options, env, before.contacts, one.contacts);
      } else {
        ToolStepsSame(options, env, other, st, step, toolCalls[..n]);
      }
    }
  }

  lemma NothingExecuted(options: Options, env: Environment)
    ensures ExecutesAllowed(options, env, [])
  {
  }

  lemma FailingSame(options: Options, env: Environment, other: (nat, Call) -> Execution, st: AgentState, step: nat,
                    code: string, message: string, summary: string)
    ensures Failing(options, env.(execute := other), st, step, code, message, summary) == Failing(options, env, st, step, code, message, summary)
    ensures ExecutesAllowed(options, env, Failing(options, env, st, step, code, message, summary).contacts)
  {
    var events := [RedactEvent(Error(code, message), options.redact)];
    EmitAllSame(env, other, step, events);
    EmissionAllowed(options, env, step, events);
    hide EmitAll, RedactEvent, ToResult, ExecutesAllowed;
  }

  lemma SucceedingSame(options: Options, env: Environment, other: (nat, Call) -> Execution, st: AgentState, step: nat, summary: string)
    ensures Succeeding(options, env.(execute := other), st, step, summary) == Succeeding(options, env, st, step, summary)
    ensures ExecutesAllowed(options, env, Succeeding(options, env, st, step, summary).contacts)
  {
    var events := [RedactEvent(Completed(summary), options.redact), TurnEnd(st.turnCount, st.tokenUsage)];
    EmitAllSame(env, other, step, events);
    EmissionAllowed(options, env, step, events);
    hide EmitAll, RedactEvent, ToResult, ExecutesAllowed;
  }

  lemma ContinuingSame(options: Options, env: Environment, other: (nat, Call) -> Execution, st: AgentState, step: nat, user: Message, events: seq<Event>)
    ensures Continuing(env.(execute := other), st, step, user, events) == Continuing(env, st, step, user, events)
    ensures ExecutesAllowed(options, env, Continuing(env, st, step, user, events).contacts)
  {
    EmitAllSame(env, other, step, events);
    EmissionAllowed(options, env, step, events);
    hide EmitAll, ExecutesAllowed;
  }

  lemma CompleteStepSame(options: Options, env: Environment, other: (nat, Call) -> Execution, st: AgentState, step: nat, lastText: string)
    ensures CompleteStep(options, env.(execute := other), st, step, lastText) == CompleteStep(options, env, st, step, lastText)
    ensures ExecutesAllowed(options, env, CompleteStep(options, env, st, step, lastText).contacts)
  {
    hide Succeeding, Continuing, RedactEvent, ExecutesAllowed;
    var checked := Checked(step, st);
    OneAskAllowed(options, env, checked);
    match env.preCompletion(step, st)
    case CheckThrew =>
    case Check(inject, after) =>
      if inject.GetOr("") == "" {
        SucceedingSame(options, env, other, after, step + 1, lastText);
        AllowedConcat(options, env, [checked], Succeeding(options, env, after, step + 1, lastText).contacts);
      } else {
        var text := options.redact(inject.value);
        var user := Message(User, [Text(text)]);
        var events := [RedactEvent(Injected(text), options.redact), TurnEnd(after.turnCount, after.tokenUsage)];
        ContinuingSame(options, env, other, after, step + 1, user, events);
        AllowedConcat(options, env, [checked], Continuing(env, after, step + 1, user, events).contacts);
      }
  }

  lemma UseToolsStepSame(options: Options, env: Environment, other: (nat, Call) -> Execution, st: AgentState, step: nat, toolCalls: seq<Part>)
    requires forall c :: c in toolCalls ==> c.ToolUse?
    requires SameExecutions(env, other, UseToolsStep(options, env, st, step, toolCalls).contacts)
    ensures UseToolsStep(options, env.(execute := other), st, step, toolCalls) == UseToolsStep(options, env, st, step, toolCalls)
    ensures ExecutesAllowed(options, env, UseToolsStep(options, env, st, step, toolCalls).contacts)
  {
    hide Succeeding, Continuing, ToolSteps, ExecutesAllowed, SameExecutions;
    var tools := ToolSteps(options, env, st, step, toolCalls);
    match tools.outcome
    case SomeCallbackThrew => ToolStepsSame(options, env, other, st, step, toolCalls);
    case GaveUp(summary) =>
      var end := Succeeding(options, env, tools.st, tools.step, summary);
      SameConcat(env, other, tools.contacts, end.contacts);
      ToolStepsSame(options, env, other, st, step, toolCalls);
      SucceedingSame(options, env, other, tools.st, tools.step, summary);
      AllowedConcat(options, env, tools.contacts, end.contacts);
    case AllAnswered(results) =>
      var events := [TurnEnd(tools.st.turnCount, tools.st.tokenUsage)];
      var end := Continuing(env, tools.st, tools.step, Message(User, results), events);
      SameConcat(env, other, tools.contacts, end.contacts);
      ToolStepsSame(options, env, other, st, step, toolCalls);
      ContinuingSame(options, env, other, tools.st, tools.step, Message(User, results), events);
      AllowedConcat(options, env, tools.contacts, end.contacts);
  }

  lemma ReplyStepSame(options: Options, env: Environment, other: (nat, Call) -> Execution, st: AgentState, step: nat, reply: Reply,
                      lastText: string)
    requires SameExecutions(env, other, ReplyStep(options, env, st, step, reply, lastText).contacts)
    ensures ReplyStep(options, env.(execute := other), st, step, reply, lastText) == ReplyStep(options, env, st, step, reply, lastText)
    ensures ExecutesAllowed(options, env, ReplyStep(options, env, st, step, reply, lastText).contacts)
  {
    hide RedactContent, Announced, ToolUses, LastText, EmitAll, CompleteStep, UseToolsStep, ExecutesAllowed, SameExecutions;
    var content := RedactContent(reply.content, options.redact);
    var events := Announced(content, options.redact);
    var m := EmitAll(env, step, events);
    EmitAllSame(env, other, step, events);
    EmissionAllowed(options, env, step, events);
    if m.ok {
      var toolCalls := ToolUses(content);
      ToolUsesAreUses(content);
      if reply.stopReason == Some("end_turn") || toolCalls == [] {
        CompleteStepSame(options, env, other, st, m.step, LastText(content, lastText));
        AllowedConcat(options, env, m.contacts, CompleteStep(options, env, st, m.step, LastText(content, lastText)).contacts);
      } else {
        var used := UseToolsStep(options, env, st, m.step, toolCalls);
        SameConcat(env, other, m.contacts, used.contacts);
        UseToolsStepSame(options, env, other, st, m.step, toolCalls);
        AllowedConcat(options, env, m.contacts, used.contacts);
      }
    }
  }

  lemma BodyStepSame(options: Options, env: Environment, other: (nat, Call) -> Execution, st: AgentState, step: nat,
                     messages: seq<Message>, lastText: string)
    requires SameExecutions(env, other, BodyStep(options, env, st, step, messages, lastText).closing.contacts)
    ensures BodyStep(options, env.(execute := other), st, step, messages, lastText) == BodyStep(options, env, st, step, messages, lastText)
    ensures ExecutesAllowed(options, env, BodyStep(options, env, st, step, messages, lastText).closing.contacts)
  {
    hide RedactContent, CalculateCost, LastText, ReplyStep, Failing, ExecutesAllowed, SameExecutions;
    FailingSame(options, env, other, st, step + 1, "CANCELLED", "Run was cancelled", "Cancelled");
    match env.generate(step + 1, messages)
    case Failed(code, message) =>
      FailingSame(options, env, other, st, step + 2, code, options.redact(message), options.redact(message));
    case Replied(reply) =>
      var spent := st.(tokenUsage := AddUsage(st.tokenUsage, reply.usage));
      FailingSame(options, env, other, spent, step + 2, "BUDGET_EXCEEDED", "Budget exceeded", "Budget exceeded");
      if BodyStep(options, env, st, step, messages, lastText).closing == ReplyStep(options, env, spent, step + 2, reply, lastText) {
        ReplyStepSame(options, env, other, spent, step + 2, reply, lastText);
      }
  }

  lemma TurnStepSame(options: Options, env: Environment, other: (nat, Call) -> Execution, st: AgentState, step: nat,
                     messages: seq<Message>, lastText: string)
    requires SameExecutions(env, other, TurnStep(options, env, st, step, messages, lastText).closing.contacts)
    ensures TurnStep(options, env.(execute := other), st, step, messages, lastText) == TurnStep(options, env, st, step, messages, lastText)
    ensures ExecutesAllowed(options, env, TurnStep(options, env, st, step, messages, lastText).closing.contacts)
  {
    hide BodyStep, EmitAll, ExecutesAllowed, SameExecutions;
    var start := [TurnStart(st.turnCount)];
    var m := EmitAll(env, step, start);
    EmitAllSame(env, other, step, start);
    EmissionAllowed(options, env, step, start);
    if m.ok {
      var t := BodyStep(options, env, st, m.step, messages, lastText);
      SameConcat(env, other, m.contacts, t.closing.contacts);
      BodyStepSame(options, env, other, st, m.step, messages, lastText);
      AllowedConcat(options, env, m.contacts, t.closing.contacts);
    }
  }

  lemma {:induction false} LoopKeepsContacts(options: Options, env: Environment, st: AgentState, step: nat, messages: seq<Message>,
                                             lastText: string, calls: seq<ModelCall>, events: seq<Event>, contacts: seq<Contact>)
    requires KeepsTurnCount(env)
    ensures contacts <= LoopFrom(options, env, st, step, messages, lastText, calls, events, contacts).contacts
    decreases options.maxTurns - st.turnCount
  {
    hide KeepsTurnCount, TurnStep, RedactContent;
    if st.turnCount < options.maxTurns {
      var counted := st.(turnCount := st.turnCount + 1);
      var t := TurnStep(options, env, counted, step, messages, lastText);
      TurnKeepsCount(options, env, counted, step, messages, lastText);
      if t.closing.outcome.NextTurn? {
        NextTurnHasReply(options, env, counted, step, messages, lastText);
        LoopKeepsContacts(
          options, env, t.closing.st, t.closing.step,
          messages + [Message(Assistant, RedactContent(t.call.value.answer.reply.content, options.redact))] + [t.closing.outcome.user],
          t.lastText, calls + [t.call.value], events + ([TurnStart(st.turnCount + 1)] + t.closing.plain + t.closing.closing),
          contacts + t.closing.contacts);
      }
    }
  }

  lemma {:induction false} LoopSame(options: Options, env: Environment, other: (nat, Call) -> Execution, st: AgentState, step: nat,
                                    messages: seq<Message>, lastText: string, calls: seq<ModelCall>, events: seq<Event>,
                                    contacts: seq<Contact>)
    requires KeepsTurnCount(env) && KeepsTurnCount(env.(execute := other)) && ExecutesAllowed(options, env, contacts)
    requires SameExecutions(env, other, LoopFrom(options, env, st, step, messages, lastText, calls, events, contacts).contacts)
    ensures LoopFrom(options, env.(execute := other), st, step, messages, lastText, calls, events, contacts)
            == LoopFrom(options, env, st, step, messages, lastText, calls, events, contacts)
    ensures ExecutesAllowed(options, env, LoopFrom(options, env, st, step, messages, lastText, calls, events, contacts).contacts)
    decreases options.maxTurns - st.turnCount
  {
    hide KeepsTurnCount, TurnStep, RedactContent, SameExecutions, ExecutesAllowed, Failing;
    if st.turnCount < options.maxTurns {
      var counted := st.(turnCount := st.turnCount + 1);
      var t := TurnStep(options, env, counted, step, messages, lastText);
      TurnKeepsCount(options, env, counted, step, messages, lastText);
      var more, asked := events + ([TurnStart(st.turnCount + 1)] + t.closing.plain + t.closing.closing), contacts + t.closing.contacts;
      if t.closing.outcome.NextTurn? {
        NextTurnHasReply(options, env, counted, step, messages, lastText);
        var history := messages + [Message(Assistant, RedactContent(t.call.value.answer.reply.content, options.redact))]
                       + [t.closing.outcome.user];
        LoopKeepsContacts(options, env, t.closing.st, t.closing.step, history, t.lastText, calls + [t.call.value], more, asked);
        var all := LoopFrom(options, env, st, step, messages, lastText, calls, events, contacts).contacts;
        assert all == asked + all[|asked|..];
        SameConcat(env, other, asked, all[|asked|..]);
        SameConcat(env, other, contacts, t.closing.contacts);
        TurnStepSame(options, env, other, counted, step, messages, lastText);
        AllowedConcat(options, env, contacts, t.closing.contacts);
        LoopSame(options, env, other, t.closing.st, t.closing.step, history, t.lastText, calls + [t.call.value], more, asked);
      } else {
        SameConcat(env, other, contacts, t.closing.contacts);
        TurnStepSame(options, env, other, counted, step, messages, lastText);
        AllowedConcat(options, env, contacts, t.closing.contacts);
      }
    } else {
      var message := if lastText != "" then lastText else "Max turns exceeded";
      FailingSame(options, env, other, st, step, "MAX_TURNS_EXCEEDED", "Reached maximum turns", message);
      AllowedConcat(options, env, contacts,
                    Failing(options, env, st, step, "MAX_TURNS_EXCEEDED", "Reached maximum turns", message).contacts);
    }
  }

  /** A tool is executed only if it is known and the hook asked just before allowed it, and what any other execution would
      have done makes no difference: the result, every history and the event stream stay the same. */
  lemma BlockedToolsAreNotExecuted(options: Options, env: Environment, other: (nat, Call) -> Execution, initial: AgentState)
    requires KeepsTurnCount(env)
    requires SameExecutions(env, other, WholeRun(options, env, initial).contacts)
    ensures KeepsTurnCount(env.(execute := other))
    ensures WholeRun(options, env.(execute := other), initial) == WholeRun(options, env, initial)
    ensures ExecutesAllowed(options, env, WholeRun(options, env, initial).contacts)
  {
    NothingExecuted(options, env);
    LoopSame(options, env, other, initial, 0, [Message(User, [Text(options.redact(options.userMessage))])], "", [], [], []);
  }
}
