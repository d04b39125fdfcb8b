/**
 What a run of the tool loop says and does, part by part: what the model is told of each tool use,
 what the listener hears of each turn, what the result reports, and what a run costs.
 */
module ToolLoopFacts {
  import opened Wrappers
  import opened ToolLoop

  // ---------------------------------------------------------------- costs

  /** A million tokens of one kind cost the price of that kind. */
  lemma CostPerMillion(p: Pricing)
    ensures CalculateCost(Usage(1_000_000, 0, 0, 0), p) == p.input
    ensures CalculateCost(Usage(0, 1_000_000, 0, 0), p) == p.output
    ensures CalculateCost(Usage(0, 0, 1_000_000, 0), p) == p.cacheRead
    ensures CalculateCost(Usage(0, 0, 0, 1_000_000), p) == p.cacheWrite
  {
  }

  // ---------------------------------------------------------------- redaction

  function Same(text: string): string { text }

  /** A redactor that changes nothing leaves every value as it is: only strings are touched, keys and values alike. */
  lemma {:induction false} SameValue(v: Json)
    ensures RedactValue(v, Same) == v
    decreases v, 0
  {
    match v
    case JString(_) =>
    case JArray(items) => SameItems(items);
    case JObject(fields) => SameFields(fields);
    case JOther(_) =>
  }

  lemma {:induction false} SameItems(items: seq<Json>)
    ensures RedactItems(items, Same) == items
    decreases items, 0
  {
    if items != [] {
      SameValue(items[0]);
      SameItems(items[1..]);
    }
  }

  lemma {:induction false} SameFields(fields: seq<Field>)
    ensures RedactFields(fields, Same) == fields
    decreases fields, 0
  {
    if fields != [] {
      var f := fields[0];
      SameValue(f.value);
      SameFields(fields[1..]);
    }
  }

  function Both(f: string -> string, g: string -> string): string -> string { (text: string) => g(f(text)) }

  /** Redacting by one redactor and then by another is redacting once by both: every string is redacted exactly once. */
  lemma {:induction false} RedactedOnce(v: Json, f: string -> string, g: string -> string)
    ensures RedactValue(RedactValue(v, f), g) == RedactValue(v, Both(f, g))
    decreases v, 0
  {
    match v
    case JString(_) =>
    case JArray(items) => ItemsOnce(items, f, g);
    case JObject(fields) => FieldsOnce(fields, f, g);
    case JOther(_) =>
  }

  lemma {:induction false} ItemsOnce(items: seq<Json>, f: string -> string, g: string -> string)
    ensures RedactItems(RedactItems(items, f), g) == RedactItems(items, Both(f, g))
    decreases items, 0
  {
    if items != [] {
      RedactedOnce(items[0], f, g);
      ItemsOnce(items[1..], f, g);
      assert RedactItems(items, f)[1..] == RedactItems(items[1..], f);
    }
  }

  lemma {:induction false} FieldsOnce(fields: seq<Field>, f: string -> string, g: string -> string)
    ensures RedactFields(RedactFields(fields, f), g) == RedactFields(fields, Both(f, g))
    decreases fields, 0
  {
    if fields != [] {
      var x := fields[0];
      RedactedOnce(x.value, f, g);
      FieldsOnce(fields[1..], f, g);
      assert RedactFields(fields, f)[1..] == RedactFields(fields[1..], f);
    }
  }

  /** The same for the parts of a reply and for events, which keep their kind and all that is not a string. */
  lemma PartsAndEventsOnce(p: ReplyPart, e: Event, f: string -> string, g: string -> string)
    ensures RedactPart(p, Same) == p && RedactEvent(e, Same) == e
    ensures RedactPart(RedactPart(p, f), g) == RedactPart(p, Both(f, g))
    ensures RedactEvent(RedactEvent(e, f), g) == RedactEvent(e, Both(f, g))
  {
    if p.ToolUse? {
      SameValue(p.input);
      RedactedOnce(p.input, f, g);
    }
    if e.ToolCallEvent? {
      SameValue(e.input);
      RedactedOnce(e.input, f, g);
    }
  }

  /** The tool uses of a content are its tool use parts, all of them and in order. */
  lemma {:induction false} ToolUsesAreThose(a: seq<Part>, b: seq<Part>)
    ensures ToolUses(a + b) == ToolUses(a) + ToolUses(b)
    ensures |a| == 1 ==> ToolUses(a) == if a[0].ToolUse? then a else []
  {
    if |a| == 1 {
      assert a[..0] == [];
    }
    if b == [] {
      assert a + b == a;
    } else {
      var n := |b| - 1;
      assert (a + b)[..|a + b| - 1] == a + b[..n];
      ToolUsesAreThose(a, b[..n]);
    }
  }

  // ---------------------------------------------------------------- what the model is told of a tool use

  /** The call that hooks see. */
  function SafeCall(options: Options, use: Part): Call
    requires use.ToolUse?
  {
    Call(use.id, options.redact(use.name), RedactValue(use.input, options.redact))
  }

  function RawCall(use: Part): Call
    requires use.ToolUse?
  {
    Call(use.id, use.name, use.input)
  }

  /** What a tool wrote, or why it failed, as the model reads it. */
  function OutputText(redact: string -> string, x: Execution): string {
    match x
    case Done(text) => redact(redact(text))
    case Threw(message) => redact("Error: " + redact(message))
  }

  /** The answer to a tool use: an error for a tool that is not offered; the hook's objection, as an error, where it does not
      allow the call; otherwise what executing the tool right after that question gave, an error exactly if the tool threw. */
  ghost predicate AnswerFits(options: Options, env: Environment, cs: seq<Contact>, use: Part, result: Part) {
    && use.ToolUse? && result.ToolResult? && result.toolUseId == use.id
    && if use.name !in options.tools
       then result.isError && result.output == options.redact("Error: Unknown tool \"" + use.name + "\"")
       else exists n: nat, st: AgentState :: Asked(n, SafeCall(options, use), st) in cs && AnswersQuestion(options, env, cs, use, result, n, st)
  }

  ghost predicate AnswersQuestion(options: Options, env: Environment, cs: seq<Contact>, use: Part, result: Part, n: nat, st: AgentState)
    requires use.ToolUse? && result.ToolResult?
  {
    match env.preTool(n, SafeCall(options, use), st)
    case VerdictThrew => false
    case Verdict(false, inject, _) =>
      result.isError && result.output == options.redact(if inject.Some? then inject.value else "Tool call blocked by middleware.")
    case Verdict(true, _, _) =>
      && Executed(n + 1, RawCall(use)) in cs
      && var x := env.execute(n + 1, RawCall(use));
         result.isError == x.Threw? && result.output == OutputText(options.redact, x)
  }

  ghost predicate AnswersFit(options: Options, env: Environment, cs: seq<Contact>, uses: seq<Part>, results: seq<Part>) {
    |results| == |uses| && forall k :: 0 <= k < |uses| ==> AnswerFits(options, env, cs, uses[k], results[k])
  }

  lemma FitsWithMore(options: Options, env: Environment, cs: seq<Contact>, more: seq<Contact>, use: Part, result: Part)
    requires AnswerFits(options, env, cs, use, result) && forall c :: c in cs ==> c in more
    ensures AnswerFits(options, env, more, use, result)
  {
    if use.name in options.tools {
      var n: nat, st: AgentState :| Asked(n, SafeCall(options, use), st) in cs && AnswersQuestion(options, env, cs, use, result, n, st);
      assert Asked(n, SafeCall(options, use), st) in more && AnswersQuestion(options, env, more, use, result, n, st);
    }
  }

  lemma AllFitWithMore(options: Options, env: Environment, cs: seq<Contact>, more: seq<Contact>, uses: seq<Part>, results: seq<Part>)
    requires AnswersFit(options, env, cs, uses, results) && forall c :: c in cs ==> c in more
    ensures AnswersFit(options, env, more, uses, results)
  {
    hide AnswerFits;
    forall k | 0 <= k < |uses| ensures AnswerFits(options, env, more, uses[k], results[k]) {
      FitsWithMore(options, env, cs, more, uses[k], results[k]);
    }
  }

  lemma ToolStepFits(options: Options, env: Environment, st0: AgentState, step: nat, use: Part)
    requires use.ToolUse? && ToolStep(options, env, st0, step, use).outcome.Answered?
    ensures var e := ToolStep(options, env, st0, step, use); AnswerFits(options, env, e.contacts, use, e.outcome.result)
  {
    hide ResultEvent, RedactValue, EmitAll;
    var e := ToolStep(options, env, st0, step, use);
    if use.name in options.tools {
      assert e.contacts[0].Asked? && e.contacts[0] in e.contacts;
      var st := e.contacts[0].st;
      assert e.contacts[0] == Asked(step, SafeCall(options, use), st);
      if env.preTool(step, SafeCall(options, use), st).allow {
        assert e.contacts[1] == Executed(step + 1, RawCall(use)) && e.contacts[1] in e.contacts;
      }
      assert AnswersQuestion(options, env, e.contacts, use, e.outcome.result, step, st);
    }
  }

  lemma {:induction false} ToolStepsFit(options: Options, env: Environment, st: AgentState, step: nat, toolCalls: seq<Part>)
    requires forall c :: c in toolCalls ==> c.ToolUse?
    requires ToolSteps(options, env, st, step, toolCalls).outcome.AllAnswered?
    ensures var e := ToolSteps(options, env, st, step, toolCalls); AnswersFit(options, env, e.contacts, toolCalls, e.outcome.results)
  {
    hide ToolStep, AnswerFits;
    if toolCalls != [] {
      var n := |toolCalls| - 1;
      assert toolCalls[n] in toolCalls && forall c :: c in toolCalls[..n] ==> c in toolCalls;
      ToolStepsFit(options, env, st, step, toolCalls[..n]);
      var before := ToolSteps(options, env, st, step, toolCalls[..n]);
      var one := ToolStep(options, env, before.st, before.step, toolCalls[n]);
      var all := ToolSteps(options, env, st, step, toolCalls).contacts;
      ToolStepFits(options, env, before.st, before.step, toolCalls[n]);
      AllFitWithMore(options, env, before.contacts, all, toolCalls[..n], before.outcome.results);
      FitsWithMore(options, env, one.contacts, all, toolCalls[n], one.outcome.result);
    }
  }

  /** How the turn of a reply ends when the run goes on: the tool branch with the answers to its uses, the other with what
      the completion hook injects. */
  ghost predicate UserFits(options: Options, env: Environment, cs: seq<Contact>, reply: Reply, said: seq<Part>, user: Message) {
    if TakesToolBranch(reply) then AnswersFit(options, env, cs, ToolUses(said), user.content)
    else exists n: nat, st: AgentState :: Checked(n, st) in cs && Injects(options, env, n, st, user)
  }

  ghost predicate Injects(options: Options, env: Environment, n: nat, st: AgentState, user: Message) {
    match env.preCompletion(n, st)
    case CheckThrew => false
    case Check(inject, _) => inject.Some? && inject.value != "" && user.content == [Text(options.redact(inject.value))]
  }

  lemma UserFitsWithMore(options: Options, env: Environment, cs: seq<Contact>, more: seq<Contact>, reply: Reply, said: seq<Part>, user: Message)
    requires UserFits(options, env, cs, reply, said, user) && forall c :: c in cs ==> c in more
    ensures UserFits(options, env, more, reply, said, user)
  {
    hide TakesToolBranch, AnswersFit;
    if TakesToolBranch(reply) {
      AllFitWithMore(options, env, cs, more, ToolUses(said), user.content);
    } else {
      var n: nat, st: AgentState :| Checked(n, st) in cs && Injects(options, env, n, st, user);
      assert Checked(n, st) in more;
    }
  }

  lemma CompleteFits(options: Options, env: Environment, st: AgentState, step: nat, lastText: string, reply: Reply, said: seq<Part>)
    requires CompleteStep(options, env, st, step, lastText).outcome.NextTurn? && !TakesToolBranch(reply)
    ensures var end := CompleteStep(options, env, st, step, lastText); UserFits(options, env, end.contacts, reply, said, end.outcome.user)
  {
    hide EmitAll, RedactEvent, ToResult, TakesToolBranch;
    var end := CompleteStep(options, env, st, step, lastText);
    assert end.contacts[0] == Checked(step, st) && end.contacts[0] in end.contacts;
    assert Injects(options, env, step, st, end.outcome.user);
  }

  lemma UseToolsFits(options: Options, env: Environment, st: AgentState, step: nat, toolCalls: seq<Part>)
    requires forall c :: c in toolCalls ==> c.ToolUse?
    requires UseToolsStep(options, env, st, step, toolCalls).outcome.NextTurn?
    ensures var end := UseToolsStep(options, env, st, step, toolCalls); AnswersFit(options, env, end.contacts, toolCalls, end.outcome.user.content)
  {
    hide EmitAll, RedactEvent, ToResult, ToolSteps, AnswersFit;
    var end := UseToolsStep(options, env, st, step, toolCalls);
    var tools := ToolSteps(options, env, st, step, toolCalls);
    ToolStepsFit(options, env, st, step, toolCalls);
    AllFitWithMore(options, env, tools.contacts, end.contacts, toolCalls, tools.outcome.results);
  }

  lemma ReplyFits(options: Options, env: Environment, st: AgentState, step: nat, reply: Reply, lastText: string)
    requires ReplyStep(options, env, st, step, reply, lastText).outcome.NextTurn?
    ensures var end := ReplyStep(options, env, st, step, reply, lastText);
            end.outcome.user.role == User
            && UserFits(options, env, end.contacts, reply, RedactContent(reply.content, options.redact), end.outcome.user)
  {
    hide EmitAll, RedactContent, Announced, LastText, CompleteStep, UseToolsStep, AnswersFit;
    var said := RedactContent(reply.content, options.redact);
    var toolCalls := ToolUses(said);
    ToolUsesAreUses(said);
    ToolUsesRedacted(reply.content, options.redact);
    var m := EmitAll(env, step, Announced(said, options.redact));
    var end := ReplyStep(options, env, st, step, reply, lastText);
    if reply.stopReason == Some("end_turn") || toolCalls == [] {
      var inner := CompleteStep(options, env, st, m.step, LastText(said, lastText));
      CompleteFits(options, env, st, m.step, LastText(said, lastText), reply, said);
      UserFitsWithMore(options, env, inner.contacts, end.contacts, reply, said, inner.outcome.user);
      CompleteIsUser(options, env, st, m.step, LastText(said, lastText));
    } else {
      var inner := UseToolsStep(options, env, st, m.step, toolCalls);
      UseToolsFits(options, env, st, m.step, toolCalls);
      AllFitWithMore(options, env, inner.contacts, end.contacts, toolCalls, inner.outcome.user.content);
      ToolsAreUser(options, env, st, m.step, toolCalls);
    }
  }

  lemma CompleteIsUser(options: Options, env: Environment, st: AgentState, step: nat, lastText: string)
    ensures var end := CompleteStep(options, env, st, step, lastText); end.outcome.NextTurn? ==> end.outcome.user.role == User
  {
    hide EmitAll, RedactEvent, ToResult;
  }

  lemma ToolsAreUser(options: Options, env: Environment, st: AgentState, step: nat, toolCalls: seq<Part>)
    requires forall c :: c in toolCalls ==> c.ToolUse?
    ensures var end := UseToolsStep(options, env, st, step, toolCalls); end.outcome.NextTurn? ==> end.outcome.user.role == User
  {
    hide EmitAll, RedactEvent, ToResult, ToolSteps;
  }

  lemma TurnFits(options: Options, env: Environment, st: AgentState, step: nat, messages: seq<Message>, lastText: string)
    requires TurnStep(options, env, st, step, messages, lastText).closing.outcome.NextTurn?
    ensures var t := TurnStep(options, env, st, step, messages, lastText);
            && t.call.Some? && t.call.value.answer.Replied? && t.closing.outcome.user.role == User
            && t.call.value.history == messages
            && UserFits(options, env, t.closing.contacts, t.call.value.answer.reply,
                        RedactContent(t.call.value.answer.reply.content, options.redact), t.closing.outcome.user)
  {
    hide EmitAll, RedactContent, ReplyStep, LastText, RedactEvent, ToResult, CalculateCost, UserFits;
    var t := TurnStep(options, env, st, step, messages, lastText);
    var m := EmitAll(env, step, [TurnStart(st.turnCount)]);
    var reply := t.call.value.answer.reply;
    var spent := st.(tokenUsage := AddUsage(st.tokenUsage, reply.usage));
    var end := ReplyStep(options, env, spent, m.step + 2, reply, lastText);
    ReplyFits(options, env, spent, m.step + 2, reply, lastText);
    UserFitsWithMore(options, env, end.contacts, t.closing.contacts, reply, RedactContent(reply.content, options.redact), end.outcome.user);
  }

  /** A history tells what happened: the task, and for each reply the reply and what came of it. */
  ghost predicate Tells(options: Options, env: Environment, cs: seq<Contact>, history: seq<Message>, replies: seq<Reply>) {
    && |history| == 2 * |replies| + 1
    && history[0] == Message(User, [Text(options.redact(options.userMessage))])
    && forall k :: 0 <= k < |replies| ==> TellsReply(options, env, cs, history[2 * k + 1], history[2 * k + 2], replies[k])
  }

  ghost predicate TellsReply(options: Options, env: Environment, cs: seq<Contact>, said: Message, user: Message, reply: Reply) {
    && said == Message(Assistant, RedactContent(reply.content, options.redact)) && user.role == User
    && UserFits(options, env, cs, reply, said.content, user)
  }

  ghost predicate CallsTell(options: Options, env: Environment, cs: seq<Contact>, calls: seq<ModelCall>) {
    && (forall k :: 0 <= k < |calls| - 1 ==> calls[k].answer.Replied?)
    && forall k :: 0 <= k < |calls| ==> CallTells(options, env, cs, calls, k)
  }

  ghost predicate CallTells(options: Options, env: Environment, cs: seq<Contact>, calls: seq<ModelCall>, k: nat)
    requires k < |calls|
  {
    && (forall c :: c in calls[..k] ==> c.answer.Replied?)
    && Tells(options, env, cs, calls[k].history, RepliesOf(calls[..k]))
  }

  lemma TellsWithMore(options: Options, env: Environment, cs: seq<Contact>, more: seq<Contact>, history: seq<Message>, replies: seq<Reply>)
    requires Tells(options, env, cs, history, replies) && forall c :: c in cs ==> c in more
    ensures Tells(options, env, more, history, replies)
  {
    hide UserFits;
    forall k | 0 <= k < |replies| ensures TellsReply(options, env, more, history[2 * k + 1], history[2 * k + 2], replies[k]) {
      assert TellsReply(options, env, cs, history[2 * k + 1], history[2 * k + 2], replies[k]);
      UserFitsWithMore(options, env, cs, more, replies[k], history[2 * k + 1].content, history[2 * k + 2]);
    }
  }

  lemma CallsTellWithMore(options: Options, env: Environment, cs: seq<Contact>, more: seq<Contact>, calls: seq<ModelCall>)
    requires CallsTell(options, env, cs, calls) && forall c :: c in cs ==> c in more
    ensures CallsTell(options, env, more, calls)
  {
    hide Tells;
    forall k | 0 <= k < |calls| ensures CallTells(options, env, more, calls, k) {
      assert CallTells(options, env, cs, calls, k);
      TellsWithMore(options, env, cs, more, calls[k].history, RepliesOf(calls[..k]));
    }
  }

  lemma CallTellsNext(options: Options, env: Environment, cs: seq<Contact>, calls: seq<ModelCall>, call: ModelCall)
    requires CallsTell(options, env, cs, calls) && AllReplied(calls)
    requires Tells(options, env, cs, call.history, RepliesOf(calls))
    ensures CallsTell(options, env, cs, calls + [call])
  {
    hide Tells, RepliesOf;
    var all := calls + [call];
    forall k | 0 <= k < |all| ensures CallTells(options, env, cs, all, k) {
      if k < |calls| {
        assert all[..k] == calls[..k] && CallTells(options, env, cs, calls, k);
      } else {
        assert all[..k] == calls;
      }
    }
  }

  lemma TellsNext(options: Options, env: Environment, cs: seq<Contact>, history: seq<Message>, replies: seq<Reply>, reply: Reply, user: Message)
    requires Tells(options, env, cs, history, replies) && user.role == User
    requires UserFits(options, env, cs, reply, RedactContent(reply.content, options.redact), user)
    ensures Tells(options, env, cs, history + [Message(Assistant, RedactContent(reply.content, options.redact))] + [user], replies + [reply])
  {
    hide UserFits, RedactContent;
    var said := Message(Assistant, RedactContent(reply.content, options.redact));
    var h, rs := history + [said] + [user], replies + [reply];
    forall k | 0 <= k < |rs| ensures TellsReply(options, env, cs, h[2 * k + 1], h[2 * k + 2], rs[k]) {
      if k < |replies| {
        assert TellsReply(options, env, cs, history[2 * k + 1], history[2 * k + 2], replies[k]);
      }
    }
  }

  lemma RepliesNext(calls: seq<ModelCall>, call: ModelCall)
    requires AllReplied(calls) && call.answer.Replied?
    ensures AllReplied(calls + [call]) && RepliesOf(calls + [call]) == RepliesOf(calls) + [call.answer.reply]
  {
    assert (calls + [call])[..|calls|] == calls;
  }

  /** Every later call of a run from a loop head tells what happened. */
  lemma {:induction false} LoopTells(options: Options, env: Environment, st: AgentState, step: nat, messages: seq<Message>,
                                     lastText: string, calls: seq<ModelCall>, events: seq<Event>, contacts: seq<Contact>)
    requires KeepsTurnCount(env) && AllReplied(calls)
    requires CallsTell(options, env, contacts, calls) && Tells(options, env, contacts, messages, RepliesOf(calls))
    ensures var run := LoopFrom(options, env, st, step, messages, lastText, calls, events, contacts);
            CallsTell(options, env, run.contacts, run.calls)
    decreases options.maxTurns - st.turnCount
  {
    hide KeepsTurnCount, TurnStep, RedactContent, CallsTell, Tells, RepliesOf, UserFits, Failing;
    LoopKeepsContacts(options, env, st, step, messages, lastText, calls, events, contacts);
    var run := LoopFrom(options, env, st, step, messages, lastText, calls, events, contacts);
    PrefixIsIn(contacts, run.contacts);
    if st.turnCount >= options.maxTurns {
      CallsTellWithMore(options, env, contacts, run.contacts, calls);
    } else {
      var counted := st.(turnCount := st.turnCount + 1);
      var t := TurnStep(options, env, counted, step, messages, lastText);
      TurnKeepsCount(options, env, counted, step, messages, lastText);
      TurnCallHistory(options, env, counted, step, messages, lastText);
      var asked := contacts + t.closing.contacts;
      PrefixIsIn(contacts, asked);
      CallsTellWithMore(options, env, contacts, asked, calls);
      TellsWithMore(options, env, contacts, asked, messages, RepliesOf(calls));
      if t.call.Some? {
        CallTellsNext(options, env, asked, calls, t.call.value);
      }
      if t.closing.outcome.NextTurn? {
        TurnFits(options, env, counted, step, messages, lastText);
        NextTurnHasReply(options, env, counted, step, messages, lastText);
        var reply := t.call.value.answer.reply;
        UserFitsWithMore(options, env, t.closing.contacts, asked, reply, RedactContent(reply.content, options.redact), t.closing.outcome.user);
        TellsNext(options, env, asked, messages, RepliesOf(calls), reply, t.closing.outcome.user);
        RepliesNext(calls, t.call.value);
        LoopTells(options, env, t.closing.st, t.closing.step,
                  messages + [Message(Assistant, RedactContent(reply.content, options.redact))] + [t.closing.outcome.user],
                  t.lastText, calls + [t.call.value], events + ([TurnStart(st.turnCount + 1)] + t.closing.plain + t.closing.closing), asked);
      }
    }
  }

  lemma PrefixIsIn(a: seq<Contact>, b: seq<Contact>)
    requires a <= b
    ensures forall c :: c in a ==> c in b
  {
  }

  lemma TurnCallHistory(options: Options, env: Environment, st: AgentState, step: nat, messages: seq<Message>, lastText: string)
    ensures var t := TurnStep(options, env, st, step, messages, lastText); t.call.Some? ==> t.call.value.history == messages
  {
    hide EmitAll, ReplyStep, Failing, RedactContent, LastText, CalculateCost;
  }

  /** In every run, at every call, the model is told the redacted task, its own redacted replies, and after each what came of
      it: for every tool use the refusal, or the redacted output or failure of its own execution, and otherwise what the
      completion hook injected. */
  lemma EveryCallTells(options: Options, env: Environment, initial: AgentState, k: nat)
    requires KeepsTurnCount(env) && k < |WholeRun(options, env, initial).calls|
    ensures var run := WholeRun(options, env, initial); CallTells(options, env, run.contacts, run.calls, k)
  {
    hide LoopFrom, CallTells;
    LoopTells(options, env, initial, 0, [Message(User, [Text(options.redact(options.userMessage))])], "", [], [], []);
  }

  // ---------------------------------------------------------------- what the listener hears of a turn

  /** A part of a reply is announced as it was redacted for the history, and redacted once more. */
  function SaidEvent(p: ReplyPart, redact: string -> string): Event {
    match p
    case Text(text) => MessageEvent(redact(redact(text)))
    case ToolUse(id, name, input) =>
      ToolCallEvent(redact(redact(id)), redact(redact(name)), RedactValue(RedactValue(input, redact), redact))
  }

  function Said(content: seq<ReplyPart>, redact: string -> string): seq<Event> {
    seq(|content|, k requires 0 <= k < |content| => SaidEvent(content[k], redact))
  }

  /** The event of the answer to a use. */
  predicate ResultHeard(e: Event, use: Part, result: Part, redact: string -> string) {
    use.ToolUse? && result.ToolResult?
    && e == ToolResultEvent(redact(use.id), redact(redact(use.name)), redact(result.output), result.isError)
  }

  predicate ResultsHeard(evs: seq<Event>, uses: seq<Part>, results: seq<Part>, redact: string -> string) {
    |evs| == |uses| == |results| && forall k :: 0 <= k < |uses| ==> ResultHeard(evs[k], uses[k], results[k], redact)
  }

  /** What the listener hears between the announcement of a reply and the end of its turn. */
  ghost predicate BranchHeard(options: Options, reply: Reply, user: Message, evs: seq<Event>) {
    if TakesToolBranch(reply)
    then ResultsHeard(evs, ToolUses(RedactContent(reply.content, options.redact)), user.content, options.redact)
    else |user.content| == 1 && user.content[0].Text? && evs == [Injected(options.redact(user.content[0].text))]
  }

  /** What the listener hears of a turn after which the run goes on: its start, each part of the reply, the answer to each tool
      use or the injected message, and its end with the usage known then. */
  ghost predicate TurnHeard(options: Options, turn: nat, reply: Reply, user: Message, usage: Usage, evs: seq<Event>) {
    exists branch: seq<Event> ::
      && BranchHeard(options, reply, user, branch)
      && evs == [TurnStart(turn)] + Said(reply.content, options.redact) + branch + [TurnEnd(turn, usage)]
  }

  lemma SaidIsAnnounced(content: seq<ReplyPart>, redact: string -> string)
    ensures Announced(RedactContent(content, redact), redact) == Said(content, redact)
  {
    hide RedactValue;
    assert forall k :: 0 <= k < |content| ==> Announcement(RedactContent(content, redact)[k], redact) == SaidEvent(content[k], redact);
  }

  lemma ToolStepHeard(options: Options, env: Environment, st0: AgentState, step: nat, use: Part)
    requires use.ToolUse? && ToolStep(options, env, st0, step, use).outcome.Answered?
    ensures var e := ToolStep(options, env, st0, step, use);
            |e.events| == 1 && ResultHeard(e.events[0], use, e.outcome.result, options.redact)
  {
    hide RedactValue, EmitAll;
    var e := ToolStep(options, env, st0, step, use);
    var r := e.outcome.result;
    var event := ResultEvent(options, use, r.output, r.isError);
    if use.name !in options.tools {
      EmissionMeans(env, step, [event]);
    } else {
      EmissionMeans(env, step + 1, [event]);
      EmissionMeans(env, step + 2, [event]);
    }
    hide Thrown, ThrowsLast, UsageKept, EndsInListener;
  }

  lemma {:induction false} ToolStepsHeard(options: Options, env: Environment, st: AgentState, step: nat, toolCalls: seq<Part>)
    requires forall c :: c in toolCalls ==> c.ToolUse?
    requires ToolSteps(options, env, st, step, toolCalls).outcome.AllAnswered?
    ensures var e := ToolSteps(options, env, st, step, toolCalls); ResultsHeard(e.events, toolCalls, e.outcome.results, options.redact)
  {
    hide ToolStep, ResultHeard;
    if toolCalls != [] {
      var n := |toolCalls| - 1;
      assert toolCalls[n] in toolCalls && forall c :: c in toolCalls[..n] ==> c in toolCalls;
      ToolStepsHeard(options, env, st, step, toolCalls[..n]);
      var before := ToolSteps(options, env, st, step, toolCalls[..n]);
      ToolStepHeard(options, env, before.st, before.step, toolCalls[n]);
    }
  }

  lemma AllGiven(env: Environment, step: nat, events: seq<Event>)
    ensures EmitAll(env, step, events).ok ==> EmitAll(env, step, events).events == events
  {
    EmissionMeans(env, step, events);
  }

  lemma CompleteHeard(options: Options, env: Environment, st: AgentState, step: nat, lastText: string, reply: Reply)
    requires CompleteStep(options, env, st, step, lastText).outcome.NextTurn? && !TakesToolBranch(reply)
    ensures var end := CompleteStep(options, env, st, step, lastText);
            exists branch: seq<Event> ::
              BranchHeard(options, reply, end.outcome.user, branch)
              && end.plain + end.closing == branch + [TurnEnd(end.st.turnCount, end.st.tokenUsage)]
  {
    hide EmitAll, ToResult, TakesToolBranch, ResultsHeard;
    var end := CompleteStep(options, env, st, step, lastText);
    var text := end.outcome.user.content[0].text;
    var branch := [Injected(options.redact(text))];
    AllGiven(env, step + 1, [RedactEvent(Injected(text), options.redact), TurnEnd(end.st.turnCount, end.st.tokenUsage)]);
    assert BranchHeard(options, reply, end.outcome.user, branch);
    assert end.plain + end.closing == branch + [TurnEnd(end.st.turnCount, end.st.tokenUsage)];
  }

  lemma UseToolsHeard(options: Options, env: Environment, st: AgentState, step: nat, reply: Reply)
    requires TakesToolBranch(reply) && forall c :: c in ToolUses(RedactContent(reply.content, options.redact)) ==> c.ToolUse?
    requires UseToolsStep(options, env, st, step, ToolUses(RedactContent(reply.content, options.redact))).outcome.NextTurn?
    ensures var end := UseToolsStep(options, env, st, step, ToolUses(RedactContent(reply.content, options.redact)));
            exists branch: seq<Event> ::
              BranchHeard(options, reply, end.outcome.user, branch)
              && end.plain + end.closing == branch + [TurnEnd(end.st.turnCount, end.st.tokenUsage)]
  {
    hide EmitAll, ToResult, TakesToolBranch, ResultsHeard, ToolSteps, RedactEvent, RedactContent, ToolUses;
    var toolCalls := ToolUses(RedactContent(reply.content, options.redact));
    var end := UseToolsStep(options, env, st, step, toolCalls);
    var tools := ToolSteps(options, env, st, step, toolCalls);
    ToolStepsHeard(options, env, st, step, toolCalls);
    AllGiven(env, tools.step, [TurnEnd(tools.st.turnCount, tools.st.tokenUsage)]);
    assert BranchHeard(options, reply, end.outcome.user, tools.events);
  }

  lemma ReplyHeard(options: Options, env: Environment, st: AgentState, step: nat, reply: Reply, lastText: string)
    requires ReplyStep(options, env, st, step, reply, lastText).outcome.NextTurn?
    ensures var end := ReplyStep(options, env, st, step, reply, lastText);
            exists branch: seq<Event> ::
              BranchHeard(options, reply, end.outcome.user, branch)
              && end.plain + end.closing == Said(reply.content, options.redact) + branch + [TurnEnd(end.st.turnCount, end.st.tokenUsage)]
  {
    hide EmitAll, RedactContent, Announced, LastText, CompleteStep, UseToolsStep, BranchHeard, Said, ReplyStep;
    var said := RedactContent(reply.content, options.redact);
    SaidIsAnnounced(reply.content, options.redact);
    AllGiven(env, step, Announced(said, options.redact));
    var end := ReplyStep(options, env, st, step, reply, lastText);
    var m := EmitAll(env, step, Announced(said, options.redact));
    var inner := ReplyInner(options, env, st, step, reply, lastText);
    var branch: seq<Event> :| BranchHeard(options, reply, inner.outcome.user, branch)
                              && inner.plain + inner.closing == branch + [TurnEnd(inner.st.turnCount, inner.st.tokenUsage)];
    assert m.events + (branch + [TurnEnd(end.st.turnCount, end.st.tokenUsage)])
        == m.events + branch + [TurnEnd(end.st.turnCount, end.st.tokenUsage)];
  }

  /** The branch that a reply takes, and what is heard of it behind the parts of the reply. */
  lemma ReplyInner(options: Options, env: Environment, st: AgentState, step: nat, reply: Reply, lastText: string) returns (inner: Closing)
    requires ReplyStep(options, env, st, step, reply, lastText).outcome.NextTurn?
    ensures var end := ReplyStep(options, env, st, step, reply, lastText);
            var m := EmitAll(env, step, Announced(RedactContent(reply.content, options.redact), options.redact));
            && m.ok && end.plain + end.closing == m.events + (inner.plain + inner.closing)
            && inner.outcome == end.outcome && inner.st == end.st
            && exists branch: seq<Event> ::
                 BranchHeard(options, reply, inner.outcome.user, branch)
                 && inner.plain + inner.closing == branch + [TurnEnd(inner.st.turnCount, inner.st.tokenUsage)]
  {
    hide EmitAll, RedactContent, Announced, LastText, CompleteStep, UseToolsStep, BranchHeard;
    var said := RedactContent(reply.content, options.redact);
    var toolCalls := ToolUses(said);
    ToolUsesAreUses(said);
    ToolUsesRedacted(reply.content, options.redact);
    var m := EmitAll(env, step, Announced(said, options.redact));
    var end := ReplyStep(options, env, st, step, reply, lastText);
    if reply.stopReason == Some("end_turn") || toolCalls == [] {
      inner := CompleteStep(options, env, st, m.step, LastText(said, lastText));
      assert end.plain + end.closing == m.events + (inner.plain + inner.closing);
      hide ReplyStep;
      CompleteHeard(options, env, st, m.step, LastText(said, lastText), reply);
    } else {
      inner := UseToolsStep(options, env, st, m.step, toolCalls);
      assert end.plain + end.closing == m.events + (inner.plain + inner.closing);
      hide ReplyStep;
      UseToolsHeard(options, env, st, m.step, reply);
    }
  }

  /** A turn after which the run goes on ends as its reply does. */
  lemma NextTurnIsReply(options: Options, env: Environment, st: AgentState, step: nat, messages: seq<Message>, lastText: string)
    requires TurnStep(options, env, st, step, messages, lastText).closing.outcome.NextTurn?
    ensures var t := TurnStep(options, env, st, step, messages, lastText);
            && t.call.Some? && t.call.value.answer.Replied?
            && var reply := t.call.value.answer.reply;
               var r := ReplyStep(options, env, st.(tokenUsage := AddUsage(st.tokenUsage, reply.usage)),
                                  EmitAll(env, step, [TurnStart(st.turnCount)]).step + 2, reply, lastText);
               t.closing.plain == r.plain && t.closing.closing == r.closing && t.closing.outcome == r.outcome && t.closing.st == r.st
  {
    hide EmitAll, RedactContent, ReplyStep, LastText, RedactEvent, ToResult, CalculateCost;
  }

  lemma Regroup<T>(a: seq<T>, b: seq<T>, c: seq<T>, d: seq<T>, e: seq<T>, f: seq<T>)
    requires b + c == d + e + f
    ensures a + b + c == a + d + e + f
  {
    assert a + b + c == a + (b + c);
    assert a + (d + e + f) == a + d + e + f;
  }

  lemma TurnIsHeard(options: Options, env: Environment, st: AgentState, step: nat, messages: seq<Message>, lastText: string)
    requires TurnStep(options, env, st, step, messages, lastText).closing.outcome.NextTurn? && KeepsTurnCount(env)
    ensures var t := TurnStep(options, env, st, step, messages, lastText);
            && t.call.Some? && t.call.value.answer.Replied?
            && TurnHeard(options, st.turnCount, t.call.value.answer.reply, t.closing.outcome.user, t.closing.st.tokenUsage,
                         [TurnStart(st.turnCount)] + t.closing.plain + t.closing.closing)
  {
    hide TurnStep, EmitAll, ReplyStep, BranchHeard, Said, KeepsTurnCount;
    TurnKeepsCount(options, env, st, step, messages, lastText);
    NextTurnIsReply(options, env, st, step, messages, lastText);
    var t := TurnStep(options, env, st, step, messages, lastText);
    var reply, end := t.call.value.answer.reply, t.closing;
    ReplyHeard(options, env, st.(tokenUsage := AddUsage(st.tokenUsage, reply.usage)),
               EmitAll(env, step, [TurnStart(st.turnCount)]).step + 2, reply, lastText);
    var said, last := Said(reply.content, options.redact), [TurnEnd(end.st.turnCount, end.st.tokenUsage)];
    var branch: seq<Event> :| BranchHeard(options, reply, end.outcome.user, branch) && end.plain + end.closing == said + branch + last;
    Regroup([TurnStart(st.turnCount)], end.plain, end.closing, said, branch, last);
  }

  /** The events of the turns that gave the replies, in order, on a history that tells them; `usages` are those known at their
      ends. */
  ghost predicate Streams(options: Options, first: nat, replies: seq<Reply>, history: seq<Message>, usages: seq<Usage>, evs: seq<Event>)
    decreases |replies|
  {
    && |history| == 2 * |replies| + 1 && |usages| == |replies|
    && if replies == [] then evs == []
       else
         var m := |replies| - 1;
         exists n: nat :: n <= |evs| && LastTurnHeard(options, first, replies, history, usages, evs, n)
                          && Streams(options, first, replies[..m], history[..2 * m + 1], usages[..m], evs[..n])
  }

  ghost predicate LastTurnHeard(options: Options, first: nat, replies: seq<Reply>, history: seq<Message>, usages: seq<Usage>,
                                evs: seq<Event>, n: nat)
    requires replies != [] && |history| == 2 * |replies| + 1 && |usages| == |replies| && n <= |evs|
  {
    var m := |replies| - 1;
    TurnHeard(options, first + m + 1, replies[m], history[2 * m + 2], usages[m], evs[n..])
  }

  lemma StreamsNext(options: Options, first: nat, replies: seq<Reply>, history: seq<Message>, usages: seq<Usage>, evs: seq<Event>,
                    reply: Reply, said: Message, user: Message, usage: Usage, more: seq<Event>)
    requires Streams(options, first, replies, history, usages, evs)
    requires TurnHeard(options, first + |replies| + 1, reply, user, usage, more)
    ensures Streams(options, first, replies + [reply], history + [said] + [user], usages + [usage], evs + more)
  {
    hide TurnHeard;
    var m, n := |replies|, |evs|;
    var rs, h, us, all := replies + [reply], history + [said] + [user], usages + [usage], evs + more;
    assert rs[..m] == replies && h[..2 * m + 1] == history && us[..m] == usages && all[..n] == evs && all[n..] == more;
    assert LastTurnHeard(options, first, rs, h, us, all, n);
  }

  function UsagesBefore(calls: seq<ModelCall>): seq<Usage> {
    seq(|calls|, k requires 0 <= k < |calls| => calls[k].usageBefore)
  }

  /** The usages known at the ends of the turns of `calls`, if `last` is the one known now. */
  function UsagesAfter(calls: seq<ModelCall>, last: Usage): seq<Usage> {
    if calls == [] then [] else UsagesBefore(calls)[1..] + [last]
  }

  /** Up to its call `k` the listener has heard the turns before. */
  ghost predicate CallStreams(options: Options, first: nat, calls: seq<ModelCall>, evs: seq<Event>, k: nat)
    requires k < |calls|
  {
    && (forall c :: c in calls[..k] ==> c.answer.Replied?)
    && exists n: nat :: n <= |evs|
         && Streams(options, first, RepliesOf(calls[..k]), calls[k].history, UsagesAfter(calls[..k], calls[k].usageBefore), evs[..n])
  }

  ghost predicate CallsStream(options: Options, first: nat, calls: seq<ModelCall>, evs: seq<Event>) {
    forall k :: 0 <= k < |calls| ==> CallStreams(options, first, calls, evs, k)
  }

  lemma CallsStreamWithMore(options: Options, first: nat, calls: seq<ModelCall>, evs: seq<Event>, more: seq<Event>)
    requires CallsStream(options, first, calls, evs)
    ensures CallsStream(options, first, calls, evs + more)
  {
    hide Streams, RepliesOf, UsagesAfter;
    forall k | 0 <= k < |calls| ensures CallStreams(options, first, calls, evs + more, k) {
      assert CallStreams(options, first, calls, evs, k);
      var n: nat :| n <= |evs|
        && Streams(options, first, RepliesOf(calls[..k]), calls[k].history, UsagesAfter(calls[..k], calls[k].usageBefore), evs[..n]);
      assert (evs + more)[..n] == evs[..n];
    }
  }

  lemma CallStreamsNext(options: Options, first: nat, calls: seq<ModelCall>, evs: seq<Event>, call: ModelCall)
    requires CallsStream(options, first, calls, evs) && AllReplied(calls)
    requires Streams(options, first, RepliesOf(calls), call.history, UsagesAfter(calls, call.usageBefore), evs)
    ensures CallsStream(options, first, calls + [call], evs)
  {
    hide Streams, RepliesOf, UsagesAfter;
    var all := calls + [call];
    forall k | 0 <= k < |all| ensures CallStreams(options, first, all, evs, k) {
      if k < |calls| {
        assert all[..k] == calls[..k] && CallStreams(options, first, calls, evs, k);
      } else {
        assert all[..k] == calls && evs[..|evs|] == evs;
      }
    }
  }

  lemma UsagesNext(calls: seq<ModelCall>, call: ModelCall, last: Usage)
    ensures UsagesAfter(calls + [call], last) == UsagesAfter(calls, call.usageBefore) + [last]
  {
    if calls != [] {
      assert UsagesBefore(calls + [call]) == UsagesBefore(calls) + [call.usageBefore];
    }
  }

  lemma TurnCallUsage(options: Options, env: Environment, st: AgentState, step: nat, messages: seq<Message>, lastText: string)
    ensures var t := TurnStep(options, env, st, step, messages, lastText);
            t.call.Some? ==> t.call.value.history == messages && t.call.value.usageBefore == st.tokenUsage
  {
    hide EmitAll, ReplyStep, Failing, RedactContent, LastText, CalculateCost;
  }

  lemma {:induction false} LoopStreams(options: Options, env: Environment, first: nat, st: AgentState, step: nat, messages: seq<Message>,
                                       lastText: string, calls: seq<ModelCall>, events: seq<Event>, contacts: seq<Contact>)
    requires KeepsTurnCount(env) && AllReplied(calls) && st.turnCount == first + |calls|
    requires CallsStream(options, first, calls, events)
    requires Streams(options, first, RepliesOf(calls), messages, UsagesAfter(calls, st.tokenUsage), events)
    ensures var run := LoopFrom(options, env, st, step, messages, lastText, calls, events, contacts);
            CallsStream(options, first, run.calls, run.events)
    decreases options.maxTurns - st.turnCount
  {
    hide KeepsTurnCount, TurnStep, RedactContent, CallsStream, Streams, RepliesOf, TurnHeard, Failing, UsagesAfter;
    if st.turnCount >= options.maxTurns {
      CallsStreamWithMore(options, first, calls, events,
                          Failing(options, env, st, step, "MAX_TURNS_EXCEEDED", "Reached maximum turns",
                                  if lastText != "" then lastText else "Max turns exceeded").closing);
    } else {
      var counted := st.(turnCount := st.turnCount + 1);
      var t := TurnStep(options, env, counted, step, messages, lastText);
      TurnKeepsCount(options, env, counted, step, messages, lastText);
      TurnCallUsage(options, env, counted, step, messages, lastText);
      var heard := [TurnStart(st.turnCount + 1)] + t.closing.plain + t.closing.closing;
      if t.call.Some? {
        CallStreamsNext(options, first, calls, events, t.call.value);
        CallsStreamWithMore(options, first, calls + [t.call.value], events, heard);
      } else {
        CallsStreamWithMore(options, first, calls, events, heard);
      }
      if t.closing.outcome.NextTurn? {
        TurnIsHeard(options, env, counted, step, messages, lastText);
        NextTurnHasReply(options, env, counted, step, messages, lastText);
        RepliesNext(calls, t.call.value);
        RepliesLength(calls);
        UsagesNext(calls, t.call.value, t.closing.st.tokenUsage);
        var said := Message(Assistant, RedactContent(t.call.value.answer.reply.content, options.redact));
        StreamsNext(options, first, RepliesOf(calls), messages, UsagesAfter(calls, st.tokenUsage), events,
                    t.call.value.answer.reply, said, t.closing.outcome.user, t.closing.st.tokenUsage, heard);
        LoopStreams(options, env, first, t.closing.st, t.closing.step, messages + [said] + [t.closing.outcome.user],
                    t.lastText, calls + [t.call.value], events + heard, contacts + t.closing.contacts);
      }
    }
  }

  lemma RepliesLength(calls: seq<ModelCall>)
    requires AllReplied(calls)
    ensures |RepliesOf(calls)| == |calls|
  {
    RepliesAre(calls);
  }

  /** In every run, up to every call, the listener has heard the turns before it: each start, every part of the reply, the
      answer to every tool use with its output and error flag or the injected message, and each end with the usage. */
  lemma EveryTurnIsHeard(options: Options, env: Environment, initial: AgentState, k: nat)
    requires KeepsTurnCount(env) && k < |WholeRun(options, env, initial).calls|
    ensures var run := WholeRun(options, env, initial); CallStreams(options, initial.turnCount, run.calls, run.events, k)
  {
    hide LoopFrom, CallStreams;
    LoopStreams(options, env, initial.turnCount, initial, 0, [Message(User, [Text(options.redact(options.userMessage))])], "", [], [], []);
  }

  // ---------------------------------------------------------------- what an execution is told to

  /** Right after a tool is executed its result goes to the listener, and then, unless the listener throws, to the hook, with
      the redacted output or failure and whether it failed. */
  ghost predicate ToldOf(options: Options, env: Environment, cs: seq<Contact>, i: nat)
    requires i < |cs| && cs[i].Executed?
  {
    var call, redact := cs[i].call, options.redact;
    var x := env.execute(cs[i].n, call);
    var event := ToolResultEvent(redact(call.id), redact(redact(call.name)), redact(OutputText(redact, x)), x.Threw?);
    && i + 1 < |cs| && cs[i + 1] == Emitted(cs[i].n + 1, event)
    && (env.hears(cs[i].n + 1, event) ==>
          && i + 2 < |cs| && cs[i + 2].Told?
          && cs[i + 2] == Told(cs[i].n + 2, Call(call.id, redact(call.name), RedactValue(call.input, redact)),
                               OutputText(redact, x), x.Threw?, cs[i + 2].st))
  }

  ghost predicate AllTold(options: Options, env: Environment, cs: seq<Contact>) {
    forall i :: 0 <= i < |cs| && cs[i].Executed? ==> ToldOf(options, env, cs, i)
  }

  lemma NothingTold(options: Options, env: Environment)
    ensures AllTold(options, env, [])
  {
  }

  lemma ToldConcat(options: Options, env: Environment, a: seq<Contact>, b: seq<Contact>)
    requires AllTold(options, env, a) && AllTold(options, env, b)
    ensures AllTold(options, env, a + b)
  {
    var cs := a + b;
    forall i | 0 <= i < |cs| && cs[i].Executed? ensures ToldOf(options, env, cs, i) {
      if i < |a| {
        assert ToldOf(options, env, a, i);
      } else {
        assert ToldOf(options, env, b, i - |a|);
      }
    }
  }

  lemma NoExecutionTold(options: Options, env: Environment, cs: seq<Contact>)
    requires forall c :: c in cs ==> !c.Executed?
    ensures AllTold(options, env, cs)
  {
    assert forall i :: 0 <= i < |cs| ==> cs[i] in cs;
  }

  lemma EmittedTold(options: Options, env: Environment, step: nat, events: seq<Event>)
    ensures AllTold(options, env, EmitAll(env, step, events).contacts)
  {
    EmissionMeans(env, step, events);
    NoExecutionTold(options, env, EmitAll(env, step, events).contacts);
  }

  lemma OneEmission(env: Environment, step: nat, event: Event)
    ensures EmitAll(env, step, [event]) == Emission(env.hears(step, event), step + 1, [event], [Emitted(step, event)])
  {
    assert [event][..0] == [];
    assert EmitAll(env, step, []) == Emission(true, step, [], []);
  }

  lemma ExecuteStepTold(options: Options, env: Environment, st: AgentState, step: nat, use: Part)
    requires use.ToolUse?
    ensures AllTold(options, env, ExecuteStep(options, env, st, step, use).contacts)
  {
    var redact := options.redact;
    var x := env.execute(step, RawCall(use));
    var event := ResultEvent(options, use, OutputText(redact, x), x.Threw?);
    OneEmission(env, step + 1, event);
    hide EmitAll, RedactValue;
    var cs := ExecuteStep(options, env, st, step, use).contacts;
    assert cs[0] == Executed(step, RawCall(use)) && cs[1] == Emitted(step + 1, event);
    assert ToldOf(options, env, cs, 0);
  }

  lemma ToolStepTold(options: Options, env: Environment, st0: AgentState, step: nat, use: Part)
    requires use.ToolUse?
    ensures AllTold(options, env, ToolStep(options, env, st0, step, use).contacts)
  {
    hide ResultEvent, EmitAll, AllTold, ExecuteStep, RedactValue;
    var redact := options.redact;
    var st := st0.(toolCallCount := st0.toolCallCount + 1,
                   toolHistory := st0.toolHistory + [Field(SafeCall(options, use).name, SafeCall(options, use).input)]);
    if use.name !in options.tools {
      EmittedTold(options, env, step, [ResultEvent(options, use, redact("Error: Unknown tool \"" + use.name + "\""), true)]);
    } else {
      var asked := [Asked(step, SafeCall(options, use), st)];
      NoExecutionTold(options, env, asked);
      match env.preTool(step, SafeCall(options, use), st)
      case VerdictThrew =>
      case Verdict(false, inject, after) =>
        var events := [ResultEvent(options, use, redact(inject.GetOr("Tool call blocked by middleware.")), true)];
        EmittedTold(options, env, step + 1, events);
        ToldConcat(options, env, asked, EmitAll(env, step + 1, events).contacts);
      case Verdict(true, _, after) =>
        ExecuteStepTold(options, env, after, step + 1, use);
        ToldConcat(options, env, asked, ExecuteStep(options, env, after, step + 1, use).contacts);
    }
  }

  lemma {:induction false} ToolStepsTold(options: Options, env: Environment, st: AgentState, step: nat, toolCalls: seq<Part>)
    requires forall c :: c in toolCalls ==> c.ToolUse?
    ensures AllTold(options, env, ToolSteps(options, env, st, step, toolCalls).contacts)
  {
    hide ToolStep, AllTold;
    if toolCalls == [] {
      NothingTold(options, env);
    } else {
      var n := |toolCalls| - 1;
      assert toolCalls[n] in toolCalls && forall c :: c in toolCalls[..n] ==> c in toolCalls;
      ToolStepsTold(options, env, st, step, toolCalls[..n]);
      var before := ToolSteps(options, env, st, step, toolCalls[..n]);
      if before.outcome.AllAnswered? {
        ToolStepTold(options, env, before.st, before.step, toolCalls[n]);
        ToldConcat(options, env, before.contacts, ToolStep(options, env, before.st, before.step, toolCalls[n]).contacts);
      }
    }
  }

  lemma ReplyStepTold(options: Options, env: Environment, st: AgentState, step: nat, reply: Reply, lastText: string)
    ensures AllTold(options, env, ReplyStep(options, env, st, step, reply, lastText).contacts)
  {
    hide RedactContent, Announced, ToolUses, LastText, EmitAll, CompleteStep, UseToolsStep, AllTold;
    var content := RedactContent(reply.content, options.redact);
    var m := EmitAll(env, step, Announced(content, options.redact));
    EmittedTold(options, env, step, Announced(content, options.redact));
    if m.ok {
      var toolCalls := ToolUses(content);
      ToolUsesAreUses(content);
      if reply.stopReason == Some("end_turn") || toolCalls == [] {
        CompleteStepTold(options, env, st, m.step, LastText(content, lastText));
        ToldConcat(options, env, m.contacts, CompleteStep(options, env, st, m.step, LastText(content, lastText)).contacts);
      } else {
        UseToolsStepTold(options, env, st, m.step, toolCalls);
        ToldConcat(options, env, m.contacts, UseToolsStep(options, env, st, m.step, toolCalls).contacts);
      }
    }
  }

  lemma CompleteStepTold(options: Options, env: Environment, st: AgentState, step: nat, lastText: string)
    ensures AllTold(options, env, CompleteStep(options, env, st, step, lastText).contacts)
  {
    hide EmitAll, RedactEvent, ToResult, AllTold;
    var checked := [Checked(step, st)];
    NoExecutionTold(options, env, checked);
    match env.preCompletion(step, st)
    case CheckThrew =>
    case Check(inject, after) =>
      var events := if inject.GetOr("") == "" then [RedactEvent(Completed(lastText), options.redact), TurnEnd(after.turnCount, after.tokenUsage)]
                    else [RedactEvent(Injected(options.redact(inject.value)), options.redact), TurnEnd(after.turnCount, after.tokenUsage)];
      EmittedTold(options, env, step + 1, events);
      ToldConcat(options, env, checked, EmitAll(env, step + 1, events).contacts);
  }

  lemma UseToolsStepTold(options: Options, env: Environment, st: AgentState, step: nat, toolCalls: seq<Part>)
    requires forall c :: c in toolCalls ==> c.ToolUse?
    ensures AllTold(options, env, UseToolsStep(options, env, st, step, toolCalls).contacts)
  {
    hide EmitAll, RedactEvent, ToResult, AllTold, ToolSteps;
    var tools := ToolSteps(options, env, st, step, toolCalls);
    ToolStepsTold(options, env, st, step, toolCalls);
    match tools.outcome
    case SomeCallbackThrew =>
    case GaveUp(summary) =>
      var events := [RedactEvent(Completed(summary), options.redact), TurnEnd(tools.st.turnCount, tools.st.tokenUsage)];
      EmittedTold(options, env, tools.step, events);
      ToldConcat(options, env, tools.contacts, EmitAll(env, tools.step, events).contacts);
    case AllAnswered(_) =>
      var events := [TurnEnd(tools.st.turnCount, tools.st.tokenUsage)];
      EmittedTold(options, env, tools.step, events);
      ToldConcat(options, env, tools.contacts, EmitAll(env, tools.step, events).contacts);
  }

  lemma FailingTold(options: Options, env: Environment, st: AgentState, step: nat, code: string, message: string, summary: string)
    ensures AllTold(options, env, Failing(options, env, st, step, code, message, summary).contacts)
  {
    EmittedTold(options, env, step, [RedactEvent(Error(code, message), options.redact)]);
  }

  lemma TurnStepTold(options: Options, env: Environment, st: AgentState, step: nat, messages: seq<Message>, lastText: string)
    ensures AllTold(options, env, TurnStep(options, env, st, step, messages, lastText).closing.contacts)
  {
    hide EmitAll, AllTold, BodyStep;
    EmittedTold(options, env, step, [TurnStart(st.turnCount)]);
    var m := EmitAll(env, step, [TurnStart(st.turnCount)]);
    if m.ok {
      BodyStepTold(options, env, st, m.step, messages, lastText);
      ToldConcat(options, env, m.contacts, BodyStep(options, env, st, m.step, messages, lastText).closing.contacts);
    }
  }

  lemma BodyStepTold(options: Options, env: Environment, st: AgentState, step: nat, messages: seq<Message>, lastText: string)
    ensures AllTold(options, env, BodyStep(options, env, st, step, messages, lastText).closing.contacts)
  {
    hide EmitAll, AllTold, ReplyStep, Failing, LastText, RedactContent, CalculateCost;
    FailingTold(options, env, st, step + 1, "CANCELLED", "Run was cancelled", "Cancelled");
    match env.generate(step + 1, messages)
    case Failed(code, message) => FailingTold(options, env, st, step + 2, code, options.redact(message), options.redact(message));
    case Replied(reply) =>
      var spent := st.(tokenUsage := AddUsage(st.tokenUsage, reply.usage));
      FailingTold(options, env, spent, step + 2, "BUDGET_EXCEEDED", "Budget exceeded", "Budget exceeded");
      ReplyStepTold(options, env, spent, step + 2, reply, lastText);
  }

  lemma {:induction false} LoopTold(options: Options, env: Environment, st: AgentState, step: nat, messages: seq<Message>,
                                    lastText: string, calls: seq<ModelCall>, events: seq<Event>, contacts: seq<Contact>)
    requires KeepsTurnCount(env) && AllTold(options, env, contacts)
    ensures AllTold(options, env, LoopFrom(options, env, st, step, messages, lastText, calls, events, contacts).contacts)
    decreases options.maxTurns - st.turnCount
  {
    hide KeepsTurnCount, TurnStep, RedactContent, AllTold, Failing;
    if st.turnCount >= options.maxTurns {
      var message := if lastText != "" then lastText else "Max turns exceeded";
      FailingTold(options, env, st, step, "MAX_TURNS_EXCEEDED", "Reached maximum turns", message);
      ToldConcat(options, env, contacts, Failing(options, env, st, step, "MAX_TURNS_EXCEEDED", "Reached maximum turns", message).contacts);
    } else {
      var counted := st.(turnCount := st.turnCount + 1);
      var t := TurnStep(options, env, counted, step, messages, lastText);
      TurnKeepsCount(options, env, counted, step, messages, lastText);
      TurnStepTold(options, env, counted, step, messages, lastText);
      ToldConcat(options, env, contacts, t.closing.contacts);
      if t.closing.outcome.NextTurn? {
        NextTurnHasReply(options, env, counted, step, messages, lastText);
        LoopTold(options, env, t.closing.st, t.closing.step,
                 messages + [Message(Assistant, RedactContent(t.call.value.answer.reply.content, options.redact))] + [t.closing.outcome.user],
                 t.lastText, calls + [t.call.value], events + ([TurnStart(st.turnCount + 1)] + t.closing.plain + t.closing.closing),
                 contacts + t.closing.contacts);
      }
    }
  }

  /** In every run every execution is told, also in a turn that ends the run. */
  lemma EveryExecutionIsTold(options: Options, env: Environment, initial: AgentState)
    requires KeepsTurnCount(env)
    ensures AllTold(options, env, WholeRun(options, env, initial).contacts)
  {
    hide LoopFrom, AllTold;
    NothingTold(options, env);
    LoopTold(options, env, initial, 0, [Message(User, [Text(options.redact(options.userMessage))])], "", [], [], []);
  }

  // ---------------------------------------------------------------- the last text of the agent

  /** The redacted last text among the parts of the replies; empty if there is none. */
  ghost predicate IsLastSaid(replies: seq<Reply>, redact: string -> string, text: string) {
    || (text == "" && forall j :: 0 <= j < |replies| ==> NoText(replies[j].content, 0))
    || exists j :: 0 <= j < |replies| && LastIn(replies[j].content, redact, text)
                   && forall k :: j < k < |replies| ==> NoText(replies[k].content, 0)
  }

  predicate NoText(content: seq<ReplyPart>, from: nat) { forall i :: from <= i < |content| ==> !content[i].Text? }

  ghost predicate LastIn(content: seq<ReplyPart>, redact: string -> string, text: string) {
    exists i :: 0 <= i < |content| && content[i].Text? && text == redact(content[i].text) && NoText(content, i + 1)
  }

  lemma {:induction false} LastTextIs(content: seq<ReplyPart>, redact: string -> string, before: string)
    ensures var text := LastText(RedactContent(content, redact), before);
            if NoText(content, 0) then text == before else LastIn(content, redact, text)
  {
    if content != [] {
      var n := |content| - 1;
      var redacted := RedactContent(content, redact);
      assert redacted[..n] == RedactContent(content[..n], redact);
      LastTextIs(content[..n], redact, before);
      if content[n].Text? {
        assert NoText(content, n + 1);
        assert LastIn(content, redact, redact(content[n].text));
      } else {
        NoTextNext(content);
        if !NoText(content[..n], 0) {
          LastInNext(content, redact, LastText(redacted[..n], before));
        }
      }
    }
  }

  lemma NoTextNext(content: seq<ReplyPart>)
    requires content != [] && !content[|content| - 1].Text?
    ensures NoText(content, 0) <==> NoText(content[..|content| - 1], 0)
  {
    var n := |content| - 1;
    assert forall i :: 0 <= i < n ==> content[..n][i] == content[i];
  }

  lemma LastInNext(content: seq<ReplyPart>, redact: string -> string, text: string)
    requires content != [] && !content[|content| - 1].Text? && LastIn(content[..|content| - 1], redact, text)
    ensures LastIn(content, redact, text)
  {
    var n := |content| - 1;
    var i :| 0 <= i < n && content[..n][i].Text? && text == redact(content[..n][i].text) && NoText(content[..n], i + 1);
    assert NoText(content, i + 1) by {
      assert forall j :: 0 <= j < n ==> content[..n][j] == content[j];
    }
  }

  lemma LastSaidNext(replies: seq<Reply>, reply: Reply, redact: string -> string, before: string)
    requires IsLastSaid(replies, redact, before)
    ensures IsLastSaid(replies + [reply], redact, LastText(RedactContent(reply.content, redact), before))
  {
    LastTextIs(reply.content, redact, before);
    hide LastText, RedactContent, LastIn;
    var all := replies + [reply];
    if NoText(reply.content, 0) {
      if j :| 0 <= j < |replies| && LastIn(replies[j].content, redact, before) && forall k :: j < k < |replies| ==> NoText(replies[k].content, 0) {
        assert all[j] == replies[j];
      }
    } else {
      assert all[|replies|] == reply;
    }
  }

  // ---------------------------------------------------------------- how a run ends

  /** The result reports the state. */
  predicate Reports(options: Options, c: Completion, st: AgentState) {
    && c.turnCount == st.turnCount && c.toolCallCount == st.toolCallCount && c.testsRan == st.testsRan
    && c.tokenUsage == st.tokenUsage && c.toolHistory == RedactFields(st.toolHistory, options.redact)
  }

  /** A success: the run ends with the completion and the end of the turn, and says the last text, or why the agent gave up. */
  ghost predicate SucceedsWith(options: Options, replies: seq<Reply>, st: AgentState, c: Completion, evs: seq<Event>) {
    && replies != [] && |evs| >= 2 && evs[|evs| - 1] == TurnEnd(st.turnCount, st.tokenUsage)
    && exists text: string ::
         && evs[|evs| - 2] == Completed(options.redact(text)) && c.summary == options.redact(text)
         && if TakesToolBranch(replies[|replies| - 1])
            then st.gaveUp && text == options.redact(if st.giveUpReason.Some? then st.giveUpReason.value else "Agent gave up")
            else IsLastSaid(replies, options.redact, text)
  }

  /** A failure: the run ends with the error of its cause. */
  ghost predicate FailsWith(options: Options, c: Completion, evs: seq<Event>, code: string, message: string, summary: string) {
    evs != [] && evs[|evs| - 1] == Error(options.redact(code), options.redact(message)) && c.summary == options.redact(summary)
  }

  ghost predicate FailsAs(options: Options, env: Environment, calls: seq<ModelCall>, st: AgentState, c: Completion, evs: seq<Event>) {
    || (&& st.turnCount >= options.maxTurns && AllReplied(calls)
        && exists text: string :: IsLastSaid(RepliesOf(calls), options.redact, text)
             && FailsWith(options, c, evs, "MAX_TURNS_EXCEEDED", "Reached maximum turns", if text == "" then "Max turns exceeded" else text))
    || ((exists n: nat :: env.aborted(n)) && FailsWith(options, c, evs, "CANCELLED", "Run was cancelled", "Cancelled"))
    || (&& calls != [] && calls[|calls| - 1].answer.Failed?
        && var f := calls[|calls| - 1].answer; FailsWith(options, c, evs, f.code, options.redact(f.message), options.redact(f.message)))
    || (&& calls != [] && calls[|calls| - 1].answer.Replied? && options.budgetUsd.Some?
        && CalculateCost(st.tokenUsage, options.pricing) > options.budgetUsd.value
        && FailsWith(options, c, evs, "BUDGET_EXCEEDED", "Budget exceeded", "Budget exceeded"))
  }

  ghost predicate EndsAs(options: Options, env: Environment, calls: seq<ModelCall>, st: AgentState, result: Option<Completion>, evs: seq<Event>) {
    match result
    case None => true
    case Some(c) =>
      && Reports(options, c, st)
      && if c.success then AllReplied(calls) && SucceedsWith(options, RepliesOf(calls), st, c, evs)
         else FailsAs(options, env, calls, st, c, evs)
  }

  lemma FailingEnds(options: Options, env: Environment, st: AgentState, step: nat, code: string, message: string, summary: string)
    ensures var e := Failing(options, env, st, step, code, message, summary);
            && e.st == st && e.plain == []
            && (e.outcome.Crashed? || (e.outcome.Finished? && !e.outcome.completion.success && Reports(options, e.outcome.completion, st)))
            && (e.outcome.Finished? ==> e.closing == [Error(options.redact(code), options.redact(message))]
                                        && e.outcome.completion.summary == options.redact(summary))
  {
    OneEmission(env, step, RedactEvent(Error(code, message), options.redact));
    hide EmitAll;
  }

  lemma SucceedingEnds(options: Options, env: Environment, st: AgentState, step: nat, summary: string)
    ensures var e := Succeeding(options, env, st, step, summary);
            && e.st == st
            && (e.outcome.Crashed? || (e.outcome.Finished? && e.outcome.completion.success && Reports(options, e.outcome.completion, st)))
            && (e.outcome.Finished? ==> e.closing == [Completed(options.redact(summary)), TurnEnd(st.turnCount, st.tokenUsage)]
                                        && e.outcome.completion.summary == options.redact(summary))
  {
    AllGiven(env, step, [RedactEvent(Completed(summary), options.redact), TurnEnd(st.turnCount, st.tokenUsage)]);
    hide EmitAll;
  }

  /** The end of a turn that finishes the run with success. */
  ghost predicate SuccessOf(options: Options, end: Closing, text: string) {
    && end.outcome.Finished? && end.outcome.completion.success && Reports(options, end.outcome.completion, end.st)
    && end.closing == [Completed(options.redact(text)), TurnEnd(end.st.turnCount, end.st.tokenUsage)]
    && end.outcome.completion.summary == options.redact(text)
  }

  lemma CompleteEnds(options: Options, env: Environment, st: AgentState, step: nat, lastText: string)
    requires CompleteStep(options, env, st, step, lastText).outcome.Finished?
    ensures SuccessOf(options, CompleteStep(options, env, st, step, lastText), lastText)
  {
    hide Succeeding, EmitAll, RedactEvent, Reports;
    match env.preCompletion(step, st)
    case CheckThrew =>
    case Check(inject, after) =>
      if inject.GetOr("") == "" {
        SucceedingEnds(options, env, after, step + 1, lastText);
      }
  }

  lemma {:induction false} ToolStepsGiveUp(options: Options, env: Environment, st: AgentState, step: nat, toolCalls: seq<Part>)
    requires forall c :: c in toolCalls ==> c.ToolUse?
    requires ToolSteps(options, env, st, step, toolCalls).outcome.GaveUp?
    ensures var e := ToolSteps(options, env, st, step, toolCalls);
            e.st.gaveUp && e.outcome.summary == options.redact(if e.st.giveUpReason.Some? then e.st.giveUpReason.value else "Agent gave up")
  {
    if toolCalls != [] {
      var n := |toolCalls| - 1;
      assert toolCalls[n] in toolCalls && forall c :: c in toolCalls[..n] ==> c in toolCalls;
      var before := ToolSteps(options, env, st, step, toolCalls[..n]);
      if before.outcome.GaveUp? {
        ToolStepsGiveUp(options, env, st, step, toolCalls[..n]);
      } else {
        hide EmitAll, ResultEvent, RedactValue;
      }
    }
  }

  lemma UseToolsEnds(options: Options, env: Environment, st: AgentState, step: nat, toolCalls: seq<Part>)
    requires forall c :: c in toolCalls ==> c.ToolUse?
    requires UseToolsStep(options, env, st, step, toolCalls).outcome.Finished?
    ensures var end := UseToolsStep(options, env, st, step, toolCalls);
            && end.st.gaveUp
            && SuccessOf(options, end, options.redact(if end.st.giveUpReason.Some? then end.st.giveUpReason.value else "Agent gave up"))
  {
    hide Succeeding, EmitAll, ToolSteps, Reports;
    var tools := ToolSteps(options, env, st, step, toolCalls);
    if tools.outcome.GaveUp? {
      ToolStepsGiveUp(options, env, st, step, toolCalls);
      SucceedingEnds(options, env, tools.st, tools.step, tools.outcome.summary);
    }
  }

  lemma ReplyEnds(options: Options, env: Environment, st: AgentState, step: nat, reply: Reply, lastText: string)
    requires ReplyStep(options, env, st, step, reply, lastText).outcome.Finished?
    ensures var end := ReplyStep(options, env, st, step, reply, lastText);
            if TakesToolBranch(reply)
            then end.st.gaveUp
                 && SuccessOf(options, end, options.redact(if end.st.giveUpReason.Some? then end.st.giveUpReason.value else "Agent gave up"))
            else SuccessOf(options, end, LastText(RedactContent(reply.content, options.redact), lastText))
  {
    hide EmitAll, RedactContent, Announced, LastText, CompleteStep, UseToolsStep, Reports;
    var said := RedactContent(reply.content, options.redact);
    var toolCalls := ToolUses(said);
    ToolUsesAreUses(said);
    ToolUsesRedacted(reply.content, options.redact);
    var m := EmitAll(env, step, Announced(said, options.redact));
    if reply.stopReason == Some("end_turn") || toolCalls == [] {
      CompleteEnds(options, env, st, m.step, LastText(said, lastText));
    } else {
      UseToolsEnds(options, env, st, m.step, toolCalls);
    }
  }

  /** A turn that finishes the run without a reply within budget fails with its cause. */
  lemma TurnFailsAs(options: Options, env: Environment, st: AgentState, step: nat, messages: seq<Message>, lastText: string,
                    calls: seq<ModelCall>, evs: seq<Event>)
    requires BodyStep(options, env, st, step, messages, lastText).closing.outcome.Finished? && AllReplied(calls)
    requires var t := BodyStep(options, env, st, step, messages, lastText);
             t.call.None? || t.call.value.answer.Failed?
             || (options.budgetUsd.Some? && CalculateCost(AddUsage(st.tokenUsage, t.call.value.answer.reply.usage), options.pricing)
                                            > options.budgetUsd.value)
    ensures var t := BodyStep(options, env, st, step, messages, lastText);
            EndsAs(options, env, if t.call.Some? then calls + [t.call.value] else calls, t.closing.st, Some(t.closing.outcome.completion),
                   evs + t.closing.closing)
  {
    hide EmitAll, ReplyStep, Failing, RedactContent, LastText, CalculateCost, Reports, IsLastSaid, TakesToolBranch, RepliesOf;
    if env.aborted(step) {
      FailingEnds(options, env, st, step + 1, "CANCELLED", "Run was cancelled", "Cancelled");
    } else {
      match env.generate(step + 1, messages)
      case Failed(code, message) =>
        FailingEnds(options, env, st, step + 2, code, options.redact(message), options.redact(message));
      case Replied(reply) =>
        var spent := st.(tokenUsage := AddUsage(st.tokenUsage, reply.usage));
        FailingEnds(options, env, spent, step + 2, "BUDGET_EXCEEDED", "Budget exceeded", "Budget exceeded");
    }
  }

  lemma ReplyEndsAs(options: Options, env: Environment, st: AgentState, step: nat, reply: Reply, lastText: string,
                    calls: seq<ModelCall>, call: ModelCall, evs: seq<Event>)
    requires ReplyStep(options, env, st, step, reply, lastText).outcome.Finished? && call.answer == Replied(reply)
    requires AllReplied(calls) && IsLastSaid(RepliesOf(calls), options.redact, lastText)
    ensures var end := ReplyStep(options, env, st, step, reply, lastText);
            EndsAs(options, env, calls + [call], end.st, Some(end.outcome.completion), evs + end.closing)
  {
    hide EmitAll, ReplyStep, RedactContent, LastText, Reports, IsLastSaid, TakesToolBranch, RepliesOf, FailsAs;
    ReplyEnds(options, env, st, step, reply, lastText);
    RepliesNext(calls, call);
    LastSaidNext(RepliesOf(calls), reply, options.redact, lastText);
  }

  lemma TurnEndsAs(options: Options, env: Environment, st: AgentState, step: nat, messages: seq<Message>, lastText: string,
                   calls: seq<ModelCall>, evs: seq<Event>)
    requires TurnStep(options, env, st, step, messages, lastText).closing.outcome.Finished?
    requires AllReplied(calls) && IsLastSaid(RepliesOf(calls), options.redact, lastText)
    ensures var t := TurnStep(options, env, st, step, messages, lastText);
            EndsAs(options, env, if t.call.Some? then calls + [t.call.value] else calls, t.closing.st, Some(t.closing.outcome.completion),
                   evs + t.closing.closing)
  {
    hide EmitAll, ReplyStep, Failing, RedactContent, LastText, CalculateCost, IsLastSaid, RepliesOf, EndsAs;
    var m := EmitAll(env, step, [TurnStart(st.turnCount)]);
    var t := BodyStep(options, env, st, m.step, messages, lastText);
    if t.call.Some? && t.call.value.answer.Replied?
       && !(options.budgetUsd.Some? && CalculateCost(AddUsage(st.tokenUsage, t.call.value.answer.reply.usage), options.pricing)
                                       > options.budgetUsd.value) {
      var reply := t.call.value.answer.reply;
      ReplyEndsAs(options, env, st.(tokenUsage := AddUsage(st.tokenUsage, reply.usage)), m.step + 2, reply, lastText, calls, t.call.value, evs);
    } else {
      TurnFailsAs(options, env, st, m.step, messages, lastText, calls, evs);
    }
  }

  lemma NextTurnText(options: Options, env: Environment, st: AgentState, step: nat, messages: seq<Message>, lastText: string)
    requires TurnStep(options, env, st, step, messages, lastText).closing.outcome.NextTurn?
    ensures var t := TurnStep(options, env, st, step, messages, lastText);
            && t.call.Some? && t.call.value.answer.Replied?
            && t.lastText == LastText(RedactContent(t.call.value.answer.reply.content, options.redact), lastText)
  {
    hide EmitAll, ReplyStep, RedactContent, LastText, CalculateCost, RedactEvent, ToResult;
  }

  lemma {:induction false} LoopEndsAs(options: Options, env: Environment, st: AgentState, step: nat, messages: seq<Message>,
                                      lastText: string, calls: seq<ModelCall>, events: seq<Event>, contacts: seq<Contact>)
    requires KeepsTurnCount(env) && AllReplied(calls) && IsLastSaid(RepliesOf(calls), options.redact, lastText)
    ensures var run := LoopFrom(options, env, st, step, messages, lastText, calls, events, contacts);
            EndsAs(options, env, run.calls, run.state, run.result, run.events)
    decreases options.maxTurns - st.turnCount
  {
    hide KeepsTurnCount, TurnStep, RedactContent, IsLastSaid, RepliesOf, Reports, Failing, LastText, SucceedsWith;
    if st.turnCount >= options.maxTurns {
      FailingEnds(options, env, st, step, "MAX_TURNS_EXCEEDED", "Reached maximum turns",
                  if lastText != "" then lastText else "Max turns exceeded");
    } else {
      hide FailsAs;
      var counted := st.(turnCount := st.turnCount + 1);
      var t := TurnStep(options, env, counted, step, messages, lastText);
      TurnKeepsCount(options, env, counted, step, messages, lastText);
      var heard := events + ([TurnStart(st.turnCount + 1)] + t.closing.plain + t.closing.closing);
      if t.closing.outcome.NextTurn? {
        NextTurnHasReply(options, env, counted, step, messages, lastText);
        NextTurnText(options, env, counted, step, messages, lastText);
        RepliesNext(calls, t.call.value);
        LastSaidNext(RepliesOf(calls), t.call.value.answer.reply, options.redact, lastText);
        hide EndsAs;
        LoopEndsAs(options, env, t.closing.st, t.closing.step,
                   messages + [Message(Assistant, RedactContent(t.call.value.answer.reply.content, options.redact))] + [t.closing.outcome.user],
                   t.lastText, calls + [t.call.value], heard, contacts + t.closing.contacts);
      } else if t.closing.outcome.Finished? {
        var before := events + [TurnStart(st.turnCount + 1)] + t.closing.plain;
        TurnEndsAs(options, env, counted, step, messages, lastText, calls, before);
        assert before + t.closing.closing == heard;
      }
    }
  }

  /** In every run the result reports the final state, and the run ends as its result says: a success with the completion and
      the last text or the reason for giving up, a failure with the error of its cause. */
  lemma EveryResultTells(options: Options, env: Environment, initial: AgentState)
    requires KeepsTurnCount(env)
    ensures var run := WholeRun(options, env, initial); EndsAs(options, env, run.calls, run.state, run.result, run.events)
  {
    hide LoopFrom, EndsAs;
    assert IsLastSaid(RepliesOf([]), options.redact, "");
    LoopEndsAs(options, env, initial, 0, [Message(User, [Text(options.redact(options.userMessage))])], "", [], [], []);
  }

  // ---------------------------------------------------------------- the count of tool uses

  /** The hook left the record of tool uses alone on that contact. */
  predicate KeepsRecordAt(env: Environment, c: Contact) {
    match c
    case Asked(n, call, st) =>
      var v := env.preTool(n, call, st);
      v.Verdict? ==> v.after.toolCallCount == st.toolCallCount && v.after.toolHistory == st.toolHistory
    case Told(n, call, output, isError, st) =>
      var a := env.postTool(n, call, output, isError, st);
      a.After? ==> a.after.toolCallCount == st.toolCallCount && a.after.toolHistory == st.toolHistory
    case Checked(n, st) =>
      var k := env.preCompletion(n, st);
      k.Check? ==> k.after.toolCallCount == st.toolCallCount && k.after.toolHistory == st.toolHistory
    case _ => true
  }

  predicate RecordKept(env: Environment, cs: seq<Contact>) { forall c :: c in cs ==> KeepsRecordAt(env, c) }

  /** The record has grown by the uses, in order, each with its redacted name and input. */
  ghost predicate Recorded(options: Options, before: AgentState, after: AgentState, uses: seq<Part>) {
    && after.toolCallCount == before.toolCallCount + |uses|
    && |after.toolHistory| == |before.toolHistory| + |uses| && after.toolHistory[..|before.toolHistory|] == before.toolHistory
    && forall k :: 0 <= k < |uses| ==>
         uses[k].ToolUse?
         && after.toolHistory[|before.toolHistory| + k] == Field(options.redact(uses[k].name), RedactValue(uses[k].input, options.redact))
  }

  lemma RecordedConcat(options: Options, a: AgentState, b: AgentState, c: AgentState, u: seq<Part>, v: seq<Part>)
    requires Recorded(options, a, b, u) && Recorded(options, b, c, v)
    ensures Recorded(options, a, c, u + v)
  {
    hide RedactValue;
    var n, m := |a.toolHistory|, |b.toolHistory|;
    assert c.toolHistory[..n] == c.toolHistory[..m][..n];
    forall k | 0 <= k < |u + v|
      ensures (u + v)[k].ToolUse?
              && c.toolHistory[n + k] == Field(options.redact((u + v)[k].name), RedactValue((u + v)[k].input, options.redact))
    {
      if k < |u| {
        assert c.toolHistory[n + k] == c.toolHistory[..m][n + k] == b.toolHistory[n + k];
      } else {
        assert c.toolHistory[m + (k - |u|)] == c.toolHistory[n + k];
      }
    }
  }

  lemma KeptConcat(env: Environment, a: seq<Contact>, b: seq<Contact>)
    ensures RecordKept(env, a + b) <==> RecordKept(env, a) && RecordKept(env, b)
  {
    hide KeepsRecordAt;
    assert forall c :: c in a + b <==> c in a || c in b;
  }

  lemma ToolStepRecords(options: Options, env: Environment, st0: AgentState, step: nat, use: Part)
    requires use.ToolUse? && RecordKept(env, ToolStep(options, env, st0, step, use).contacts)
    ensures Recorded(options, st0, ToolStep(options, env, st0, step, use).st, [use])
  {
    hide ResultEvent, EmitAll, RedactValue, Recorded;
    var e := ToolStep(options, env, st0, step, use);
    var call := SafeCall(options, use);
    var st := st0.(toolCallCount := st0.toolCallCount + 1, toolHistory := st0.toolHistory + [Field(call.name, call.input)]);
    UseIsRecorded(options, st0, use);
    if use.name in options.tools {
      assert e.contacts[0] == Asked(step, call, st) && e.contacts[0] in e.contacts;
      assert KeepsRecordAt(env, e.contacts[0]);
      if env.preTool(step, call, st).Verdict? && env.preTool(step, call, st).allow {
        ExecuteRecords(options, env, env.preTool(step, call, st).after, step + 1, use, e.contacts);
      }
    }
    SameRecord(options, st0, st, e.st, [use]);
  }

  lemma UseIsRecorded(options: Options, st: AgentState, use: Part)
    requires use.ToolUse?
    ensures var call := SafeCall(options, use);
            Recorded(options, st, st.(toolCallCount := st.toolCallCount + 1, toolHistory := st.toolHistory + [Field(call.name, call.input)]), [use])
  {
  }

  lemma SameRecord(options: Options, a: AgentState, b: AgentState, c: AgentState, uses: seq<Part>)
    requires Recorded(options, a, b, uses) && b.toolCallCount == c.toolCallCount && b.toolHistory == c.toolHistory
    ensures Recorded(options, a, c, uses)
  {
  }

  lemma ExecuteRecords(options: Options, env: Environment, st: AgentState, step: nat, use: Part, cs: seq<Contact>)
    requires use.ToolUse? && RecordKept(env, cs) && forall c :: c in ExecuteStep(options, env, st, step, use).contacts ==> c in cs
    ensures var e := ExecuteStep(options, env, st, step, use);
            e.st.toolCallCount == st.toolCallCount && e.st.toolHistory == st.toolHistory
  {
    hide ResultEvent, EmitAll, RedactValue;
    var e := ExecuteStep(options, env, st, step, use);
    var last := e.contacts[|e.contacts| - 1];
    if last.Told? {
      assert last in e.contacts && KeepsRecordAt(env, last);
    }
    ExecuteState(options, env, st, step, use);
  }

  /** An execution leaves the state to the hook after it, if it gets there. */
  lemma ExecuteState(options: Options, env: Environment, st: AgentState, step: nat, use: Part)
    requires use.ToolUse?
    ensures var e := ExecuteStep(options, env, st, step, use);
            && e.contacts != []
            && var last := e.contacts[|e.contacts| - 1];
               if last.Told?
               then last.st == st
                    && var a := env.postTool(last.n, last.call, last.output, last.isError, st); e.st == if a.After? then a.after else st
               else e.st == st
  {
    var x := env.execute(step, RawCall(use));
    var event := ResultEvent(options, use, OutputText(options.redact, x), x.Threw?);
    OneEmission(env, step + 1, event);
    hide EmitAll, RedactValue, ResultEvent;
  }

  lemma {:induction false} ToolStepsRecord(options: Options, env: Environment, st: AgentState, step: nat, toolCalls: seq<Part>) returns (n: nat)
    requires (forall c :: c in toolCalls ==> c.ToolUse?) && RecordKept(env, ToolSteps(options, env, st, step, toolCalls).contacts)
    ensures n <= |toolCalls| && Recorded(options, st, ToolSteps(options, env, st, step, toolCalls).st, toolCalls[..n])
    ensures ToolSteps(options, env, st, step, toolCalls).outcome.AllAnswered? ==> n == |toolCalls|
  {
    hide ToolStep, RecordKept, Recorded;
    n := 0;
    if toolCalls == [] {
      NothingRecorded(options, st);
    } else {
      var k := |toolCalls| - 1;
      assert toolCalls[k] in toolCalls && forall c :: c in toolCalls[..k] ==> c in toolCalls;
      var before := ToolSteps(options, env, st, step, toolCalls[..k]);
      if before.outcome.AllAnswered? {
        var one := ToolStep(options, env, before.st, before.step, toolCalls[k]);
        KeptConcat(env, before.contacts, one.contacts);
        var _ := ToolStepsRecord(options, env, st, step, toolCalls[..k]);
        ToolStepRecords(options, env, before.st, before.step, toolCalls[k]);
        assert toolCalls[..k][..k] == toolCalls[..k];
        RecordedConcat(options, st, before.st, one.st, toolCalls[..k], [toolCalls[k]]);
        assert toolCalls[..k] + [toolCalls[k]] == toolCalls == toolCalls[..k + 1];
        n := k + 1;
      } else {
        n := ToolStepsRecord(options, env, st, step, toolCalls[..k]);
        assert toolCalls[..k][..n] == toolCalls[..n];
      }
    }
  }

  lemma NothingRecorded(options: Options, st: AgentState)
    ensures Recorded(options, st, st, [])
  {
  }

  /** The tool uses of replies that took the tool branch, as the history has them. */
  function UsesOf(replies: seq<Reply>, redact: string -> string): seq<Part> {
    if replies == [] then []
    else
      UsesOf(replies[..|replies| - 1], redact) + LastUses(replies[|replies| - 1], redact)
  }

  function LastUses(reply: Reply, redact: string -> string): seq<Part> {
    if TakesToolBranch(reply) then ToolUses(RedactContent(reply.content, redact)) else []
  }

  /** A record of all uses of the replies, or of all but the last ones of the last reply. */
  ghost predicate RecordedUpTo(options: Options, before: AgentState, after: AgentState, calls: seq<ModelCall>) {
    exists n: nat :: UsedUpTo(options, before, after, calls, n)
  }

  ghost predicate UsedUpTo(options: Options, before: AgentState, after: AgentState, calls: seq<ModelCall>, n: nat) {
    && AllReplied(AllButLast(calls))
    && if calls == [] || calls[|calls| - 1].answer.Failed?
       then Recorded(options, before, after, UsesOf(RepliesBefore(calls), options.redact))
       else
         var last := LastUses(calls[|calls| - 1].answer.reply, options.redact);
         n <= |last| && Recorded(options, before, after, UsesOf(RepliesBefore(calls), options.redact) + last[..n])
  }

  /** The replies of all calls but the last. */
  ghost function RepliesBefore(calls: seq<ModelCall>): seq<Reply>
    requires AllReplied(AllButLast(calls))
  {
    RepliesOf(AllButLast(calls))
  }

  function AllButLast(calls: seq<ModelCall>): seq<ModelCall> {
    if calls == [] then [] else calls[..|calls| - 1]
  }

  lemma CompleteRecords(options: Options, env: Environment, st: AgentState, step: nat, lastText: string)
    requires RecordKept(env, CompleteStep(options, env, st, step, lastText).contacts)
    ensures var e := CompleteStep(options, env, st, step, lastText).st; e.toolCallCount == st.toolCallCount && e.toolHistory == st.toolHistory
  {
    hide EmitAll, RedactEvent, ToResult;
    var e := CompleteStep(options, env, st, step, lastText);
    assert e.contacts[0] == Checked(step, st) && e.contacts[0] in e.contacts && KeepsRecordAt(env, e.contacts[0]);
  }

  lemma UseToolsRecords(options: Options, env: Environment, st: AgentState, step: nat, toolCalls: seq<Part>) returns (n: nat)
    requires (forall c :: c in toolCalls ==> c.ToolUse?) && RecordKept(env, UseToolsStep(options, env, st, step, toolCalls).contacts)
    ensures n <= |toolCalls| && Recorded(options, st, UseToolsStep(options, env, st, step, toolCalls).st, toolCalls[..n])
    ensures UseToolsStep(options, env, st, step, toolCalls).outcome.NextTurn? ==> n == |toolCalls|
  {
    hide EmitAll, RedactEvent, ToResult, RecordKept, Recorded, ToolSteps;
    var tools := ToolSteps(options, env, st, step, toolCalls);
    var e := UseToolsStep(options, env, st, step, toolCalls);
    if e.contacts != tools.contacts {
      assert e.contacts == tools.contacts + e.contacts[|tools.contacts|..];
      KeptConcat(env, tools.contacts, e.contacts[|tools.contacts|..]);
    }
    n := ToolStepsRecord(options, env, st, step, toolCalls);
  }

  lemma ReplyRecords(options: Options, env: Environment, st: AgentState, step: nat, reply: Reply, lastText: string) returns (n: nat)
    requires RecordKept(env, ReplyStep(options, env, st, step, reply, lastText).contacts)
    ensures var uses := LastUses(reply, options.redact);
            var end := ReplyStep(options, env, st, step, reply, lastText);
            n <= |uses| && Recorded(options, st, end.st, uses[..n]) && (end.outcome.NextTurn? ==> n == |uses|)
  {
    hide EmitAll, RedactContent, Announced, LastText, CompleteStep, UseToolsStep, RecordKept, Recorded;
    var said := RedactContent(reply.content, options.redact);
    var toolCalls := ToolUses(said);
    ToolUsesAreUses(said);
    ToolUsesRedacted(reply.content, options.redact);
    var m := EmitAll(env, step, Announced(said, options.redact));
    n := 0;
    NothingRecorded(options, st);
    if m.ok {
      if reply.stopReason == Some("end_turn") || toolCalls == [] {
        KeptConcat(env, m.contacts, CompleteStep(options, env, st, m.step, LastText(said, lastText)).contacts);
        CompleteRecords(options, env, st, m.step, LastText(said, lastText));
        SameRecord(options, st, st, CompleteStep(options, env, st, m.step, LastText(said, lastText)).st, []);
      } else {
        KeptConcat(env, m.contacts, UseToolsStep(options, env, st, m.step, toolCalls).contacts);
        n := UseToolsRecords(options, env, st, m.step, toolCalls);
      }
    }
  }

  lemma TurnRecords(options: Options, env: Environment, st: AgentState, step: nat, messages: seq<Message>, lastText: string) returns (n: nat)
    requires RecordKept(env, TurnStep(options, env, st, step, messages, lastText).closing.contacts)
    ensures var t := TurnStep(options, env, st, step, messages, lastText);
            if t.call.Some? && t.call.value.answer.Replied?
            then
              var uses := LastUses(t.call.value.answer.reply, options.redact);
              n <= |uses| && Recorded(options, st, t.closing.st, uses[..n]) && (t.closing.outcome.NextTurn? ==> n == |uses|)
            else Recorded(options, st, t.closing.st, [])
  {
    hide EmitAll, ReplyStep, RedactContent, LastText, CalculateCost, RedactEvent, ToResult, RecordKept, Recorded, LastUses;
    var m := EmitAll(env, step, [TurnStart(st.turnCount)]);
    var t := TurnStep(options, env, st, step, messages, lastText);
    n := 0;
    NothingRecorded(options, st);
    if m.ok {
      KeptConcat(env, m.contacts, BodyStep(options, env, st, m.step, messages, lastText).closing.contacts);
      if !env.aborted(m.step) && env.generate(m.step + 1, messages).Replied? {
        var reply := env.generate(m.step + 1, messages).reply;
        var spent := st.(tokenUsage := AddUsage(st.tokenUsage, reply.usage));
        SameRecord(options, st, st, spent, []);
        if !(options.budgetUsd.Some? && CalculateCost(spent.tokenUsage, options.pricing) > options.budgetUsd.value) {
          n := ReplyRecords(options, env, spent, m.step + 2, reply, lastText);
          var uses := LastUses(reply, options.redact);
          RecordedConcat(options, st, spent, t.closing.st, [], uses[..n]);
          assert [] + uses[..n] == uses[..n];
        } else {
          assert LastUses(reply, options.redact)[..0] == [];
        }
      }
    }
  }

  lemma UsesNext(replies: seq<Reply>, reply: Reply, redact: string -> string)
    ensures UsesOf(replies + [reply], redact) == UsesOf(replies, redact) + LastUses(reply, redact)
  {
    hide LastUses;
    assert (replies + [reply])[..|replies|] == replies;
  }

  lemma RecordAtEnd(options: Options, initial: AgentState, st: AgentState, last: AgentState, calls: seq<ModelCall>, call: Option<ModelCall>, n: nat)
    requires AllReplied(calls) && Recorded(options, initial, st, UsesOf(RepliesOf(calls), options.redact))
    requires if call.Some? && call.value.answer.Replied?
             then n <= |LastUses(call.value.answer.reply, options.redact)|
                  && Recorded(options, st, last, LastUses(call.value.answer.reply, options.redact)[..n])
             else Recorded(options, st, last, [])
    ensures RecordedUpTo(options, initial, last, if call.Some? then calls + [call.value] else calls)
  {
    hide Recorded, LastUses, UsesOf;
    var all := if call.Some? then calls + [call.value] else calls;
    var before := UsesOf(RepliesOf(calls), options.redact);
    if call.Some? {
      assert all[..|calls|] == calls;
      if call.value.answer.Replied? {
        RecordedConcat(options, initial, st, last, before, LastUses(call.value.answer.reply, options.redact)[..n]);
      } else {
        RecordedConcat(options, initial, st, last, before, []);
        assert before + [] == before;
      }
      assert UsedUpTo(options, initial, last, all, n);
    } else {
      RecordedConcat(options, initial, st, last, before, []);
      assert before + [] == before;
      RecordAtHead(options, initial, last, calls);
    }
  }

  /** All uses recorded are the uses of the earlier calls and all those of the last. */
  lemma RecordAtHead(options: Options, initial: AgentState, st: AgentState, calls: seq<ModelCall>)
    requires AllReplied(calls) && Recorded(options, initial, st, UsesOf(RepliesOf(calls), options.redact))
    ensures RecordedUpTo(options, initial, st, calls)
  {
    hide Recorded, LastUses;
    if calls == [] {
      assert UsedUpTo(options, initial, st, calls, 0);
    } else {
      var k := |calls| - 1;
      assert AllReplied(calls[..k]) && calls[..k] + [calls[k]] == calls;
      RepliesNext(calls[..k], calls[k]);
      UsesNext(RepliesOf(calls[..k]), calls[k].answer.reply, options.redact);
      var last := LastUses(calls[k].answer.reply, options.redact);
      assert last[..|last|] == last;
      assert UsedUpTo(options, initial, st, calls, |last|);
    }
  }

  lemma {:induction false} LoopRecords(options: Options, env: Environment, initial: AgentState, st: AgentState, step: nat, messages: seq<Message>,
                                       lastText: string, calls: seq<ModelCall>, events: seq<Event>, contacts: seq<Contact>)
    requires KeepsTurnCount(env) && AllReplied(calls) && Recorded(options, initial, st, UsesOf(RepliesOf(calls), options.redact))
    requires RecordKept(env, LoopFrom(options, env, st, step, messages, lastText, calls, events, contacts).contacts)
    ensures var run := LoopFrom(options, env, st, step, messages, lastText, calls, events, contacts);
            RecordedUpTo(options, initial, run.state, run.calls)
    decreases options.maxTurns - st.turnCount
  {
    hide KeepsTurnCount, TurnStep, RedactContent, RepliesOf, Recorded, RecordKept, Failing, UsesOf, LastUses, RecordedUpTo;
    if st.turnCount >= options.maxTurns {
      RecordAtHead(options, initial, st, calls);
    } else {
      var counted := st.(turnCount := st.turnCount + 1);
      var t := TurnStep(options, env, counted, step, messages, lastText);
      TurnKeepsCount(options, env, counted, step, messages, lastText);
      SameRecord(options, initial, st, counted, UsesOf(RepliesOf(calls), options.redact));
      var heard, asked := events + ([TurnStart(st.turnCount + 1)] + t.closing.plain + t.closing.closing), contacts + t.closing.contacts;
      var all := LoopFrom(options, env, st, step, messages, lastText, calls, events, contacts).contacts;
      if t.closing.outcome.NextTurn? {
        NextTurnHasReply(options, env, counted, step, messages, lastText);
        var reply := t.call.value.answer.reply;
        var h := messages + [Message(Assistant, RedactContent(reply.content, options.redact))] + [t.closing.outcome.user];
        LoopKeepsContacts(options, env, t.closing.st, t.closing.step, h, t.lastText, calls + [t.call.value], heard, asked);
        assert all == asked + all[|asked|..];
        KeptConcat(env, asked, all[|asked|..]);
        KeptConcat(env, contacts, t.closing.contacts);
        var n := TurnRecords(options, env, counted, step, messages, lastText);
        var uses := LastUses(reply, options.redact);
        assert uses[..n] == uses;
        RecordedConcat(options, initial, counted, t.closing.st, UsesOf(RepliesOf(calls), options.redact), uses);
        RepliesNext(calls, t.call.value);
        UsesNext(RepliesOf(calls), reply, options.redact);
        LoopRecords(options, env, initial, t.closing.st, t.closing.step, h, t.lastText, calls + [t.call.value], heard, asked);
      } else {
        KeptConcat(env, contacts, t.closing.contacts);
        var n := TurnRecords(options, env, counted, step, messages, lastText);
        RecordAtEnd(options, initial, counted, t.closing.st, calls, t.call, n);
      }
    }
  }

  /** In every run whose hooks leave the record alone, the state counts and lists the tool uses in order, with redacted names
      and inputs: all of the earlier replies, and of the last reply those that were reached. */
  lemma EveryToolUseIsRecorded(options: Options, env: Environment, initial: AgentState)
    requires KeepsTurnCount(env) && RecordKept(env, WholeRun(options, env, initial).contacts)
    ensures var run := WholeRun(options, env, initial); RecordedUpTo(options, initial, run.state, run.calls)
  {
    hide LoopFrom, RecordKept, RecordedUpTo;
    NothingRecorded(options, initial);
    LoopRecords(options, env, initial, initial, 0, [Message(User, [Text(options.redact(options.userMessage))])], "", [], [], []);
  }

  // ---------------------------------------------------------------- the numbers of the contacts

  /** The contacts have the numbers from `from` up to but not including `to`. */
  predicate Counted(cs: seq<Contact>, from: nat, to: nat) {
    to == from + |cs| && forall i :: 0 <= i < |cs| ==> cs[i].n == from + i
  }

  lemma CountedConcat(a: seq<Contact>, b: seq<Contact>, from: nat, mid: nat, to: nat)
    requires Counted(a, from, mid) && Counted(b, mid, to)
    ensures Counted(a + b, from, to)
  {
    assert forall i :: 0 <= i < |a + b| ==> (a + b)[i] == if i < |a| then a[i] else b[i - |a|];
  }

  lemma {:induction false} EmissionCounted(env: Environment, step: nat, events: seq<Event>)
    ensures var m := EmitAll(env, step, events); Counted(m.contacts, step, m.step) && (events != [] ==> m.contacts != [])
  {
    if events != [] {
      var n := |events| - 1;
      EmissionCounted(env, step, events[..n]);
      var before := EmitAll(env, step, events[..n]);
      if before.ok {
        CountedConcat(before.contacts, [Emitted(before.step, events[n])], step, before.step, before.step + 1);
      } else {
        EmissionMeans(env, step, events[..n]);
        assert n > 0;
      }
    }
  }

  lemma ExecuteCounted(options: Options, env: Environment, st: AgentState, step: nat, use: Part)
    requires use.ToolUse?
    ensures var e := ExecuteStep(options, env, st, step, use); Counted(e.contacts, step, e.step)
  {
    var raw := Call(use.id, use.name, use.input);
    var run := env.execute(step, raw);
    var output := options.redact(if run.Done? then options.redact(run.output) else "Error: " + options.redact(run.message));
    var event := ResultEvent(options, use, output, run.Threw?);
    hide EmitAll, ResultEvent, RedactValue, TellStep;
    EmissionCounted(env, step + 1, [event]);
    var m := EmitAll(env, step + 1, [event]);
    CountedConcat([Executed(step, raw)], m.contacts, step, step + 1, m.step);
    if m.ok {
      TellCounted(options, env, st, m.step, use, output, run.Threw?);
      var t := TellStep(options, env, st, m.step, use, output, run.Threw?);
      CountedConcat([Executed(step, raw)] + m.contacts, t.contacts, step, m.step, t.step);
    }
  }

  lemma TellCounted(options: Options, env: Environment, st: AgentState, step: nat, use: Part, output: string, isError: bool)
    requires use.ToolUse?
    ensures var e := TellStep(options, env, st, step, use, output, isError); Counted(e.contacts, step, e.step)
  {
    hide RedactValue;
  }

  lemma ToolCounted(options: Options, env: Environment, st0: AgentState, step: nat, use: Part)
    requires use.ToolUse?
    ensures var e := ToolStep(options, env, st0, step, use); Counted(e.contacts, step, e.step)
  {
    var redact := options.redact;
    var call := Call(use.id, redact(use.name), RedactValue(use.input, redact));
    var st := st0.(toolCallCount := st0.toolCallCount + 1, toolHistory := st0.toolHistory + [Field(call.name, call.input)]);
    hide RedactValue, AnswerStep, ExecuteStep;
    if use.name !in options.tools {
      AnswerCounted(options, env, st, step, use, redact("Error: Unknown tool \"" + use.name + "\""));
    } else {
      match env.preTool(step, call, st) {
        case VerdictThrew =>
        case Verdict(false, inject, after) =>
          var output := redact(inject.GetOr("Tool call blocked by middleware."));
          AnswerCounted(options, env, after, step + 1, use, output);
          var e := AnswerStep(options, env, after, step + 1, use, output);
          CountedConcat([Asked(step, call, st)], e.contacts, step, step + 1, e.step);
        case Verdict(true, _, after) =>
          ExecuteCounted(options, env, after, step + 1, use);
          var e := ExecuteStep(options, env, after, step + 1, use);
          CountedConcat([Asked(step, call, st)], e.contacts, step, step + 1, e.step);
      }
    }
  }

  lemma AnswerCounted(options: Options, env: Environment, st: AgentState, step: nat, use: Part, output: string)
    requires use.ToolUse?
    ensures var e := AnswerStep(options, env, st, step, use, output); Counted(e.contacts, step, e.step)
  {
    EmissionCounted(env, step, [ResultEvent(options, use, output, true)]);
    hide EmitAll, ResultEvent;
  }

  lemma {:induction false} ToolsCounted(options: Options, env: Environment, st: AgentState, step: nat, toolCalls: seq<Part>)
    requires forall c :: c in toolCalls ==> c.ToolUse?
    ensures var e := ToolSteps(options, env, st, step, toolCalls); Counted(e.contacts, step, e.step)
  {
    hide ToolStep;
    if toolCalls != [] {
      var n := |toolCalls| - 1;
      assert toolCalls[n] in toolCalls && forall c :: c in toolCalls[..n] ==> c in toolCalls;
      ToolsCounted(options, env, st, step, toolCalls[..n]);
      var before := ToolSteps(options, env, st, step, toolCalls[..n]);
      if before.outcome.AllAnswered? {
        ToolCounted(options, env, before.st, before.step, toolCalls[n]);
        var one := ToolStep(options, env, before.st, before.step, toolCalls[n]);
        CountedConcat(before.contacts, one.contacts, step, before.step, one.step);
      }
    }
  }

  lemma SuccessCounted(options: Options, env: Environment, st: AgentState, step: nat, summary: string)
    ensures var e := Succeeding(options, env, st, step, summary); Counted(e.contacts, step, e.step)
  {
    EmissionCounted(env, step, [RedactEvent(Completed(summary), options.redact), TurnEnd(st.turnCount, st.tokenUsage)]);
    hide EmitAll, RedactEvent, ToResult;
  }

  lemma CompleteCounted(options: Options, env: Environment, st: AgentState, step: nat, lastText: string)
    ensures var e := CompleteStep(options, env, st, step, lastText); Counted(e.contacts, step, e.step)
  {
    hide EmitAll, RedactEvent, Succeeding;
    if env.preCompletion(step, st).Check? {
      var inject, after := env.preCompletion(step, st).inject, env.preCompletion(step, st).after;
      SuccessCounted(options, env, after, step + 1, lastText);
      if inject.GetOr("") != "" {
        EmissionCounted(env, step + 1, [RedactEvent(Injected(options.redact(inject.value)), options.redact),
                                        TurnEnd(after.turnCount, after.tokenUsage)]);
      }
      var e := CompleteStep(options, env, st, step, lastText);
      assert Counted(e.contacts[1..], step + 1, e.step);
      CountedConcat([Checked(step, st)], e.contacts[1..], step, step + 1, e.step);
      assert e.contacts == [Checked(step, st)] + e.contacts[1..];
    }
  }

  lemma UseToolsCounted(options: Options, env: Environment, st: AgentState, step: nat, toolCalls: seq<Part>)
    requires forall c :: c in toolCalls ==> c.ToolUse?
    ensures var e := UseToolsStep(options, env, st, step, toolCalls); Counted(e.contacts, step, e.step)
  {
    hide EmitAll, ToolSteps, Succeeding;
    ToolsCounted(options, env, st, step, toolCalls);
    var tools := ToolSteps(options, env, st, step, toolCalls);
    match tools.outcome {
      case SomeCallbackThrew =>
      case GaveUp(summary) =>
        SuccessCounted(options, env, tools.st, tools.step, summary);
        var end := Succeeding(options, env, tools.st, tools.step, summary);
        CountedConcat(tools.contacts, end.contacts, step, tools.step, end.step);
      case AllAnswered(results) =>
        var last := [TurnEnd(tools.st.turnCount, tools.st.tokenUsage)];
        EmissionCounted(env, tools.step, last);
        var m := EmitAll(env, tools.step, last);
        CountedConcat(tools.contacts, m.contacts, step, tools.step, m.step);
    }
  }

  lemma ReplyCounted(options: Options, env: Environment, st: AgentState, step: nat, reply: Reply, lastText: string)
    ensures var e := ReplyStep(options, env, st, step, reply, lastText); Counted(e.contacts, step, e.step)
  {
    hide EmitAll, RedactContent, Announced, LastText, CompleteStep, UseToolsStep;
    var said := RedactContent(reply.content, options.redact);
    var m := EmitAll(env, step, Announced(said, options.redact));
    EmissionCounted(env, step, Announced(said, options.redact));
    if m.ok {
      var toolCalls := ToolUses(said);
      ToolUsesAreUses(said);
      var end;
      if reply.stopReason == Some("end_turn") || toolCalls == [] {
        CompleteCounted(options, env, st, m.step, LastText(said, lastText));
        end := CompleteStep(options, env, st, m.step, LastText(said, lastText));
      } else {
        UseToolsCounted(options, env, st, m.step, toolCalls);
        end := UseToolsStep(options, env, st, m.step, toolCalls);
      }
      CountedConcat(m.contacts, end.contacts, step, m.step, end.step);
    }
  }

  lemma FailureCounted(options: Options, env: Environment, st: AgentState, step: nat, code: string, message: string, summary: string)
    ensures var e := Failing(options, env, st, step, code, message, summary); Counted(e.contacts, step, e.step)
  {
    EmissionCounted(env, step, [RedactEvent(Error(code, message), options.redact)]);
    hide EmitAll, RedactEvent, ToResult;
  }

  /** The contacts of a turn behind its start: at least one number later, as it is asked whether the run is cancelled, or two, if
      the model is called too. */
  lemma BodyCounted(options: Options, env: Environment, st: AgentState, step: nat, messages: seq<Message>, lastText: string)
    ensures var t := BodyStep(options, env, st, step, messages, lastText);
            Counted(t.closing.contacts, step + (if t.call.Some? then 2 else 1), t.closing.step)
  {
    hide EmitAll, Failing, ReplyStep, CalculateCost, RedactContent, LastText;
    if env.aborted(step) {
      FailureCounted(options, env, st, step + 1, "CANCELLED", "Run was cancelled", "Cancelled");
    } else {
      match env.generate(step + 1, messages) {
        case Failed(code, message) =>
          FailureCounted(options, env, st, step + 2, code, options.redact(message), options.redact(message));
        case Replied(reply) =>
          var spent := st.(tokenUsage := AddUsage(st.tokenUsage, reply.usage));
          FailureCounted(options, env, spent, step + 2, "BUDGET_EXCEEDED", "Budget exceeded", "Budget exceeded");
          ReplyCounted(options, env, spent, step + 2, reply, lastText);
      }
    }
  }

  predicate IsTurnStart(c: Contact) { c.Emitted? && c.event.TurnStart? }

  /** The number after that of the contact; behind the start of a turn one more for the question of cancellation, and one more for
      the model call. */
  predicate Follows(c: Contact, n: nat) {
    n == c.n + 1 || (IsTurnStart(c) && c.n + 2 <= n <= c.n + 3)
  }

  /** The contacts are numbered from zero on and `next` follows. */
  predicate Numbered(cs: seq<Contact>, next: nat) {
    && (forall i :: 0 < i < |cs| ==> Follows(cs[i - 1], cs[i].n))
    && if cs == [] then next == 0 else cs[0].n == 0 && Follows(cs[|cs| - 1], next)
  }

  lemma NumberedConcat(a: seq<Contact>, start: Contact, b: seq<Contact>, from: nat, to: nat)
    requires Numbered(a, start.n) && IsTurnStart(start) && start.n + 1 <= from <= start.n + 3 && Counted(b, from, to)
    ensures Numbered(a + [start] + b, to)
  {
    var all := a + [start] + b;
    forall i | 0 < i < |all| ensures Follows(all[i - 1], all[i].n) {
      if i < |a| {
        assert all[i - 1] == a[i - 1] && all[i] == a[i];
      } else if i == |a| {
        assert all[i - 1] == a[|a| - 1] && all[i] == start;
      } else {
        assert all[i] == b[i - |a| - 1] && all[i - 1] == if i == |a| + 1 then start else b[i - |a| - 2];
      }
    }
  }

  lemma TurnNumbered(options: Options, env: Environment, st: AgentState, step: nat, messages: seq<Message>, lastText: string, before: seq<Contact>)
    requires Numbered(before, step)
    ensures var t := TurnStep(options, env, st, step, messages, lastText).closing; Numbered(before + t.contacts, t.step)
  {
    hide BodyStep, Numbered, Counted;
    OneStart(env, step, st.turnCount);
    var start := Emitted(step, TurnStart(st.turnCount));
    NothingCounted(step + 1);
    NumberedConcat(before, start, [], step + 1, step + 1);
    assert before + [start] + [] == before + [start];
    var m := EmitAll(env, step, [TurnStart(st.turnCount)]);
    hide EmitAll;
    if m.ok {
      BodyCounted(options, env, st, m.step, messages, lastText);
      var t := BodyStep(options, env, st, m.step, messages, lastText);
      NumberedConcat(before, start, t.closing.contacts, m.step + (if t.call.Some? then 2 else 1), t.closing.step);
      assert before + [start] + t.closing.contacts == before + (m.contacts + t.closing.contacts);
    }
  }

  lemma NothingCounted(n: nat)
    ensures Counted([], n, n)
  {
  }

  lemma OneStart(env: Environment, step: nat, turn: nat)
    ensures var m := EmitAll(env, step, [TurnStart(turn)]);
            m.contacts == [Emitted(step, TurnStart(turn))] && m.step == step + 1
  {
    assert [TurnStart(turn)][..0] == [];
    assert EmitAll(env, step, []) == Emission(true, step, [], []);
  }

  lemma {:induction false} LoopNumbered(options: Options, env: Environment, st: AgentState, step: nat, messages: seq<Message>,
                                        lastText: string, calls: seq<ModelCall>, events: seq<Event>, contacts: seq<Contact>)
    requires KeepsTurnCount(env) && Numbered(contacts, step)
    ensures exists next :: Numbered(LoopFrom(options, env, st, step, messages, lastText, calls, events, contacts).contacts, next)
    decreases options.maxTurns - st.turnCount
  {
    hide KeepsTurnCount, TurnStep, RedactContent, Failing, Numbered;
    var run := LoopFrom(options, env, st, step, messages, lastText, calls, events, contacts);
    if st.turnCount >= options.maxTurns {
      var summary := if lastText != "" then lastText else "Max turns exceeded";
      FailureCounted(options, env, st, step, "MAX_TURNS_EXCEEDED", "Reached maximum turns", summary);
      var e := Failing(options, env, st, step, "MAX_TURNS_EXCEEDED", "Reached maximum turns", summary);
      CountedNumbered(contacts, e.contacts, step, e.step);
    } else {
      var counted := st.(turnCount := st.turnCount + 1);
      var t := TurnStep(options, env, counted, step, messages, lastText);
      TurnKeepsCount(options, env, counted, step, messages, lastText);
      TurnNumbered(options, env, counted, step, messages, lastText, contacts);
      if t.closing.outcome.NextTurn? {
        NextTurnHasReply(options, env, counted, step, messages, lastText);
        LoopNumbered(options, env, t.closing.st, t.closing.step,
                     messages + [Message(Assistant, RedactContent(t.call.value.answer.reply.content, options.redact))] + [t.closing.outcome.user],
                     t.lastText, calls + [t.call.value],
                     events + ([TurnStart(st.turnCount + 1)] + t.closing.plain + t.closing.closing), contacts + t.closing.contacts);
        assert exists next :: Numbered(run.contacts, next);
      } else {
        assert Numbered(run.contacts, t.closing.step);
      }
    }
  }

  lemma CountedNumbered(a: seq<Contact>, b: seq<Contact>, from: nat, to: nat)
    requires Numbered(a, from) && Counted(b, from, to)
    ensures Numbered(a + b, to)
  {
    var all := a + b;
    forall i | 0 < i < |all| ensures Follows(all[i - 1], all[i].n) {
      if i < |a| {
        assert all[i - 1] == a[i - 1] && all[i] == a[i];
      } else {
        assert all[i] == b[i - |a|] && all[i - 1] == if i == |a| then a[|a| - 1] else b[i - |a| - 1];
      }
    }
  }

  /** In every run the contacts are numbered in order, with room for the question of cancellation and the model call behind the
      start of a turn, so nobody is ever asked twice at one moment and every answer may differ from every other. */
  lemma EveryContactHasItsNumber(options: Options, env: Environment, initial: AgentState)
    requires KeepsTurnCount(env)
    ensures var cs := WholeRun(options, env, initial).contacts;
            && (cs != [] ==> cs[0].n == 0)
            && (forall i :: 0 < i < |cs| ==> Follows(cs[i - 1], cs[i].n))
            && (forall i, j :: 0 <= i < j < |cs| ==> cs[i].n < cs[j].n)
  {
    LoopNumbered(options, env, initial, 0, [Message(User, [Text(options.redact(options.userMessage))])], "", [], [], []);
    var cs := WholeRun(options, env, initial).contacts;
    hide LoopFrom, WholeRun;
    forall i, j | 0 <= i < j < |cs| ensures cs[i].n < cs[j].n {
      Rises(cs, i, j);
    }
  }

  lemma {:induction false} Rises(cs: seq<Contact>, i: nat, j: nat)
    requires i < j < |cs| && forall k :: 0 < k < |cs| ==> Follows(cs[k - 1], cs[k].n)
    ensures cs[i].n < cs[j].n
  {
    assert Follows(cs[j - 1], cs[j].n);
    if i < j - 1 {
      Rises(cs, i, j - 1);
    }
  }
}
