/**
 What a transcript says, in terms of the raw SDK messages alone: its responses, tool calls, tool
 results and notices, each with every field.
 */
module TranscriptFacts {
  import opened Wrappers
  import opened Transcriber

  predicate IsToolResult(e: Event) { e.ToolResult? }
  predicate IsNotice(e: Event) { e.SdkMessage? }
  predicate IsResponse(e: Event) { e.Response? }

  // ---------------------------------------------------------------- raw material

  /** The tool use blocks among raw blocks, in order. */
  function UsesIn(raw: seq<RawBlock>): seq<RawBlock> {
    if raw == [] then []
    else UsesIn(raw[..|raw| - 1]) + (if raw[|raw| - 1].RawToolUse? then [raw[|raw| - 1]] else [])
  }

  /** The tool use blocks of the assistant frames among the messages, in order. */
  function RawUses(ms: seq<Message>): seq<RawBlock> {
    if ms == [] then []
    else RawUses(ms[..|ms| - 1]) + (if ms[|ms| - 1].Assistant? then UsesIn(ms[|ms| - 1].content) else [])
  }

  /** A tool result block and the number of the message it is in. */
  datatype Found = Found(n: nat, block: UserBlock)

  function BlocksIn(n: nat, blocks: seq<UserBlock>): seq<Found> {
    if blocks == [] then []
    else BlocksIn(n, blocks[..|blocks| - 1])
         + (if blocks[|blocks| - 1].ToolResultBlock? then [Found(n, blocks[|blocks| - 1])] else [])
  }

  /** The tool result blocks of the user messages, in order. */
  function ResultBlocks(ms: seq<Message>): seq<Found> {
    if ms == [] then []
    else ResultBlocks(ms[..|ms| - 1]) + (if ms[|ms| - 1].User? then BlocksIn(|ms| - 1, ms[|ms| - 1].blocks) else [])
  }

  /** The name that the latest of the uses gives to an id; empty if none has it. */
  ghost predicate IsNameOf(uses: seq<RawBlock>, id: string, name: string) {
    || (name == "" && forall k :: 0 <= k < |uses| && uses[k].RawToolUse? ==> uses[k].id != id)
    || exists k :: 0 <= k < |uses| && uses[k].RawToolUse? && uses[k].id == id && uses[k].name == name
                   && forall j :: k < j < |uses| && uses[j].RawToolUse? ==> uses[j].id != id
  }

  // ---------------------------------------------------------------- tool calls

  ghost predicate CallsFit(uses: seq<RawBlock>, calls: seq<Event>) {
    && |calls| == |uses|
    && forall k :: 0 <= k < |uses| ==> uses[k].RawToolUse? && calls[k] == ToolCall(uses[k].id, uses[k].name, uses[k].input)
  }

  lemma CallsFitConcat(u1: seq<RawBlock>, c1: seq<Event>, u2: seq<RawBlock>, c2: seq<Event>)
    requires CallsFit(u1, c1) && CallsFit(u2, c2)
    ensures CallsFit(u1 + u2, c1 + c2)
  {
  }

  lemma {:induction false} BlockCallsFit(raw: seq<RawBlock>)
    ensures CallsFit(UsesIn(raw), ToolCalls(ContentBlocks(raw)))
  {
    if raw != [] {
      var rest, last := raw[..|raw| - 1], raw[|raw| - 1];
      BlockCallsFit(rest);
      ToolCallsConcat(ContentBlocks(rest), Normalize(last));
      OneBlockFits(last);
      CallsFitConcat(UsesIn(rest), ToolCalls(ContentBlocks(rest)), if last.RawToolUse? then [last] else [], ToolCalls(Normalize(last)));
    }
  }

  lemma OneBlockFits(raw: RawBlock)
    ensures CallsFit(if raw.RawToolUse? then [raw] else [], ToolCalls(Normalize(raw)))
  {
    if raw.RawUnknown? {
      assert Normalize(raw) == [];
    } else {
      assert Normalize(raw)[..0] == [];
      assert ToolCalls(Normalize(raw)[..0]) == [];
    }
  }

  lemma {:induction false} MessageCallsFit(ms: seq<Message>)
    ensures CallsFit(RawUses(ms), ToolCalls(ContentOf(ms)))
  {
    if ms != [] {
      var rest, last := ms[..|ms| - 1], ms[|ms| - 1];
      MessageCallsFit(rest);
      if last.Assistant? {
        BlockCallsFit(last.content);
        ToolCallsConcat(ContentOf(rest), ContentBlocks(last.content));
        CallsFitConcat(RawUses(rest), ToolCalls(ContentOf(rest)), UsesIn(last.content), ToolCalls(ContentBlocks(last.content)));
      } else {
        assert ContentOf(ms) == ContentOf(rest) && RawUses(ms) == RawUses(rest);
      }
    }
  }

  /** The tool calls of a transcript are the tool use blocks of its frames: as many, in order, each with its id, name and
      input. */
  lemma CallsAreTheUses(ms: seq<Message>)
    ensures CallsFit(RawUses(ms), Keep(Transcript(ms, 0), IsCall))
  {
    ToolCallsKeepOrder(ms, 0);
    MessageCallsFit(ms);
    assert ms[0..|ms|] == ms;
  }

  // ---------------------------------------------------------------- tool results

  ghost predicate ResultFits(ms: seq<Message>, f: Found, e: Event) {
    && f.n < |ms| && f.block.ToolResultBlock? && e.ToolResult?
    && e.id == f.block.toolUseId && e.output == f.block.output && e.isError == f.block.isError
    && IsNameOf(RawUses(ms[..f.n]), e.id, e.name)
  }

  ghost predicate ResultsFit(ms: seq<Message>, found: seq<Found>, results: seq<Event>) {
    |results| == |found| && forall k :: 0 <= k < |found| ==> ResultFits(ms, found[k], results[k])
  }

  lemma ResultsFitConcat(ms: seq<Message>, f1: seq<Found>, r1: seq<Event>, f2: seq<Found>, r2: seq<Event>)
    requires ResultsFit(ms, f1, r1) && ResultsFit(ms, f2, r2)
    ensures ResultsFit(ms, f1 + f2, r1 + r2)
  {
    hide ResultFits;
  }

  lemma UseNames(uses: seq<RawBlock>, use: RawBlock, id: string, name: string)
    requires use.RawToolUse? && (if id == use.id then name == use.name else IsNameOf(uses, id, name))
    ensures IsNameOf(uses + [use], id, name)
  {
    var all := uses + [use];
    if id == use.id {
      assert all[|uses|] == RawToolUse(id, name, use.input);
    } else if k :| 0 <= k < |uses| && uses[k].RawToolUse? && uses[k].id == id && uses[k].name == name
                   && forall j :: k < j < |uses| && uses[j].RawToolUse? ==> uses[j].id != id {
      assert all[k] == uses[k];
    }
  }

  lemma {:induction false} BlockNames(names: map<string, string>, before: seq<RawBlock>, raw: seq<RawBlock>, id: string)
    requires IsNameOf(before, id, Named(names, id))
    ensures IsNameOf(before + UsesIn(raw), id, Named(Learn(names, ContentBlocks(raw)), id))
  {
    hide IsNameOf, Learn, ContentBlocks;
    if raw == [] {
      assert before + UsesIn(raw) == before;
      NothingLearnt(names);
    } else {
      var rest, last := raw[..|raw| - 1], raw[|raw| - 1];
      BlockNames(names, before, rest, id);
      LearnBlock(names, rest, last);
      assert raw == rest + [last];
      if last.RawToolUse? {
        UseNames(before + UsesIn(rest), last, id, Named(Learn(names, ContentBlocks(raw)), id));
        assert before + UsesIn(raw) == (before + UsesIn(rest)) + [last];
      } else {
        assert UsesIn(raw) == UsesIn(rest);
      }
    }
  }

  lemma NothingLearnt(names: map<string, string>)
    ensures Learn(names, ContentBlocks([])) == names
  {
  }

  lemma LearnBlock(names: map<string, string>, rest: seq<RawBlock>, last: RawBlock)
    ensures Learn(names, ContentBlocks(rest + [last])) ==
            var before := Learn(names, ContentBlocks(rest)); if last.RawToolUse? then before[last.id := last.name] else before
  {
    assert (rest + [last])[..|rest|] == rest;
    if last.RawUnknown? {
      assert ContentBlocks(rest + [last]) == ContentBlocks(rest);
    } else {
      LearnLast(names, ContentBlocks(rest), Normalize(last)[0]);
    }
  }

  lemma LearnLast(names: map<string, string>, content: seq<ContentBlock>, last: ContentBlock)
    ensures Learn(names, content + [last]) ==
            if last.ToolUse? then Learn(names, content)[last.id := last.name] else Learn(names, content)
  {
    assert (content + [last])[..|content|] == content;
  }

  lemma {:induction false} MessageNames(ms: seq<Message>, id: string)
    ensures IsNameOf(RawUses(ms), id, Named(NamesIn(ms), id))
  {
    if ms != [] {
      var rest, last := ms[..|ms| - 1], ms[|ms| - 1];
      MessageNames(rest, id);
      if last.Assistant? {
        BlockNames(NamesIn(rest), RawUses(rest), last.content, id);
      } else {
        assert RawUses(ms) == RawUses(rest);
      }
    }
  }

  lemma {:induction false} UserResultsFit(ms: seq<Message>, n: nat, blocks: seq<UserBlock>)
    requires n < |ms|
    ensures ResultsFit(ms, BlocksIn(n, blocks), ToolResults(NamesIn(ms[..n]), blocks))
  {
    if blocks != [] {
      var rest, last := blocks[..|blocks| - 1], blocks[|blocks| - 1];
      UserResultsFit(ms, n, rest);
      hide IsNameOf;
      if last.ToolResultBlock? {
        MessageNames(ms[..n], last.toolUseId);
        var e := ToolResult(last.toolUseId, Named(NamesIn(ms[..n]), last.toolUseId), last.output, last.isError);
        assert ResultsFit(ms, [Found(n, last)], [e]);
        ResultsFitConcat(ms, BlocksIn(n, rest), ToolResults(NamesIn(ms[..n]), rest), [Found(n, last)], [e]);
      } else {
        assert BlocksIn(n, blocks) == BlocksIn(n, rest);
        assert ToolResults(NamesIn(ms[..n]), blocks) == ToolResults(NamesIn(ms[..n]), rest);
      }
    }
  }

  lemma {:induction false} HeldResultsFit(ms: seq<Message>, n: nat)
    requires n <= |ms|
    ensures ResultsFit(ms, ResultBlocks(ms[..n]), Keep(EventsIn(ms, 0, n), IsToolResult))
  {
    if n == 0 {
      assert EventsIn(ms, 0, 0) == [];
    } else {
      var k := n - 1;
      HeldResultsFit(ms, k);
      assert ms[..n][..k] == ms[..k];
      KeepConcat(EventsIn(ms, 0, k), EventsAt(ms, k), IsToolResult);
      if ms[k].User? {
        UserResultsFit(ms, k, ms[k].blocks);
        ToolResultsAreOther(NamesIn(ms[..k]), ms[k].blocks);
        KeepAll(EventsAt(ms, k), IsToolResult);
        hide ResultsFit, ResultBlocks, EventsIn, Keep;
        ResultsFitConcat(ms, ResultBlocks(ms[..k]), Keep(EventsIn(ms, 0, k), IsToolResult), BlocksIn(k, ms[k].blocks), EventsAt(ms, k));
        BlocksOfUser(ms, k);
        EventsInNext(ms, k);
      } else {
        KeepNone(EventsAt(ms, k), IsToolResult);
        assert ResultBlocks(ms[..n]) == ResultBlocks(ms[..k]);
      }
    }
  }

  lemma BlocksOfUser(ms: seq<Message>, k: nat)
    requires k < |ms| && ms[k].User?
    ensures ResultBlocks(ms[..k + 1]) == ResultBlocks(ms[..k]) + BlocksIn(k, ms[k].blocks)
  {
    assert ms[..k + 1][..k] == ms[..k];
  }

  lemma EventsInNext(ms: seq<Message>, k: nat)
    requires k < |ms|
    ensures EventsIn(ms, 0, k + 1) == EventsIn(ms, 0, k) + EventsAt(ms, k)
  {
  }

  /** Keeping less of what was kept. */
  lemma {:induction false} KeepTwice(evs: seq<Event>, p: Event -> bool, q: Event -> bool)
    requires forall e :: q(e) ==> p(e)
    ensures Keep(Keep(evs, p), q) == Keep(evs, q)
  {
    if evs != [] {
      KeepTwice(evs[1..], p, q);
      KeepConcat(if p(evs[0]) then [evs[0]] else [], Keep(evs[1..], p), q);
      if p(evs[0]) {
        assert [evs[0]][1..] == [];
        assert Keep([evs[0]], q) == if q(evs[0]) then [evs[0]] else [];
      } else {
        assert Keep([], q) == [];
      }
    }
  }

  /** The tool results of a transcript are the tool result blocks of the user messages: as many, in order, each with its id,
      output and error flag, and named by the latest tool use before it. */
  lemma ResultsAreTheBlocks(ms: seq<Message>)
    ensures ResultsFit(ms, ResultBlocks(ms), Keep(Transcript(ms, 0), IsToolResult))
  {
    OtherEventsKeepOrder(ms, 0);
    KeepTwice(Transcript(ms, 0), IsOther, IsToolResult);
    HeldResultsFit(ms, |ms|);
    assert ms[..|ms|] == ms;
  }

  // ---------------------------------------------------------------- notices

  /** The messages that are neither frames nor user messages. */
  function Notices(ms: seq<Message>): seq<Message> {
    if ms == [] then []
    else
      var last := ms[|ms| - 1];
      Notices(ms[..|ms| - 1]) + (if last.Result? || last.Notice? then [last] else [])
  }

  ghost predicate NoticesFit(notices: seq<Message>, events: seq<Event>) {
    |events| == |notices| && forall k :: 0 <= k < |notices| ==> events[k] == SdkMessage(notices[k])
  }

  lemma {:induction false} HeldNoticesFit(ms: seq<Message>, n: nat)
    requires n <= |ms|
    ensures NoticesFit(Notices(ms[..n]), Keep(EventsIn(ms, 0, n), IsNotice))
  {
    if n == 0 {
      assert EventsIn(ms, 0, 0) == [];
    } else {
      var k := n - 1;
      HeldNoticesFit(ms, k);
      assert ms[..n][..k] == ms[..k];
      KeepConcat(EventsIn(ms, 0, k), EventsAt(ms, k), IsNotice);
      EventsInNext(ms, k);
      if ms[k].User? {
        ToolResultsAreOther(NamesIn(ms[..k]), ms[k].blocks);
        KeepNone(EventsAt(ms, k), IsNotice);
      } else if ms[k].Assistant? {
        assert EventsAt(ms, k) == [];
      } else {
        KeepAll(EventsAt(ms, k), IsNotice);
      }
    }
  }

  /** The other events of a transcript are the result messages and notices, unchanged and in order. */
  lemma NoticesAreTheMessages(ms: seq<Message>)
    ensures NoticesFit(Notices(ms), Keep(Transcript(ms, 0), IsNotice))
  {
    OtherEventsKeepOrder(ms, 0);
    KeepTwice(Transcript(ms, 0), IsOther, IsNotice);
    HeldNoticesFit(ms, |ms|);
    assert ms[..|ms|] == ms;
  }

  // ---------------------------------------------------------------- responses

  /** Messages `from` up to `to`, past `from`, are part of one response: no result message, and no frame of another id. */
  ghost predicate Unbroken(ms: seq<Message>, id: string, from: nat, to: nat) {
    forall k :: from < k < to && k < |ms| ==> !ms[k].Result? && (ms[k].Assistant? ==> ms[k].id == id)
  }

  /** The frame `i` is the first of its response: no earlier frame of its id reaches it. */
  ghost predicate Opens(ms: seq<Message>, i: nat) {
    && i < |ms| && ms[i].Assistant?
    && forall j :: 0 <= j < i && ms[j].Assistant? && ms[j].id == ms[i].id ==> !Unbroken(ms, ms[i].id, j, i)
  }

  /** The frames that open a response, from `i` on, in order. */
  ghost function Openings(ms: seq<Message>, i: nat): seq<nat>
    requires i <= |ms|
    decreases |ms| - i
  {
    if i == |ms| then [] else (if Opens(ms, i) then [i] else []) + Openings(ms, i + 1)
  }

  /** The response that frame `i` opens is over before `e`: the messages end there or the next one breaks it. */
  ghost predicate Ends(ms: seq<Message>, i: nat, e: nat)
    requires i < |ms| && ms[i].Assistant?
  {
    && i < e <= |ms| && Unbroken(ms, ms[i].id, i, e)
    && (e < |ms| ==> ms[e].Result? || (ms[e].Assistant? && ms[e].id != ms[i].id))
  }

  /** The frames among the messages. */
  function Frames(ms: seq<Message>): seq<Message> {
    if ms == [] then [] else Frames(ms[..|ms| - 1]) + (if ms[|ms| - 1].Assistant? then [ms[|ms| - 1]] else [])
  }

  /** The blocks of known types, in order. */
  function KnownBlocks(raw: seq<RawBlock>): seq<RawBlock> {
    if raw == [] then []
    else KnownBlocks(raw[..|raw| - 1]) + (if raw[|raw| - 1].RawUnknown? then [] else [raw[|raw| - 1]])
  }

  function RawContent(frames: seq<Message>): seq<RawBlock> {
    if frames == [] then []
    else
      RawContent(frames[..|frames| - 1])
      + (if frames[|frames| - 1].Assistant? then KnownBlocks(frames[|frames| - 1].content) else [])
  }

  ghost predicate BlockFits(raw: RawBlock, block: ContentBlock) {
    match raw
    case RawText(text) => block == Text(text)
    case RawToolUse(id, name, input) => block == ToolUse(id, name, input)
    case RawThinking(None) => block == Thinking("", true)
    case RawThinking(Some(text)) => block == Thinking(text, text == "")
    case RawRedactedThinking => block == Thinking("", true)
    case RawUnknown => false
  }

  ghost predicate ContentFits(raw: seq<RawBlock>, content: seq<ContentBlock>) {
    |content| == |raw| && forall k :: 0 <= k < |raw| ==> BlockFits(raw[k], content[k])
  }

  lemma ContentFitsConcat(r1: seq<RawBlock>, c1: seq<ContentBlock>, r2: seq<RawBlock>, c2: seq<ContentBlock>)
    requires ContentFits(r1, c1) && ContentFits(r2, c2)
    ensures ContentFits(r1 + r2, c1 + c2)
  {
    hide BlockFits;
  }

  lemma {:induction false} BlocksContentFits(raw: seq<RawBlock>)
    ensures ContentFits(KnownBlocks(raw), ContentBlocks(raw))
  {
    if raw != [] {
      var rest, last := raw[..|raw| - 1], raw[|raw| - 1];
      BlocksContentFits(rest);
      ContentFitsConcat(KnownBlocks(rest), ContentBlocks(rest), if last.RawUnknown? then [] else [last], Normalize(last));
    }
  }

  lemma {:induction false} RunContentFits(run: seq<Message>)
    ensures ContentFits(RawContent(Frames(run)), ContentOf(run))
  {
    if run != [] {
      var rest, last := run[..|run| - 1], run[|run| - 1];
      RunContentFits(rest);
      if last.Assistant? {
        assert Frames(run)[..|Frames(run)| - 1] == Frames(rest);
        BlocksContentFits(last.content);
        ContentFitsConcat(RawContent(Frames(rest)), ContentOf(rest), KnownBlocks(last.content), ContentBlocks(last.content));
      } else {
        assert Frames(run) == Frames(rest);
      }
    }
  }

  /** What a raw number counts: itself if it is a positive number, nothing otherwise. */
  function Counted(n: RawNumber): nat {
    match n case Finite(v) => if v > 0 then v else 0 case _ => 0
  }

  /** `n` is the greatest count of a field over the frames, zero without frames. */
  ghost predicate IsGreatest(frames: seq<Message>, field: RawUsage -> RawNumber, n: nat) {
    && (forall k :: 0 <= k < |frames| && frames[k].Assistant? ==> Counted(field(frames[k].usage)) <= n)
    && (n == 0 || exists k :: 0 <= k < |frames| && frames[k].Assistant? && Counted(field(frames[k].usage)) == n)
  }

  ghost predicate UsageFits(frames: seq<Message>, u: RunUsage) {
    && IsGreatest(frames, (r: RawUsage) => r.input, u.input) && IsGreatest(frames, (r: RawUsage) => r.output, u.output)
    && IsGreatest(frames, (r: RawUsage) => r.cacheRead, u.cacheRead)
    && IsGreatest(frames, (r: RawUsage) => r.cacheWrite, u.cacheWrite)
    && (u.thinking.Some? <==> exists k :: 0 <= k < |frames| && frames[k].Assistant? && !frames[k].usage.thinking.NotNumber?)
    && (u.thinking.Some? ==> IsGreatest(frames, (r: RawUsage) => r.thinking, u.thinking.value))
  }

  lemma GreatestNext(frames: seq<Message>, field: RawUsage -> RawNumber, n: nat, f: Message, m: nat)
    requires IsGreatest(frames, field, n) && f.Assistant? && m == if n >= Counted(field(f.usage)) then n else Counted(field(f.usage))
    ensures IsGreatest(frames + [f], field, m)
  {
    var all := frames + [f];
    assert all[|frames|] == f;
    if m == n && n > 0 {
      var k :| 0 <= k < |frames| && frames[k].Assistant? && Counted(field(frames[k].usage)) == n;
      assert all[k] == frames[k];
    }
  }

  /** No reported thinking counts as nothing. */
  lemma NoThinking(frames: seq<Message>)
    requires forall k :: 0 <= k < |frames| && frames[k].Assistant? ==> frames[k].usage.thinking.NotNumber?
    ensures IsGreatest(frames, (r: RawUsage) => r.thinking, 0)
  {
  }

  lemma UsageFitsNext(frames: seq<Message>, u: RunUsage, f: Message)
    requires UsageFits(frames, u) && f.Assistant?
    ensures UsageFits(frames + [f], MaxUsage(u, UsageFromProvider(f.usage)))
  {
    var v := MaxUsage(u, UsageFromProvider(f.usage));
    GreatestNext(frames, (r: RawUsage) => r.input, u.input, f, v.input);
    GreatestNext(frames, (r: RawUsage) => r.output, u.output, f, v.output);
    GreatestNext(frames, (r: RawUsage) => r.cacheRead, u.cacheRead, f, v.cacheRead);
    GreatestNext(frames, (r: RawUsage) => r.cacheWrite, u.cacheWrite, f, v.cacheWrite);
    ThinkingFitsNext(frames, u, f);
  }

  lemma ThinkingFitsNext(frames: seq<Message>, u: RunUsage, f: Message)
    requires UsageFits(frames, u) && f.Assistant?
    ensures var v := MaxUsage(u, UsageFromProvider(f.usage));
            && (v.thinking.Some? <==>
                  exists k :: 0 <= k < |frames + [f]| && (frames + [f])[k].Assistant? && !(frames + [f])[k].usage.thinking.NotNumber?)
            && (v.thinking.Some? ==> IsGreatest(frames + [f], (r: RawUsage) => r.thinking, v.thinking.value))
  {
    var v := MaxUsage(u, UsageFromProvider(f.usage));
    var all := frames + [f];
    assert all[|frames|] == f;
    if u.thinking.Some? {
      var k :| 0 <= k < |frames| && frames[k].Assistant? && !frames[k].usage.thinking.NotNumber?;
      assert all[k] == frames[k];
      GreatestNext(frames, (r: RawUsage) => r.thinking, u.thinking.value, f, v.thinking.value);
    } else {
      NoThinking(frames);
      assert forall k :: 0 <= k < |frames| ==> all[k] == frames[k];
      if v.thinking.Some? {
        GreatestNext(frames, (r: RawUsage) => r.thinking, 0, f, v.thinking.value);
      }
    }
  }

  lemma {:induction false} RunUsageFits(run: seq<Message>)
    ensures UsageFits(Frames(run), UsageOf(run))
  {
    if run != [] {
      var rest, last := run[..|run| - 1], run[|run| - 1];
      RunUsageFits(rest);
      if last.Assistant? {
        UsageFitsNext(Frames(rest), UsageOf(rest), last);
      } else {
        assert Frames(run) == Frames(rest);
      }
    }
  }

  /** The first request id that a frame carries, if one does. */
  ghost predicate RequestFits(frames: seq<Message>, id: Option<string>) {
    match id
    case None => forall k :: 0 <= k < |frames| && frames[k].Assistant? ==> frames[k].requestId == None
    case Some(_) => exists k :: 0 <= k < |frames| && frames[k].Assistant? && frames[k].requestId == id
                      && forall j :: 0 <= j < k && frames[j].Assistant? ==> frames[j].requestId == None
  }

  lemma {:induction false} RunRequestFits(run: seq<Message>)
    ensures RequestFits(Frames(run), RequestIn(run))
  {
    if run != [] {
      var rest, last := run[..|run| - 1], run[|run| - 1];
      RunRequestFits(rest);
      assert run == rest + [last];
      RequestInSnoc(rest, last);
      if last.Assistant? {
        RequestNext(Frames(rest), RequestIn(rest), last);
      } else {
        assert Frames(run) == Frames(rest);
      }
    }
  }

  lemma RequestNext(frames: seq<Message>, id: Option<string>, f: Message)
    requires RequestFits(frames, id) && f.Assistant?
    ensures RequestFits(frames + [f], if id.Some? then id else f.requestId)
  {
    var all := frames + [f];
    assert all[|frames|] == f;
    if id.Some? {
      var k :| 0 <= k < |frames| && frames[k].Assistant? && frames[k].requestId == id
               && forall j :: 0 <= j < k && frames[j].Assistant? ==> frames[j].requestId == None;
      assert all[k] == frames[k];
    }
  }

  /** What a frame says about why it stopped. */
  function OwnStop(f: Message): Option<string>
    requires f.Assistant?
  {
    if f.stopReason.Some? then f.stopReason else if f.hitOutputLimit then Some("max_tokens") else None
  }

  /** The stop reason of a response: the last one its frames give; else that of the result message that ends it; else
      tool_use if another response follows and it used a tool; else none. */
  ghost predicate StopFits(ms: seq<Message>, frames: seq<Message>, e: nat, stop: Option<string>)
    requires e <= |ms|
  {
    if exists k :: 0 <= k < |frames| && frames[k].Assistant? && OwnStop(frames[k]).Some?
    then exists k :: 0 <= k < |frames| && frames[k].Assistant? && stop.Some? && OwnStop(frames[k]) == stop
                     && forall j :: k < j < |frames| && frames[j].Assistant? ==> OwnStop(frames[j]) == None
    else if e < |ms| && ms[e].Result? then stop == ms[e].resultStop
    else if e < |ms| && exists b :: b in RawContent(frames) && b.RawToolUse? then stop == Some("tool_use")
    else stop == None
  }

  /** The last stop reason among frames. */
  ghost predicate OwnStopFits(frames: seq<Message>, stop: Option<string>) {
    match stop
    case None => forall k :: 0 <= k < |frames| && frames[k].Assistant? ==> OwnStop(frames[k]) == None
    case Some(_) => exists k :: 0 <= k < |frames| && frames[k].Assistant? && OwnStop(frames[k]) == stop
                      && forall j :: k < j < |frames| && frames[j].Assistant? ==> OwnStop(frames[j]) == None
  }

  lemma OwnStopNext(frames: seq<Message>, stop: Option<string>, f: Message)
    requires OwnStopFits(frames, stop) && f.Assistant?
    ensures OwnStopFits(frames + [f], if OwnStop(f).Some? then OwnStop(f) else stop)
  {
    var all := frames + [f];
    assert all[|frames|] == f;
    if OwnStop(f).None? && stop.Some? {
      var k :| 0 <= k < |frames| && frames[k].Assistant? && OwnStop(frames[k]) == stop
               && forall j :: k < j < |frames| && frames[j].Assistant? ==> OwnStop(frames[j]) == None;
      assert all[k] == frames[k];
    }
  }

  lemma {:induction false} RunStopFits(run: seq<Message>)
    ensures OwnStopFits(Frames(run), StopIn(run))
  {
    if run != [] {
      var rest, last := run[..|run| - 1], run[|run| - 1];
      RunStopFits(rest);
      if last.Assistant? {
        OwnStopNext(Frames(rest), StopIn(rest), last);
      } else {
        assert Frames(run) == Frames(rest);
      }
    }
  }

  lemma UsesAreAsked(raw: seq<RawBlock>, content: seq<ContentBlock>)
    requires ContentFits(raw, content)
    ensures AsksForTools(content) <==> exists b :: b in raw && b.RawToolUse?
  {
    if b :| b in raw && b.RawToolUse? {
      var k :| 0 <= k < |raw| && raw[k] == b;
      assert content[k] in content && content[k].ToolUse?;
    }
    if c :| c in content && c.ToolUse? {
      var k :| 0 <= k < |content| && content[k] == c;
      assert raw[k] in raw && raw[k].RawToolUse?;
    }
  }

  /** Every field of a response, from the frames of its run. */
  ghost predicate ResponseFits(ms: seq<Message>, i: nat, r: Event)
    requires i < |ms| && ms[i].Assistant?
  {
    exists e :: Ends(ms, i, e) && FieldsFit(ms, i, e, r)
  }

  ghost predicate FieldsFit(ms: seq<Message>, i: nat, e: nat, r: Event)
    requires i < e <= |ms| && ms[i].Assistant?
  {
    var frames := Frames(ms[i..e]);
    && r.Response? && r.model == ms[i].model && r.messageId == ms[i].id
    && ContentFits(RawContent(frames), r.content) && UsageFits(frames, r.usage)
    && RequestFits(frames, r.requestId) && StopFits(ms, frames, e, r.stopReason)
  }

  lemma RunFits(ms: seq<Message>, i: nat, e: nat)
    requires i < e <= |ms| && ms[i].Assistant? && Ends(ms, i, e)
    ensures RunEvents(ms, i, e) != [] && FieldsFit(ms, i, e, RunEvents(ms, i, e)[0])
  {
    var run := ms[i..e];
    RunContentFits(run);
    RunUsageFits(run);
    RunRequestFits(run);
    RunStopFits(run);
    UsesAreAsked(RawContent(Frames(run)), ContentOf(run));
    hide ContentFits, UsageFits, RequestFits, ContentOf, UsageOf, RequestIn, StopIn, Frames, RawContent, AsksForTools, ToolCalls,
         EventsIn, OwnStop;
  }

  lemma RunEndEnds(ms: seq<Message>, i: nat)
    requires i < |ms| && ms[i].Assistant?
    ensures Ends(ms, i, RunEnd(ms, ms[i].id, i + 1))
  {
    hide RunEnd;
  }

  // ---------------------------------------------------------------- the whole transcript

  /** No response that is open in front of `i` reaches a frame from `i` on. */
  ghost predicate Boundary(ms: seq<Message>, i: nat) {
    forall j, k :: 0 <= j < i <= k < |ms| && ms[j].Assistant? && ms[k].Assistant? && ms[j].id == ms[k].id ==>
      !Unbroken(ms, ms[k].id, j, k)
  }

  lemma EndIsBoundary(ms: seq<Message>, i: nat, e: nat)
    requires i < |ms| && ms[i].Assistant? && Boundary(ms, i) && Ends(ms, i, e)
    ensures Boundary(ms, e)
  {
    forall j, k | 0 <= j < e <= k < |ms| && ms[j].Assistant? && ms[k].Assistant? && ms[j].id == ms[k].id
      ensures !Unbroken(ms, ms[k].id, j, k)
    {
      if i <= j {
        assert ms[j].id == ms[i].id;
        assert k != e;
      }
    }
  }

  lemma {:induction false} OpeningsSkip(ms: seq<Message>, i: nat, k: nat, e: nat)
    requires i < k <= e <= |ms| && ms[i].Assistant? && Ends(ms, i, e)
    ensures Openings(ms, k) == Openings(ms, e)
    decreases e - k
  {
    if k < e {
      OpeningsSkip(ms, i, k + 1, e);
      assert Unbroken(ms, ms[i].id, i, k);
      assert !Opens(ms, k);
    }
  }

  ghost predicate ResponsesFit(ms: seq<Message>, openings: seq<nat>, responses: seq<Event>) {
    && |responses| == |openings|
    && forall k :: 0 <= k < |openings| ==>
         openings[k] < |ms| && ms[openings[k]].Assistant? && ResponseFits(ms, openings[k], responses[k])
  }

  lemma {:induction false} RestOfResponses(ms: seq<Message>, i: nat)
    requires i <= |ms| && Boundary(ms, i)
    ensures ResponsesFit(ms, Openings(ms, i), Keep(Transcript(ms, i), IsResponse))
    decreases |ms| - i
  {
    hide *;
    if i == |ms| {
      NothingLeft(ms);
    } else if ms[i].Assistant? {
      RunEndEnds(ms, i);
      var e := RunEnd(ms, ms[i].id, i + 1);
      EndIsLater(ms, i, e);
      EndIsBoundary(ms, i, e);
      RestOfResponses(ms, e);
      RunThenRest(ms, i, e);
    } else {
      NextIsBoundary(ms, i);
      RestOfResponses(ms, i + 1);
      OthersAreNoResponses(ms, i);
      TranscriptUnfolds(ms, i);
      KeepConcat(EventsAt(ms, i), Transcript(ms, i + 1), IsResponse);
      assert [] + Keep(Transcript(ms, i + 1), IsResponse) == Keep(Transcript(ms, i + 1), IsResponse);
    }
  }

  lemma NothingLeft(ms: seq<Message>)
    ensures ResponsesFit(ms, Openings(ms, |ms|), Keep(Transcript(ms, |ms|), IsResponse))
  {
  }

  lemma EndIsLater(ms: seq<Message>, i: nat, e: nat)
    requires i < |ms| && ms[i].Assistant? && Ends(ms, i, e)
    ensures i < e <= |ms|
  {
  }

  lemma RunThenRest(ms: seq<Message>, i: nat, e: nat)
    requires i < e <= |ms| && ms[i].Assistant? && Boundary(ms, i) && Ends(ms, i, e) && e == RunEnd(ms, ms[i].id, i + 1)
    requires ResponsesFit(ms, Openings(ms, e), Keep(Transcript(ms, e), IsResponse))
    ensures ResponsesFit(ms, Openings(ms, i), Keep(Transcript(ms, i), IsResponse))
  {
    hide Keep, Transcript, Openings, RunEvents, Boundary, Ends, ResponseFits, FieldsFit;
    TranscriptUnfolds(ms, i);
    OpensHere(ms, i, e);
    RunFits(ms, i, e);
    OneResponse(ms, i, e);
    KeepConcat(RunEvents(ms, i, e), Transcript(ms, e), IsResponse);
    FitsAtEnd(ms, i, e);
  }

  lemma FitsAtEnd(ms: seq<Message>, i: nat, e: nat)
    requires i < e <= |ms| && ms[i].Assistant? && Ends(ms, i, e) && RunEvents(ms, i, e) != []
    requires FieldsFit(ms, i, e, RunEvents(ms, i, e)[0])
    ensures ResponseFits(ms, i, RunEvents(ms, i, e)[0])
  {
  }

  lemma OpensHere(ms: seq<Message>, i: nat, e: nat)
    requires i < |ms| && ms[i].Assistant? && Boundary(ms, i) && Ends(ms, i, e)
    ensures Openings(ms, i) == [i] + Openings(ms, e)
  {
    assert Opens(ms, i);
    OpeningsSkip(ms, i, i + 1, e);
  }

  lemma OneResponse(ms: seq<Message>, i: nat, e: nat)
    requires i < e <= |ms| && ms[i].Assistant?
    ensures RunEvents(ms, i, e) != [] && Keep(RunEvents(ms, i, e), IsResponse) == [RunEvents(ms, i, e)[0]]
  {
    hide RunEvents, CallsIn, EventsIn;
    var r := RunShape(ms, i, e);
    var calls, others := CallsIn(ms, i, e), EventsIn(ms, i, e);
    KeepConcat([r] + calls, others, IsResponse);
    KeepConcat([r], calls, IsResponse);
    KeepAll([r], IsResponse);
    KeepNone(calls, IsResponse);
    KeepNone(others, IsResponse);
  }

  lemma NextIsBoundary(ms: seq<Message>, i: nat)
    requires i < |ms| && !ms[i].Assistant? && Boundary(ms, i)
    ensures Boundary(ms, i + 1) && Openings(ms, i) == Openings(ms, i + 1)
  {
    hide Unbroken;
    assert !Opens(ms, i);
  }

  lemma OthersAreNoResponses(ms: seq<Message>, i: nat)
    requires i < |ms|
    ensures Keep(EventsAt(ms, i), IsResponse) == []
  {
    EventsInAreOther(ms, i, i + 1);
    EventsInOne(ms, i);
    KeepNone(EventsAt(ms, i), IsResponse);
  }

  /** The responses of a transcript are the responses of the stream: one for each frame that opens one, in order, with the
      model and id of that frame, the blocks of all its frames, the greatest counts, the first request id, and the stop
      reason of the documented rule. */
  lemma ResponsesAreTheRuns(ms: seq<Message>)
    ensures ResponsesFit(ms, Openings(ms, 0), Keep(Transcript(ms, 0), IsResponse))
  {
    RestOfResponses(ms, 0);
  }

  // ---------------------------------------------------------------- the places of events

  /** The response of the frame that opens it stands behind the events of all earlier messages and in front of those of all
      later ones. */
  ghost predicate PlacedAt(ms: seq<Message>, i: nat, evs: seq<Event>, p: nat) {
    && i < |ms| && ms[i].Assistant? && p < |evs| && ResponseFits(ms, i, evs[p])
    && |Keep(evs[..p], IsToolResult)| == |ResultBlocks(ms[..i])|
    && |Keep(evs[..p], IsNotice)| == |Notices(ms[..i])|
    && |Keep(evs[..p], IsResponse)| + |Openings(ms, i)| == |Openings(ms, 0)|
  }

  lemma {:induction false} SplitFrom(ms: seq<Message>, b: nat, i: nat) returns (front: seq<Event>)
    requires b <= i && Opens(ms, i) && Boundary(ms, b)
    ensures Transcript(ms, b) == front + Transcript(ms, i)
    ensures Keep(front, IsOther) == EventsIn(ms, b, i)
    ensures |Keep(front, IsResponse)| + |Openings(ms, i)| == |Openings(ms, b)|
    decreases i - b
  {
    hide *;
    OpensIsFrame(ms, i);
    if b == i {
      front := [];
      NothingInFront(ms, i);
      assert [] + Transcript(ms, i) == Transcript(ms, i);
    } else if ms[b].Assistant? {
      RunEndEnds(ms, b);
      var e := RunEnd(ms, ms[b].id, b + 1);
      EndIsLater(ms, b, e);
      EndIsBoundary(ms, b, e);
      EndsBeforeNext(ms, b, i, e);
      var rest := SplitFrom(ms, e, i);
      front := RunEvents(ms, b, e) + rest;
      TranscriptUnfolds(ms, b);
      assert front + Transcript(ms, i) == RunEvents(ms, b, e) + (rest + Transcript(ms, i));
      RunKeeps(ms, b, e);
      OneResponse(ms, b, e);
      OpensHere(ms, b, e);
      KeepConcat(RunEvents(ms, b, e), rest, IsOther);
      KeepConcat(RunEvents(ms, b, e), rest, IsResponse);
      EventsInSplit(ms, b, e, i);
    } else {
      NextIsBoundary(ms, b);
      var rest := SplitFrom(ms, b + 1, i);
      front := EventsAt(ms, b) + rest;
      TranscriptUnfolds(ms, b);
      assert front + Transcript(ms, i) == EventsAt(ms, b) + (rest + Transcript(ms, i));
      OthersAreNoResponses(ms, b);
      EventsInOne(ms, b);
      EventsInAreOther(ms, b, b + 1);
      KeepAll(EventsAt(ms, b), IsOther);
      KeepConcat(EventsAt(ms, b), rest, IsOther);
      KeepConcat(EventsAt(ms, b), rest, IsResponse);
      EventsInSplit(ms, b, b + 1, i);
    }
  }

  lemma OpensIsFrame(ms: seq<Message>, i: nat)
    requires Opens(ms, i)
    ensures i < |ms| && ms[i].Assistant?
  {
  }

  lemma NothingInFront(ms: seq<Message>, i: nat)
    requires i <= |ms|
    ensures Keep([], IsOther) == Keep([], IsResponse) == [] && EventsIn(ms, i, i) == []
  {
  }

  lemma EndsBeforeNext(ms: seq<Message>, b: nat, i: nat, e: nat)
    requires b < i < |ms| && ms[b].Assistant? && Opens(ms, i) && Ends(ms, b, e)
    ensures e <= i
  {
    if i < e {
      assert ms[i].id == ms[b].id;
      assert Unbroken(ms, ms[i].id, b, i);
    }
  }

  /** Every response stands where its first frame does among the tool results, notices and other responses. */
  lemma ResponsesAreInPlace(ms: seq<Message>, i: nat)
    requires Opens(ms, i)
    ensures exists p: nat :: PlacedAt(ms, i, Transcript(ms, 0), p)
  {
    hide Keep, Transcript, Openings, RunEvents, EventsIn, ResponseFits, FieldsFit, Ends, ResultBlocks, Notices, NoticesFit, ResultsFit;
    var front := SplitFrom(ms, 0, i);
    var evs, p := Transcript(ms, 0), |front|;
    RunEndEnds(ms, i);
    var e := RunEnd(ms, ms[i].id, i + 1);
    EndIsLater(ms, i, e);
    RunFits(ms, i, e);
    FitsAtEnd(ms, i, e);
    TranscriptUnfolds(ms, i);
    assert evs[..p] == front && evs[p] == RunEvents(ms, i, e)[0];
    FrontCounts(ms, i, front);
    assert PlacedAt(ms, i, evs, p);
  }

  lemma FrontCounts(ms: seq<Message>, i: nat, front: seq<Event>)
    requires i <= |ms| && Keep(front, IsOther) == EventsIn(ms, 0, i)
    ensures |Keep(front, IsToolResult)| == |ResultBlocks(ms[..i])| && |Keep(front, IsNotice)| == |Notices(ms[..i])|
  {
    KeepTwice(front, IsOther, IsToolResult);
    KeepTwice(front, IsOther, IsNotice);
    HeldResultsFit(ms, i);
    HeldNoticesFit(ms, i);
  }

  /** Behind each response stand the calls of its tool uses, in order, and no other call. */
  ghost predicate CallsFollow(evs: seq<Event>) {
    && (evs != [] ==> !evs[0].ToolCall?)
    && (forall p :: 0 < p < |evs| && evs[p].ToolCall? ==> evs[p - 1].Response? || evs[p - 1].ToolCall?)
    && (forall p :: 0 <= p < |evs| && evs[p].Response? ==> CallsBehind(evs, p))
  }

  ghost predicate CallsBehind(evs: seq<Event>, p: nat)
    requires p < |evs| && evs[p].Response?
  {
    exists q: nat :: CallsUpTo(evs, p, q)
  }

  ghost predicate CallsUpTo(evs: seq<Event>, p: nat, q: nat)
    requires p < |evs| && evs[p].Response?
  {
    p < q <= |evs| && UsesFit(evs[p].content, evs[p + 1..q]) && (q < |evs| ==> !evs[q].ToolCall?)
  }

  /** The tool use blocks among content blocks, in order. */
  function UsesOf(content: seq<ContentBlock>): seq<ContentBlock> {
    if content == [] then []
    else UsesOf(content[..|content| - 1]) + (if content[|content| - 1].ToolUse? then [content[|content| - 1]] else [])
  }

  ghost predicate UsesFit(content: seq<ContentBlock>, calls: seq<Event>) {
    && |calls| == |UsesOf(content)|
    && forall k :: 0 <= k < |calls| ==>
         calls[k].ToolCall? && UsesOf(content)[k] == ToolUse(calls[k].id, calls[k].name, calls[k].input)
  }

  lemma {:induction false} ContentUsesFit(content: seq<ContentBlock>)
    ensures UsesFit(content, ToolCalls(content))
  {
    if content != [] {
      ContentUsesFit(content[..|content| - 1]);
    }
  }

  lemma BehindShifts(front: seq<Event>, rest: seq<Event>, k: nat)
    requires k < |rest| && rest[k].Response? && CallsBehind(rest, k)
    ensures (front + rest)[|front| + k] == rest[k] && CallsBehind(front + rest, |front| + k)
  {
    hide UsesFit;
    var evs, n := front + rest, |front|;
    var q: nat :| CallsUpTo(rest, k, q);
    assert evs[n + k + 1..n + q] == rest[k + 1..q];
    assert CallsUpTo(evs, n + k, n + q);
  }

  lemma OthersThenRest(others: seq<Event>, rest: seq<Event>)
    requires CallsFollow(rest) && forall x :: x in others ==> IsOther(x)
    ensures CallsFollow(others + rest)
  {
    hide CallsBehind;
    var evs, n := others + rest, |others|;
    forall k | 0 <= k < n ensures IsOther(evs[k]) {
      assert others[k] in others;
    }
    forall p | 0 <= p < |evs| && evs[p].Response? ensures CallsBehind(evs, p) {
      BehindShifts(others, rest, p - n);
    }
    forall p | 0 < p < |evs| && evs[p].ToolCall? ensures evs[p - 1].Response? || evs[p - 1].ToolCall? {
      assert evs[p] == rest[p - n] && p > n && evs[p - 1] == rest[p - n - 1];
    }
  }

  lemma RunThenCalls(r: Event, calls: seq<Event>, rest: seq<Event>)
    requires r.Response? && UsesFit(r.content, calls) && CallsFollow(rest)
    ensures CallsFollow([r] + calls + rest)
  {
    hide UsesFit, CallsBehind;
    var evs, n := [r] + calls + rest, 1 + |calls|;
    CallsAreCalls(r.content, calls);
    assert forall k :: 0 < k < n ==> evs[k] == calls[k - 1];
    assert forall k :: n <= k < |evs| ==> evs[k] == rest[k - n];
    HeadBehind(r, calls, rest);
    forall p | 0 <= p < |evs| && evs[p].Response? ensures CallsBehind(evs, p) {
      if p > 0 {
        BehindShifts([r] + calls, rest, p - n);
      }
    }
  }

  lemma HeadBehind(r: Event, calls: seq<Event>, rest: seq<Event>)
    requires r.Response? && UsesFit(r.content, calls) && (rest != [] ==> !rest[0].ToolCall?)
    ensures CallsBehind([r] + calls + rest, 0)
  {
    hide UsesFit;
    var evs, n := [r] + calls + rest, 1 + |calls|;
    assert evs[1..n] == calls && (n < |evs| ==> evs[n] == rest[0]);
    assert CallsUpTo(evs, 0, n);
  }

  lemma CallsAreCalls(content: seq<ContentBlock>, calls: seq<Event>)
    requires UsesFit(content, calls)
    ensures forall k :: 0 <= k < |calls| ==> calls[k].ToolCall?
  {
  }

  lemma {:induction false} CallsFollowFrom(ms: seq<Message>, i: nat)
    requires i <= |ms|
    ensures CallsFollow(Transcript(ms, i))
    decreases |ms| - i
  {
    hide *;
    if i == |ms| {
      NothingFollows(ms);
    } else {
      TranscriptUnfolds(ms, i);
      if ms[i].Assistant? {
        var e := RunEnd(ms, ms[i].id, i + 1);
        CallsFollowFrom(ms, e);
        EventsInAreOther(ms, i, e);
        OthersThenRest(EventsIn(ms, i, e), Transcript(ms, e));
        RunHead(ms, i, e);
        var r := RunEvents(ms, i, e)[0];
        RunThenCalls(r, CallsIn(ms, i, e), EventsIn(ms, i, e) + Transcript(ms, e));
        assert ([r] + CallsIn(ms, i, e)) + (EventsIn(ms, i, e) + Transcript(ms, e)) == RunEvents(ms, i, e) + Transcript(ms, e);
      } else {
        CallsFollowFrom(ms, i + 1);
        EventsInAreOther(ms, i, i + 1);
        EventsInOne(ms, i);
        OthersThenRest(EventsAt(ms, i), Transcript(ms, i + 1));
      }
    }
  }

  lemma NothingFollows(ms: seq<Message>)
    ensures CallsFollow(Transcript(ms, |ms|))
  {
  }

  lemma RunHead(ms: seq<Message>, i: nat, e: nat)
    requires i < e <= |ms| && ms[i].Assistant?
    ensures RunEvents(ms, i, e) != [] && RunEvents(ms, i, e)[0].Response?
    ensures RunEvents(ms, i, e) == [RunEvents(ms, i, e)[0]] + CallsIn(ms, i, e) + EventsIn(ms, i, e)
    ensures UsesFit(RunEvents(ms, i, e)[0].content, CallsIn(ms, i, e))
  {
    ContentUsesFit(ContentOf(ms[i..e]));
  }

  /** In every transcript each tool call stands behind its response, with the calls of that response only in between. */
  lemma CallsFollowTheirResponse(ms: seq<Message>)
    ensures CallsFollow(Transcript(ms, 0))
  {
    CallsFollowFrom(ms, 0);
  }
}
