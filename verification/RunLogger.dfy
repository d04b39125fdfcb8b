/**
 The byte-capped transcript of one agent run (packages/agent-runs/src/run-logger.ts).

 Scrubbing, schema validation and JSON encoding are the environment here: every event carries
 the text they produced, or None when one of them threw, and a scrubber answers for a stop line
 by the drop count that line reports.  A scrubber may therefore fail, expand text or change its
 mind between events; nothing below assumes otherwise.
 */
module RunLogger {
  import opened Wrappers

  const TRANSCRIPT_MAX_BYTES := 20_000_000
  const MIN_TRANSCRIPT_BYTES := 4096
  const STOP_RESERVE_BYTES := 512
  const NEWLINE: byte := 0x0A

  // ---------------------------------------------------------------- data

  datatype Count = NotACount | Finite(n: int)

  /** Usage as an adapter reported it; `thinking` may be missing. */
  datatype Reported = Reported(input: Count, output: Count, cacheRead: Count, cacheWrite: Count,
                               thinking: Option<Count>)

  datatype Usage = Usage(input: nat, output: nat, cacheRead: nat, cacheWrite: nat, thinking: Option<nat>)

  datatype LoggedEvent = Response(model: string, usage: Reported) | OtherEvent

  /** An event and its scrubbed, validated and encoded line, if that did not throw. */
  datatype Entry = Entry(event: LoggedEvent, line: Option<Bytes>)

  predicate IsCount(c: Count) { c.Finite? && c.n >= 0 }

  predicate IsValidUsage(u: Reported) {
    IsCount(u.input) && IsCount(u.output) && IsCount(u.cacheRead) && IsCount(u.cacheWrite)
    && (u.thinking.Some? ==> IsCount(u.thinking.value))
  }

  function ToUsage(u: Reported): Usage
    requires IsValidUsage(u)
  {
    Usage(u.input.n, u.output.n, u.cacheRead.n, u.cacheWrite.n,
          if u.thinking.Some? then Some(u.thinking.value.n) else None)
  }

  const NO_USAGE := Usage(0, 0, 0, 0, None)

  function AddUsage(a: Usage, b: Usage): Usage {
    Usage(a.input + b.input, a.output + b.output, a.cacheRead + b.cacheRead, a.cacheWrite + b.cacheWrite,
          if b.thinking.Some? then Some(a.thinking.GetOr(0) + b.thinking.value) else a.thinking)
  }

  function NormalizeCap(requested: Option<real>): (cap: nat)
    ensures cap >= MIN_TRANSCRIPT_BYTES
  {
    if requested.None? then TRANSCRIPT_MAX_BYTES
    else if requested.value.Floor > MIN_TRANSCRIPT_BYTES then requested.value.Floor
    else MIN_TRANSCRIPT_BYTES
  }

  // ---------------------------------------------------------------- adding

  datatype State = State(lines: seq<Bytes>, bytes: nat, dropped: nat, responses: nat, capped: bool,
                         summed: map<string, Usage>, replaced: Option<map<string, Usage>>)

  const INITIAL := State([], 0, 0, 0, false, map[], None)

  function Sum(summed: map<string, Usage>, e: LoggedEvent): map<string, Usage> {
    if e.Response? && IsValidUsage(e.usage) then
      summed[e.model := AddUsage(if e.model in summed then summed[e.model] else NO_USAGE, ToUsage(e.usage))]
    else summed
  }

  function AddStep(cap: nat, st: State, e: Entry): State {
    var s := st.(responses := st.responses + (if e.event.Response? then 1 else 0),
                 summed := Sum(st.summed, e.event));
    if s.capped || e.line.None? then s.(dropped := s.dropped + 1)
    else if s.bytes + |e.line.value| + 1 > cap - STOP_RESERVE_BYTES then
      s.(capped := true, dropped := s.dropped + 1)
    else s.(lines := s.lines + [e.line.value], bytes := s.bytes + |e.line.value| + 1)
  }

  /** The logger after the given adds. */
  function Adds(cap: nat, es: seq<Entry>): State {
    if es == [] then INITIAL else AddStep(cap, Adds(cap, es[..|es| - 1]), es[|es| - 1])
  }

  function Size(lines: seq<Bytes>): nat {
    if lines == [] then 0 else Size(lines[..|lines| - 1]) + |lines[|lines| - 1]| + 1
  }

  // ---------------------------------------------------------------- serializing

  /** A stop-line scrubber: the encoded stop line for a drop count, or None when it throws. */
  type StopScrubber = nat -> Option<Bytes>

  datatype Kept = Kept(lines: seq<Bytes>, stopLine: Bytes, dropped: nat) | Nothing

  /** Drops retained lines from the end until they and the stop line fit the cap. */
  function Fit(cap: nat, lines: seq<Bytes>, dropped: nat, stop: StopScrubber): Kept
    decreases |lines|
  {
    var line := stop(dropped);
    if line.None? then Nothing
    else if Size(lines) + |line.value| + 1 <= cap then Kept(lines, line.value, dropped)
    else if lines == [] then Nothing
    else Fit(cap, lines[..|lines| - 1], dropped + 1, stop)
  }

  function Text(lines: seq<Bytes>): Bytes {
    if lines == [] then [] else Text(lines[..|lines| - 1]) + lines[|lines| - 1] + [NEWLINE]
  }

  datatype Serialized = Serialized(jsonl: Bytes, bytes: nat, droppedEvents: nat)

  function SerializeStep(cap: nat, st: State, stop: StopScrubber): Serialized {
    match Fit(cap, st.lines, st.dropped, stop)
    case Kept(lines, stopLine, dropped) =>
      Serialized(Text(lines + [stopLine]), Size(lines + [stopLine]), dropped)
    case Nothing => Serialized([], 0, st.dropped + |st.lines| + 1)
  }

  /** The event lines a serialized transcript keeps. */
  function EventLines(cap: nat, es: seq<Entry>, stop: StopScrubber): seq<Bytes> {
    var st := Adds(cap, es);
    var fit := Fit(cap, st.lines, st.dropped, stop);
    if fit.Kept? then fit.lines else []
  }

  // ---------------------------------------------------------------- accounting

  lemma {:induction false} SizeSnoc(lines: seq<Bytes>, line: Bytes)
    ensures Size(lines + [line]) == Size(lines) + |line| + 1
  {
    assert (lines + [line])[..|lines|] == lines;
  }

  /** The text of the lines is exactly as long as the size the logger accounts for them. */
  lemma {:induction false} TextHasSize(lines: seq<Bytes>)
    ensures |Text(lines)| == Size(lines)
  {
    if lines != [] {
      TextHasSize(lines[..|lines| - 1]);
    }
  }

  /** After any adds, kept lines and drops account for every one of them. */
  lemma {:induction false} AddsAccountForAll(cap: nat, es: seq<Entry>)
    ensures |Adds(cap, es).lines| + Adds(cap, es).dropped == |es|
    ensures Adds(cap, es).bytes == Size(Adds(cap, es).lines)
    ensures Adds(cap, es).lines != [] ==> Adds(cap, es).bytes <= cap - STOP_RESERVE_BYTES
    ensures Adds(cap, es).replaced == None
  {
    if es != [] {
      AddsAccountForAll(cap, es[..|es| - 1]);
      var st := Adds(cap, es[..|es| - 1]);
      if es[|es| - 1].line.Some? {
        SizeSnoc(st.lines, es[|es| - 1].line.value);
      }
    }
  }

  lemma {:induction false} FitAccounts(cap: nat, lines: seq<Bytes>, dropped: nat, stop: StopScrubber)
    ensures var fit := Fit(cap, lines, dropped, stop);
            fit.Kept? ==>
              && fit.lines <= lines
              && |fit.lines| + fit.dropped == |lines| + dropped
              && stop(fit.dropped) == Some(fit.stopLine)
              && Size(fit.lines + [fit.stopLine]) <= cap
    decreases |lines|
  {
    if stop(dropped).Some? {
      SizeSnoc(lines, stop(dropped).value);
      if Size(lines) + |stop(dropped).value| + 1 > cap && lines != [] {
        FitAccounts(cap, lines[..|lines| - 1], dropped + 1, stop);
      }
    }
  }

  /**
   Whatever the scrubber does, a non-empty transcript has its reported size, fits the cap, and
   its event lines plus the drop count its stop line was written for are the number of adds.
   */
  lemma SerializeAccounts(cap: nat, es: seq<Entry>, stop: StopScrubber)
    ensures var out := SerializeStep(cap, Adds(cap, es), stop);
            var kept := EventLines(cap, es, stop);
            && |out.jsonl| == out.bytes <= cap
            && kept <= Adds(cap, es).lines
            && (out.jsonl == [] ==> out.droppedEvents == |es| + 1)
            && (out.jsonl != [] ==>
                  && stop(out.droppedEvents).Some?
                  && out.jsonl == Text(kept + [stop(out.droppedEvents).value])
                  && |kept| + out.droppedEvents == |es|)
  {
    var st := Adds(cap, es);
    AddsAccountForAll(cap, es);
    FitAccounts(cap, st.lines, st.dropped, stop);
    var fit := Fit(cap, st.lines, st.dropped, stop);
    if fit.Kept? {
      TextHasSize(fit.lines + [fit.stopLine]);
      SizeSnoc(fit.lines, fit.stopLine);
    }
  }

  /** Stop lines within the reserve cost no event: everything the adds kept is serialized. */
  lemma ReserveSuffices(cap: nat, es: seq<Entry>, stop: StopScrubber)
    requires cap >= MIN_TRANSCRIPT_BYTES
    requires var d := Adds(cap, es).dropped; stop(d).Some? && |stop(d).value| + 1 <= STOP_RESERVE_BYTES
    ensures EventLines(cap, es, stop) == Adds(cap, es).lines
  {
    AddsAccountForAll(cap, es);
  }

  // ---------------------------------------------------------------- usage

  /** The valid usages reported for `model`, in order. */
  function ReportedFor(es: seq<Entry>, model: string): seq<Usage> {
    if es == [] then []
    else
      var last := es[|es| - 1].event;
      ReportedFor(es[..|es| - 1], model) +
      (if last.Response? && last.model == model && IsValidUsage(last.usage) then [ToUsage(last.usage)] else [])
  }

  function Total(us: seq<Usage>, f: Usage -> nat): nat {
    if us == [] then 0 else Total(us[..|us| - 1], f) + f(us[|us| - 1])
  }

  function InputOf(u: Usage): nat { u.input }
  function OutputOf(u: Usage): nat { u.output }
  function CacheReadOf(u: Usage): nat { u.cacheRead }
  function CacheWriteOf(u: Usage): nat { u.cacheWrite }
  function Thought(u: Usage): nat { u.thinking.GetOr(0) }

  /** `u` is the sum of `us`, field by field; thinking is present when any of them reports it. */
  ghost predicate IsTotal(u: Usage, us: seq<Usage>) {
    && u.input == Total(us, InputOf)
    && u.output == Total(us, OutputOf)
    && u.cacheRead == Total(us, CacheReadOf)
    && u.cacheWrite == Total(us, CacheWriteOf)
    && Thought(u) == Total(us, Thought)
    && (u.thinking.Some? <==> exists v :: v in us && v.thinking.Some?)
  }

  lemma TotalSnoc(us: seq<Usage>, v: Usage, f: Usage -> nat)
    ensures Total(us + [v], f) == Total(us, f) + f(v)
  {
    assert (us + [v])[..|us|] == us;
  }

  lemma IsTotalSnoc(u: Usage, us: seq<Usage>, v: Usage)
    requires IsTotal(u, us)
    ensures IsTotal(AddUsage(u, v), us + [v])
  {
    forall f: Usage -> nat ensures Total(us + [v], f) == Total(us, f) + f(v) {
      TotalSnoc(us, v, f);
    }
    assert forall w :: w in us + [v] <==> w in us || w == v;
  }

  /** Per-model totals are the sums of all valid response usages, whether or not the lines were dropped. */
  lemma {:induction false} UsageTotalsAreExact(cap: nat, es: seq<Entry>, model: string)
    ensures model in Adds(cap, es).summed <==> ReportedFor(es, model) != []
    ensures model in Adds(cap, es).summed ==> IsTotal(Adds(cap, es).summed[model], ReportedFor(es, model))
  {
    if es != [] {
      var rest := es[..|es| - 1];
      var last := es[|es| - 1].event;
      UsageTotalsAreExact(cap, rest, model);
      var before := Adds(cap, rest).summed;
      assert Adds(cap, es).summed == Sum(before, last);
      if last.Response? && last.model == model && IsValidUsage(last.usage) {
        assert IsTotal(NO_USAGE, []);
        IsTotalSnoc(if model in before then before[model] else NO_USAGE, ReportedFor(rest, model), ToUsage(last.usage));
      } else {
        assert ReportedFor(es, model) == ReportedFor(rest, model);
      }
    }
  }

  // ---------------------------------------------------------------- raising the cap

  /** Under a larger cap the adds keep at least the same lines, in the same places. */
  lemma {:induction false} LargerCapKeepsLines(c1: nat, c2: nat, es: seq<Entry>)
    requires c1 <= c2
    ensures Adds(c1, es).lines <= Adds(c2, es).lines
    ensures !Adds(c1, es).capped ==> Adds(c2, es).lines == Adds(c1, es).lines && !Adds(c2, es).capped
  {
    if es != [] {
      LargerCapKeepsLines(c1, c2, es[..|es| - 1]);
      AddsAccountForAll(c1, es[..|es| - 1]);
      AddsAccountForAll(c2, es[..|es| - 1]);
    }
  }

  /** Once the stop line fails for a drop count, it fails for every larger one. */
  ghost predicate FailuresUpwardClosed(stop: StopScrubber) {
    forall d: nat, e: nat :: d < e && stop(d).None? ==> stop(e).None?
  }

  /** If `k` leading lines fit with their stop line and no earlier attempt throws, at least they are kept. */
  lemma {:induction false} FitKeeps(cap: nat, lines: seq<Bytes>, dropped: nat, stop: StopScrubber, k: nat)
    requires k <= |lines|
    requires forall d: nat :: d <= dropped + |lines| - k ==> stop(d).Some?
    requires Size(lines[..k]) + |stop(dropped + |lines| - k).value| + 1 <= cap
    ensures Fit(cap, lines, dropped, stop).Kept?
    ensures lines[..k] <= Fit(cap, lines, dropped, stop).lines
    decreases |lines|
  {
    assert stop(dropped).Some?;
    if k == |lines| {
      assert lines[..k] == lines;
    } else if Size(lines) + |stop(dropped).value| + 1 > cap {
      assert lines[..|lines| - 1][..k] == lines[..k];
      FitKeeps(cap, lines[..|lines| - 1], dropped + 1, stop, k);
    }
  }

  lemma {:induction false} RaisingTheCapKeepsLines(c1: nat, c2: nat, es: seq<Entry>, stop: StopScrubber)
    requires c1 <= c2 && FailuresUpwardClosed(stop)
    ensures EventLines(c1, es, stop) <= EventLines(c2, es, stop)
  {
    hide Adds, Fit, Size;
    var s1, s2 := Adds(c1, es), Adds(c2, es);
    var fit := Fit(c1, s1.lines, s1.dropped, stop);
    if fit.Kept? {
      AddsAccountForAll(c1, es);
      AddsAccountForAll(c2, es);
      LargerCapKeepsLines(c1, c2, es);
      FitAccounts(c1, s1.lines, s1.dropped, stop);
      SizeSnoc(fit.lines, fit.stopLine);
      var k := |fit.lines|;
      assert s2.lines[..k] == fit.lines;
      assert forall d: nat :: d <= fit.dropped ==> stop(d).Some?;
      FitKeeps(c2, s2.lines, s2.dropped, stop, k);
    }
  }

  ghost predicate CapMonotone(stop: StopScrubber) {
    forall es: seq<Entry>, c1: nat, c2: nat ::
      MIN_TRANSCRIPT_BYTES <= c1 <= c2 ==> EventLines(c1, es, stop) <= EventLines(c2, es, stop)
  }

  /** Some byte that an encoded line can contain: the letter a. */
  const LETTER: byte := 0x61

  function Repeat(e: Entry, n: nat): seq<Entry> {
    seq(n, _ => e)
  }

  /** `n` equal lines are all kept while they fit under the reserve, and none of the failing events after them. */
  lemma {:induction false} KeepsWhileFitting(cap: nat, e: Entry, n: nat, failing: nat)
    requires e.event.OtherEvent? && e.line.Some? && n * (|e.line.value| + 1) <= cap - STOP_RESERVE_BYTES
    ensures var st := Adds(cap, Repeat(e, n) + Repeat(Entry(OtherEvent, None), failing));
            |st.lines| == n && !st.capped && st.dropped == failing
            && st.bytes == n * (|e.line.value| + 1)
    decreases n + failing
  {
    var es := Repeat(e, n) + Repeat(Entry(OtherEvent, None), failing);
    if failing > 0 {
      assert es[..|es| - 1] == Repeat(e, n) + Repeat(Entry(OtherEvent, None), failing - 1);
      KeepsWhileFitting(cap, e, n, failing - 1);
    } else if n > 0 {
      assert es[..|es| - 1] == Repeat(e, n - 1) + Repeat(Entry(OtherEvent, None), 0);
      assert n * (|e.line.value| + 1) == (n - 1) * (|e.line.value| + 1) + (|e.line.value| + 1);
      KeepsWhileFitting(cap, e, n - 1, 0);
    }
  }

  /** Under a cap with room for one of them, only the first of `n` equal lines is kept. */
  lemma {:induction false} KeepsOnlyFirst(cap: nat, e: Entry, n: nat, failing: nat)
    requires e.event.OtherEvent? && e.line.Some? && n >= 2
    requires |e.line.value| + 1 <= cap - STOP_RESERVE_BYTES < 2 * (|e.line.value| + 1)
    ensures var st := Adds(cap, Repeat(e, n) + Repeat(Entry(OtherEvent, None), failing));
            st.lines == [e.line.value] && st.capped
    decreases n + failing
  {
    var es := Repeat(e, n) + Repeat(Entry(OtherEvent, None), failing);
    if failing > 0 {
      assert es[..|es| - 1] == Repeat(e, n) + Repeat(Entry(OtherEvent, None), failing - 1);
      KeepsOnlyFirst(cap, e, n, failing - 1);
    } else {
      assert es[..|es| - 1] == Repeat(e, n - 1) + Repeat(Entry(OtherEvent, None), 0);
      if n > 2 {
        KeepsOnlyFirst(cap, e, n - 1, 0);
      } else {
        KeepsWhileFitting(cap, e, 1, 0);
        var one := Repeat(e, 1) + Repeat(Entry(OtherEvent, None), 0);
        assert one[..|one| - 1] == [];
        assert Adds(cap, one).lines == [] + [e.line.value];
      }
    }
  }

  /**
   A scrubber that throws on the stop line for `d` drops but not for some larger count `d2` loses
   lines when the cap is raised.
   */
  lemma FailureLosesLines(stop: StopScrubber, d: nat, d2: nat)
    requires d < d2 && stop(d).None? && stop(d2).Some?
    ensures !CapMonotone(stop)
  {
    var x := |stop(d2).value| + 1;
    var w := if x > MIN_TRANSCRIPT_BYTES then x else MIN_TRANSCRIPT_BYTES;
    var e := Entry(OtherEvent, Some(seq(w - 1, _ => LETTER)));
    var n := d2 - d + 1;
    var es := Repeat(e, n) + Repeat(Entry(OtherEvent, None), d);
    var c1 := 2 * w + STOP_RESERVE_BYTES - 1;
    var c2 := n * w + STOP_RESERVE_BYTES;
    assert c1 <= c2 by {
      assert n * w == 2 * w + (n - 2) * w;
    }
    KeepsOnlyFirst(c1, e, n, d);
    KeepsWhileFitting(c2, e, n, d);
    AddsAccountForAll(c1, es);
    assert Adds(c1, es).dropped == d2;
    assert EventLines(c1, es, stop) == Adds(c1, es).lines;
    assert EventLines(c2, es, stop) == [];
    assert !(EventLines(c1, es, stop) <= EventLines(c2, es, stop));
  }

  /** Raising the byte cap never loses transcript lines exactly when stop-line failures are upward closed. */
  lemma CapMonotoneExactly(stop: StopScrubber)
    ensures CapMonotone(stop) <==> FailuresUpwardClosed(stop)
  {
    if FailuresUpwardClosed(stop) {
      forall es: seq<Entry>, c1: nat, c2: nat | MIN_TRANSCRIPT_BYTES <= c1 <= c2
        ensures EventLines(c1, es, stop) <= EventLines(c2, es, stop)
      {
        RaisingTheCapKeepsLines(c1, c2, es, stop);
      }
    } else {
      var d: nat, e: nat :| d < e && stop(d).None? && stop(e).Some?;
      FailureLosesLines(stop, d, e);
    }
  }

  // ---------------------------------------------------------------- the class

  class RunLogger {
    const maxBytes: nat
    var lines: seq<Bytes>
    var bytes: nat
    var dropped: nat
    var responses: nat
    var capped: bool
    var summed: map<string, Usage>
    var replaced: Option<map<string, Usage>>

    ghost function View(): State
      reads this
    {
      State(lines, bytes, dropped, responses, capped, summed, replaced)
    }

    constructor (requested: Option<real>)
      ensures View() == INITIAL && maxBytes == NormalizeCap(requested)
    {
      maxBytes := NormalizeCap(requested);
      lines, bytes, dropped, responses := [], 0, 0, 0;
      capped, summed, replaced := false, map[], None;
    }

    method Add(event: LoggedEvent, encoded: Option<Bytes>)
      modifies this
      ensures View() == AddStep(maxBytes, old(View()), Entry(event, encoded))
    {
      if event.Response? {
        responses := responses + 1;
        if IsValidUsage(event.usage) {
          var prior := if event.model in summed then summed[event.model] else NO_USAGE;
          summed := summed[event.model := AddUsage(prior, ToUsage(event.usage))];
        }
      }
      if capped {
        dropped := dropped + 1;
        return;
      }
      match encoded
      case None =>
        dropped := dropped + 1;
      case Some(line) =>
        var size := |line| + 1;
        if bytes + size > maxBytes - STOP_RESERVE_BYTES {
          capped := true;
          dropped := dropped + 1;
          return;
        }
        lines := lines + [line];
        bytes := bytes + size;
    }

    /** Replaces all usage with authoritative totals, unless one of them is malformed. */
    method ReplaceUsage(totals: map<string, Reported>)
      modifies this
      ensures View() ==
              if forall m :: m in totals ==> IsValidUsage(totals[m])
              then old(View()).(replaced := Some(map m | m in totals :: ToUsage(totals[m])))
              else old(View())
    {
      if forall m :: m in totals ==> IsValidUsage(totals[m]) {
        replaced := Some(map m | m in totals :: ToUsage(totals[m]));
      }
    }

    method UsageTotals() returns (usage: map<string, Usage>)
      ensures usage == View().replaced.GetOr(View().summed)
    {
      if replaced.Some? {
        return replaced.value;
      }
      return summed;
    }

    method Serialize(stop: StopScrubber) returns (out: Serialized)
      requires bytes == Size(lines)
      ensures out == SerializeStep(maxBytes, View(), stop)
    {
      var droppedEvents, kept, size := dropped, lines, bytes;
      while true
        invariant size == Size(kept)
        invariant Fit(maxBytes, kept, droppedEvents, stop) == Fit(maxBytes, lines, dropped, stop)
        decreases |kept|
      {
        var stopLine := stop(droppedEvents);
        if stopLine.None? {
          break;
        }
        var stopBytes := |stopLine.value| + 1;
        if size + stopBytes <= maxBytes {
          SizeSnoc(kept, stopLine.value);
          return Serialized(Text(kept + [stopLine.value]), size + stopBytes, droppedEvents);
        }
        if kept == [] {
          break;
        }
        var removed := kept[|kept| - 1];
        kept := kept[..|kept| - 1];
        size := size - (|removed| + 1);
        droppedEvents := droppedEvents + 1;
      }
      return Serialized([], 0, dropped + |lines| + 1);
    }
  }

  /** A whole run: the adds, then the serialized transcript and the usage totals. */
  method LogRun(requested: Option<real>, es: seq<Entry>, stop: StopScrubber)
    returns (out: Serialized, usage: map<string, Usage>)
    ensures out == SerializeStep(NormalizeCap(requested), Adds(NormalizeCap(requested), es), stop)
    ensures usage == Adds(NormalizeCap(requested), es).summed
  {
    var logger := new RunLogger(requested);
    var cap := NormalizeCap(requested);
    for n := 0 to |es|
      invariant fresh(logger) && logger.maxBytes == cap
      invariant logger.View() == Adds(cap, es[..n])
    {
      assert es[..n + 1][..n] == es[..n];
      logger.Add(es[n].event, es[n].line);
    }
    assert es[..|es|] == es;
    AddsAccountForAll(cap, es);
    out := logger.Serialize(stop);
    usage := logger.UsageTotals();
  }
}
