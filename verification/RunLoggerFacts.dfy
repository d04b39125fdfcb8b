/**
 What a run log keeps and reports, from the adds alone: which lines, which totals, which cap, and where
 serialisation stops dropping.
 */
module RunLoggerFacts {
  import opened Wrappers
  import opened RunLogger

  // ---------------------------------------------------------------- which lines are kept

  /** The encoded lines among the adds, in order. */
  function Encoded(es: seq<Entry>): seq<Bytes> {
    if es == [] then [] else Encoded(es[..|es| - 1]) + (if es[|es| - 1].line.Some? then [es[|es| - 1].line.value] else [])
  }

  /** Their bytes, with a newline for each. */
  function EncodedBytes(es: seq<Entry>): nat {
    if es == [] then 0 else EncodedBytes(es[..|es| - 1]) + (if es[|es| - 1].line.Some? then |es[|es| - 1].line.value| + 1 else 0)
  }

  /** The line of add `k` does not fit under the cap with the 512 bytes kept for the stop line. */
  ghost predicate OverAt(cap: nat, es: seq<Entry>, k: nat) {
    k < |es| && es[k].line.Some? && EncodedBytes(es[..k + 1]) > cap - 512
  }

  ghost predicate Overflows(cap: nat, es: seq<Entry>, n: nat) {
    OverAt(cap, es, n) && forall k: nat :: k < n ==> !OverAt(cap, es, k)
  }

  ghost predicate NeverOverflows(cap: nat, es: seq<Entry>) {
    forall k: nat :: !OverAt(cap, es, k)
  }

  function Responses(es: seq<Entry>): nat {
    if es == [] then 0 else Responses(es[1..]) + (if es[0].event.Response? then 1 else 0)
  }

  lemma {:induction false} ResponsesNext(rest: seq<Entry>, e: Entry)
    ensures Responses(rest + [e]) == Responses(rest) + (if e.event.Response? then 1 else 0)
  {
    if rest == [] {
      assert rest + [e] == [e];
    } else {
      assert (rest + [e])[1..] == rest[1..] + [e];
      ResponsesNext(rest[1..], e);
    }
  }

  lemma BytesNext(rest: seq<Entry>, e: Entry)
    ensures Encoded(rest + [e]) == Encoded(rest) + (if e.line.Some? then [e.line.value] else [])
    ensures EncodedBytes(rest + [e]) == EncodedBytes(rest) + (if e.line.Some? then |e.line.value| + 1 else 0)
  {
    assert (rest + [e])[..|rest|] == rest;
  }

  lemma OverShifts(cap: nat, rest: seq<Entry>, e: Entry, k: nat)
    ensures OverAt(cap, rest + [e], k) <==>
            if k < |rest| then OverAt(cap, rest, k) else k == |rest| && e.line.Some? && EncodedBytes(rest + [e]) > cap - 512
  {
    hide EncodedBytes;
    var all := rest + [e];
    assert all[..|rest| + 1] == all;
    if k < |rest| {
      assert all[..k + 1] == rest[..k + 1];
    }
  }

  lemma NeverNext(cap: nat, rest: seq<Entry>, e: Entry)
    ensures NeverOverflows(cap, rest + [e]) <==> NeverOverflows(cap, rest) && (e.line.Some? ==> EncodedBytes(rest + [e]) <= cap - 512)
  {
    hide EncodedBytes, OverAt;
    forall k: nat ensures OverAt(cap, rest + [e], k) <==>
            if k < |rest| then OverAt(cap, rest, k) else k == |rest| && e.line.Some? && EncodedBytes(rest + [e]) > cap - 512 {
      OverShifts(cap, rest, e, k);
    }
    assert forall k: nat :: OverAt(cap, rest, k) ==> k < |rest| by {
      OverInRange(cap, rest);
    }
    if e.line.Some? && EncodedBytes(rest + [e]) > cap - 512 {
      assert OverAt(cap, rest + [e], |rest|);
    }
    if k: nat :| OverAt(cap, rest, k) {
      assert OverAt(cap, rest + [e], k);
    }
  }

  lemma OverInRange(cap: nat, es: seq<Entry>)
    ensures forall k: nat :: OverAt(cap, es, k) ==> k < |es|
  {
  }

  /** Where the log overflows first does not move when more is added. */
  lemma FirstNext(cap: nat, rest: seq<Entry>, e: Entry, n: nat)
    requires Overflows(cap, rest + [e], n)
    ensures if n < |rest| then Overflows(cap, rest, n) else n == |rest| && NeverOverflows(cap, rest)
  {
    hide OverAt, EncodedBytes;
    forall k: nat | k < |rest| && k <= n ensures OverAt(cap, rest + [e], k) <==> OverAt(cap, rest, k) {
      OverShifts(cap, rest, e, k);
    }
    OverShifts(cap, rest, e, n);
    OverInRange(cap, rest);
  }

  /** Every line that was encoded before the log overflows is kept, each its own and in order, whatever kind of event it is of,
      and none after; the log counts the responses. */
  lemma {:induction false} KeptExactly(cap: nat, es: seq<Entry>)
    ensures var st := Adds(cap, es);
            && (st.capped <==> !NeverOverflows(cap, es))
            && (NeverOverflows(cap, es) ==> st.lines == Encoded(es) && st.bytes == EncodedBytes(es))
            && (forall n: nat :: Overflows(cap, es, n) ==> st.lines == Encoded(es[..n]))
            && st.responses == Responses(es)
  {
    if es != [] {
      var m := |es| - 1;
      var rest := es[..m];
      KeptExactly(cap, rest);
      ResponsesNext(rest, es[m]);
      assert es == rest + [es[m]];
      NeverNext(cap, rest, es[m]);
      BytesNext(rest, es[m]);
      hide EncodedBytes, Encoded, NeverOverflows, Overflows, OverAt, Responses, Sum;
      forall n: nat | Overflows(cap, es, n) ensures Adds(cap, es).lines == Encoded(es[..n]) {
        FirstNext(cap, rest, es[m], n);
        if n < m {
          assert rest[..n] == es[..n];
          NotNever(cap, rest, n);
        }
      }
    } else {
      OverInRange(cap, es);
    }
  }

  lemma NotNever(cap: nat, es: seq<Entry>, n: nat)
    requires Overflows(cap, es, n)
    ensures !NeverOverflows(cap, es)
  {
  }

  // ---------------------------------------------------------------- the cap and the text

  /** Without a request the cap is twenty million bytes; otherwise the request rounded down, and 4096 at least. */
  lemma CapIs(r: real)
    ensures NormalizeCap(None) == 20_000_000
    ensures r < 4096.0 ==> NormalizeCap(Some(r)) == 4096
    ensures r >= 4096.0 ==> NormalizeCap(Some(r)) as real <= r < NormalizeCap(Some(r)) as real + 1.0
  {
  }

  /** The text of lines is each line with a newline behind it. */
  lemma {:induction false} TextIsLines(a: seq<Bytes>, b: seq<Bytes>)
    ensures Text(a + b) == Text(a) + Text(b)
    ensures |a| == 1 ==> Text(a) == a[0] + [0x0A]
  {
    if |a| == 1 {
      assert a[..0] == [];
      assert Text(a[..0]) == [];
    }
    if b == [] {
      assert a + b == a;
    } else {
      var n := |b| - 1;
      assert (a + b)[..|a + b| - 1] == a + b[..n];
      TextIsLines(a, b[..n]);
    }
  }

  // ---------------------------------------------------------------- where serialisation stops

  /** The first `k` lines fit together with their stop line. */
  ghost predicate FitsWith(cap: nat, lines: seq<Bytes>, dropped: nat, stop: StopScrubber, k: nat)
    requires k <= |lines|
  {
    var line := stop(dropped + (|lines| - k));
    line.Some? && |Text(lines[..k])| + |line.value| + 1 <= cap
  }

  ghost predicate ThrowsAt(lines: seq<Bytes>, dropped: nat, stop: StopScrubber, k: nat)
    requires k <= |lines|
  {
    stop(dropped + (|lines| - k)).None?
  }

  ghost predicate Undecided(cap: nat, lines: seq<Bytes>, dropped: nat, stop: StopScrubber, k: nat)
    requires k <= |lines|
  {
    !FitsWith(cap, lines, dropped, stop, k) && !ThrowsAt(lines, dropped, stop, k)
  }

  /** From all lines downwards, the first attempt that fits or on whose stop line the scrubber throws decides: if it fits, those
      lines are kept with that stop line and drop count, otherwise, and if no attempt fits, nothing is. */
  lemma {:induction false} FitExactly(cap: nat, lines: seq<Bytes>, dropped: nat, stop: StopScrubber, k: nat)
    requires k <= |lines|
    requires forall j :: k < j <= |lines| ==> Undecided(cap, lines, dropped, stop, j)
    ensures FitsWith(cap, lines, dropped, stop, k) ==>
              Fit(cap, lines, dropped, stop) == Kept(lines[..k], stop(dropped + (|lines| - k)).value, dropped + (|lines| - k))
    ensures ThrowsAt(lines, dropped, stop, k) || (k == 0 && !FitsWith(cap, lines, dropped, stop, k)) ==>
              Fit(cap, lines, dropped, stop) == Nothing
    decreases |lines|
  {
    var n := |lines|;
    assert lines[..n] == lines;
    TextHasSize(lines);
    if k < n {
      assert Undecided(cap, lines, dropped, stop, n);
      FitShorter(cap, lines, dropped, stop);
      var rest := lines[..n - 1];
      hide Fit, Text, Size, FitsWith, ThrowsAt;
      forall j {:trigger Undecided(cap, rest, dropped + 1, stop, j)} | k < j <= |rest|
        ensures Undecided(cap, rest, dropped + 1, stop, j)
      {
        assert Undecided(cap, lines, dropped, stop, j);
        AttemptShifts(cap, lines, dropped, stop, j);
      }
      AttemptShifts(cap, lines, dropped, stop, k);
      FitExactly(cap, rest, dropped + 1, stop, k);
    }
  }

  lemma AttemptShifts(cap: nat, lines: seq<Bytes>, dropped: nat, stop: StopScrubber, j: nat)
    requires j < |lines|
    ensures var rest := lines[..|lines| - 1];
            && rest[..j] == lines[..j]
            && (FitsWith(cap, lines, dropped, stop, j) <==> FitsWith(cap, rest, dropped + 1, stop, j))
            && (ThrowsAt(lines, dropped, stop, j) <==> ThrowsAt(rest, dropped + 1, stop, j))
  {
    hide Text;
    assert lines[..|lines| - 1][..j] == lines[..j];
  }

  lemma FitShorter(cap: nat, lines: seq<Bytes>, dropped: nat, stop: StopScrubber)
    requires lines != [] && stop(dropped).Some? && Size(lines) + |stop(dropped).value| + 1 > cap
    ensures Fit(cap, lines, dropped, stop) == Fit(cap, lines[..|lines| - 1], dropped + 1, stop)
  {
  }

  // ---------------------------------------------------------------- totals

  predicate NonNegative(c: Count) { c.Finite? && c.n >= 0 }

  /** The usage of the event counts for the model: a response of it, with four counts, and a fifth if it reports thinking. */
  predicate CountsFor(e: LoggedEvent, model: string) {
    && e.Response? && e.model == model
    && NonNegative(e.usage.input) && NonNegative(e.usage.output) && NonNegative(e.usage.cacheRead) && NonNegative(e.usage.cacheWrite)
    && (e.usage.thinking == None || NonNegative(e.usage.thinking.value))
  }

  /** The sum of a field over the events that count. */
  function RawTotal(es: seq<Entry>, model: string, field: Reported -> Count): int {
    if es == [] then 0
    else
      RawTotal(es[..|es| - 1], model, field)
      + (if CountsFor(es[|es| - 1].event, model) && field(es[|es| - 1].event.usage).Finite? then field(es[|es| - 1].event.usage).n else 0)
  }

  ghost predicate SumsUp(es: seq<Entry>, model: string, u: Usage) {
    && u.input == RawTotal(es, model, (r: Reported) => r.input) && u.output == RawTotal(es, model, (r: Reported) => r.output)
    && u.cacheRead == RawTotal(es, model, (r: Reported) => r.cacheRead)
    && u.cacheWrite == RawTotal(es, model, (r: Reported) => r.cacheWrite)
    && u.thinking.GetOr(0) == RawTotal(es, model, (r: Reported) => r.thinking.GetOr(NotACount))
    && (u.thinking.Some? <==> exists k :: 0 <= k < |es| && CountsFor(es[k].event, model) && es[k].event.usage.thinking.Some?)
  }

  lemma TotalNext(es: seq<Entry>, e: Entry, model: string, field: Reported -> Count)
    ensures RawTotal(es + [e], model, field) ==
            RawTotal(es, model, field) + (if CountsFor(e.event, model) && field(e.event.usage).Finite? then field(e.event.usage).n else 0)
  {
    assert (es + [e])[..|es|] == es;
  }

  lemma SumNext(es: seq<Entry>, model: string, u: Usage, e: Entry)
    requires SumsUp(es, model, u) && CountsFor(e.event, model)
    ensures SumsUp(es + [e], model, AddUsage(u, ToUsage(e.event.usage)))
  {
    TotalNext(es, e, model, (r: Reported) => r.input);
    TotalNext(es, e, model, (r: Reported) => r.output);
    TotalNext(es, e, model, (r: Reported) => r.cacheRead);
    TotalNext(es, e, model, (r: Reported) => r.cacheWrite);
    TotalNext(es, e, model, (r: Reported) => r.thinking.GetOr(NotACount));
    hide RawTotal;
    var all := es + [e];
    assert all[|es|] == e && forall k :: 0 <= k < |es| ==> all[k] == es[k];
  }

  lemma SumStays(es: seq<Entry>, model: string, u: Usage, e: Entry)
    requires SumsUp(es, model, u) && !CountsFor(e.event, model)
    ensures SumsUp(es + [e], model, u)
  {
    TotalNext(es, e, model, (r: Reported) => r.input);
    TotalNext(es, e, model, (r: Reported) => r.output);
    TotalNext(es, e, model, (r: Reported) => r.cacheRead);
    TotalNext(es, e, model, (r: Reported) => r.cacheWrite);
    TotalNext(es, e, model, (r: Reported) => r.thinking.GetOr(NotACount));
    hide RawTotal;
    var all := es + [e];
    assert all[|es|] == e && forall k :: 0 <= k < |es| ==> all[k] == es[k];
  }

  lemma SumFor(summed: map<string, Usage>, e: LoggedEvent, model: string)
    ensures var after := Sum(summed, e);
            var u := if model in summed then summed[model] else Usage(0, 0, 0, 0, None);
            if CountsFor(e, model) then model in after && after[model] == AddUsage(u, ToUsage(e.usage))
            else (model in after <==> model in summed) && (model in summed ==> after[model] == summed[model])
  {
  }

  /** A model has totals exactly if one of its responses has a usage that counts, and they are the sums of the reported fields. */
  lemma {:induction false} TotalsAreTheReports(cap: nat, es: seq<Entry>, model: string)
    ensures var summed := Adds(cap, es).summed;
            && (model in summed <==> exists k :: 0 <= k < |es| && CountsFor(es[k].event, model))
            && SumsUp(es, model, if model in summed then summed[model] else Usage(0, 0, 0, 0, None))
  {
    if es != [] {
      var m := |es| - 1;
      var rest, last := es[..m], es[m];
      TotalsAreTheReports(cap, rest, model);
      assert es == rest + [last];
      var before := Adds(cap, rest).summed;
      assert Adds(cap, es).summed == Sum(before, last.event);
      var u := if model in before then before[model] else Usage(0, 0, 0, 0, None);
      SumFor(before, last.event, model);
      hide SumsUp, Sum, Adds, AddUsage, CountsFor;
      if CountsFor(last.event, model) {
        SumNext(rest, model, u, last);
        assert es[m] == last;
      } else {
        SumStays(rest, model, u, last);
      }
      assert forall k :: 0 <= k < m ==> es[k] == rest[k];
    }
  }
}
