/**
 Admission of issue inquiries: the factual rule (packages/ingestion/filter/evaluate.go), the sweep
 that admits episodes (packages/ingestion/filter/dispatch.go) and the review a person requests
 (packages/ingestion/db/inbox.go).

 Each transaction is one step at a clock reading, in seconds, that does not go back.
 */
module Inquiry {
  import opened Wrappers

  const RULE_VERSION := 1
  const ADMIT_UNITS := 2
  const LIVENESS := 7 * 86400
  const PROMPT_VERSION := 2
  const SWEEP_LIMIT := 500

  // ---------------------------------------------------------------- the factual rule

  /** An event of an episode, with its user and session when it has them. */
  datatype Occurrence = Occurrence(user: Option<string>, session: Option<string>, at: int, inScope: bool)

  datatype Outcome = Watch | Inactive | OpenInquiry
  datatype Reason = NoEvents | NoOccurrence | SilentSince(at: int) | Units(n: nat)
  datatype Decision = Decision(outcome: Outcome, reason: Reason, users: nat, anonymous: nat)

  datatype Facts = Facts(users: nat, anonymous: nat, lastSeen: Option<int>, hasInScope: bool)

  predicate Recent(o: Occurrence, at: int) { o.inScope && at - LIVENESS < o.at <= at }

  function UsersSeen(events: seq<Occurrence>, at: int): set<string> {
    set o | o in events && Recent(o, at) && o.user.Some? :: o.user.value
  }

  /** Sessions of recent events, none of which names a user. */
  function AnonymousSessions(events: seq<Occurrence>, at: int): set<string> {
    set o | o in events && Recent(o, at) && o.session.Some?
            && (forall p :: p in events && Recent(p, at) && p.session == o.session ==> p.user.None?) :: o.session.value
  }

  function LastSeen(events: seq<Occurrence>, at: int): (last: Option<int>)
    ensures last.None? <==> forall o :: o in events ==> !(o.inScope && o.at <= at)
    ensures last.Some? ==> exists o :: o in events && o.inScope && o.at <= at && o.at == last.value
    ensures forall o :: o in events && o.inScope && o.at <= at ==> last.Some? && o.at <= last.value
  {
    if events == [] then None
    else
      var n := |events| - 1;
      var before := LastSeen(events[..n], at);
      var o := events[n];
      assert events == events[..n] + [o];
      if o.inScope && o.at <= at && (before.None? || before.value <= o.at) then Some(o.at) else before
  }

  function FactsOf(events: seq<Occurrence>, at: int): Facts {
    Facts(|UsersSeen(events, at)|, |AnonymousSessions(events, at)|, LastSeen(events, at),
          exists o :: o in events && o.inScope && o.at <= at)
  }

  function EvaluateAt(facts: Facts, at: int): Decision {
    var units := facts.users + facts.anonymous;
    if !facts.hasInScope then Decision(Watch, NoEvents, facts.users, facts.anonymous)
    else if facts.lastSeen.None? then Decision(Inactive, NoOccurrence, facts.users, facts.anonymous)
    else if facts.lastSeen.value < at - LIVENESS then
      Decision(Inactive, SilentSince(facts.lastSeen.value), facts.users, facts.anonymous)
    else if units >= ADMIT_UNITS then Decision(OpenInquiry, Units(units), facts.users, facts.anonymous)
    else Decision(Watch, Units(units), facts.users, facts.anonymous)
  }

  /** An episode is admitted exactly when two users or anonymous sessions were reached in the last seven days; it is
      inactive exactly when its last event in scope is older than that. */
  lemma RuleMeaning(events: seq<Occurrence>, at: int)
    ensures var d := EvaluateAt(FactsOf(events, at), at);
            && (d.outcome == OpenInquiry <==> |UsersSeen(events, at)| + |AnonymousSessions(events, at)| >= ADMIT_UNITS)
            && (d.outcome == Inactive <==>
                  && (exists o :: o in events && o.inScope && o.at <= at)
                  && (forall o :: o in events && o.inScope && o.at <= at ==> o.at < at - LIVENESS))
  {
  }

  // ---------------------------------------------------------------- data

  /** A row of issue_decisions, of issue_inquiry_decisions and of error_group_jobs. */
  datatype Factual = Factual(decision: Decision, ruleVersion: nat, at: int)
  datatype Verdict = Verdict(waits: bool, units: nat, promptVersion: nat, at: int)
  datatype JobStatus = Pending | Claimed | Completed | DeadLetter
  datatype Job = Job(version: nat, automatic: bool, status: JobStatus, createdAt: int, updatedAt: int)

  /** An episode: `settledAt` is when evidence was last settled on it. */
  datatype Episode = Episode(isOpen: bool, openedAt: int, settledAt: Option<int>,
                             decisions: seq<Factual>, verdicts: seq<Verdict>, jobs: seq<Job>)

  /** A candidate that a sweep has listed and not yet admitted. */
  datatype Ref = Ref(episode: nat, version: nat)

  datatype State = State(clock: int, episodes: map<nat, Episode>, refs: seq<Ref>)

  datatype Call =
    | Open(ep: nat, openedAt: int)
    | Close(resolved: set<nat>)
    | Settle(ep: nat)
    | Evaluate(ep: nat, events: seq<Occurrence>)
    | List(picked: seq<nat>)
    | Admit(ref: nat)
    | Review(ep: nat)
    | Decide(ep: nat, verdict: Verdict)
    | Touch(ep: nat, job: nat, status: JobStatus)

  datatype Event = Event(now: int, call: Call)

  // ---------------------------------------------------------------- queries

  /** The latest row: by time, then by id.  Ids are serial and an episode's rows are written under its lock, so later rows
      have larger ids. */
  function LatestFactual(ds: seq<Factual>): Option<Factual> {
    if ds == [] then None
    else
      var before, last := LatestFactual(ds[..|ds| - 1]), ds[|ds| - 1];
      if before.Some? && before.value.at > last.at then before else Some(last)
  }

  function LatestVerdict(ds: seq<Verdict>): Option<Verdict> {
    if ds == [] then None
    else
      var before, last := LatestVerdict(ds[..|ds| - 1]), ds[|ds| - 1];
      if before.Some? && before.value.at > last.at then before else Some(last)
  }

  predicate Active(j: Job) { j.status == Pending || j.status == Claimed }

  predicate HasActive(jobs: seq<Job>) { exists i :: 0 <= i < |jobs| && Active(jobs[i]) }

  predicate HasVersion(jobs: seq<Job>, version: nat) { exists i :: 0 <= i < |jobs| && jobs[i].version == version }

  function MaxVersion(jobs: seq<Job>): nat {
    if jobs == [] then 0
    else
      var before, last := MaxVersion(jobs[..|jobs| - 1]), jobs[|jobs| - 1].version;
      if before > last then before else last
  }

  /** Every job was last touched before `at`. */
  predicate TouchedBefore(jobs: seq<Job>, at: int) { forall i :: 0 <= i < |jobs| ==> jobs[i].updatedAt < at }

  predicate Candidate(e: Episode) {
    var factual, inquiry := LatestFactual(e.decisions), LatestVerdict(e.verdicts);
    && e.isOpen && factual.Some? && factual.value.decision.outcome == OpenInquiry && !HasActive(e.jobs)
    && (|| (inquiry.None? && e.jobs == [])
        || (&& inquiry.Some? && inquiry.value.waits
            && TouchedBefore(e.jobs, factual.value.at)
            && (|| inquiry.value.promptVersion < PROMPT_VERSION
                || (factual.value.decision.users + factual.value.decision.anonymous) * 2 >= inquiry.value.units * 3)))
  }

  /** The sweep evaluates an open episode without a decision of the current rule, with evidence settled since its last
      decision, or not inactive and seven days after that decision. */
  predicate Stale(e: Episode, now: int) {
    var latest := LatestFactual(e.decisions);
    && e.isOpen
    && (|| latest.None?
        || latest.value.ruleVersion < RULE_VERSION
        || (latest.value.at < now - LIVENESS && latest.value.decision.outcome != Inactive)
        || e.settledAt.GetOr(latest.value.at) > latest.value.at)
  }

  function StaleEpisodes(s: State, now: int): set<nat> {
    set ep | ep in s.episodes && Stale(s.episodes[ep], now)
  }

  function Candidates(s: State): set<nat> {
    set ep | ep in s.episodes && Candidate(s.episodes[ep])
  }

  /** The sweep goes by opening time, then id. */
  function SweepKey(episodes: map<nat, Episode>): nat -> (int, int) {
    ep => (if ep in episodes then episodes[ep].openedAt else 0, ep)
  }

  // ---------------------------------------------------------------- the step

  function AppendIfChanged(e: Episode, d: Decision, now: int): Episode {
    var latest := LatestFactual(e.decisions);
    if latest.Some? && latest.value.decision == d && latest.value.ruleVersion == RULE_VERSION then e
    else e.(decisions := e.decisions + [Factual(d, RULE_VERSION, now)])
  }

  datatype Admission = Inserted | Conflict | NotAdmitted

  /** The answer of an admission: an error for an episode that is closed or whose latest decision no longer asks for an
      inquiry, and no row where a unique index already has the version or an active job. */
  function AdmissionOf(e: Episode, version: nat): Admission {
    var latest := LatestFactual(e.decisions);
    if !e.isOpen || latest.None? || latest.value.decision.outcome != OpenInquiry then NotAdmitted
    else if HasVersion(e.jobs, version) || HasActive(e.jobs) then Conflict
    else Inserted
  }

  function Admitted(e: Episode, version: nat, now: int): Episode {
    if AdmissionOf(e, version) == Inserted then e.(jobs := e.jobs + [Job(version, true, Pending, now, now)]) else e
  }

  /** The review a person asks for: an active job is reused. */
  function Reviewed(e: Episode, now: int): Episode {
    if e.isOpen && !HasActive(e.jobs)
    then e.(jobs := e.jobs + [Job(MaxVersion(e.jobs) + 1, false, Pending, now, now)])
    else e
  }

  function Touched(e: Episode, k: nat, status: JobStatus, now: int): Episode {
    if k < |e.jobs| then e.(jobs := e.jobs[k := e.jobs[k].(status := status, updatedAt := now)]) else e
  }

  ghost predicate Enabled(s: State, e: Event) {
    && e.now >= s.clock
    && match e.call
       case Open(ep, _) => ep !in s.episodes
       case Close(_) => true
       case List(picked) => IsFirst(picked, Candidates(s), SweepKey(s.episodes), SWEEP_LIMIT)
       case Admit(i) => i < |s.refs| && s.refs[i].episode in s.episodes
       case Touch(ep, k, status) =>
         && ep in s.episodes && k < |s.episodes[ep].jobs| && Active(s.episodes[ep].jobs[k])
       case call => call.ep in s.episodes
  }

  /** What the step makes of episode `ep`. */
  function EpisodeNext(s: State, e: Event, ep: nat): Episode
    requires ep in s.episodes
  {
    var x := s.episodes[ep];
    match e.call
    case Close(resolved) => if ep in resolved then x.(isOpen := false) else x
    case Settle(i) => if i == ep then x.(settledAt := Some(e.now)) else x
    case Evaluate(i, events) => if i == ep then AppendIfChanged(x, EvaluateAt(FactsOf(events, e.now), e.now), e.now) else x
    case Admit(r) => if r < |s.refs| && s.refs[r].episode == ep then Admitted(x, s.refs[r].version, e.now) else x
    case Review(i) => if i == ep then Reviewed(x, e.now) else x
    case Decide(i, verdict) => if i == ep then x.(verdicts := x.verdicts + [verdict.(at := e.now)]) else x
    case Touch(i, k, status) => if i == ep then Touched(x, k, status, e.now) else x
    case _ => x
  }

  function Refs(s: State, picked: seq<nat>): seq<Ref> {
    seq(|picked|, i requires 0 <= i < |picked| =>
      Ref(picked[i], if picked[i] in s.episodes then MaxVersion(s.episodes[picked[i]].jobs) + 1 else 0))
  }

  function Step(s: State, e: Event): State {
    var episodes := map ep | ep in s.episodes :: EpisodeNext(s, e, ep);
    State(e.now,
          if e.call.Open? then episodes[e.call.ep := Episode(true, e.call.openedAt, None, [], [], [])] else episodes,
          if e.call.List? then s.refs + Refs(s, e.call.picked) else s.refs)
  }

  ghost predicate IsRun(s: State, es: seq<Event>)
    decreases |es|
  {
    es == [] || (Enabled(s, es[0]) && IsRun(Step(s, es[0]), es[1..]))
  }

  function After(s: State, es: seq<Event>): State
    decreases |es|
  {
    if es == [] then s else After(Step(s, es[0]), es[1..])
  }

  // ---------------------------------------------------------------- what every run keeps

  /** Decisions are in the order of their times and each differs from the one before. */
  ghost predicate DecisionsOk(ds: seq<Factual>, clock: int) {
    && (forall i, j :: 0 <= i <= j < |ds| ==> ds[i].at <= ds[j].at <= clock)
    && (forall i :: 0 < i < |ds| ==> ds[i].decision != ds[i - 1].decision || ds[i].ruleVersion != ds[i - 1].ruleVersion)
  }

  /** Jobs are numbered 1, 2, 3, ... in the order they were made, and only one is active. */
  ghost predicate JobsOk(jobs: seq<Job>, clock: int) {
    && (forall i :: 0 <= i < |jobs| ==> jobs[i].version == i + 1 && jobs[i].createdAt <= jobs[i].updatedAt <= clock)
    && (forall i, j :: 0 <= i <= j < |jobs| ==> jobs[i].createdAt <= jobs[j].createdAt)
    && (forall i, j :: 0 <= i < j < |jobs| ==> !(Active(jobs[i]) && Active(jobs[j])))
  }

  function AutomaticJobs(jobs: seq<Job>): nat {
    if jobs == [] then 0 else AutomaticJobs(jobs[..|jobs| - 1]) + (if jobs[|jobs| - 1].automatic then 1 else 0)
  }

  function MadeBy(ds: seq<Factual>, at: int): nat {
    if ds == [] then 0 else MadeBy(ds[..|ds| - 1], at) + (if ds[|ds| - 1].at <= at then 1 else 0)
  }

  /** The automatic jobs are paid for by decisions no later than the last job. */
  predicate PaidFor(e: Episode) {
    e.jobs == [] || AutomaticJobs(e.jobs) <= MadeBy(e.decisions, e.jobs[|e.jobs| - 1].createdAt)
  }

  ghost predicate EpisodeOk(e: Episode, clock: int) {
    DecisionsOk(e.decisions, clock) && JobsOk(e.jobs, clock) && PaidFor(e) && e.settledAt.GetOr(clock) <= clock
  }

  /** A listed version is at most the next one, and if it still is the next one there is a decision to pay for it. */
  predicate RefOk(e: Episode, version: nat) {
    && 0 < version <= |e.jobs| + 1
    && (version == |e.jobs| + 1 ==>
          && e.decisions != []
          && (e.jobs != [] ==> e.decisions[|e.decisions| - 1].at > e.jobs[|e.jobs| - 1].createdAt))
  }

  ghost predicate Ok(s: State) {
    && (forall ep :: ep in s.episodes ==> EpisodeOk(s.episodes[ep], s.clock))
    && (forall i :: 0 <= i < |s.refs| ==> s.refs[i].episode in s.episodes && RefOk(s.episodes[s.refs[i].episode], s.refs[i].version))
  }

  lemma {:induction false} LatestIsLast(ds: seq<Factual>, clock: int)
    requires ds != [] && DecisionsOk(ds, clock)
    ensures LatestFactual(ds) == Some(ds[|ds| - 1])
  {
    if |ds| > 1 {
      assert forall i :: 0 <= i < |ds| - 1 ==> ds[..|ds| - 1][i] == ds[i];
      LatestIsLast(ds[..|ds| - 1], clock);
    }
  }

  lemma {:induction false} MaxIsLength(jobs: seq<Job>)
    requires forall i :: 0 <= i < |jobs| ==> jobs[i].version == i + 1
    ensures MaxVersion(jobs) == |jobs|
  {
    if jobs != [] {
      MaxIsLength(jobs[..|jobs| - 1]);
    }
  }

  lemma {:induction false} MadeByGrows(ds: seq<Factual>, a: int, b: int)
    requires a <= b
    ensures MadeBy(ds, a) <= MadeBy(ds, b) <= |ds|
  {
    if ds != [] {
      MadeByGrows(ds[..|ds| - 1], a, b);
    }
  }

  lemma MadeByOneMore(ds: seq<Factual>, a: int, b: int)
    requires ds != [] && a < ds[|ds| - 1].at <= b
    ensures MadeBy(ds, a) + 1 <= MadeBy(ds, b)
  {
    MadeByGrows(ds[..|ds| - 1], a, b);
  }

  lemma DecisionKeepsOrder(ds: seq<Factual>, d: Factual, clock: int)
    requires DecisionsOk(ds, clock) && clock <= d.at
    requires ds != [] ==> ds[|ds| - 1].decision != d.decision || ds[|ds| - 1].ruleVersion != d.ruleVersion
    ensures DecisionsOk(ds + [d], d.at)
  {
  }

  lemma AppendKeepsEpisode(e: Episode, d: Decision, clock: int, now: int)
    requires EpisodeOk(e, clock) && clock <= now
    ensures EpisodeOk(AppendIfChanged(e, d, now), now)
  {
    hide DecisionsOk, JobsOk;
    if e.decisions != [] {
      LatestIsLast(e.decisions, clock);
    }
    ClockKeepsEpisode(e, e, clock, now);
    if AppendIfChanged(e, d, now) != e {
      DecisionKeepsOrder(e.decisions, Factual(d, RULE_VERSION, now), clock);
      assert (e.decisions + [Factual(d, RULE_VERSION, now)])[..|e.decisions|] == e.decisions;
    }
  }

  lemma JobKeepsJobs(jobs: seq<Job>, job: Job, clock: int)
    requires JobsOk(jobs, clock) && clock <= job.createdAt == job.updatedAt && !HasActive(jobs) && job.version == |jobs| + 1
    ensures JobsOk(jobs + [job], job.createdAt)
  {
  }

  lemma JobIsPaidFor(e: Episode, job: Job)
    requires PaidFor(e) && (job.automatic ==> RefOk(e, |e.jobs| + 1))
    requires e.jobs != [] ==> e.jobs[|e.jobs| - 1].createdAt <= job.createdAt
    requires e.decisions != [] ==> e.decisions[|e.decisions| - 1].at <= job.createdAt
    ensures PaidFor(e.(jobs := e.jobs + [job]))
  {
    assert (e.jobs + [job])[..|e.jobs|] == e.jobs;
    if e.jobs != [] {
      MadeByGrows(e.decisions, e.jobs[|e.jobs| - 1].createdAt, job.createdAt);
      if job.automatic {
        MadeByOneMore(e.decisions, e.jobs[|e.jobs| - 1].createdAt, job.createdAt);
      }
    }
  }

  lemma JobKeepsEpisode(e: Episode, job: Job, clock: int, now: int)
    requires EpisodeOk(e, clock) && clock <= now && !HasActive(e.jobs)
    requires job == Job(|e.jobs| + 1, job.automatic, Pending, now, now)
    requires job.automatic ==> RefOk(e, |e.jobs| + 1)
    ensures EpisodeOk(e.(jobs := e.jobs + [job]), now)
  {
    hide PaidFor, RefOk, HasActive, DecisionsOk, JobsOk;
    ClockKeepsEpisode(e, e, clock, now);
    LastTimes(e, clock);
    JobKeepsJobs(e.jobs, job, clock);
    JobIsPaidFor(e, job);
  }

  lemma LastTimes(e: Episode, clock: int)
    requires EpisodeOk(e, clock)
    ensures e.jobs != [] ==> e.jobs[|e.jobs| - 1].createdAt <= clock
    ensures e.decisions != [] ==> e.decisions[|e.decisions| - 1].at <= clock
  {
  }

  lemma AdmitKeepsEpisode(e: Episode, version: nat, clock: int, now: int)
    requires EpisodeOk(e, clock) && clock <= now && RefOk(e, version)
    ensures EpisodeOk(Admitted(e, version, now), now)
    ensures Admitted(e, version, now) != e ==> version == |e.jobs| + 1
  {
    hide LatestFactual, HasActive, DecisionsOk, PaidFor;
    ClockKeepsEpisode(e, e, clock, now);
    if version <= |e.jobs| {
      assert e.jobs[version - 1].version == version;
      assert HasVersion(e.jobs, version);
    } else if Admitted(e, version, now) != e {
      JobKeepsEpisode(e, Job(version, true, Pending, now, now), clock, now);
    }
  }

  lemma ReviewKeepsEpisode(e: Episode, clock: int, now: int)
    requires EpisodeOk(e, clock) && clock <= now
    ensures EpisodeOk(Reviewed(e, now), now)
  {
    MaxIsLength(e.jobs);
    if Reviewed(e, now) != e {
      JobKeepsEpisode(e, Job(|e.jobs| + 1, false, Pending, now, now), clock, now);
    }
  }

  lemma {:induction false} SameAutomatic(a: seq<Job>, b: seq<Job>)
    requires |a| == |b| && forall i :: 0 <= i < |a| ==> a[i].automatic == b[i].automatic
    ensures AutomaticJobs(a) == AutomaticJobs(b)
  {
    if a != [] {
      SameAutomatic(a[..|a| - 1], b[..|b| - 1]);
    }
  }

  lemma TouchKeepsEpisode(e: Episode, k: nat, status: JobStatus, clock: int, now: int)
    requires EpisodeOk(e, clock) && clock <= now && k < |e.jobs| && Active(e.jobs[k])
    ensures EpisodeOk(Touched(e, k, status, now), now)
  {
    hide DecisionsOk, JobsOk, Active, AutomaticJobs, MadeBy;
    ClockKeepsEpisode(e, e, clock, now);
    TouchKeepsJobs(e.jobs, k, status, clock, now);
    SameAutomatic(e.jobs, Touched(e, k, status, now).jobs);
  }

  lemma TouchKeepsJobs(jobs: seq<Job>, k: nat, status: JobStatus, clock: int, now: int)
    requires JobsOk(jobs, clock) && clock <= now && k < |jobs| && Active(jobs[k])
    ensures JobsOk(jobs[k := jobs[k].(status := status, updatedAt := now)], now)
  {
  }

  lemma StepKeepsEpisode(s: State, e: Event, ep: nat)
    requires Ok(s) && Enabled(s, e) && ep in s.episodes
    ensures EpisodeOk(EpisodeNext(s, e, ep), e.now)
  {
    hide Candidate, AppendIfChanged, Admitted, Reviewed, Touched, FactsOf, EvaluateAt, RefOk, EpisodeOk;
    var x := s.episodes[ep];
    match e.call {
      case Evaluate(i, events) => AppendKeepsEpisode(x, EvaluateAt(FactsOf(events, e.now), e.now), s.clock, e.now);
      case Admit(r) =>
        if s.refs[r].episode == ep {
          AdmitKeepsEpisode(x, s.refs[r].version, s.clock, e.now);
        }
      case Review(i) => ReviewKeepsEpisode(x, s.clock, e.now);
      case Touch(i, k, status) =>
        if i == ep {
          TouchKeepsEpisode(x, k, status, s.clock, e.now);
        }
      case _ =>
    }
    ClockKeepsEpisode(x, EpisodeNext(s, e, ep), s.clock, e.now);
  }

  lemma ClockKeepsEpisode(x: Episode, y: Episode, clock: int, now: int)
    requires EpisodeOk(x, clock) && clock <= now
    ensures y.decisions == x.decisions && y.jobs == x.jobs && y.settledAt in {x.settledAt, Some(now)} ==> EpisodeOk(y, now)
  {
  }

  /** Decisions and jobs are only appended, so a listed reference stays good until a job takes its version. */
  lemma StepKeepsRef(s: State, e: Event, ep: nat, version: nat)
    requires Ok(s) && Enabled(s, e) && ep in s.episodes && RefOk(s.episodes[ep], version)
    ensures RefOk(EpisodeNext(s, e, ep), version)
  {
    hide Candidate, FactsOf, EvaluateAt, HasActive, HasVersion, LatestFactual, MaxVersion, DecisionsOk, JobsOk, PaidFor, RefOk;
    var x, y := s.episodes[ep], EpisodeNext(s, e, ep);
    assert EpisodeOk(x, s.clock);
    GrowthKeepsRef(x, y, s.clock, version);
  }

  lemma GrowthKeepsRef(x: Episode, y: Episode, clock: int, version: nat)
    requires DecisionsOk(x.decisions, clock) && RefOk(x, version)
    requires y.decisions == x.decisions || (|y.decisions| == |x.decisions| + 1 && y.decisions[|x.decisions|].at >= clock)
    requires |y.jobs| > |x.jobs| || (|y.jobs| == |x.jobs| && forall i :: 0 <= i < |x.jobs| ==> y.jobs[i].createdAt == x.jobs[i].createdAt)
    ensures RefOk(y, version)
  {
  }

  lemma CandidateRefOk(s: State, ep: nat)
    requires Ok(s) && ep in s.episodes && Candidate(s.episodes[ep])
    ensures RefOk(s.episodes[ep], MaxVersion(s.episodes[ep].jobs) + 1)
  {
    var e := s.episodes[ep];
    MaxIsLength(e.jobs);
    assert e.decisions != [];
    LatestIsLast(e.decisions, s.clock);
    if e.jobs != [] {
      assert e.jobs[|e.jobs| - 1].createdAt <= e.jobs[|e.jobs| - 1].updatedAt;
    }
  }

  lemma StepKeepsOk(s: State, e: Event)
    requires Ok(s) && Enabled(s, e)
    ensures Ok(Step(s, e))
  {
    hide EpisodeNext, EpisodeOk, RefOk, Candidate, MaxVersion;
    var t := Step(s, e);
    forall ep | ep in t.episodes ensures EpisodeOk(t.episodes[ep], t.clock) {
      if ep in s.episodes {
        StepKeepsEpisode(s, e, ep);
      } else {
        NewEpisodeOk(e.call.openedAt, e.now);
      }
    }
    forall i | 0 <= i < |t.refs|
      ensures t.refs[i].episode in t.episodes && RefOk(t.episodes[t.refs[i].episode], t.refs[i].version)
    {
      if i < |s.refs| {
        StepKeepsRef(s, e, s.refs[i].episode, s.refs[i].version);
      } else {
        var ep := e.call.picked[i - |s.refs|];
        assert ep in e.call.picked;
        CandidateRefOk(s, ep);
        StepKeepsRef(s, e, ep, MaxVersion(s.episodes[ep].jobs) + 1);
      }
    }
  }

  lemma NewEpisodeOk(openedAt: int, clock: int)
    ensures EpisodeOk(Episode(true, openedAt, None, [], [], []), clock)
  {
  }

  lemma {:induction false} RunsKeepOk(s: State, es: seq<Event>)
    requires Ok(s) && IsRun(s, es)
    ensures Ok(After(s, es))
    decreases |es|
  {
    if es != [] {
      hide Ok, Enabled, Step;
      StepKeepsOk(s, es[0]);
      RunsKeepOk(Step(s, es[0]), es[1..]);
    }
  }

  // ---------------------------------------------------------------- the guarantees

  function Start(clock: int): State { State(clock, map[], []) }

  /** In every run, however stale the candidates a sweep admits, an episode never has more automatic inquiry jobs than
      factual decisions. */
  lemma AdmissionsArePaidFor(clock: int, es: seq<Event>, ep: nat)
    requires IsRun(Start(clock), es) && ep in After(Start(clock), es).episodes
    ensures var e := After(Start(clock), es).episodes[ep]; AutomaticJobs(e.jobs) <= |e.decisions|
  {
    RunsKeepOk(Start(clock), es);
    var e := After(Start(clock), es).episodes[ep];
    assert EpisodeOk(e, After(Start(clock), es).clock);
    if e.jobs != [] {
      MadeByGrows(e.decisions, e.jobs[|e.jobs| - 1].createdAt, e.jobs[|e.jobs| - 1].createdAt);
    }
  }

  /** In every run consecutive factual decisions differ. */
  lemma ConsecutiveDecisionsDiffer(clock: int, es: seq<Event>, ep: nat, i: nat)
    requires IsRun(Start(clock), es) && ep in After(Start(clock), es).episodes
    requires 0 < i < |After(Start(clock), es).episodes[ep].decisions|
    ensures var ds := After(Start(clock), es).episodes[ep].decisions;
            (ds[i].decision, ds[i].ruleVersion) != (ds[i - 1].decision, ds[i - 1].ruleVersion)
  {
    RunsKeepOk(Start(clock), es);
    assert EpisodeOk(After(Start(clock), es).episodes[ep], After(Start(clock), es).clock);
  }

  /** In every run no two jobs of an episode share an input version, whoever asked for them, and only one is active. */
  lemma VersionsAreNotShared(clock: int, es: seq<Event>, ep: nat, i: nat, j: nat)
    requires IsRun(Start(clock), es) && ep in After(Start(clock), es).episodes
    requires i < j < |After(Start(clock), es).episodes[ep].jobs|
    ensures var jobs := After(Start(clock), es).episodes[ep].jobs;
            jobs[i].version < jobs[j].version && !(Active(jobs[i]) && Active(jobs[j]))
  {
    RunsKeepOk(Start(clock), es);
    assert EpisodeOk(After(Start(clock), es).episodes[ep], After(Start(clock), es).clock);
  }

  /** The latest decision of the episode is the decision `d` of the current rule. */
  predicate DecidedAlready(e: Episode, d: Decision) {
    var latest := LatestFactual(e.decisions);
    latest.Some? && latest.value.decision == d && latest.value.ruleVersion == RULE_VERSION
  }

  lemma AppendSettlesExactly(e: Episode, d: Decision, clock: int, now: int)
    requires EpisodeOk(e, clock) && clock <= now
    ensures Stale(AppendIfChanged(e, d, now), now) <==> Stale(e, now) && DecidedAlready(e, d)
  {
    hide JobsOk, PaidFor, DecisionsOk;
    var f := AppendIfChanged(e, d, now);
    if f != e {
      AppendKeepsEpisode(e, d, clock, now);
      LatestIsLast(f.decisions, now);
    } else {
      assert |e.decisions + [Factual(d, RULE_VERSION, now)]| > |e.decisions|;
    }
  }

  /** In every run an evaluation leaves its episode stale exactly when the episode was stale and its latest decision is what
      the current rule decides on the events. */
  lemma EvaluationSettlesExactly(clock: int, es: seq<Event>, now: int, ep: nat, events: seq<Occurrence>)
    requires IsRun(Start(clock), es) && Enabled(After(Start(clock), es), Event(now, Call.Evaluate(ep, events)))
    ensures var e := After(Start(clock), es).episodes[ep];
            var f := Step(After(Start(clock), es), Event(now, Call.Evaluate(ep, events))).episodes[ep];
            Stale(f, now) <==> Stale(e, now) && DecidedAlready(e, EvaluateAt(FactsOf(events, now), now))
  {
    hide EvaluateAt, FactsOf, AppendIfChanged, Stale, EpisodeOk, DecidedAlready;
    RunsKeepOk(Start(clock), es);
    var s := After(Start(clock), es);
    assert EpisodeOk(s.episodes[ep], s.clock);
    AppendSettlesExactly(s.episodes[ep], EvaluateAt(FactsOf(events, now), now), s.clock, now);
  }

  /** Two events in an environment out of scope. */
  const FIRST := Occurrence(Some("user"), None, 0, false)
  const SECOND := Occurrence(Some("user"), None, 3, false)
  const OUT_OF_SCOPE := [FIRST, SECOND]

  const UNMOVED := Episode(true, 0, Some(3), [Factual(Decision(Watch, NoEvents, 0, 0), RULE_VERSION, 2)], [], [])

  /** The first event opens an episode and is settled on it, the episode is evaluated, and the second event is settled. */
  const SETTLED := [Event(0, Open(0, 0)), Event(1, Settle(0)), Event(2, Call.Evaluate(0, [FIRST])), Event(3, Settle(0))]

  /** Evaluations of the episode 0 on both events, from a time on. */
  ghost predicate Evaluated(es: seq<Event>, from: int) {
    && (forall i :: 0 <= i < |es| ==> es[i].call == Call.Evaluate(0, OUT_OF_SCOPE) && from <= es[i].now)
    && (forall i, j :: 0 <= i < j < |es| ==> es[i].now <= es[j].now)
  }

  lemma NothingInScope(events: seq<Occurrence>, now: int)
    requires forall o :: o in events ==> !o.inScope
    ensures EvaluateAt(FactsOf(events, now), now) == Decision(Watch, NoEvents, 0, 0)
  {
    assert UsersSeen(events, now) == {} && AnonymousSessions(events, now) == {};
  }

  lemma UnmovedStays(clock: int, e: Event)
    requires e.call == Call.Evaluate(0, OUT_OF_SCOPE) && clock <= e.now
    ensures var s := State(clock, map[0 := UNMOVED], []);
            Enabled(s, e) && Step(s, e) == State(e.now, map[0 := UNMOVED], [])
  {
    NothingInScope(OUT_OF_SCOPE, e.now);
    assert LatestFactual(UNMOVED.decisions) == Some(UNMOVED.decisions[0]);
  }

  lemma {:induction false} UnmovedRuns(clock: int, es: seq<Event>)
    requires Evaluated(es, clock)
    ensures var s := State(clock, map[0 := UNMOVED], []);
            IsRun(s, es) && After(s, es).episodes == map[0 := UNMOVED]
    decreases |es|
  {
    hide Enabled, Step;
    if es != [] {
      UnmovedStays(clock, es[0]);
      UnmovedRuns(es[0].now, es[1..]);
    }
  }

  lemma SettledSteps()
    ensures var s1 := Step(Start(0), SETTLED[0]);
            var s2 := Step(s1, SETTLED[1]);
            var s3 := Step(s2, SETTLED[2]);
            && Enabled(Start(0), SETTLED[0]) && Enabled(s1, SETTLED[1]) && Enabled(s2, SETTLED[2]) && Enabled(s3, SETTLED[3])
            && Step(s3, SETTLED[3]) == State(3, map[0 := UNMOVED], [])
  {
    hide EvaluateAt, FactsOf, LatestVerdict;
    NothingInScope([FIRST], 2);
    var s1 := Step(Start(0), SETTLED[0]);
    assert s1 == State(0, map[0 := Episode(true, 0, None, [], [], [])], []);
    var s2 := Step(s1, SETTLED[1]);
    assert s2 == State(1, map[0 := Episode(true, 0, Some(1), [], [], [])], []);
    var s3 := Step(s2, SETTLED[2]);
    assert AppendIfChanged(s2.episodes[0], Decision(Watch, NoEvents, 0, 0), 2).decisions == UNMOVED.decisions;
    assert s3.episodes[0] == Episode(true, 0, Some(1), UNMOVED.decisions, [], []);
    assert s3 == State(2, map[0 := Episode(true, 0, Some(1), UNMOVED.decisions, [], [])], []);
  }

  lemma SettledRun()
    ensures IsRun(Start(0), SETTLED) && After(Start(0), SETTLED) == State(3, map[0 := UNMOVED], [])
  {
    hide Enabled, Step;
    SettledSteps();
    OneStep(Start(0), SETTLED[0]);
    RunSnoc(Start(0), [SETTLED[0]], SETTLED[1]);
    RunSnoc(Start(0), [SETTLED[0]] + [SETTLED[1]], SETTLED[2]);
    RunSnoc(Start(0), [SETTLED[0]] + [SETTLED[1]] + [SETTLED[2]], SETTLED[3]);
    assert SETTLED == [SETTLED[0]] + [SETTLED[1]] + [SETTLED[2]] + [SETTLED[3]];
  }

  /** However often the sweep evaluates that episode, it stays stale. */
  lemma EvaluatedForEver(es: seq<Event>, now: int)
    requires Evaluated(es, 3)
    ensures IsRun(Start(0), SETTLED + es)
    ensures var t := After(Start(0), SETTLED + es); 0 in t.episodes && Stale(t.episodes[0], now)
  {
    hide IsRun, After;
    SettledRun();
    UnmovedRuns(3, es);
    RunConcat(Start(0), SETTLED, es);
    assert LatestFactual(UNMOVED.decisions) == Some(UNMOVED.decisions[0]);
  }

  // ---------------------------------------------------------------- the transactions

  lemma {:induction false} RunSnoc(s: State, es: seq<Event>, e: Event)
    requires IsRun(s, es) && Enabled(After(s, es), e)
    ensures IsRun(s, es + [e]) && After(s, es + [e]) == Step(After(s, es), e)
    decreases |es|
  {
    hide Enabled, Step;
    if es != [] {
      RunSnoc(Step(s, es[0]), es[1..], e);
      assert (es + [e])[1..] == es[1..] + [e];
    } else {
      assert (es + [e])[1..] == [];
    }
  }

  class InquiryTables {
    var clock: int
    var episodes: map<nat, Episode>
    ghost var refs: seq<Ref>

    ghost function View(): State
      reads this
    {
      State(clock, episodes, refs)
    }

    constructor (clock: int)
      ensures View() == Start(clock)
    {
      this.clock := clock;
      episodes := map[];
      refs := [];
    }

    /** Reads a clock that does not go back. */
    method Now() returns (now: int)
      ensures now >= clock
    {
      now :| now >= clock;
    }

    method Evaluate(now: int, ep: nat, events: seq<Occurrence>) returns (d: Decision)
      requires now >= clock && ep in episodes
      modifies this`clock, this`episodes
      ensures d == EvaluateAt(FactsOf(events, now), now)
      ensures Enabled(old(View()), Event(now, Call.Evaluate(ep, events)))
      ensures View() == Step(old(View()), Event(now, Call.Evaluate(ep, events)))
    {
      hide EvaluateAt, FactsOf, LatestFactual;
      d := EvaluateAt(FactsOf(events, now), now);
      clock := now;
      var x := episodes[ep];
      var latest := LatestFactual(x.decisions);
      if latest.None? || latest.value.decision != d || latest.value.ruleVersion != RULE_VERSION {
        x := x.(decisions := x.decisions + [Factual(d, RULE_VERSION, now)]);
      }
      episodes := episodes[ep := x];
    }

    /** Closes the open episodes of resolved issues. */
    method CloseResolvedEpisodes(now: int, resolved: set<nat>)
      requires now >= clock
      modifies this`clock, this`episodes
      ensures Enabled(old(View()), Event(now, Close(resolved)))
      ensures View() == Step(old(View()), Event(now, Close(resolved)))
    {
      clock := now;
      episodes := map ep | ep in episodes :: if ep in resolved then episodes[ep].(isOpen := false) else episodes[ep];
    }

    method ListStale(now: int) returns (stale: seq<nat>)
      ensures IsFirst(stale, StaleEpisodes(View(), now), SweepKey(episodes), SWEEP_LIMIT)
    {
      hide Stale;
      var candidates := set ep | ep in episodes && Stale(episodes[ep], now);
      stale := PickFirst(candidates, SweepKey(episodes), SWEEP_LIMIT);
    }

    method InquiryCandidates(now: int) returns (picked: seq<nat>, listed: seq<Ref>)
      requires now >= clock
      modifies this`clock, this`refs
      ensures Enabled(old(View()), Event(now, List(picked)))
      ensures listed == Refs(old(View()), picked)
      ensures View() == Step(old(View()), Event(now, List(picked)))
    {
      hide Candidate, MaxVersion, IsFirst;
      ghost var s := View();
      var candidates := set ep | ep in episodes && Candidate(episodes[ep]);
      picked := PickFirst(candidates, SweepKey(episodes), SWEEP_LIMIT);
      listed := [];
      FirstAreCandidates(picked, Candidates(s), SweepKey(episodes), SWEEP_LIMIT);
      var i := 0;
      while i < |picked|
        invariant 0 <= i <= |picked|
        invariant listed == Refs(s, picked[..i])
      {
        assert picked[i] in picked;
        assert picked[..i + 1] == picked[..i] + [picked[i]];
        listed := listed + [Ref(picked[i], MaxVersion(episodes[picked[i]].jobs) + 1)];
        i := i + 1;
      }
      assert picked[..i] == picked;
      clock := now;
      refs := refs + listed;
    }

    method AdmitOne(now: int, ep: nat, version: nat, ghost ref: nat) returns (answer: Admission)
      requires now >= clock && ep in episodes && ref < |refs| && refs[ref] == Ref(ep, version)
      modifies this`clock, this`episodes
      ensures answer == AdmissionOf(old(episodes)[ep], version)
      ensures Enabled(old(View()), Event(now, Admit(ref))) && View() == Step(old(View()), Event(now, Admit(ref)))
    {
      hide LatestFactual, HasVersion, HasActive;
      clock := now;
      var x := episodes[ep];
      if !x.isOpen {
        return NotAdmitted;
      }
      var latest := LatestFactual(x.decisions);
      if latest.None? || latest.value.decision.outcome != OpenInquiry {
        return NotAdmitted;
      }
      if HasVersion(x.jobs, version) || HasActive(x.jobs) {
        return Conflict;
      }
      episodes := episodes[ep := x.(jobs := x.jobs + [Job(version, true, Pending, now, now)])];
      return Inserted;
    }

    method RequestIssueReview(now: int, ep: nat) returns (inserted: bool)
      requires now >= clock && ep in episodes
      modifies this`clock, this`episodes
      ensures Enabled(old(View()), Event(now, Call.Review(ep))) && View() == Step(old(View()), Event(now, Call.Review(ep)))
      ensures inserted <==> |episodes[ep].jobs| > |old(episodes)[ep].jobs|
    {
      hide HasActive, MaxVersion;
      clock := now;
      var x := episodes[ep];
      inserted := x.isOpen && !HasActive(x.jobs);
      if inserted {
        episodes := episodes[ep := x.(jobs := x.jobs + [Job(MaxVersion(x.jobs) + 1, false, Pending, now, now)])];
      }
    }

    /** Evaluates the stale episodes, in order. */
    method EvaluateStale(stale: seq<nat>, events: nat -> seq<Occurrence>) returns (evaluated: nat, ghost es: seq<Event>)
      requires forall ep :: ep in stale ==> ep in episodes
      modifies this`clock, this`episodes
      ensures IsRun(old(View()), es) && View() == After(old(View()), es)
      ensures Evaluations(es, stale, events, |stale|) && evaluated == |stale|
    {
      hide Enabled, Step;
      evaluated, es := 0, [];
      ghost var s := View();
      while evaluated < |stale|
        invariant 0 <= evaluated <= |stale| && episodes.Keys == s.episodes.Keys
        invariant IsRun(s, es) && View() == After(s, es)
        invariant Evaluations(es, stale, events, evaluated)
      {
        var ep := stale[evaluated];
        assert ep in stale;
        var now := Now();
        ghost var t := View();
        ghost var e := Event(now, Call.Evaluate(ep, events(ep)));
        var _ := Evaluate(now, ep, events(ep));
        EvaluateKeepsEpisodes(t, e);
        RunSnoc(s, es, e);
        es := es + [e];
        evaluated := evaluated + 1;
      }
    }

    /** Admits the listed candidates, in order. */
    method AdmitAll(listed: seq<Ref>, ghost first: nat) returns (enqueued: nat, ghost es: seq<Event>)
      requires |refs| == first + |listed| && refs[first..] == listed
      requires forall k :: 0 <= k < |listed| ==> listed[k].episode in episodes
      modifies this`clock, this`episodes
      ensures IsRun(old(View()), es) && View() == After(old(View()), es)
      ensures Admissions(es, first, |listed|) && enqueued <= |listed|
    {
      hide Enabled, Step;
      enqueued, es := 0, [];
      ghost var s := View();
      var i := 0;
      while i < |listed|
        invariant 0 <= i <= |listed| && enqueued <= i
        invariant forall k :: 0 <= k < |listed| ==> listed[k].episode in episodes
        invariant IsRun(s, es) && View() == After(s, es)
        invariant Admissions(es, first, i)
      {
        var now := Now();
        assert refs[first + i] == refs[first..][i];
        ghost var t := View();
        ghost var e := Event(now, Admit(first + i));
        var answer := AdmitOne(now, listed[i].episode, listed[i].version, first + i);
        AdmitKeepsEpisodes(t, now, first + i);
        RunSnoc(s, es, e);
        es := es + [e];
        if answer == Inserted {
          enqueued := enqueued + 1;
        }
        i := i + 1;
      }
    }

    /** One sweep, as the run it is: it closes the resolved episodes, evaluates the first stale ones, lists the first
        candidates, and admits every candidate listed. */
    method Tick(resolved: set<nat>, events: nat -> seq<Occurrence>)
      returns (evaluated: nat, enqueued: nat, ghost es: seq<Event>, ghost sweep: Sweep)
      modifies this
      ensures IsRun(old(View()), es) && View() == After(old(View()), es)
      ensures SweepsAs(old(View()), resolved, events, es, sweep)
      ensures evaluated == |sweep.stale| && enqueued <= |sweep.picked|
    {
      hide Enabled, Step, IsRun, After, Evaluations, Admissions, SweepsAs, StaleEpisodes, IsFirst, SweepKey;
      ghost var s := View();
      var now := Now();
      CloseResolvedEpisodes(now, resolved);
      ghost var closing := Event(now, Close(resolved));
      OneStep(s, closing);
      ghost var c := View();
      CloseKeepsEpisodes(s, now, resolved);
      var listing := Now();
      var stale := ListStale(listing);
      ghost var evaluations;
      FirstAreCandidates(stale, StaleEpisodes(c, listing), SweepKey(c.episodes), SWEEP_LIMIT);
      StaleExist(c, listing);
      evaluated, evaluations := EvaluateStale(stale, events);
      RunConcat(s, [closing], evaluations);
      now := Now();
      ghost var t := View();
      var picked, listed := InquiryCandidates(now);
      ListKeepsEpisodes(t, now, picked);
      RunSnoc(s, [closing] + evaluations, Event(now, List(picked)));
      ghost var admissions;
      enqueued, admissions := AdmitAll(listed, |refs| - |listed|);
      RunConcat(s, [closing] + evaluations + [Event(now, List(picked))], admissions);
      sweep := Sweep(listing, stale, picked);
      es := [closing] + evaluations + [Event(now, List(picked))] + admissions;
      SweepDone(s, resolved, events, closing, evaluations, Event(now, List(picked)), admissions, sweep);
    }
  }

  lemma OneStep(s: State, e: Event)
    requires Enabled(s, e)
    ensures IsRun(s, [e]) && After(s, [e]) == Step(s, e)
  {
    hide Enabled, Step;
    assert [e][1..] == [];
  }

  lemma {:induction false} RunConcat(s: State, a: seq<Event>, b: seq<Event>)
    requires IsRun(s, a) && IsRun(After(s, a), b)
    ensures IsRun(s, a + b) && After(s, a + b) == After(After(s, a), b)
    decreases |a|
  {
    hide Enabled, Step;
    if a == [] {
      assert a + b == b;
    } else {
      RunConcat(Step(s, a[0]), a[1..], b);
      assert (a + b)[1..] == a[1..] + b;
    }
  }

  /** The events admit the references from `first` on, in order. */
  predicate Admissions(es: seq<Event>, first: nat, n: nat) {
    |es| == n && forall k :: 0 <= k < n ==> es[k].call == Admit(first + k)
  }

  /** The events evaluate the first `n` of the stale episodes, each on its own occurrences, in order. */
  predicate Evaluations(es: seq<Event>, stale: seq<nat>, events: nat -> seq<Occurrence>, n: nat)
    requires n <= |stale|
  {
    |es| == n && forall k :: 0 <= k < n ==> es[k].call == Call.Evaluate(stale[k], events(stale[k]))
  }

  /** The two lists of a sweep: what was stale at `now`, and the candidates. */
  datatype Sweep = Sweep(now: int, stale: seq<nat>, picked: seq<nat>)

  /** What a sweep consists of. */
  ghost predicate SweepsAs(s: State, resolved: set<nat>, events: nat -> seq<Occurrence>, es: seq<Event>, w: Sweep) {
    var n := |w.stale|;
    && |es| == 2 + n + |w.picked|
    && es[0].call == Close(resolved)
    && IsFirst(w.stale, StaleEpisodes(Step(s, es[0]), w.now), SweepKey(Step(s, es[0]).episodes), SWEEP_LIMIT)
    && Evaluations(es[1..1 + n], w.stale, events, n)
    && es[1 + n].call == List(w.picked)
    && Admissions(es[2 + n..], |s.refs|, |w.picked|)
  }

  lemma SweepDone(s: State, resolved: set<nat>, events: nat -> seq<Occurrence>,
                  closing: Event, evaluations: seq<Event>, listing: Event, admissions: seq<Event>, w: Sweep)
    requires closing.call == Close(resolved) && listing.call == List(w.picked)
    requires IsFirst(w.stale, StaleEpisodes(Step(s, closing), w.now), SweepKey(Step(s, closing).episodes), SWEEP_LIMIT)
    requires Evaluations(evaluations, w.stale, events, |w.stale|) && Admissions(admissions, |s.refs|, |w.picked|)
    ensures SweepsAs(s, resolved, events, [closing] + evaluations + [listing] + admissions, w)
  {
    hide IsFirst, StaleEpisodes, Step;
    var es := [closing] + evaluations + [listing] + admissions;
    assert es[0] == closing && es[1..1 + |evaluations|] == evaluations && es[2 + |evaluations|..] == admissions;
  }

  /** Where the candidates come from. */
  lemma FirstAreCandidates(picked: seq<nat>, candidates: set<nat>, key: nat -> (int, int), limit: nat)
    requires IsFirst(picked, candidates, key, limit)
    ensures |picked| <= limit && forall ep :: ep in picked ==> ep in candidates
  {
  }

  lemma StaleExist(s: State, now: int)
    ensures forall ep :: ep in StaleEpisodes(s, now) ==> ep in s.episodes
  {
  }

  lemma CloseKeepsEpisodes(s: State, now: int, resolved: set<nat>)
    ensures var t := Step(s, Event(now, Close(resolved))); t.episodes.Keys == s.episodes.Keys && t.refs == s.refs
  {
  }

  lemma EvaluateKeepsEpisodes(s: State, e: Event)
    requires e.call.Evaluate?
    ensures Step(s, e).episodes.Keys == s.episodes.Keys && Step(s, e).refs == s.refs
  {
  }

  lemma ListKeepsEpisodes(s: State, now: int, picked: seq<nat>)
    requires Enabled(s, Event(now, List(picked)))
    ensures var t := Step(s, Event(now, List(picked)));
            && t.episodes.Keys == s.episodes.Keys && t.refs == s.refs + Refs(s, picked)
            && |picked| <= SWEEP_LIMIT && forall k :: 0 <= k < |picked| ==> picked[k] in s.episodes
  {
    hide IsFirst, SweepKey;
    FirstAreCandidates(picked, Candidates(s), SweepKey(s.episodes), SWEEP_LIMIT);
    assert forall k :: 0 <= k < |picked| ==> picked[k] in picked;
  }

  lemma AdmitKeepsEpisodes(s: State, now: int, ref: nat)
    ensures var t := Step(s, Event(now, Admit(ref))); t.episodes.Keys == s.episodes.Keys && t.refs == s.refs
  {
  }
}
