/**
 The factual rule, the sweep and the reviews by the rows they read: reach and recency of events, staleness,
 candidacy, and what each call adds to an episode.
 */
module InquiryFacts {
  import opened Wrappers
  import opened Inquiry

  // ---------------------------------------------------------------- the rule

  /** In scope and not later than `at`, and in the seven days before it. */
  predicate Happened(o: Occurrence, at: int) { o.inScope && o.at <= at }
  predicate InWindow(o: Occurrence, at: int) { o.inScope && at - 7 * 86400 < o.at <= at }

  /** A user with an event in the window, and a session with one that names no user in any of its events there. */
  ghost predicate UserReached(events: seq<Occurrence>, at: int, user: string) {
    exists k :: 0 <= k < |events| && InWindow(events[k], at) && events[k].user == Some(user)
  }

  ghost predicate SessionReached(events: seq<Occurrence>, at: int, session: string) {
    && (exists k :: 0 <= k < |events| && InWindow(events[k], at) && events[k].session == Some(session))
    && (forall k :: 0 <= k < |events| && InWindow(events[k], at) && events[k].session == Some(session) ==> events[k].user == None)
  }

  /** The counts of the rule are those of distinct users and of anonymous sessions. */
  lemma ReachCounts(events: seq<Occurrence>, at: int)
    ensures forall user: string :: user in UsersSeen(events, at) <==> UserReached(events, at, user)
    ensures forall session: string :: session in AnonymousSessions(events, at) <==> SessionReached(events, at, session)
  {
    forall user: string ensures user in UsersSeen(events, at) <==> UserReached(events, at, user) {
      if UserReached(events, at, user) {
        var k :| 0 <= k < |events| && InWindow(events[k], at) && events[k].user == Some(user);
        assert events[k] in events && Recent(events[k], at);
      }
    }
    forall session: string ensures session in AnonymousSessions(events, at) <==> SessionReached(events, at, session) {
      if session in AnonymousSessions(events, at) {
        CountedIsReached(events, at, session);
      }
      if SessionReached(events, at, session) {
        ReachedIsCounted(events, at, session);
      }
    }
  }

  lemma CountedIsReached(events: seq<Occurrence>, at: int, session: string)
    requires session in AnonymousSessions(events, at)
    ensures SessionReached(events, at, session)
  {
    var o :| o in events && Recent(o, at) && o.session == Some(session)
             && forall p :: p in events && Recent(p, at) && p.session == o.session ==> p.user.None?;
    var k :| 0 <= k < |events| && events[k] == o;
    assert InWindow(events[k], at);
    forall k | 0 <= k < |events| && InWindow(events[k], at) && events[k].session == Some(session) ensures events[k].user == None {
      assert events[k] in events;
    }
  }

  lemma ReachedIsCounted(events: seq<Occurrence>, at: int, session: string)
    requires SessionReached(events, at, session)
    ensures session in AnonymousSessions(events, at)
  {
    var k :| 0 <= k < |events| && InWindow(events[k], at) && events[k].session == Some(session);
    var o := events[k];
    assert o in events && Recent(o, at) && o.session.value == session;
    forall p | p in events && Recent(p, at) && p.session == o.session ensures p.user.None? {
      var i :| 0 <= i < |events| && events[i] == p;
      assert InWindow(events[i], at);
    }
  }

  /** What the rule decides: watch before any event in scope; inactive, and silent since the last of them, when that is more
      than seven days ago; otherwise an inquiry for two users or anonymous sessions and watch for fewer, with their number. */
  lemma DecisionMeans(events: seq<Occurrence>, at: int)
    ensures var d := EvaluateAt(FactsOf(events, at), at);
            var units := |UsersSeen(events, at)| + |AnonymousSessions(events, at)|;
            && d.users == |UsersSeen(events, at)| && d.anonymous == |AnonymousSessions(events, at)|
            && ((forall k :: 0 <= k < |events| ==> !Happened(events[k], at)) <==> d.reason == NoEvents)
            && (d.reason == NoEvents ==> d.outcome == Watch)
            && (d.reason.SilentSince? ==>
                  && d.outcome == Inactive && d.reason.at < at - 7 * 86400
                  && (exists k :: 0 <= k < |events| && Happened(events[k], at) && events[k].at == d.reason.at)
                  && forall k :: 0 <= k < |events| && Happened(events[k], at) ==> events[k].at <= d.reason.at)
            && (d.reason.Units? ==>
                  && d.reason.n == units && (exists k :: 0 <= k < |events| && Happened(events[k], at) && events[k].at >= at - 7 * 86400)
                  && d.outcome == if units >= 2 then OpenInquiry else Watch)
            && d.reason != NoOccurrence
  {
    var last := LastSeen(events, at);
    forall k | 0 <= k < |events| && Happened(events[k], at) ensures last.Some? && events[k].at <= last.value {
      assert events[k] in events;
    }
    if last.Some? {
      var o :| o in events && o.inScope && o.at <= at && o.at == last.value;
      var k :| 0 <= k < |events| && events[k] == o;
      assert Happened(events[k], at);
    }
    hide LastSeen, UsersSeen, AnonymousSessions;
  }

  // ---------------------------------------------------------------- the latest rows

  /** The row that is last by time, and by order of writing among equal times. */
  ghost predicate IsLatest(ds: seq<Factual>, k: nat) {
    k < |ds| && (forall j :: 0 <= j < k ==> ds[j].at <= ds[k].at) && (forall j :: k < j < |ds| ==> ds[j].at < ds[k].at)
  }

  ghost predicate IsLatestVerdict(vs: seq<Verdict>, k: nat) {
    k < |vs| && (forall j :: 0 <= j < k ==> vs[j].at <= vs[k].at) && (forall j :: k < j < |vs| ==> vs[j].at < vs[k].at)
  }

  lemma {:induction false} LatestMeans(ds: seq<Factual>)
    ensures ds == [] <==> LatestFactual(ds) == None
    ensures ds != [] ==> exists k: nat :: IsLatest(ds, k) && LatestFactual(ds) == Some(ds[k])
  {
    if ds != [] {
      var n := |ds| - 1;
      LatestMeans(ds[..n]);
      if n == 0 {
        assert IsLatest(ds, 0);
      } else {
        var k: nat :| IsLatest(ds[..n], k) && LatestFactual(ds[..n]) == Some(ds[..n][k]);
        LatestNext(ds, k);
        assert LatestFactual(ds) == Some(if ds[k].at > ds[n].at then ds[k] else ds[n]);
      }
    }
  }

  lemma LatestNext(ds: seq<Factual>, k: nat)
    requires |ds| > 1 && IsLatest(ds[..|ds| - 1], k)
    ensures IsLatest(ds, if ds[k].at > ds[|ds| - 1].at then k else |ds| - 1)
  {
    var n := |ds| - 1;
    assert forall j :: 0 <= j < n ==> ds[..n][j] == ds[j];
  }

  lemma {:induction false} LatestVerdictMeans(vs: seq<Verdict>)
    ensures vs == [] <==> LatestVerdict(vs) == None
    ensures vs != [] ==> exists k: nat :: IsLatestVerdict(vs, k) && LatestVerdict(vs) == Some(vs[k])
  {
    if vs != [] {
      var n := |vs| - 1;
      LatestVerdictMeans(vs[..n]);
      if n == 0 {
        assert IsLatestVerdict(vs, 0);
      } else {
        var k: nat :| IsLatestVerdict(vs[..n], k) && LatestVerdict(vs[..n]) == Some(vs[..n][k]);
        LatestVerdictNext(vs, k);
        assert LatestVerdict(vs) == Some(if vs[k].at > vs[n].at then vs[k] else vs[n]);
      }
    }
  }

  lemma LatestVerdictNext(vs: seq<Verdict>, k: nat)
    requires |vs| > 1 && IsLatestVerdict(vs[..|vs| - 1], k)
    ensures IsLatestVerdict(vs, if vs[k].at > vs[|vs| - 1].at then k else |vs| - 1)
  {
    var n := |vs| - 1;
    assert forall j :: 0 <= j < n ==> vs[..n][j] == vs[j];
  }

  // ---------------------------------------------------------------- staleness and candidacy

  /** An open episode is stale exactly when it has no decision, or its latest is of an older rule, or more than seven days old and
      not inactive, or older than evidence settled since. */
  lemma StaleMeans(e: Episode, now: int)
    ensures !e.isOpen ==> !Stale(e, now)
    ensures e.isOpen && e.decisions == [] ==> Stale(e, now)
    ensures forall k: nat :: e.isOpen && IsLatest(e.decisions, k) ==>
              var d := e.decisions[k];
              (Stale(e, now) <==>
                 || d.ruleVersion < 1 || (d.at + 7 * 86400 < now && d.decision.outcome != Inactive)
                 || (e.settledAt.Some? && e.settledAt.value > d.at))
  {
    LatestMeans(e.decisions);
    if e.decisions != [] {
      var k: nat :| IsLatest(e.decisions, k) && LatestFactual(e.decisions) == Some(e.decisions[k]);
      forall j: nat | IsLatest(e.decisions, j) ensures j == k {
      }
    }
    hide LatestFactual;
  }

  predicate IsActive(j: Job) { j.status in {Pending, Claimed} }

  /** An episode is a candidate exactly when it is open, its latest factual decision asks for an inquiry, no inquiry job of it is
      active, and either it has neither verdict nor job yet, or its latest verdict waits or declines, every job was last touched
      before the factual decision, and the verdict is of an older prompt or the reach has grown by half. */
  lemma CandidateMeans(e: Episode, k: nat)
    requires IsLatest(e.decisions, k)
    ensures var d := e.decisions[k].decision;
            Candidate(e) <==>
              && e.isOpen && d.outcome == OpenInquiry && (forall j :: 0 <= j < |e.jobs| ==> !IsActive(e.jobs[j]))
              && (|| (e.verdicts == [] && e.jobs == [])
                  || exists v: nat :: IsLatestVerdict(e.verdicts, v) && MayAskAgain(e, e.decisions[k], e.verdicts[v]))
    ensures e.decisions == [] ==> !Candidate(e)
  {
    LatestMeans(e.decisions);
    var l: nat :| IsLatest(e.decisions, l) && LatestFactual(e.decisions) == Some(e.decisions[l]);
    assert l == k;
    LatestVerdictMeans(e.verdicts);
    assert HasActive(e.jobs) <==> !(forall j :: 0 <= j < |e.jobs| ==> !IsActive(e.jobs[j])) by {
      if HasActive(e.jobs) {
        var j :| 0 <= j < |e.jobs| && Active(e.jobs[j]);
        assert IsActive(e.jobs[j]);
      }
    }
    hide LatestFactual, LatestVerdict, HasActive;
    if e.verdicts != [] {
      var v: nat :| IsLatestVerdict(e.verdicts, v) && LatestVerdict(e.verdicts) == Some(e.verdicts[v]);
      forall w: nat | IsLatestVerdict(e.verdicts, w) ensures w == v {
      }
    }
  }

  predicate MayAskAgain(e: Episode, f: Factual, v: Verdict) {
    && v.waits && (forall j :: 0 <= j < |e.jobs| ==> e.jobs[j].updatedAt < f.at)
    && (v.promptVersion < 2 || (f.decision.users + f.decision.anonymous) * 2 >= v.units * 3)
  }

  // ---------------------------------------------------------------- what calls change

  /** The listing of a sweep: the candidates, or the stale ones, by opening time, then id, five hundred at most, and nobody who
      comes first is left out. */
  lemma OldestOpenedFirst(s: State, all: set<nat>, order: seq<nat>)
    requires IsFirst(order, all, SweepKey(s.episodes), SWEEP_LIMIT) && forall ep :: ep in all ==> ep in s.episodes
    ensures |order| <= 500 && forall ep :: ep in order ==> ep in all
    ensures forall i, j :: 0 <= i < j < |order| ==>
              var a, b := s.episodes[order[i]].openedAt, s.episodes[order[j]].openedAt;
              a < b || (a == b && order[i] < order[j])
    ensures forall ep :: ep in all && ep !in order ==>
              |order| == 500 && forall o :: o in order ==>
                var a, b := s.episodes[o].openedAt, s.episodes[ep].openedAt; a < b || (a == b && o < ep)
  {
    assert forall i :: 0 <= i < |order| ==> order[i] in order;
  }

  /** Answers of an admission: refused for a closed episode or one whose latest decision does not ask for an inquiry; a conflict
      where a job has that version or is active; otherwise one pending automatic job of that version. */
  lemma AdmissionMeans(e: Episode, version: nat, now: int)
    ensures var answer := AdmissionOf(e, version);
            && (answer == NotAdmitted <==>
                  !e.isOpen || e.decisions == [] || exists k: nat :: IsLatest(e.decisions, k) && e.decisions[k].decision.outcome != OpenInquiry)
            && (answer == Conflict <==>
                  answer != NotAdmitted && exists j :: 0 <= j < |e.jobs| && (e.jobs[j].version == version || IsActive(e.jobs[j])))
            && Admitted(e, version, now)
               == if answer == Inserted then e.(jobs := e.jobs + [Job(version, true, Pending, now, now)]) else e
  {
    LatestMeans(e.decisions);
    if e.decisions != [] {
      var k: nat :| IsLatest(e.decisions, k) && LatestFactual(e.decisions) == Some(e.decisions[k]);
      forall j: nat | IsLatest(e.decisions, j) ensures j == k {
      }
    }
    hide LatestFactual;
    ActiveOrVersion(e.jobs, version);
  }

  lemma ActiveOrVersion(jobs: seq<Job>, version: nat)
    ensures HasVersion(jobs, version) || HasActive(jobs) <==> exists j :: 0 <= j < |jobs| && (jobs[j].version == version || IsActive(jobs[j]))
  {
    if HasVersion(jobs, version) {
      var j :| 0 <= j < |jobs| && jobs[j].version == version;
    }
    if HasActive(jobs) {
      var j :| 0 <= j < |jobs| && Active(jobs[j]);
      assert IsActive(jobs[j]);
    }
    if j :| 0 <= j < |jobs| && (jobs[j].version == version || IsActive(jobs[j])) {
      assert jobs[j].version == version || Active(jobs[j]);
    }
  }

  /** A requested review adds one pending job that is not automatic, with the next version above all, exactly when the episode is
      open and no job is active. */
  lemma ReviewMeans(e: Episode, now: int)
    ensures var f := Reviewed(e, now);
            && f.(jobs := e.jobs) == e
            && (if e.isOpen && (forall j :: 0 <= j < |e.jobs| ==> !IsActive(e.jobs[j]))
                then && |f.jobs| == |e.jobs| + 1 && f.jobs[..|e.jobs|] == e.jobs
                     && var job := f.jobs[|e.jobs|];
                        && !job.automatic && job.status == Pending && job.createdAt == job.updatedAt == now
                        && (forall j :: 0 <= j < |e.jobs| ==> e.jobs[j].version < job.version)
                        && (job.version == 1 || exists j :: 0 <= j < |e.jobs| && e.jobs[j].version + 1 == job.version)
                else f.jobs == e.jobs)
  {
    VersionsBelow(e.jobs);
    assert HasActive(e.jobs) <==> !(forall j :: 0 <= j < |e.jobs| ==> !IsActive(e.jobs[j])) by {
      if HasActive(e.jobs) {
        var j :| 0 <= j < |e.jobs| && Active(e.jobs[j]);
        assert IsActive(e.jobs[j]);
      }
    }
    hide MaxVersion, HasActive;
  }

  lemma {:induction false} VersionsBelow(jobs: seq<Job>)
    ensures forall j :: 0 <= j < |jobs| ==> jobs[j].version <= MaxVersion(jobs)
    ensures MaxVersion(jobs) == 0 || exists j :: 0 <= j < |jobs| && jobs[j].version == MaxVersion(jobs)
  {
    if jobs != [] {
      var n := |jobs| - 1;
      VersionsBelow(jobs[..n]);
      if MaxVersion(jobs[..n]) > jobs[n].version {
        var j :| 0 <= j < n && jobs[..n][j].version == MaxVersion(jobs[..n]);
        assert jobs[j].version == MaxVersion(jobs);
      } else {
        assert jobs[n].version == MaxVersion(jobs);
      }
    }
  }

  /** What a step changes of one episode. */
  predicate Named(call: Call, ep: nat) { (call.Evaluate? || call.Review? || call.Decide? || call.Touch? || call.Settle?) && call.ep == ep }

  /** Episodes only appear when they are opened, open and empty, and never disappear; each call changes only the episode it names,
      only what it is for, and at its own time. */
  lemma StepChanges(s: State, e: Event, ep: nat)
    requires Enabled(s, e)
    ensures var t := Step(s, e);
            && t.clock == e.now
            && (ep in t.episodes <==> ep in s.episodes || (e.call.Open? && e.call.ep == ep))
            && (ep !in s.episodes && ep in t.episodes ==> t.episodes[ep] == Episode(true, e.call.openedAt, None, [], [], []))
            && (ep in s.episodes ==>
                  var x, y := s.episodes[ep], t.episodes[ep];
                  && (y.isOpen <==> x.isOpen && !(e.call.Close? && ep in e.call.resolved))
                  && y.openedAt == x.openedAt
                  && y.settledAt == (if e.call.Settle? && e.call.ep == ep then Some(e.now) else x.settledAt)
                  && y.verdicts == (if e.call.Decide? && e.call.ep == ep then x.verdicts + [e.call.verdict.(at := e.now)] else x.verdicts)
                  && (y.decisions == x.decisions || (e.call.Evaluate? && e.call.ep == ep))
                  && (y.jobs == x.jobs || Named(e.call, ep) || e.call.Admit?))
  {
    hide EvaluateAt, FactsOf, LatestFactual, HasActive, HasVersion, MaxVersion, Candidate, IsFirst;
  }

  /** An evaluation appends the decision of the rule at its time, unless the latest decision is the same by the current rule. */
  lemma EvaluationAppends(s: State, now: int, ep: nat, events: seq<Occurrence>)
    requires ep in s.episodes
    ensures var x, y := s.episodes[ep], Step(s, Event(now, Call.Evaluate(ep, events))).episodes[ep];
            var d := EvaluateAt(FactsOf(events, now), now);
            y.decisions == if exists k: nat :: IsLatest(x.decisions, k) && x.decisions[k].decision == d && x.decisions[k].ruleVersion == 1
                           then x.decisions else x.decisions + [Factual(d, 1, now)]
  {
    var x := s.episodes[ep];
    LatestMeans(x.decisions);
    if x.decisions != [] {
      var k: nat :| IsLatest(x.decisions, k) && LatestFactual(x.decisions) == Some(x.decisions[k]);
      forall j: nat | IsLatest(x.decisions, j) ensures j == k {
      }
    }
    hide EvaluateAt, FactsOf, LatestFactual;
  }

  /** A listing remembers, for each candidate it lists, the version above all its jobs. */
  lemma ListingRemembers(s: State, now: int, picked: seq<nat>, i: nat)
    requires i < |picked| && picked[i] in s.episodes
    ensures var t, jobs := Step(s, Event(now, List(picked))), s.episodes[picked[i]].jobs;
            && |t.refs| == |s.refs| + |picked| && t.refs[..|s.refs|] == s.refs
            && var ref := t.refs[|s.refs| + i];
               && ref.episode == picked[i] && ref.version >= 1
               && (forall j :: 0 <= j < |jobs| ==> jobs[j].version < ref.version)
               && (ref.version == 1 || exists j :: 0 <= j < |jobs| && jobs[j].version + 1 == ref.version)
  {
    VersionsBelow(s.episodes[picked[i]].jobs);
    hide MaxVersion;
  }
}
