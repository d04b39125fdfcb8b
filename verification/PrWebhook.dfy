/**
 Pull-request webhooks for error groups: ProcessPRWebhook and recoverReopenedMerge in
 packages/ingestion/db/queries.go.

 Each call is one transaction and one step.  Where a query may return any of several rows, the
 row it returned is part of the event.
 */
module PrWebhook {
  import opened Wrappers

  // ---------------------------------------------------------------- data

  datatype Status = PrCreated | PrDraft | Merged | NeedsHuman | Investigated | AwaitingApproval | Elsewhere

  datatype Group = Group(
    repo: string, ticket: bool, friction: bool,
    status: Status, pr: Option<nat>, fixJob: Option<string>, mergedAt: Option<int>)

  /** A row of pr_outcomes. */
  datatype Receipt = Receipt(id: string, group: nat, pr: nat, merged: bool, fixJob: Option<string>, at: int)

  /** A score_sync job as it was inserted. */
  datatype Job = Job(group: nat, fixJob: string, merged: bool, id: string, at: int)

  datatype State = State(groups: map<nat, Group>, receipts: seq<Receipt>, jobs: seq<Job>)

  /** A webhook: `merged` tells a merge from a close without merge, `at` is when GitHub says it happened. */
  datatype Delivery = Delivery(repo: string, pr: nat, merged: bool, id: string, at: int)

  /** A delivery and what its two queries returned: the group that owns the PR, the latest receipt about it. */
  datatype Event = Event(d: Delivery, owner: Option<nat>, latest: Option<nat>)

  datatype Answer = Nothing | Duplicate | Recorded(group: nat)

  // ---------------------------------------------------------------- the queries

  predicate Seen(s: State, id: string) {
    exists i :: 0 <= i < |s.receipts| && s.receipts[i].id == id
  }

  predicate Owns(group: Group, repo: string, pr: nat) {
    group.repo == repo && group.pr == Some(pr) && !group.ticket && (group.status == PrCreated || group.status == PrDraft)
  }

  predicate About(s: State, r: Receipt, repo: string, pr: nat) {
    r.group in s.groups && s.groups[r.group].repo == repo && !s.groups[r.group].ticket && r.pr == pr
  }

  ghost predicate OwnerAnswer(s: State, e: Event) {
    match e.owner
    case None => forall g :: g in s.groups ==> !Owns(s.groups[g], e.d.repo, e.d.pr)
    case Some(g) => g in s.groups && Owns(s.groups[g], e.d.repo, e.d.pr)
  }

  ghost predicate IsLatest(s: State, repo: string, pr: nat, latest: Option<nat>) {
    match latest
    case None => forall i :: 0 <= i < |s.receipts| ==> !About(s, s.receipts[i], repo, pr)
    case Some(k) =>
      && k < |s.receipts| && About(s, s.receipts[k], repo, pr)
      && forall i :: 0 <= i < |s.receipts| && About(s, s.receipts[i], repo, pr) ==> s.receipts[i].at <= s.receipts[k].at
  }

  ghost predicate Answered(s: State, e: Event) {
    OwnerAnswer(s, e) && IsLatest(s, e.d.repo, e.d.pr, e.latest)
  }

  // ---------------------------------------------------------------- the step

  function JobsOf(r: Receipt): seq<Job> {
    match r.fixJob
    case None => []
    case Some(job) => [Job(r.group, job, r.merged, r.id, r.at)]
  }

  function Record(s: State, r: Receipt, group: Group): State {
    State(s.groups[r.group := group], s.receipts + [r], s.jobs + JobsOf(r))
  }

  /** The owning group after its PR was merged or closed. */
  function Settled(group: Group, d: Delivery): Group {
    if d.merged then group.(status := Merged, mergedAt := Some(d.at))
    else if group.status == PrDraft then group.(status := NeedsHuman, pr := None, fixJob := None)
    else group.(status := if group.friction then AwaitingApproval else Investigated, pr := None, fixJob := None)
  }

  /** A group found through an earlier receipt: only one still parked where the close left it is merged. */
  function Recovered(group: Group, d: Delivery): Group {
    if group.status == Investigated || group.status == AwaitingApproval
    then group.(status := Merged, mergedAt := Some(d.at))
    else group
  }

  /** What a delivery changes: the group it reaches, the fix job it is credited to, and the group afterwards. */
  datatype Effect = Effect(g: nat, fixJob: Option<string>, group: Group)

  function EffectOf(s: State, e: Event): (r: Option<Effect>)
    requires Answered(s, e)
  {
    if Seen(s, e.d.id) then None
    else if e.owner.Some? then
      var group := s.groups[e.owner.value];
      Some(Effect(e.owner.value, group.fixJob, Settled(group, e.d)))
    else if e.d.merged && e.latest.Some? then
      var last := s.receipts[e.latest.value];
      Some(Effect(last.group, last.fixJob, Recovered(s.groups[last.group], e.d)))
    else None
  }

  function Process(s: State, e: Event): (State, Answer)
    requires Answered(s, e)
  {
    match EffectOf(s, e)
    case None => (s, if Seen(s, e.d.id) then Duplicate else Nothing)
    case Some(x) =>
      (Record(s, Receipt(e.d.id, x.g, e.d.pr, e.d.merged, x.fixJob, e.d.at), x.group), Recorded(x.g))
  }

  ghost predicate IsRun(s: State, es: seq<Event>)
    decreases |es|
  {
    es == [] || (Answered(s, es[0]) && IsRun(Process(s, es[0]).0, es[1..]))
  }

  ghost function After(s: State, es: seq<Event>): State
    requires IsRun(s, es)
    decreases |es|
  {
    if es == [] then s else After(Process(s, es[0]).0, es[1..])
  }

  // ---------------------------------------------------------------- receipts and jobs

  function JobsFor(receipts: seq<Receipt>): seq<Job> {
    if receipts == [] then [] else JobsFor(receipts[..|receipts| - 1]) + JobsOf(receipts[|receipts| - 1])
  }

  /** No delivery id has two receipts, and the jobs are those of the receipts, one for each that has a fix job. */
  ghost predicate Consistent(s: State) {
    && (forall i, j :: 0 <= i < j < |s.receipts| ==> s.receipts[i].id != s.receipts[j].id)
    && s.jobs == JobsFor(s.receipts)
  }

  lemma ProcessKeepsConsistent(s: State, e: Event)
    requires Consistent(s) && Answered(s, e)
    ensures Consistent(Process(s, e).0)
  {
    var t := Process(s, e).0;
    if t != s {
      var n := |s.receipts|;
      assert t.receipts[..n] == s.receipts;
      assert t.receipts[n].id == e.d.id;
    }
  }

  lemma {:induction false} RunsKeepConsistent(s: State, es: seq<Event>)
    requires Consistent(s) && IsRun(s, es)
    ensures Consistent(After(s, es))
    decreases |es|
  {
    if es != [] {
      ProcessKeepsConsistent(s, es[0]);
      RunsKeepConsistent(Process(s, es[0]).0, es[1..]);
    }
  }

  function JobCount(jobs: seq<Job>, id: string): nat {
    if jobs == [] then 0
    else JobCount(jobs[..|jobs| - 1], id) + (if jobs[|jobs| - 1].id == id then 1 else 0)
  }

  lemma JobCountSnoc(jobs: seq<Job>, r: Receipt, id: string)
    ensures JobCount(jobs + JobsOf(r), id) == JobCount(jobs, id) + (if r.fixJob.Some? && r.id == id then 1 else 0)
  {
    if r.fixJob.Some? {
      assert (jobs + JobsOf(r))[..|jobs|] == jobs;
    } else {
      assert jobs + JobsOf(r) == jobs;
    }
  }

  lemma {:induction false} NoReceiptNoJob(receipts: seq<Receipt>, id: string)
    requires forall i :: 0 <= i < |receipts| ==> receipts[i].id != id
    ensures JobCount(JobsFor(receipts), id) == 0
  {
    if receipts != [] {
      var n := |receipts| - 1;
      NoReceiptNoJob(receipts[..n], id);
      JobCountSnoc(JobsFor(receipts[..n]), receipts[n], id);
    }
  }

  lemma {:induction false} OneJob(receipts: seq<Receipt>, k: nat)
    requires k < |receipts|
    requires forall i, j :: 0 <= i < j < |receipts| ==> receipts[i].id != receipts[j].id
    ensures JobCount(JobsFor(receipts), receipts[k].id) == if receipts[k].fixJob.Some? then 1 else 0
  {
    var n := |receipts| - 1;
    if k < n {
      OneJob(receipts[..n], k);
    } else {
      NoReceiptNoJob(receipts[..n], receipts[k].id);
    }
    JobCountSnoc(JobsFor(receipts[..n]), receipts[n], receipts[k].id);
  }

  /** After any run from a consistent state, every receipt with a fix job has one score_sync job and the others none;
      deliveries without a receipt have no job. */
  lemma EveryReceiptHasItsJob(s: State, es: seq<Event>, id: string)
    requires Consistent(s) && IsRun(s, es)
    ensures var t := After(s, es);
            && (forall k :: 0 <= k < |t.receipts| && t.receipts[k].id == id ==>
                  JobCount(t.jobs, id) == if t.receipts[k].fixJob.Some? then 1 else 0)
            && (!Seen(t, id) ==> JobCount(t.jobs, id) == 0)
  {
    RunsKeepConsistent(s, es);
    var t := After(s, es);
    forall k | 0 <= k < |t.receipts| && t.receipts[k].id == id
      ensures JobCount(t.jobs, id) == if t.receipts[k].fixJob.Some? then 1 else 0
    {
      OneJob(t.receipts, k);
    }
    if !Seen(t, id) {
      NoReceiptNoJob(t.receipts, id);
    }
  }

  /** A delivery that arrives twice in a row changes nothing the second time, whatever its queries return then. */
  lemma RedeliveryChangesNothing(s: State, e: Event, again: Event)
    requires Answered(s, e) && again.d == e.d && Answered(Process(s, e).0, again)
    ensures Process(Process(s, e).0, again).0 == Process(s, e).0
  {
    var t := Process(s, e).0;
    if t != s {
      assert t.receipts[|s.receipts|].id == e.d.id;
    }
  }

  // ---------------------------------------------------------------- the fate of one pull request

  /** Where one pull request and its group stand. */
  datatype Phase = Open(draft: bool) | Parked | Human | Done(at: int)

  predicate Concerns(d: Delivery, repo: string, pr: nat) { d.repo == repo && d.pr == pr }

  function Next(phase: Phase, d: Delivery): Phase {
    match phase
    case Open(draft) => if d.merged then Done(d.at) else if draft then Human else Parked
    case Parked => if d.merged then Done(d.at) else Parked
    case Human => Human
    case Done(_) => phase
  }

  predicate InPhase(group: Group, pr: nat, phase: Phase) {
    match phase
    case Open(draft) => group.pr == Some(pr) && group.status == if draft then PrDraft else PrCreated
    case Parked => group.pr == None && group.status == (if group.friction then AwaitingApproval else Investigated)
    case Human => group.pr == None && group.status == NeedsHuman
    case Done(at) => group.status == Merged && group.mergedAt == Some(at)
  }

  /** Receipts about the pull request are the group's and tell of events that the phase accounts for. */
  ghost predicate ReceiptsFit(s: State, g: nat, repo: string, pr: nat, phase: Phase) {
    && (forall i :: 0 <= i < |s.receipts| && About(s, s.receipts[i], repo, pr) ==>
          && s.receipts[i].group == g && !phase.Open?
          && (s.receipts[i].merged ==> phase.Done? || phase.Human?))
    && (!phase.Open? ==> exists i :: 0 <= i < |s.receipts| && About(s, s.receipts[i], repo, pr))
  }

  /** Group `g` has the pull request to itself and is in that phase. */
  ghost predicate Tracks(s: State, g: nat, repo: string, pr: nat, phase: Phase) {
    && g in s.groups && s.groups[g].repo == repo && !s.groups[g].ticket && InPhase(s.groups[g], pr, phase)
    && (forall h :: h in s.groups && h != g ==> !Owns(s.groups[h], repo, pr))
    && ReceiptsFit(s, g, repo, pr, phase)
  }

  /** A receipt with the delivery's id is about the same pull request and the same event. */
  ghost predicate SameStory(s: State, d: Delivery) {
    forall i :: 0 <= i < |s.receipts| && s.receipts[i].id == d.id ==>
      About(s, s.receipts[i], d.repo, d.pr) && s.receipts[i].merged == d.merged
  }

  /** Ids name one event each, in the run and in the receipts so far. */
  ghost predicate FairIds(s: State, es: seq<Event>) {
    && (forall i, j :: 0 <= i < j < |es| && es[i].d.id == es[j].d.id ==>
          es[i].d.repo == es[j].d.repo && es[i].d.pr == es[j].d.pr && es[i].d.merged == es[j].d.merged)
    && (forall k :: 0 <= k < |es| ==> SameStory(s, es[k].d))
  }

  /** A merge of another pull request that is recovered through a receipt of `g`. */
  predicate ReachesByReceipt(s: State, e: Event, g: nat) {
    && !Seen(s, e.d.id) && e.d.merged && e.owner.None?
    && e.latest.Some? && e.latest.value < |s.receipts| && s.receipts[e.latest.value].group == g
  }

  /** A delivery about the pull request reaches its group; another one does only as the merge of an earlier pull request
      of the group. */
  lemma EffectReaches(s: State, g: nat, repo: string, pr: nat, phase: Phase, e: Event)
    requires Tracks(s, g, repo, pr, phase) && Answered(s, e) && EffectOf(s, e).Some?
    ensures EffectOf(s, e).value.g == g <==> Concerns(e.d, repo, pr) || ReachesByReceipt(s, e, g)
  {
  }

  /** The group in its next phase. */
  lemma EffectIsNextPhase(s: State, g: nat, repo: string, pr: nat, phase: Phase, e: Event)
    requires Tracks(s, g, repo, pr, phase) && Answered(s, e) && Concerns(e.d, repo, pr)
    requires SameStory(s, e.d)
    ensures match EffectOf(s, e)
            case None => Next(phase, e.d) == phase && !phase.Open?
            case Some(x) => x.g == g ==> InPhase(x.group, pr, Next(phase, e.d))
  {
  }

  /** A merge of an earlier pull request merges the group if it is parked, and leaves it alone otherwise. */
  lemma OldMergeEffect(s: State, g: nat, repo: string, pr: nat, phase: Phase, e: Event)
    requires Tracks(s, g, repo, pr, phase) && Answered(s, e) && !Concerns(e.d, repo, pr) && ReachesByReceipt(s, e, g)
    ensures EffectOf(s, e).Some? && EffectOf(s, e).value.g == g
    ensures InPhase(EffectOf(s, e).value.group, pr, if phase.Parked? then Done(e.d.at) else phase)
  {
  }

  /** No step makes another group the owner, or changes its repository. */
  lemma EffectOwnsNothing(s: State, e: Event, repo: string, pr: nat)
    requires Answered(s, e) && EffectOf(s, e).Some?
    ensures var x := EffectOf(s, e).value;
            && x.g in s.groups && s.groups[x.g].repo == e.d.repo && !s.groups[x.g].ticket
            && x.group.repo == s.groups[x.g].repo && x.group.ticket == s.groups[x.g].ticket
            && (!Owns(s.groups[x.g], repo, pr) ==> !Owns(x.group, repo, pr))
  {
  }

  lemma RecordKeepsReceiptsFit(s: State, g: nat, repo: string, pr: nat, phase: Phase, r: Receipt, group: Group, next: Phase)
    requires ReceiptsFit(s, g, repo, pr, phase)
    requires r.group in s.groups && group.repo == s.groups[r.group].repo && group.ticket == s.groups[r.group].ticket
    requires !next.Open? || next == phase
    requires phase.Done? || phase.Human? ==> next.Done? || next.Human?
    requires if About(s, r, repo, pr) then r.group == g && !next.Open? && (r.merged ==> next.Done? || next.Human?)
             else next.Open? <==> phase.Open?
    ensures ReceiptsFit(Record(s, r, group), g, repo, pr, next)
  {
    var t := Record(s, r, group);
    assert forall i :: 0 <= i < |s.receipts| ==> t.receipts[i] == s.receipts[i];
    assert forall x: Receipt :: About(t, x, repo, pr) <==> About(s, x, repo, pr);
    if !next.Open? {
      if About(s, r, repo, pr) {
        assert About(t, t.receipts[|s.receipts|], repo, pr);
      } else {
        var i :| 0 <= i < |s.receipts| && About(s, s.receipts[i], repo, pr);
        assert About(t, t.receipts[i], repo, pr);
      }
    }
  }

  /** The phase after any delivery: those about the pull request count, and the merge of an earlier pull request of the
      group counts while the group is parked. */
  function NextAfter(s: State, g: nat, repo: string, pr: nat, phase: Phase, e: Event): Phase {
    if Concerns(e.d, repo, pr) then Next(phase, e.d)
    else if ReachesByReceipt(s, e, g) && phase.Parked? then Done(e.d.at)
    else phase
  }

  lemma ProcessTracks(s: State, g: nat, repo: string, pr: nat, phase: Phase, e: Event)
    requires Tracks(s, g, repo, pr, phase) && Answered(s, e) && SameStory(s, e.d)
    ensures Tracks(Process(s, e).0, g, repo, pr, NextAfter(s, g, repo, pr, phase, e))
  {
    hide Answered, EffectOf, SameStory, ReceiptsFit, InPhase, ReachesByReceipt;
    if Concerns(e.d, repo, pr) {
      EffectIsNextPhase(s, g, repo, pr, phase, e);
    } else if ReachesByReceipt(s, e, g) {
      OldMergeEffect(s, g, repo, pr, phase, e);
    }
    if EffectOf(s, e).Some? {
      var x := EffectOf(s, e).value;
      EffectReaches(s, g, repo, pr, phase, e);
      EffectOwnsNothing(s, e, repo, pr);
      RecordKeepsReceiptsFit(s, g, repo, pr, phase, Receipt(e.d.id, x.g, e.d.pr, e.d.merged, x.fixJob, e.d.at), x.group,
                             NextAfter(s, g, repo, pr, phase, e));
    }
  }

  lemma ProcessKeepsFairIds(s: State, es: seq<Event>)
    requires es != [] && FairIds(s, es) && Answered(s, es[0])
    ensures FairIds(Process(s, es[0]).0, es[1..])
  {
    var e, t := es[0], Process(s, es[0]).0;
    forall k | 0 <= k < |es[1..]| ensures SameStory(t, es[1..][k].d) {
      assert es[1..][k] == es[k + 1];
      if EffectOf(s, e).Some? {
        StoryKept(s, e, es[k + 1].d);
      }
    }
  }

  lemma StoryKept(s: State, e: Event, d: Delivery)
    requires Answered(s, e) && EffectOf(s, e).Some? && SameStory(s, d)
    requires e.d.id == d.id ==> e.d.repo == d.repo && e.d.pr == d.pr && e.d.merged == d.merged
    ensures SameStory(Process(s, e).0, d)
  {
    hide Answered, EffectOf;
    EffectOwnsNothing(s, e, d.repo, d.pr);
  }

  /** The phase after a run. */
  ghost function PhaseAfter(s: State, g: nat, repo: string, pr: nat, phase: Phase, es: seq<Event>): Phase
    requires IsRun(s, es)
    decreases |es|
  {
    if es == [] then phase
    else PhaseAfter(Process(s, es[0]).0, g, repo, pr, NextAfter(s, g, repo, pr, phase, es[0]), es[1..])
  }

  lemma {:induction false} RunTracks(s: State, g: nat, repo: string, pr: nat, phase: Phase, es: seq<Event>)
    requires Tracks(s, g, repo, pr, phase) && IsRun(s, es) && FairIds(s, es)
    ensures Tracks(After(s, es), g, repo, pr, PhaseAfter(s, g, repo, pr, phase, es))
    decreases |es|
  {
    if es != [] {
      ProcessTracks(s, g, repo, pr, phase, es[0]);
      ProcessKeepsFairIds(s, es);
      hide Tracks, FairIds, Answered, Process, NextAfter;
      RunTracks(Process(s, es[0]).0, g, repo, pr, NextAfter(s, g, repo, pr, phase, es[0]), es[1..]);
    }
  }

  predicate IsMerge(d: Delivery, repo: string, pr: nat) { Concerns(d, repo, pr) && d.merged }
  predicate IsClose(d: Delivery, repo: string, pr: nat) { Concerns(d, repo, pr) && !d.merged }

  predicate FirstMerge(es: seq<Event>, repo: string, pr: nat, k: nat) {
    k < |es| && IsMerge(es[k].d, repo, pr) && forall i :: 0 <= i < k ==> !IsMerge(es[i].d, repo, pr)
  }

  predicate ClosedBefore(es: seq<Event>, repo: string, pr: nat, k: nat) {
    exists i :: 0 <= i < k && i < |es| && IsClose(es[i].d, repo, pr)
  }

  /** The state in front of delivery `i` of a run. */
  ghost function Before(s: State, es: seq<Event>, i: nat): State
    requires IsRun(s, es) && i <= |es|
    decreases i
  {
    if i == 0 then s else Before(Process(s, es[0]).0, es[1..], i - 1)
  }

  /** Delivery `i` merges an earlier pull request of `g`: it finds a receipt of the group. */
  ghost predicate OldMerge(s: State, g: nat, repo: string, pr: nat, es: seq<Event>, i: nat)
    requires IsRun(s, es)
  {
    i < |es| && !Concerns(es[i].d, repo, pr) && ReachesByReceipt(Before(s, es, i), es[i], g)
  }

  /** Delivery `i` would merge the group: a draft's only merge is its own before a close; any other pull request is merged
      by its own merge, and while it is closed by that of an earlier one. */
  ghost predicate Merges(s: State, g: nat, repo: string, pr: nat, phase: Phase, es: seq<Event>, i: nat)
    requires IsRun(s, es)
  {
    && i < |es|
    && match phase
       case Open(true) => IsMerge(es[i].d, repo, pr) && !ClosedBefore(es, repo, pr, i)
       case Open(false) => IsMerge(es[i].d, repo, pr) || (OldMerge(s, g, repo, pr, es, i) && ClosedBefore(es, repo, pr, i))
       case _ => IsMerge(es[i].d, repo, pr) || OldMerge(s, g, repo, pr, es, i)
  }

  ghost predicate MergesFirst(s: State, g: nat, repo: string, pr: nat, phase: Phase, es: seq<Event>, i: nat)
    requires IsRun(s, es)
  {
    Merges(s, g, repo, pr, phase, es, i) && forall j :: 0 <= j < i ==> !Merges(s, g, repo, pr, phase, es, j)
  }

  lemma {:induction false} HumanAndDoneStay(s: State, g: nat, repo: string, pr: nat, phase: Phase, es: seq<Event>)
    requires IsRun(s, es) && (phase.Human? || phase.Done?)
    ensures PhaseAfter(s, g, repo, pr, phase, es) == phase
    decreases |es|
  {
    if es != [] {
      HumanAndDoneStay(Process(s, es[0]).0, g, repo, pr, phase, es[1..]);
    }
  }

  /** Past a delivery that does not decide, the deliveries that would merge the group are the same. */
  lemma MergesShifts(s: State, g: nat, repo: string, pr: nat, phase: Phase, es: seq<Event>, i: nat)
    requires IsRun(s, es) && 0 < i < |es| && (phase.Open? || phase.Parked?)
    requires var next := NextAfter(s, g, repo, pr, phase, es[0]); next.Open? || next.Parked?
    ensures Merges(s, g, repo, pr, phase, es, i)
            <==> Merges(Process(s, es[0]).0, g, repo, pr, NextAfter(s, g, repo, pr, phase, es[0]), es[1..], i - 1)
  {
    hide Process, ReachesByReceipt, ClosedBefore;
    CloseShifts(es, repo, pr, i);
  }

  /** No delivery of the run would merge the group. */
  ghost predicate NoMerges(s: State, g: nat, repo: string, pr: nat, phase: Phase, es: seq<Event>)
    requires IsRun(s, es)
  {
    forall i :: 0 <= i < |es| ==> !Merges(s, g, repo, pr, phase, es, i)
  }

  lemma {:induction false} FirstMergeDecides(s: State, g: nat, repo: string, pr: nat, phase: Phase, es: seq<Event>, i: nat)
    requires IsRun(s, es) && (phase.Open? || phase.Parked?) && MergesFirst(s, g, repo, pr, phase, es, i)
    ensures PhaseAfter(s, g, repo, pr, phase, es) == Done(es[i].d.at)
    decreases |es|
  {
    hide Process, ReachesByReceipt, ClosedBefore;
    var t, next := Process(s, es[0]).0, NextAfter(s, g, repo, pr, phase, es[0]);
    if i == 0 {
      CloseComesLater(es, repo, pr);
      HumanAndDoneStay(t, g, repo, pr, next, es[1..]);
    } else {
      NotDecided(s, g, repo, pr, phase, es, i);
      forall j | 0 < j <= i
        ensures Merges(s, g, repo, pr, phase, es, j) <==> Merges(t, g, repo, pr, next, es[1..], j - 1)
      {
        MergesShifts(s, g, repo, pr, phase, es, j);
      }
      assert MergesFirst(t, g, repo, pr, next, es[1..], i - 1) by {
        forall j | 0 <= j < i - 1 ensures !Merges(t, g, repo, pr, next, es[1..], j) {
          assert !Merges(s, g, repo, pr, phase, es, j + 1);
        }
      }
      FirstMergeDecides(t, g, repo, pr, next, es[1..], i - 1);
    }
  }

  lemma CloseComesLater(es: seq<Event>, repo: string, pr: nat)
    ensures !ClosedBefore(es, repo, pr, 0)
  {
  }

  lemma NotDecided(s: State, g: nat, repo: string, pr: nat, phase: Phase, es: seq<Event>, i: nat)
    requires IsRun(s, es) && (phase.Open? || phase.Parked?) && MergesFirst(s, g, repo, pr, phase, es, i) && i > 0
    ensures var next := NextAfter(s, g, repo, pr, phase, es[0]); next.Open? || next.Parked?
  {
    hide Process, ReachesByReceipt;
    CloseComesLater(es, repo, pr);
    assert !Merges(s, g, repo, pr, phase, es, 0);
    assert phase == Open(true) ==> !IsClose(es[0].d, repo, pr);
  }

  /** Where a pull request stands after deliveries that do not merge it. */
  function Unmerged(phase: Phase, closed: bool): Phase {
    if !closed || phase.Parked? then phase else if phase == Open(true) then Human else Parked
  }

  lemma {:induction false} NoMergeDecides(s: State, g: nat, repo: string, pr: nat, phase: Phase, es: seq<Event>)
    requires IsRun(s, es) && (phase.Open? || phase.Parked?) && NoMerges(s, g, repo, pr, phase, es)
    ensures PhaseAfter(s, g, repo, pr, phase, es) == Unmerged(phase, ClosedBefore(es, repo, pr, |es|))
    decreases |es|
  {
    hide Process, ReachesByReceipt, ClosedBefore;
    CloseComesLater(es, repo, pr);
    if es != [] {
      var t, next := Process(s, es[0]).0, NextAfter(s, g, repo, pr, phase, es[0]);
      assert !Merges(s, g, repo, pr, phase, es, 0);
      ClosedFromFirst(es, repo, pr);
      if next.Human? {
        HumanAndDoneStay(t, g, repo, pr, next, es[1..]);
      } else {
        forall j | 0 <= j < |es[1..]| ensures !Merges(t, g, repo, pr, next, es[1..], j) {
          MergesShifts(s, g, repo, pr, phase, es, j + 1);
        }
        NoMergeDecides(t, g, repo, pr, next, es[1..]);
      }
    }
  }

  lemma ClosedFromFirst(es: seq<Event>, repo: string, pr: nat)
    requires es != []
    ensures ClosedBefore(es, repo, pr, |es|) <==> IsClose(es[0].d, repo, pr) || ClosedBefore(es[1..], repo, pr, |es| - 1)
  {
    CloseShifts(es, repo, pr, |es|);
  }

  lemma CloseShifts(es: seq<Event>, repo: string, pr: nat, k: nat)
    requires 0 < k <= |es|
    ensures ClosedBefore(es, repo, pr, k) <==> IsClose(es[0].d, repo, pr) || ClosedBefore(es[1..], repo, pr, k - 1)
  {
    if ClosedBefore(es, repo, pr, k) {
      var i :| 0 <= i < k && i < |es| && IsClose(es[i].d, repo, pr);
      assert i > 0 ==> es[1..][i - 1] == es[i];
    }
    if ClosedBefore(es[1..], repo, pr, k - 1) {
      var i :| 0 <= i < k - 1 && i < |es[1..]| && IsClose(es[1..][i].d, repo, pr);
      assert es[i + 1] == es[1..][i];
    }
  }

  lemma {:induction false} SomeMergesFirst(s: State, g: nat, repo: string, pr: nat, phase: Phase, es: seq<Event>, i: nat)
    requires IsRun(s, es) && Merges(s, g, repo, pr, phase, es, i)
    ensures exists k: nat :: k <= i && MergesFirst(s, g, repo, pr, phase, es, k)
    decreases i
  {
    hide Merges;
    if !MergesFirst(s, g, repo, pr, phase, es, i) {
      var j :| 0 <= j < i && Merges(s, g, repo, pr, phase, es, j);
      SomeMergesFirst(s, g, repo, pr, phase, es, j);
    }
  }

  lemma MergesInRange(s: State, g: nat, repo: string, pr: nat, phase: Phase, es: seq<Event>)
    requires IsRun(s, es)
    ensures forall i: nat :: MergesFirst(s, g, repo, pr, phase, es, i) ==> Merges(s, g, repo, pr, phase, es, i) && i < |es|
  {
  }

  /** The fate of a group's PR over any run of deliveries, in any order and with repetitions, merges of earlier PRs of the
      group among them: it ends merged if and only if some delivery would merge it, at the time of the first that would;
      otherwise it is as the closes leave it. */
  lemma MergedExactly(s: State, g: nat, repo: string, pr: nat, draft: bool, es: seq<Event>)
    requires Tracks(s, g, repo, pr, Open(draft)) && IsRun(s, es) && FairIds(s, es)
    ensures var t := After(s, es);
            && g in t.groups
            && (t.groups[g].status == Merged <==> exists i: nat :: Merges(s, g, repo, pr, Open(draft), es, i))
            && (forall i: nat :: MergesFirst(s, g, repo, pr, Open(draft), es, i) ==> t.groups[g].mergedAt == Some(es[i].d.at))
            && (t.groups[g].status != Merged ==>
                  InPhase(t.groups[g], pr, Unmerged(Open(draft), ClosedBefore(es, repo, pr, |es|))))
  {
    RunTracks(s, g, repo, pr, Open(draft), es);
    MergesInRange(s, g, repo, pr, Open(draft), es);
    hide After, FairIds, Merges, ClosedBefore, IsRun, ReceiptsFit, MergesFirst, PhaseAfter, Owns;
    forall i: nat | MergesFirst(s, g, repo, pr, Open(draft), es, i)
      ensures PhaseAfter(s, g, repo, pr, Open(draft), es) == Done(es[i].d.at)
    {
      FirstMergeDecides(s, g, repo, pr, Open(draft), es, i);
    }
    if i: nat :| Merges(s, g, repo, pr, Open(draft), es, i) {
      SomeMergesFirst(s, g, repo, pr, Open(draft), es, i);
    } else {
      NoMergeDecides(s, g, repo, pr, Open(draft), es);
    }
  }

  /** A merge of an earlier PR of the group after a close of this one and before delivery `k`. */
  ghost predicate Overtakes(s: State, g: nat, repo: string, pr: nat, es: seq<Event>, k: nat, i: nat)
    requires IsRun(s, es)
  {
    i < k && OldMerge(s, g, repo, pr, es, i) && ClosedBefore(es, repo, pr, i)
  }

  ghost predicate Overtaken(s: State, g: nat, repo: string, pr: nat, es: seq<Event>, k: nat)
    requires IsRun(s, es)
  {
    exists i: nat :: Overtakes(s, g, repo, pr, es, k, i)
  }

  ghost predicate OvertakesFirst(s: State, g: nat, repo: string, pr: nat, es: seq<Event>, k: nat, i: nat)
    requires IsRun(s, es)
  {
    Overtakes(s, g, repo, pr, es, k, i) && forall j: nat :: j < i ==> !Overtakes(s, g, repo, pr, es, k, j)
  }

  /** A run that contains a merge of the group's PR ends with the group merged, unless the PR was a draft and was closed
      before it.  The time is that of the first such merge, unless the PR was no draft and an earlier PR of the group was
      merged after a close and before it; then it is the time of the first of those. */
  lemma FirstMergeWins(s: State, g: nat, repo: string, pr: nat, draft: bool, es: seq<Event>, k: nat)
    requires Tracks(s, g, repo, pr, Open(draft)) && IsRun(s, es) && FairIds(s, es)
    requires FirstMerge(es, repo, pr, k)
    ensures var t := After(s, es);
            && g in t.groups
            && (t.groups[g].status == Merged <==> !(draft && ClosedBefore(es, repo, pr, k)))
            && (t.groups[g].status != Merged ==> t.groups[g].status == NeedsHuman)
            && (t.groups[g].status == Merged && (draft || !Overtaken(s, g, repo, pr, es, k)) ==>
                  t.groups[g].mergedAt == Some(es[k].d.at))
            && (forall i: nat :: !draft && OvertakesFirst(s, g, repo, pr, es, k, i) ==> t.groups[g].mergedAt == Some(es[i].d.at))
  {
    MergedExactly(s, g, repo, pr, draft, es);
    hide After, FairIds, Tracks, IsRun, FirstMerge, Overtakes, Overtaken, OvertakesFirst, Merges, MergesFirst, ClosedBefore;
    if draft {
      DraftMergesOnce(s, g, repo, pr, es, k);
    } else {
      OthersOvertake(s, g, repo, pr, es, k);
    }
  }

  lemma OthersOvertake(s: State, g: nat, repo: string, pr: nat, es: seq<Event>, k: nat)
    requires IsRun(s, es) && FirstMerge(es, repo, pr, k)
    ensures Merges(s, g, repo, pr, Open(false), es, k)
    ensures !Overtaken(s, g, repo, pr, es, k) ==> MergesFirst(s, g, repo, pr, Open(false), es, k)
    ensures forall i: nat :: OvertakesFirst(s, g, repo, pr, es, k, i) ==> MergesFirst(s, g, repo, pr, Open(false), es, i)
  {
    hide OldMerge, ClosedBefore, IsRun, IsMerge;
    forall i: nat | i <= k && (forall j: nat :: j < i ==> !Overtakes(s, g, repo, pr, es, k, j))
                    && Merges(s, g, repo, pr, Open(false), es, i)
      ensures MergesFirst(s, g, repo, pr, Open(false), es, i)
    {
      forall j | 0 <= j < i ensures !Merges(s, g, repo, pr, Open(false), es, j) {
        assert !Overtakes(s, g, repo, pr, es, k, j);
      }
    }
  }

  lemma DraftMergesOnce(s: State, g: nat, repo: string, pr: nat, es: seq<Event>, k: nat)
    requires IsRun(s, es) && FirstMerge(es, repo, pr, k)
    ensures (exists i: nat :: Merges(s, g, repo, pr, Open(true), es, i)) <==> !ClosedBefore(es, repo, pr, k)
    ensures !ClosedBefore(es, repo, pr, k) ==> MergesFirst(s, g, repo, pr, Open(true), es, k)
    ensures ClosedBefore(es, repo, pr, k) ==> ClosedBefore(es, repo, pr, |es|)
  {
    if !ClosedBefore(es, repo, pr, k) {
      assert Merges(s, g, repo, pr, Open(true), es, k);
    }
  }

  /** Without a merge of the group's PR the group ends merged if and only if the PR was not a draft and an earlier PR of the
      group was merged after a close; then at the time of the first such merge. */
  lemma OnlyMergesMerge(s: State, g: nat, repo: string, pr: nat, draft: bool, es: seq<Event>)
    requires Tracks(s, g, repo, pr, Open(draft)) && IsRun(s, es) && FairIds(s, es)
    requires forall i :: 0 <= i < |es| ==> !IsMerge(es[i].d, repo, pr)
    ensures var t := After(s, es);
            && g in t.groups
            && (t.groups[g].status == Merged <==> !draft && Overtaken(s, g, repo, pr, es, |es|))
            && (forall i: nat :: !draft && OvertakesFirst(s, g, repo, pr, es, |es|, i) ==> t.groups[g].mergedAt == Some(es[i].d.at))
  {
    MergedExactly(s, g, repo, pr, draft, es);
    hide After, FairIds, Tracks, IsRun, Overtakes, OvertakesFirst, Merges, MergesFirst, ClosedBefore;
    OnlyOthersOvertake(s, g, repo, pr, draft, es);
  }

  lemma OnlyOthersOvertake(s: State, g: nat, repo: string, pr: nat, draft: bool, es: seq<Event>)
    requires IsRun(s, es) && forall i :: 0 <= i < |es| ==> !IsMerge(es[i].d, repo, pr)
    ensures forall i: nat :: Merges(s, g, repo, pr, Open(draft), es, i) <==> !draft && Overtakes(s, g, repo, pr, es, |es|, i)
    ensures forall i: nat :: !draft && OvertakesFirst(s, g, repo, pr, es, |es|, i) ==> MergesFirst(s, g, repo, pr, Open(draft), es, i)
  {
    hide ClosedBefore, IsRun, IsMerge, ReachesByReceipt, Before;
  }

  /** Merges of earlier pull requests of the group make no difference as long as the PR is not closed before its first
      merge: draft or not, the group ends merged at that merge. */
  lemma MergeBeforeCloseWins(s: State, g: nat, repo: string, pr: nat, draft: bool, es: seq<Event>, k: nat)
    requires Tracks(s, g, repo, pr, Open(draft)) && IsRun(s, es) && FairIds(s, es)
    requires FirstMerge(es, repo, pr, k) && !ClosedBefore(es, repo, pr, k)
    ensures g in After(s, es).groups && After(s, es).groups[g].status == Merged
    ensures After(s, es).groups[g].mergedAt == Some(es[k].d.at)
  {
    FirstMergeWins(s, g, repo, pr, draft, es, k);
    hide After, Tracks, FairIds, OldMerge, IsRun;
    assert forall i: nat :: i < k && ClosedBefore(es, repo, pr, i) ==> ClosedBefore(es, repo, pr, k);
  }

  const OLD_RECEIPT := Receipt("z", 0, 5, false, Some("old"), 1)
  const WITH_OLD := State(map[0 := Group("org/app", false, false, PrCreated, Some(7), Some("fix"), None)],
                          [OLD_RECEIPT], JobsOf(OLD_RECEIPT))
  const CLOSE_NEW := Event(Delivery("org/app", 7, false, "a", 2), Some(0), None)
  const MERGE_OLD := Event(Delivery("org/app", 5, true, "b", 3), None, Some(0))
  const MERGE_NEW := Event(Delivery("org/app", 7, true, "c", 4), None, Some(1))

  const PARKED_GROUP := Group("org/app", false, false, Investigated, None, None, None)
  const CLOSED_NEW := Record(WITH_OLD, Receipt("a", 0, 7, false, Some("fix"), 2), PARKED_GROUP)
  const MERGED_OLD := Record(CLOSED_NEW, Receipt("b", 0, 5, true, Some("old"), 3), PARKED_GROUP.(status := Merged, mergedAt := Some(3)))

  lemma CloseStep()
    ensures Answered(WITH_OLD, CLOSE_NEW) && Process(WITH_OLD, CLOSE_NEW).0 == CLOSED_NEW
  {
    assert WITH_OLD.receipts == [OLD_RECEIPT];
  }

  lemma MergeOldStep()
    ensures Answered(CLOSED_NEW, MERGE_OLD) && Process(CLOSED_NEW, MERGE_OLD).0 == MERGED_OLD
  {
    assert CLOSED_NEW.receipts == [OLD_RECEIPT, Receipt("a", 0, 7, false, Some("fix"), 2)];
  }

  lemma MergeNewStep()
    ensures Answered(MERGED_OLD, MERGE_NEW)
    ensures var t := Process(MERGED_OLD, MERGE_NEW).0;
            0 in t.groups && t.groups[0].status == Merged && t.groups[0].mergedAt == Some(3) && |t.receipts| == 4
  {
    assert MERGED_OLD.receipts
        == [OLD_RECEIPT, Receipt("a", 0, 7, false, Some("fix"), 2), Receipt("b", 0, 5, true, Some("old"), 3)];
  }

  /** When they do make a difference: the PR is closed, an earlier PR of the group is merged, and then the PR is reopened and
      merged.  The group keeps the time of the earlier PR's merge. */
  lemma OldPrWins()
    ensures Tracks(WITH_OLD, 0, "org/app", 7, Open(false)) && IsRun(WITH_OLD, [CLOSE_NEW, MERGE_OLD, MERGE_NEW])
    ensures FairIds(WITH_OLD, [CLOSE_NEW, MERGE_OLD, MERGE_NEW]) && FirstMerge([CLOSE_NEW, MERGE_OLD, MERGE_NEW], "org/app", 7, 2)
    ensures var t := After(WITH_OLD, [CLOSE_NEW, MERGE_OLD, MERGE_NEW]);
            0 in t.groups && t.groups[0].status == Merged && t.groups[0].mergedAt == Some(3) && |t.receipts| == 4
  {
    hide Process, Answered, IsRun, After, Record;
    CloseStep();
    MergeOldStep();
    MergeNewStep();
    ThreeSteps(WITH_OLD, CLOSE_NEW, MERGE_OLD, MERGE_NEW);
  }

  lemma ThreeSteps(s: State, e: Event, f: Event, h: Event)
    requires Answered(s, e) && Answered(Process(s, e).0, f) && Answered(Process(Process(s, e).0, f).0, h)
    ensures IsRun(s, [e, f, h]) && After(s, [e, f, h]) == Process(Process(Process(s, e).0, f).0, h).0
  {
    hide Answered, Process;
    assert [e, f, h][1..] == [f, h];
    TwoSteps(Process(s, e).0, f, h);
  }

  const DRAFT := State(map[0 := Group("org/app", false, false, PrDraft, Some(7), Some("fix"), None)], [], [])
  const CLOSE_DRAFT := Event(Delivery("org/app", 7, false, "a", 1), Some(0), None)
  const MERGE_DRAFT := Event(Delivery("org/app", 7, true, "b", 2), None, Some(0))
  const CLOSED_DRAFT := Record(DRAFT, Receipt("a", 0, 7, false, Some("fix"), 1),
                               Group("org/app", false, false, NeedsHuman, None, None, None))

  lemma CloseDraftStep()
    ensures Answered(DRAFT, CLOSE_DRAFT) && Process(DRAFT, CLOSE_DRAFT).0 == CLOSED_DRAFT
  {
  }

  lemma MergeDraftStep()
    ensures Answered(CLOSED_DRAFT, MERGE_DRAFT)
    ensures var t := Process(CLOSED_DRAFT, MERGE_DRAFT).0;
            0 in t.groups && t.groups[0].status == NeedsHuman && |t.receipts| == 2
  {
    assert CLOSED_DRAFT.receipts == [Receipt("a", 0, 7, false, Some("fix"), 1)];
  }

  /** A draft that is closed, reopened and merged: the merge is recorded but the group stays with a human. */
  lemma ReopenedDraftStaysHuman()
    ensures Tracks(DRAFT, 0, "org/app", 7, Open(true)) && IsRun(DRAFT, [CLOSE_DRAFT, MERGE_DRAFT])
    ensures FairIds(DRAFT, [CLOSE_DRAFT, MERGE_DRAFT]) && FirstMerge([CLOSE_DRAFT, MERGE_DRAFT], "org/app", 7, 1)
    ensures var t := After(DRAFT, [CLOSE_DRAFT, MERGE_DRAFT]);
            0 in t.groups && t.groups[0].status == NeedsHuman && |t.receipts| == 2
  {
    hide Process, Answered, IsRun, After, Record;
    CloseDraftStep();
    MergeDraftStep();
    TwoSteps(DRAFT, CLOSE_DRAFT, MERGE_DRAFT);
  }

  lemma TwoSteps(s: State, e: Event, f: Event)
    requires Answered(s, e) && Answered(Process(s, e).0, f)
    ensures IsRun(s, [e, f]) && After(s, [e, f]) == Process(Process(s, e).0, f).0
  {
    hide Answered, Process;
    var t := Process(s, e).0;
    assert [e, f][0] == e && [e, f][1..] == [f];
    assert [f][0] == f && [f][1..] == [];
    assert IsRun(Process(t, f).0, []) && After(Process(t, f).0, []) == Process(t, f).0;
    assert IsRun(t, [f]) && After(t, [f]) == Process(t, f).0;
  }

  // ---------------------------------------------------------------- the transaction

  /** There is always a right answer to the receipt query. */
  lemma SomeLatest(s: State, repo: string, pr: nat, n: nat) returns (latest: Option<nat>)
    requires n <= |s.receipts|
    ensures IsLatest(State(s.groups, s.receipts[..n], s.jobs), repo, pr, latest)
    ensures n == |s.receipts| ==> IsLatest(s, repo, pr, latest)
  {
    latest := None;
    if n > 0 {
      latest := SomeLatest(s, repo, pr, n - 1);
      if About(s, s.receipts[n - 1], repo, pr) && (latest.None? || s.receipts[n - 1].at >= s.receipts[latest.value].at) {
        latest := Some(n - 1);
      }
    }
    assert s.receipts[..|s.receipts|] == s.receipts;
  }

  class PullRequestTables {
    var groups: map<nat, Group>
    var receipts: seq<Receipt>
    var jobs: seq<Job>

    /** Receipts have a foreign key to their group. */
    predicate Valid()
      reads this
    {
      forall i :: 0 <= i < |receipts| ==> receipts[i].group in groups
    }

    ghost function View(): State
      reads this
    {
      State(groups, receipts, jobs)
    }

    constructor (groups: map<nat, Group>)
      ensures Valid() && View() == State(groups, [], [])
    {
      this.groups := groups;
      receipts := [];
      jobs := [];
    }

    method InsertReceipt(r: Receipt)
      requires Valid() && r.group in groups
      modifies this`receipts, this`jobs
      ensures Valid() && receipts == old(receipts) + [r] && jobs == old(jobs) + JobsOf(r)
    {
      receipts := receipts + [r];
      if r.fixJob.Some? {
        jobs := jobs + [Job(r.group, r.fixJob.value, r.merged, r.id, r.at)];
      }
    }

    /** The latest receipt about the pull request, if there is one. */
    method LatestReceipt(repo: string, pr: nat) returns (latest: Option<nat>)
      ensures IsLatest(View(), repo, pr, latest)
    {
      latest := None;
      var i := 0;
      while i < |receipts|
        invariant 0 <= i <= |receipts|
        invariant latest.None? ==> forall j :: 0 <= j < i ==> !About(View(), receipts[j], repo, pr)
        invariant latest.Some? ==> latest.value < i && About(View(), receipts[latest.value], repo, pr)
        invariant latest.Some? ==> forall j :: 0 <= j < i && About(View(), receipts[j], repo, pr) ==>
                    receipts[j].at <= receipts[latest.value].at
      {
        var r := receipts[i];
        if r.group in groups && groups[r.group].repo == repo && !groups[r.group].ticket && r.pr == pr
           && (latest.None? || r.at >= receipts[latest.value].at)
        {
          latest := Some(i);
        }
        i := i + 1;
      }
    }

    method ProcessPRWebhook(d: Delivery) returns (answer: Answer, ghost e: Event)
      requires Valid()
      modifies this
      ensures Valid()
      ensures e.d == d && Answered(old(View()), e) && (View(), answer) == Process(old(View()), e)
    {
      var owners := set g | g in groups && Owns(groups[g], d.repo, d.pr);
      assert forall g :: g in groups && Owns(groups[g], d.repo, d.pr) ==> g in owners;
      ghost var latest := SomeLatest(View(), d.repo, d.pr, |receipts|);
      if i :| 0 <= i < |receipts| && receipts[i].id == d.id {
        ghost var owner := if owners == {} then None else var g :| g in owners; Some(g);
        e := Event(d, owner, latest);
        return Duplicate, e;
      }
      if owners != {} {
        var g :| g in owners;
        e := Event(d, Some(g), latest);
        InsertReceipt(Receipt(d.id, g, d.pr, d.merged, groups[g].fixJob, d.at));
        if d.merged {
          groups := groups[g := groups[g].(status := Merged, mergedAt := Some(d.at))];
        } else if groups[g].status == PrDraft {
          groups := groups[g := groups[g].(status := NeedsHuman, pr := None, fixJob := None)];
        } else {
          var parked := if groups[g].friction then AwaitingApproval else Investigated;
          groups := groups[g := groups[g].(status := parked, pr := None, fixJob := None)];
        }
        return Recorded(g), e;
      }
      e := Event(d, None, latest);
      if !d.merged {
        return Nothing, e;
      }
      answer, e := RecoverReopenedMerge(d);
    }

    method RecoverReopenedMerge(d: Delivery) returns (answer: Answer, ghost e: Event)
      requires Valid() && d.merged && !Seen(View(), d.id)
      requires forall g :: g in groups ==> !Owns(groups[g], d.repo, d.pr)
      modifies this
      ensures Valid()
      ensures e.d == d && Answered(old(View()), e) && (View(), answer) == Process(old(View()), e)
    {
      var latest := LatestReceipt(d.repo, d.pr);
      e := Event(d, None, latest);
      if latest.None? {
        return Nothing, e;
      }
      var g := receipts[latest.value].group;
      InsertReceipt(Receipt(d.id, g, d.pr, true, receipts[latest.value].fixJob, d.at));
      if groups[g].status == Investigated || groups[g].status == AwaitingApproval {
        groups := groups[g := groups[g].(status := Merged, mergedAt := Some(d.at))];
      } else {
        assert groups == groups[g := groups[g]];
      }
      answer := Recorded(g);
    }
  }
}
