/**
 What a pull-request webhook records: the receipt, the score_sync job and the group it leaves, field
 by field, for one delivery and over runs.
 */
module PrWebhookFacts {
  import opened Wrappers
  import opened PrWebhook

  // ---------------------------------------------------------------- one delivery

  /** The group waits for the pull request of the delivery. */
  predicate WaitsFor(group: Group, d: Delivery) {
    group.repo == d.repo && group.pr == Some(d.pr) && !group.ticket && group.status in {PrCreated, PrDraft}
  }

  predicate HasReceipt(s: State, id: string) { exists k :: 0 <= k < |s.receipts| && s.receipts[k].id == id }

  /** The receipt tells of the pull request of the delivery, for a group of its repository without ticket. */
  predicate Tells(s: State, k: nat, d: Delivery)
    requires k < |s.receipts|
  {
    var r := s.receipts[k];
    r.group in s.groups && s.groups[r.group].repo == d.repo && !s.groups[r.group].ticket && r.pr == d.pr
  }

  /** The delivery reaches a group: the one that waits for its PR, or, for a merge that no group waits for, the one of the
      latest receipt of the PR.  `job` is the fix job it is credited to. */
  ghost predicate Reaches(s: State, e: Event, g: nat, job: Option<string>) {
    && !HasReceipt(s, e.d.id)
    && (|| (e.owner == Some(g) && g in s.groups && WaitsFor(s.groups[g], e.d) && job == s.groups[g].fixJob)
        || (&& e.owner == None && (forall h :: h in s.groups ==> !WaitsFor(s.groups[h], e.d))
            && e.d.merged && e.latest.Some? && e.latest.value < |s.receipts| && Tells(s, e.latest.value, e.d)
            && (forall k :: 0 <= k < |s.receipts| && Tells(s, k, e.d) ==> s.receipts[k].at <= s.receipts[e.latest.value].at)
            && g == s.receipts[e.latest.value].group && job == s.receipts[e.latest.value].fixJob))
  }

  /** What becomes of the group that a delivery reaches: a merge merges one that waits for it or is parked, at the time of the merge;
      a close parks one that waits, a draft with a human, and others by their kind; anything else stays. */
  ghost predicate GroupAfter(before: Group, after: Group, d: Delivery) {
    && after.repo == before.repo && after.ticket == before.ticket && after.friction == before.friction
    && if d.merged && (WaitsFor(before, d) || before.status in {Investigated, AwaitingApproval})
       then after.status == Merged && after.mergedAt == Some(d.at) && after.pr == before.pr && after.fixJob == before.fixJob
       else if !d.merged
       then && after.pr == None && after.fixJob == None && after.mergedAt == before.mergedAt
            && (after.status == NeedsHuman <==> before.status == PrDraft)
            && (after.status == AwaitingApproval <==> before.status != PrDraft && before.friction)
            && (after.status == Investigated <==> before.status != PrDraft && !before.friction)
       else after == before
  }

  /** One delivery: it is recorded exactly when it reaches a group, as a duplicate exactly when its id has a receipt.  What is
      recorded is one receipt with the delivery's own id, PR, outcome and time and the fix job it is credited to, one
      score_sync job of the same if there is a fix job, and the change of that one group. */
  lemma DeliveryRecords(s: State, e: Event)
    requires Answered(s, e)
    ensures var (t, answer) := Process(s, e);
            && (answer == Duplicate <==> HasReceipt(s, e.d.id))
            && (!answer.Recorded? ==> t == s)
            && (answer.Recorded? ==> Recorded(s, e, t, answer.group))
            && (forall g, job :: Reaches(s, e, g, job) ==> answer == Answer.Recorded(g))
  {
    SeenIsReceipt(s, e.d.id);
    OwnsIsWaiting(s, e.d);
    AboutIsTelling(s, e.d);
    hide HasReceipt, Seen, WaitsFor, Owns, Tells, About;
    var x := EffectOf(s, e);
    if x.Some? {
      assert Reaches(s, e, x.value.g, x.value.fixJob);
      EffectIsAfter(s, e);
      var t := Process(s, e).0;
      assert Credited(s, e, t, x.value.g, x.value.fixJob);
    }
  }

  lemma SeenIsReceipt(s: State, id: string)
    ensures Seen(s, id) <==> HasReceipt(s, id)
  {
  }

  lemma OwnsIsWaiting(s: State, d: Delivery)
    ensures forall g :: g in s.groups ==> (Owns(s.groups[g], d.repo, d.pr) <==> WaitsFor(s.groups[g], d))
  {
  }

  lemma AboutIsTelling(s: State, d: Delivery)
    ensures forall k :: 0 <= k < |s.receipts| ==> (About(s, s.receipts[k], d.repo, d.pr) <==> Tells(s, k, d))
  {
  }

  lemma EffectIsAfter(s: State, e: Event)
    requires Answered(s, e) && EffectOf(s, e).Some?
    ensures var x := EffectOf(s, e).value; x.g in s.groups && GroupAfter(s.groups[x.g], x.group, e.d)
  {
  }

  /** The receipt of the delivery, credited to a fix job, with its score_sync job and the group it leaves. */
  ghost predicate Credited(s: State, e: Event, t: State, g: nat, job: Option<string>) {
    && Reaches(s, e, g, job) && g in s.groups
    && t.receipts == s.receipts + [Receipt(e.d.id, g, e.d.pr, e.d.merged, job, e.d.at)]
    && t.jobs == s.jobs + (if job == None then [] else [Job(g, job.value, e.d.merged, e.d.id, e.d.at)])
    && t.groups.Keys == s.groups.Keys && GroupAfter(s.groups[g], t.groups[g], e.d)
    && forall h :: h in s.groups && h != g ==> t.groups[h] == s.groups[h]
  }

  ghost predicate Recorded(s: State, e: Event, t: State, g: nat) {
    exists job :: Credited(s, e, t, g, job)
  }

  // ---------------------------------------------------------------- over runs

  /** A group that a close parked waits for approval exactly if it is a friction group. */
  lemma ParkedByKind(s: State, g: nat, repo: string, pr: nat, draft: bool, es: seq<Event>)
    requires Tracks(s, g, repo, pr, Open(draft)) && IsRun(s, es) && FairIds(s, es)
    requires PhaseAfter(s, g, repo, pr, Open(draft), es) == Parked
    ensures var t := After(s, es);
            && g in t.groups
            && (t.groups[g].status == AwaitingApproval <==> t.groups[g].friction)
            && (t.groups[g].status == Investigated <==> !t.groups[g].friction)
            && t.groups[g].pr == None
  {
    RunTracks(s, g, repo, pr, Open(draft), es);
  }

  /** A job as the receipt has it. */
  ghost predicate JobFits(r: Receipt, j: Job) {
    j.id == r.id && j.group == r.group && Some(j.fixJob) == r.fixJob && j.merged == r.merged && j.at == r.at
  }

  /** Jobs and receipts of a state: each job is that of a receipt, and each receipt with a fix job has a job. */
  ghost predicate JobsFit(s: State) {
    && (forall j :: j in s.jobs ==> exists k :: 0 <= k < |s.receipts| && JobFits(s.receipts[k], j))
    && (forall k :: 0 <= k < |s.receipts| && s.receipts[k].fixJob.Some? ==> exists j :: j in s.jobs && JobFits(s.receipts[k], j))
  }

  lemma ProcessKeepsJobsFit(s: State, e: Event)
    requires JobsFit(s) && Answered(s, e)
    ensures JobsFit(Process(s, e).0)
  {
    DeliveryRecords(s, e);
    var (t, answer) := Process(s, e);
    hide Process, Reaches, GroupAfter, Answered;
    if answer.Recorded? {
      var job :| Credited(s, e, t, answer.group, job);
      CreditKeepsJobsFit(s, e, t, answer.group, job);
    }
  }

  lemma CreditKeepsJobsFit(s: State, e: Event, t: State, g: nat, job: Option<string>)
    requires JobsFit(s) && Credited(s, e, t, g, job)
    ensures JobsFit(t)
  {
    hide Reaches, GroupAfter, JobFits;
    var n := |s.receipts|;
    var r := t.receipts[n];
    assert forall k :: 0 <= k < n ==> t.receipts[k] == s.receipts[k];
    NewJobFits(e, g, job);
    forall j | j in t.jobs ensures exists k :: 0 <= k < |t.receipts| && JobFits(t.receipts[k], j) {
      if j in s.jobs {
        var k :| 0 <= k < n && JobFits(s.receipts[k], j);
        assert JobFits(t.receipts[k], j);
      } else {
        assert JobFits(t.receipts[n], j);
      }
    }
    forall k | 0 <= k < |t.receipts| && t.receipts[k].fixJob.Some? ensures exists j :: j in t.jobs && JobFits(t.receipts[k], j) {
      if k < n {
        var j :| j in s.jobs && JobFits(s.receipts[k], j);
        assert j in t.jobs;
      } else {
        assert Job(g, job.value, e.d.merged, e.d.id, e.d.at) in t.jobs;
      }
    }
  }

  lemma NewJobFits(e: Event, g: nat, job: Option<string>)
    ensures job.Some? ==>
              JobFits(Receipt(e.d.id, g, e.d.pr, e.d.merged, job, e.d.at), Job(g, job.value, e.d.merged, e.d.id, e.d.at))
  {
  }

  lemma {:induction false} RunsKeepJobsFit(s: State, es: seq<Event>)
    requires JobsFit(s) && IsRun(s, es)
    ensures JobsFit(After(s, es))
    decreases |es|
  {
    hide JobsFit, Process, Answered;
    if es != [] {
      ProcessKeepsJobsFit(s, es[0]);
      RunsKeepJobsFit(Process(s, es[0]).0, es[1..]);
    }
  }

  /** After every run, the score_sync job of a receipt reports the receipt's own group, fix job, outcome and time. */
  lemma JobsReportTheirReceipts(s: State, es: seq<Event>, k: nat)
    requires JobsFit(s) && Consistent(s) && IsRun(s, es) && k < |After(s, es).receipts|
    ensures var t := After(s, es);
            var r := t.receipts[k];
            && (r.fixJob.Some? <==> exists j :: j in t.jobs && j.id == r.id)
            && (forall j :: j in t.jobs && j.id == r.id ==> JobFits(r, j))
  {
    RunsKeepJobsFit(s, es);
    RunsKeepConsistent(s, es);
    hide After;
    OwnJobs(After(s, es), k);
  }

  lemma OwnJobs(t: State, k: nat)
    requires JobsFit(t) && Consistent(t) && k < |t.receipts|
    ensures var r := t.receipts[k];
            && (r.fixJob.Some? <==> exists j :: j in t.jobs && j.id == r.id)
            && (forall j :: j in t.jobs && j.id == r.id ==> JobFits(r, j))
  {
    hide JobsFor;
    forall j | j in t.jobs && j.id == t.receipts[k].id ensures JobFits(t.receipts[k], j) {
      var i :| 0 <= i < |t.receipts| && JobFits(t.receipts[i], j);
      assert i == k;
    }
    if t.receipts[k].fixJob.Some? {
      var j :| j in t.jobs && JobFits(t.receipts[k], j);
      assert j.id == t.receipts[k].id;
    }
  }

  /** The receipt tells of one of the deliveries. */
  ghost predicate ComesFrom(r: Receipt, es: seq<Event>) {
    exists i :: 0 <= i < |es| && r.id == es[i].d.id && r.pr == es[i].d.pr && r.merged == es[i].d.merged && r.at == es[i].d.at
  }

  /** Over a run earlier receipts stay, and every new one has the id, PR, outcome and time of a delivery of the run. */
  lemma {:induction false} ReceiptsTellDeliveries(s: State, es: seq<Event>, k: nat)
    requires IsRun(s, es) && k < |After(s, es).receipts|
    ensures |s.receipts| <= |After(s, es).receipts|
    ensures if k < |s.receipts| then After(s, es).receipts[k] == s.receipts[k] else ComesFrom(After(s, es).receipts[k], es)
    decreases |es|
  {
    if es != [] {
      DeliveryRecords(s, es[0]);
      var t := Process(s, es[0]).0;
      if Process(s, es[0]).1.Recorded? {
        var job :| Credited(s, es[0], t, Process(s, es[0]).1.group, job);
      }
      hide Process, Answered, Reaches, GroupAfter, Recorded, Credited;
      ReceiptsTellDeliveries(t, es[1..], k);
      if k >= |t.receipts| {
        var r := After(t, es[1..]).receipts[k];
        var i :| 0 <= i < |es[1..]| && r.id == es[1..][i].d.id && r.pr == es[1..][i].d.pr && r.merged == es[1..][i].d.merged
                 && r.at == es[1..][i].d.at;
        assert es[i + 1] == es[1..][i];
      } else if k >= |s.receipts| {
        assert es[0].d.id == t.receipts[k].id;
      }
    }
  }
}
