/**
 What the steps of `Sessions` change and when exactly: which statement brings a session, a chunk, a
 status, a pin, a claim or a job about, on rows of which fields, and what each call answers.
 */
module SessionFacts {
  import opened Wrappers
  import opened Sessions

  /** The row a call is about, if it has the project the call names. */
  predicate Names(s: State, id: string, project: nat) { id in s.sessions && s.sessions[id].project == project }

  // ---------------------------------------------------------------- sessions

  /** Registration refuses a tombstoned id, answers a known id by whether its project is the one registered, and otherwise
      adds a recording session without chunks; it changes nothing else. */
  lemma RegistrationAnswers(s: State, now: int, id: string, project: nat, startedAt: int)
    ensures var (t, answer) := Step(s, now, Register(id, project, startedAt));
            && (answer == Tombstoned <==> id in s.tombstones)
            && (id !in s.tombstones && id in s.sessions ==>
                  && (answer == ProjectConflict <==> s.sessions[id].project != project)
                  && (answer == Existing <==> s.sessions[id].project == project))
            && (answer == Registered <==> id !in s.tombstones && id !in s.sessions)
            && (answer != Registered ==> t == s)
            && (answer == Registered ==>
                  && t.tombstones == s.tombstones && t.jobs == s.jobs
                  && t.sessions == s.sessions[id := Session(project, Recording, startedAt, None, 0, 0, 0, None, map[])])
  {
  }

  /** The only session that appears is the one registered, and the only one that disappears is the one deleted after it was
      marked; no step changes the project or the start of a session. */
  lemma SessionsComeAndGo(s: State, now: int, call: Call, id: string)
    requires Enabled(s, now, call)
    ensures var t := Step(s, now, call).0;
            && (id !in s.sessions ==>
                  (id in t.sessions <==> call.Register? && call.id == id && id !in s.tombstones))
            && (id in s.sessions ==>
                  && (id !in t.sessions <==> call.DeleteMarked? && call.id == id && Names(s, id, call.project)
                                             && s.sessions[id].status == Deleting)
                  && (id in t.sessions ==>
                        t.sessions[id].project == s.sessions[id].project && t.sessions[id].startedAt == s.sessions[id].startedAt))
  {
    hide Claimable, Expired, Idle, HasLive, HasPending, AwaitsAnalysis;
  }

  /** A session starts to be deleted exactly when it is marked by a call of its project and started before the 90-day cap, or
      before the project's window with no pin beyond now; exactly then the step adds a tombstone, and it is that session's. */
  lemma DeletionStartsExactly(s: State, now: int, call: Call, id: string)
    requires Enabled(s, now, call) && id in s.sessions && s.sessions[id].status != Deleting
    ensures var t, x := Step(s, now, call).0, s.sessions[id];
            var starts := call.MarkDeleting? && call.id == id && x.project == call.project
                          && (|| x.startedAt < now - 90 * 86400
                              || (&& x.startedAt < now - call.retentionDays * 86400
                                  && (x.retainUntil == None || x.retainUntil.value <= now)));
            && (id in t.sessions && t.sessions[id].status == Deleting <==> starts)
            && (starts ==> id in t.tombstones)
  {
    hide Claimable, Idle, HasLive, HasPending, AwaitsAnalysis;
  }

  /** Tombstones are added one at a time, when a deletion starts. */
  lemma TombstonesExactly(s: State, now: int, call: Call)
    requires Enabled(s, now, call)
    ensures var t := Step(s, now, call).0;
            t.tombstones == s.tombstones
                            + (if call.MarkDeleting? && Names(s, call.id, call.project) && s.sessions[call.id].status != Deleting
                                  && t.sessions[call.id].status == Deleting
                               then {call.id} else {})
  {
    hide Claimable, Expired, Idle, HasLive, HasPending, AwaitsAnalysis;
  }

  /** The job of the session that a worker's call is about. */
  predicate JobOf(s: State, k: nat, id: string) { k < |s.jobs| && s.jobs[k].session == Some(id) }

  /** Whether a session that is not being deleted starts to be, and otherwise: it closes exactly when it records and its last
      chunk, or its start, is older than the idle time; and the worker sets the status of its job's session, whatever it was,
      to analysis_failed when its job dies. */
  lemma StatusExactly(s: State, now: int, call: Call, id: string)
    requires Enabled(s, now, call) && id in s.sessions && id in Step(s, now, call).0.sessions
    ensures var x, y := s.sessions[id], Step(s, now, call).0.sessions[id];
            var idle := call.CloseIdle? && x.status == Recording
                        && (if x.lastChunkAt.Some? then x.lastChunkAt.value else x.startedAt) < now - call.idleMinutes * 60;
            if idle then y.status == Closed
            else if call.SetStatus? && JobOf(s, call.job, id) then y.status == call.status
            else if call.ReapJob? && call.jobStatus == DeadLetter && JobOf(s, call.job, id) then y.status == AnalysisFailed
            else y.status == x.status || (call.MarkDeleting? && y.status == Deleting)
  {
    hide Claimable, Expired, HasLive, HasPending, AwaitsAnalysis;
  }

  /** A pin moves retain_until to the latest of what it was, the epoch, and thirty days from now, or for an incident ninety days
      from the start; nothing else moves it. */
  lemma PinsExactly(s: State, now: int, call: Call, id: string)
    requires Enabled(s, now, call) && id in s.sessions && id in Step(s, now, call).0.sessions
    ensures var x, y := s.sessions[id], Step(s, now, call).0.sessions[id];
            var until := if call.PinForEvent? && call.id == id && x.project == call.project then Some(now + 30 * 86400)
                         else if call.PinForIncident? && call.id == id then Some(x.startedAt + 90 * 86400) else None;
            && (until == None ==> y.retainUntil == x.retainUntil)
            && (until != None ==>
                  && y.retainUntil.Some? && y.retainUntil.value >= until.value
                  && (x.retainUntil.Some? ==> y.retainUntil.value >= x.retainUntil.value)
                  && (y.retainUntil == until || y.retainUntil == x.retainUntil || y.retainUntil == Some(0)))
  {
    hide Claimable, Expired, Idle, HasLive, HasPending, AwaitsAnalysis;
  }

  // ---------------------------------------------------------------- chunks

  predicate HasChunk(s: State, id: string, q: int) { id in s.sessions && q in s.sessions[id].chunks }

  /** Uploads are taken for a session of that project that is not being deleted. */
  predicate Takes(s: State, id: string, project: nat) { Names(s, id, project) && s.sessions[id].status != Deleting }

  /** Answers of reservation and commit: not found unless the session takes uploads; a number is taken when it has a row; a
      commit needs the row and is a retry if it is committed. */
  lemma UploadAnswers(s: State, now: int, id: string, project: nat, q: int, size: int)
    ensures var answer := Step(s, now, Reserve(id, project, q)).1;
            && (answer == NotFound <==> !Takes(s, id, project))
            && (answer == SeqTaken <==> Takes(s, id, project) && HasChunk(s, id, q))
            && (answer == Done <==> Takes(s, id, project) && !HasChunk(s, id, q))
    ensures var answer := Step(s, now, Commit(id, project, q, size)).1;
            && (answer == NotFound <==> !Takes(s, id, project) || !HasChunk(s, id, q))
            && (answer == AlreadyCommitted <==> Takes(s, id, project) && HasChunk(s, id, q) && s.sessions[id].chunks[q].upload.Some?)
            && (answer == Done <==> Takes(s, id, project) && HasChunk(s, id, q) && s.sessions[id].chunks[q].upload.None?)
  {
  }

  /** A chunk appears exactly when it is reserved, empty, and disappears exactly when an uncommitted reservation is released
      or with its session. */
  lemma ChunksComeAndGo(s: State, now: int, call: Call, id: string, q: int)
    requires Enabled(s, now, call) && id in s.sessions && id in Step(s, now, call).0.sessions
    ensures var t := Step(s, now, call).0;
            && (!HasChunk(s, id, q) ==>
                  && (HasChunk(t, id, q) <==> call.Reserve? && call.id == id && call.seqNo == q && Takes(s, id, call.project))
                  && (HasChunk(t, id, q) ==> t.sessions[id].chunks[q] == Chunk(None, false, 0, None)))
            && (HasChunk(s, id, q) ==>
                  (!HasChunk(t, id, q) <==> call.Release? && call.id == id && call.seqNo == q && Names(s, id, call.project)
                                            && s.sessions[id].chunks[q].upload == None))
  {
    hide Claimable, Expired, Idle, HasLive, HasPending, AwaitsAnalysis;
  }

  /** A chunk is committed by the one commit that finds it uncommitted, with the time and size of that commit. */
  lemma UploadsExactly(s: State, now: int, call: Call, id: string, q: int)
    requires Enabled(s, now, call) && HasChunk(s, id, q) && HasChunk(Step(s, now, call).0, id, q)
    ensures var c, d := s.sessions[id].chunks[q], Step(s, now, call).0.sessions[id].chunks[q];
            d.upload == if call.Commit? && call.id == id && call.seqNo == q && Takes(s, id, call.project) && c.upload == None
                        then Some(Upload(now, call.size)) else c.upload
  {
    hide Claimable, Expired, Idle, HasLive, HasPending, AwaitsAnalysis;
  }

  /** The time of the last chunk is that of the last commit, and the next number is the least above it and all before. */
  lemma CommitsMoveCounters(s: State, now: int, call: Call, id: string)
    requires Enabled(s, now, call) && id in s.sessions && id in Step(s, now, call).0.sessions
    ensures var x, y := s.sessions[id], Step(s, now, call).0.sessions[id];
            var commits := call.Commit? && call.id == id && Takes(s, id, call.project)
                           && HasChunk(s, id, call.seqNo) && x.chunks[call.seqNo].upload == None;
            && (!commits ==> y.lastChunkAt == x.lastChunkAt && y.nextSeq == x.nextSeq)
            && (commits ==>
                  && y.lastChunkAt == Some(now)
                  && y.nextSeq == if x.nextSeq > call.seqNo then x.nextSeq else call.seqNo + 1)
  {
    hide Claimable, Expired, Idle, HasLive, HasPending, AwaitsAnalysis;
  }

  /** A chunk is readable once it is marked scrubbed by a call of its project, and stays so. */
  lemma ReadableExactly(s: State, now: int, call: Call, id: string, q: int)
    requires Enabled(s, now, call) && HasChunk(s, id, q) && HasChunk(Step(s, now, call).0, id, q)
    ensures var c, d := s.sessions[id].chunks[q], Step(s, now, call).0.sessions[id].chunks[q];
            d.scrubbed <==> c.scrubbed || (call.MarkScrubbed? && call.id == id && call.seqNo == q && Names(s, id, call.project))
  {
    hide Claimable, Expired, Idle, HasLive, HasPending, AwaitsAnalysis;
  }

  /** A claim counts an attempt and leases the chunk from now; marking it scrubbed or failed gives the lease back. */
  lemma LeasesExactly(s: State, now: int, call: Call, id: string, q: int)
    requires Enabled(s, now, call) && HasChunk(s, id, q) && HasChunk(Step(s, now, call).0, id, q)
    ensures var c, d := s.sessions[id].chunks[q], Step(s, now, call).0.sessions[id].chunks[q];
            var claimed := call.Claim? && (id, q) in call.picked;
            var returned := (call.MarkScrubbed? || call.MarkScrubFailed?) && call.id == id && call.seqNo == q
                            && Names(s, id, call.project);
            && d.attempts == c.attempts + (if claimed then 1 else 0)
            && d.claimedAt == if claimed then Some(now) else if returned then None else c.claimedAt
  {
    hide Claimable, Expired, Idle, HasLive, HasPending, AwaitsAnalysis;
  }

  /** What may be claimed: an uploaded chunk of a session that is not being deleted, not readable yet, settled for 30 seconds,
      not leased in the last two minutes, and tried fewer than five times. */
  lemma ClaimsNeed(s: State, now: int, limit: nat, picked: set<(string, int)>)
    ensures Enabled(s, now, Claim(limit, picked)) <==>
            && |picked| <= limit
            && forall p :: p in picked ==>
                 && HasChunk(s, p.0, p.1) && s.sessions[p.0].status != Deleting
                 && var c := s.sessions[p.0].chunks[p.1];
                    && !c.scrubbed && c.upload.Some? && c.upload.value.at + 30 <= now
                    && (c.claimedAt == None || c.claimedAt.value + 120 < now) && c.attempts < 5
  {
  }

  function UploadedAt(s: State, p: (string, int)): int {
    if HasChunk(s, p.0, p.1) then s.sessions[p.0].chunks[p.1].upload.GetOr(Upload(0, 0)).at else 0
  }

  /** What a claim of chunks takes: claimable ones that are not locked, the earliest uploads first, all of them or the limit. */
  lemma OldestUploadsFirst(s: State, now: int, locked: set<(string, int)>, limit: nat, order: seq<(string, int)>)
    requires IsFirst(order, ClaimableChunks(s.sessions, now) - locked, ByUpload(s.sessions), limit)
    ensures |order| <= limit && forall i, j :: 0 <= i < j < |order| ==>
              order[i] != order[j] && UploadedAt(s, order[i]) <= UploadedAt(s, order[j])
    ensures forall p :: p in order ==> p !in locked
    ensures forall p: (string, int) ::
              HasChunk(s, p.0, p.1) && Enabled(s, now, Claim(1, {p})) && p !in locked && p !in order ==>
                |order| == limit && forall r :: r in order ==> UploadedAt(s, r) <= UploadedAt(s, p)
  {
    hide Claimable;
    forall p: (string, int) | HasChunk(s, p.0, p.1) && Enabled(s, now, Claim(1, {p})) && p !in locked && p !in order
      ensures |order| == limit && forall r :: r in order ==> UploadedAt(s, r) <= UploadedAt(s, p)
    {
      assert p in {p};
      assert p in ClaimableChunks(s.sessions, now) - locked;
      UploadKey(s, now, p);
      forall r | r in order ensures UploadedAt(s, r) <= UploadedAt(s, p) {
        UploadKey(s, now, r);
      }
    }
    forall i, j | 0 <= i < j < |order| ensures UploadedAt(s, order[i]) <= UploadedAt(s, order[j]) {
      assert order[i] in order && order[j] in order;
      UploadKey(s, now, order[i]);
      UploadKey(s, now, order[j]);
    }
  }

  lemma UploadKey(s: State, now: int, p: (string, int))
    requires p in ClaimableChunks(s.sessions, now)
    ensures ByUpload(s.sessions)(p).0 == UploadedAt(s, p)
  {
  }

  /** What the backfill takes: the latest starts first, all candidates or the batch; a candidate is recent, waits for an
      analysis, has no current one and no live job. */
  lemma NewestStartsFirst(s: State, current: set<string>, now: int, batch: nat, order: seq<string>)
    requires IsFirst(order, BackfillCandidates(s, current, now), ByStart(s.sessions), batch)
    ensures |order| <= batch && forall id :: id in order ==> id in s.sessions && id !in current
    ensures forall i, j :: 0 <= i < j < |order| ==>
              order[i] != order[j] && order[i] in s.sessions && order[j] in s.sessions
              && s.sessions[order[i]].startedAt >= s.sessions[order[j]].startedAt
    ensures forall id :: id in s.sessions && Enabled(s, now, Backfill(1, [id])) && id !in current && id !in order ==>
              |order| == batch && forall r :: r in order ==> r in s.sessions && s.sessions[r].startedAt >= s.sessions[id].startedAt
  {
    hide HasLive, AwaitsAnalysis;
    forall i, j | 0 <= i < j < |order|
      ensures order[i] in s.sessions && order[j] in s.sessions && s.sessions[order[i]].startedAt >= s.sessions[order[j]].startedAt
    {
      assert order[i] in order && order[j] in order;
    }
    forall id | id in s.sessions && Enabled(s, now, Backfill(1, [id])) && id !in current && id !in order
      ensures |order| == batch && forall r :: r in order ==> r in s.sessions && s.sessions[r].startedAt >= s.sessions[id].startedAt
    {
      assert id in [id];
      assert id in BackfillCandidates(s, current, now);
    }
  }

  // ---------------------------------------------------------------- jobs

  predicate LiveJob(j: Job, id: string) { j.session == Some(id) && j.status in {Pending, Claimed} }

  predicate HasLiveJob(s: State, id: string) { exists k :: 0 <= k < |s.jobs| && LiveJob(s.jobs[k], id) }

  predicate AddsJobs(call: Call) { call.MarkScrubbed? || call.CloseIdle? || call.Backfill? || call.BudgetRetry? }

  /** Jobs are only appended, as pending ones; earlier ones keep their place, lose their session exactly when it is deleted,
      and change status exactly when the worker claims, finishes or reaps them. */
  lemma JobsExactly(s: State, now: int, call: Call, k: nat)
    requires Enabled(s, now, call) && k < |s.jobs|
    ensures var t := Step(s, now, call).0;
            && |s.jobs| <= |t.jobs| && (|s.jobs| < |t.jobs| ==> AddsJobs(call))
            && (forall n :: |s.jobs| <= n < |t.jobs| ==> t.jobs[n].status == Pending && t.jobs[n].session.Some?)
            && t.jobs[k].session == (if call.DeleteMarked? && s.jobs[k].session == Some(call.id) && Names(s, call.id, call.project)
                                        && s.sessions[call.id].status == Deleting
                                     then None else s.jobs[k].session)
            && t.jobs[k].status == (if call.ClaimJob? && call.job == k then Claimed
                                    else if (call.FinishJob? || call.ReapJob?) && call.job == k then call.jobStatus
                                    else s.jobs[k].status)
  {
    hide Claimable, Expired, Idle, HasLive, HasPending, AwaitsAnalysis;
  }

  /** A readable chunk adds one job for its session exactly when the session is closed, analyzed or failed and has no live
      job. */
  lemma ScrubAddsJobExactly(s: State, now: int, id: string, project: nat, q: int)
    ensures var t := Step(s, now, MarkScrubbed(id, project, q)).0;
            t.jobs == if Names(s, id, project) && s.sessions[id].status in {Closed, Analyzed, AnalysisFailed} && !HasLiveJob(s, id)
                      then s.jobs + [Job(Some(id), Pending)] else s.jobs
  {
    LiveIsLive(s, id);
    assert NewJobs([id]) == [Job(Some(id), Pending)];
  }

  /** A budget retry adds one job for the session exactly when none of its jobs is pending. */
  lemma BudgetRetryAddsJobExactly(s: State, now: int, id: string)
    ensures var t := Step(s, now, BudgetRetry(id)).0;
            t.jobs == if exists k :: 0 <= k < |s.jobs| && s.jobs[k] == Job(Some(id), Pending)
                      then s.jobs else s.jobs + [Job(Some(id), Pending)]
  {
    assert NewJobs([id]) == [Job(Some(id), Pending)];
  }

  /** What the backfill may take: sessions of the last thirty days that are closed, analyzed or failed, without live job. */
  lemma BackfillsNeed(s: State, now: int, batch: nat, order: seq<string>)
    ensures Enabled(s, now, Backfill(batch, order)) <==>
            && |order| <= batch && (forall i, j :: 0 <= i < j < |order| ==> order[i] != order[j])
            && forall id :: id in order ==>
                 && id in s.sessions && s.sessions[id].status in {Closed, Analyzed, AnalysisFailed}
                 && s.sessions[id].startedAt >= now - 30 * 86400 && !HasLiveJob(s, id)
  {
    forall id: string ensures HasLive(s.jobs, id) <==> HasLiveJob(s, id) {
      LiveIsLive(s, id);
    }
    hide HasLive, HasLiveJob;
  }

  lemma LiveIsLive(s: State, id: string)
    ensures HasLive(s.jobs, id) <==> HasLiveJob(s, id)
  {
    if HasLive(s.jobs, id) {
      var k :| 0 <= k < |s.jobs| && LiveFor(s.jobs[k], id);
      assert LiveJob(s.jobs[k], id);
    }
    if HasLiveJob(s, id) {
      var k :| 0 <= k < |s.jobs| && LiveJob(s.jobs[k], id);
      assert LiveFor(s.jobs[k], id);
    }
  }

  /** Closing takes all idle sessions, each once, and appends one job for each, in that order; the backfill appends one for each
      recent session it picks that waits for an analysis and has no live job. */
  lemma BatchesAddJobs(s: State, now: int, call: Call)
    requires Enabled(s, now, call) && (call.CloseIdle? || call.Backfill?)
    ensures var t := Step(s, now, call).0;
            && t.jobs[..|s.jobs|] == s.jobs && |t.jobs| == |s.jobs| + |call.order|
            && (forall k :: 0 <= k < |call.order| ==> t.jobs[|s.jobs| + k] == Job(Some(call.order[k]), Pending))
            && (forall i, j :: 0 <= i < j < |call.order| ==> call.order[i] != call.order[j])
    ensures call.CloseIdle? ==>
              forall id :: id in call.order <==>
                && id in s.sessions && s.sessions[id].status == Recording
                && (if s.sessions[id].lastChunkAt.Some? then s.sessions[id].lastChunkAt.value else s.sessions[id].startedAt)
                   < now - call.idleMinutes * 60
    ensures call.Backfill? ==>
              && |call.order| <= call.batch
              && forall id :: id in call.order ==>
                   && id in s.sessions && s.sessions[id].status in {Closed, Analyzed, AnalysisFailed}
                   && s.sessions[id].startedAt >= now - 30 * 86400 && !HasLiveJob(s, id)
  {
    if call.Backfill? {
      BackfillsNeed(s, now, call.batch, call.order);
    }
    hide HasLive, HasLiveJob;
  }
}
