/**
 The life of recorded sessions, their chunks, tombstones and analysis jobs
 (packages/ingestion/db/sessions.go, sessions_read.go, capture.go; the worker's moves from
 packages/worker/src/db.ts).

 Each transaction is one step at a clock reading in seconds.  Where a statement may pick any of
 several rows, or write rows in any order, the choice is part of the step.
 */
module Sessions {
  import opened Wrappers

  const DAY := 86400
  /** Retention ceiling, even for pinned sessions. */
  const HARD_CAP := 90 * DAY
  /** How long an event pins its session. */
  const PIN := 30 * DAY
  const MAX_SCRUB_ATTEMPTS := 5
  const UPLOAD_SETTLE := 30
  const SCRUB_LEASE := 120

  // ---------------------------------------------------------------- data

  datatype Status = Recording | Closed | Analyzing | Analyzed | AnalysisFailed | Deleting

  /** A row of session_chunks; `upload` holds its time and size once it is committed. */
  datatype Chunk = Chunk(upload: Option<Upload>, scrubbed: bool, attempts: nat, claimedAt: Option<int>)
  datatype Upload = Upload(at: int, size: int)

  /** A row of sessions with its chunks, which are deleted with it, by sequence number. */
  datatype Session = Session(
    project: nat, status: Status, startedAt: int, lastChunkAt: Option<int>,
    chunkCount: int, bytesStored: int, nextSeq: int, retainUntil: Option<int>,
    chunks: map<int, Chunk>)

  /** A session_analysis job. */
  datatype JobStatus = Pending | Claimed | Completed | DeadLetter
  datatype Job = Job(session: Option<string>, status: JobStatus)

  datatype State = State(sessions: map<string, Session>, tombstones: set<string>, jobs: seq<Job>)

  const EMPTY := State(map[], {}, [])

  datatype Call =
    | Register(id: string, project: nat, startedAt: int)
    | Reserve(id: string, project: nat, seqNo: int)
    | Commit(id: string, project: nat, seqNo: int, size: int)
    | Release(id: string, project: nat, seqNo: int)
    | Claim(limit: nat, picked: set<(string, int)>)
    | MarkScrubbed(id: string, project: nat, seqNo: int)
    | MarkScrubFailed(id: string, project: nat, seqNo: int)
    | MarkDeleting(id: string, project: nat, retentionDays: int)
    | DeleteMarked(id: string, project: nat)
    | CloseIdle(idleMinutes: int, order: seq<string>)
    | Backfill(batch: nat, order: seq<string>)
    | PinForEvent(id: string, project: nat)
    | PinForIncident(id: string)
    | SetStatus(job: nat, status: Status)
    | ClaimJob(job: nat)
    | FinishJob(job: nat, jobStatus: JobStatus)
    | ReapJob(job: nat, jobStatus: JobStatus)
    | BudgetRetry(id: string)

  datatype Answer = Done | Registered | Existing | Tombstoned | ProjectConflict | NotFound | SeqTaken | AlreadyCommitted

  // ---------------------------------------------------------------- rows

  predicate Committed(c: Chunk) { c.upload.Some? }

  predicate Found(s: State, id: string, project: nat) { id in s.sessions && s.sessions[id].project == project }

  /** The session can take uploads. */
  predicate Accepts(s: State, id: string, project: nat) {
    Found(s, id, project) && s.sessions[id].status != Deleting
  }

  predicate Claimable(x: Session, q: int, now: int) {
    && q in x.chunks && x.status != Deleting
    && var c := x.chunks[q];
       && !c.scrubbed && Committed(c) && c.upload.value.at <= now - UPLOAD_SETTLE
       && (c.claimedAt.None? || c.claimedAt.value < now - SCRUB_LEASE)
       && c.attempts < MAX_SCRUB_ATTEMPTS
  }

  /** Past the hard cap, or past the project's window and not pinned. */
  predicate Expired(x: Session, now: int, retentionDays: int) {
    || x.startedAt < now - HARD_CAP
    || (x.startedAt < now - retentionDays * DAY && (x.retainUntil.None? || x.retainUntil.value <= now))
  }

  predicate Idle(x: Session, now: int, minutes: int) {
    x.status == Recording && x.lastChunkAt.GetOr(x.startedAt) < now - minutes * 60
  }

  predicate AwaitsAnalysis(x: Session) { x.status in {Closed, Analyzed, AnalysisFailed} }

  predicate Live(j: Job) { j.status == Pending || j.status == Claimed }

  predicate LiveFor(j: Job, id: string) { j.session == Some(id) && Live(j) }

  predicate HasLive(jobs: seq<Job>, id: string) { exists i :: 0 <= i < |jobs| && LiveFor(jobs[i], id) }

  predicate HasPending(jobs: seq<Job>, id: string) {
    exists i :: 0 <= i < |jobs| && jobs[i].session == Some(id) && jobs[i].status == Pending
  }

  function Max(a: int, b: int): int { if a >= b then a else b }

  function Pinned(x: Session, until: int): Session {
    x.(retainUntil := Some(Max(x.retainUntil.GetOr(0), until)))
  }

  function NewJobs(order: seq<string>): seq<Job> {
    seq(|order|, i requires 0 <= i < |order| => Job(Some(order[i]), Pending))
  }

  function Detached(jobs: seq<Job>, id: string): seq<Job> {
    seq(|jobs|, i requires 0 <= i < |jobs| => if jobs[i].session == Some(id) then jobs[i].(session := None) else jobs[i])
  }

  function Put(s: State, id: string, x: Session): State {
    s.(sessions := s.sessions[id := x])
  }

  // ---------------------------------------------------------------- changes to one session

  function Fresh(project: nat, startedAt: int): Session {
    Session(project, Recording, startedAt, None, 0, 0, 0, None, map[])
  }

  function Reserved(x: Session, q: int): Session {
    x.(chunks := x.chunks[q := Chunk(None, false, 0, None)])
  }

  function CommittedChunk(x: Session, now: int, q: int, size: int): Session
    requires q in x.chunks
  {
    x.(chunks := x.chunks[q := x.chunks[q].(upload := Some(Upload(now, size)))],
       lastChunkAt := Some(now), chunkCount := x.chunkCount + 1, bytesStored := x.bytesStored + size,
       nextSeq := Max(x.nextSeq, q + 1))
  }

  function Released(x: Session, q: int): Session {
    x.(chunks := x.chunks - {q})
  }

  function ClaimedChunks(x: Session, id: string, now: int, picked: set<(string, int)>): Session {
    x.(chunks := map q | q in x.chunks ::
         if (id, q) in picked then x.chunks[q].(attempts := x.chunks[q].attempts + 1, claimedAt := Some(now)) else x.chunks[q])
  }

  function Scrubbed(x: Session, q: int): Session
    requires q in x.chunks
  {
    x.(chunks := x.chunks[q := x.chunks[q].(scrubbed := true, claimedAt := None)])
  }

  function ScrubFailed(x: Session, q: int): Session
    requires q in x.chunks
  {
    x.(chunks := x.chunks[q := x.chunks[q].(claimedAt := None)])
  }

  // ---------------------------------------------------------------- the step

  /** The choices a step carries are ones its statement could make. */
  ghost predicate Enabled(s: State, now: int, call: Call) {
    match call
    case Claim(limit, picked) =>
      |picked| <= limit && forall p :: p in picked ==> p.0 in s.sessions && Claimable(s.sessions[p.0], p.1, now)
    case CloseIdle(minutes, order) =>
      && (forall i, j :: 0 <= i < j < |order| ==> order[i] != order[j])
      && (forall id :: id in order <==> id in s.sessions && Idle(s.sessions[id], now, minutes))
    case Backfill(batch, order) =>
      && |order| <= batch
      && (forall i, j :: 0 <= i < j < |order| ==> order[i] != order[j])
      && (forall id :: id in order ==>
            && id in s.sessions && AwaitsAnalysis(s.sessions[id]) && !HasLive(s.jobs, id)
            && s.sessions[id].startedAt >= now - 30 * DAY)
    case SetStatus(k, status) =>
      && k < |s.jobs| && s.jobs[k].status == Claimed && s.jobs[k].session.Some?
      && status in {Analyzing, Analyzed, AnalysisFailed}
    case ClaimJob(k) => k < |s.jobs| && s.jobs[k].status == Pending
    case FinishJob(k, status) => k < |s.jobs| && s.jobs[k].status == Claimed && status != Claimed
    case ReapJob(k, status) => k < |s.jobs| && s.jobs[k].status == Claimed && status in {Pending, DeadLetter}
    case BudgetRetry(id) => id in s.sessions && s.sessions[id].status != Recording
    case _ => true
  }

  function Step(s: State, now: int, call: Call): (State, Answer) {
    match call
    case Register(id, project, startedAt) =>
      if id in s.tombstones then (s, Tombstoned)
      else if id in s.sessions then (s, if s.sessions[id].project == project then Existing else ProjectConflict)
      else (Put(s, id, Fresh(project, startedAt)), Registered)
    case Reserve(id, project, q) =>
      if !Accepts(s, id, project) then (s, NotFound)
      else if q in s.sessions[id].chunks then (s, SeqTaken)
      else (Put(s, id, Reserved(s.sessions[id], q)), Done)
    case Commit(id, project, q, size) =>
      if !Accepts(s, id, project) || q !in s.sessions[id].chunks then (s, NotFound)
      else if Committed(s.sessions[id].chunks[q]) then (s, AlreadyCommitted)
      else (Put(s, id, CommittedChunk(s.sessions[id], now, q, size)), Done)
    case Release(id, project, q) =>
      if Found(s, id, project) && q in s.sessions[id].chunks && !Committed(s.sessions[id].chunks[q])
      then (Put(s, id, Released(s.sessions[id], q)), Done)
      else (s, Done)
    case Claim(_, picked) =>
      (s.(sessions := map id | id in s.sessions :: ClaimedChunks(s.sessions[id], id, now, picked)), Done)
    case MarkScrubbed(id, project, q) =>
      if !Found(s, id, project) then (s, Done)
      else
        var x := s.sessions[id];
        var t := if q in x.chunks then Put(s, id, Scrubbed(x, q)) else s;
        (if AwaitsAnalysis(x) && !HasLive(s.jobs, id) then t.(jobs := s.jobs + NewJobs([id])) else t, Done)
    case MarkScrubFailed(id, project, q) =>
      if Found(s, id, project) && q in s.sessions[id].chunks
      then (Put(s, id, ScrubFailed(s.sessions[id], q)), Done)
      else (s, Done)
    case MarkDeleting(id, project, days) =>
      if Accepts(s, id, project) && Expired(s.sessions[id], now, days)
      then (Put(s, id, s.sessions[id].(status := Deleting)).(tombstones := s.tombstones + {id}), Done)
      else (s, Done)
    case DeleteMarked(id, project) =>
      if Found(s, id, project) && s.sessions[id].status == Deleting
      then (State(s.sessions - {id}, s.tombstones, Detached(s.jobs, id)), Done)
      else (s, Done)
    case CloseIdle(minutes, order) =>
      (State(map id | id in s.sessions ::
               if Idle(s.sessions[id], now, minutes) then s.sessions[id].(status := Closed) else s.sessions[id],
             s.tombstones, s.jobs + NewJobs(order)), Done)
    case Backfill(_, order) => (s.(jobs := s.jobs + NewJobs(order)), Done)
    case PinForEvent(id, project) =>
      if Found(s, id, project) then (Put(s, id, Pinned(s.sessions[id], now + PIN)), Done) else (s, Done)
    case PinForIncident(id) =>
      if id in s.sessions then (Put(s, id, Pinned(s.sessions[id], s.sessions[id].startedAt + HARD_CAP)), Done) else (s, Done)
    case SetStatus(k, status) => (WithStatus(s, k, status), Done)
    case ClaimJob(k) => (Moved(s, k, Claimed), Done)
    case FinishJob(k, status) => (Moved(s, k, status), Done)
    case ReapJob(k, status) =>
      (Moved(if status == DeadLetter then WithStatus(s, k, AnalysisFailed) else s, k, status), Done)
    case BudgetRetry(id) => (if HasPending(s.jobs, id) then s else s.(jobs := s.jobs + NewJobs([id])), Done)
  }

  function Moved(s: State, k: nat, status: JobStatus): State {
    if k < |s.jobs| then s.(jobs := s.jobs[k := s.jobs[k].(status := status)]) else s
  }

  /** The worker writes the status of the session its job is for, whatever that status was. */
  function WithStatus(s: State, k: nat, status: Status): State {
    if k < |s.jobs| && s.jobs[k].session.Some? && s.jobs[k].session.value in s.sessions
    then Put(s, s.jobs[k].session.value, s.sessions[s.jobs[k].session.value].(status := status))
    else s
  }

  // ---------------------------------------------------------------- runs

  datatype Event = Event(now: int, call: Call)

  function StateAt(es: seq<Event>): State {
    if es == [] then EMPTY else Step(StateAt(es[..|es| - 1]), es[|es| - 1].now, es[|es| - 1].call).0
  }

  ghost predicate IsRun(es: seq<Event>) {
    forall k :: 0 <= k < |es| ==> Enabled(StateAt(es[..k]), es[k].now, es[k].call)
  }

  lemma RunPrefix(es: seq<Event>, n: nat)
    requires IsRun(es) && n <= |es|
    ensures IsRun(es[..n])
  {
    forall k | 0 <= k < n ensures Enabled(StateAt(es[..n][..k]), es[..n][k].now, es[..n][k].call) {
      assert es[..n][..k] == es[..k];
    }
  }

  lemma LastEnabled(es: seq<Event>)
    requires IsRun(es) && es != []
    ensures var n := |es| - 1; Enabled(StateAt(es[..n]), es[n].now, es[n].call)
  {
  }

  lemma StateAtNext(es: seq<Event>, k: nat)
    requires k < |es|
    ensures StateAt(es[..k + 1]) == Step(StateAt(es[..k]), es[k].now, es[k].call).0
  {
    assert es[..k + 1][..k] == es[..k] && es[..k + 1][k] == es[k];
  }

  // ---------------------------------------------------------------- rollups

  function One(c: Chunk): int { if Committed(c) then 1 else 0 }
  function Size(c: Chunk): int { if Committed(c) then c.upload.value.size else 0 }

  ghost function Sum(m: map<int, Chunk>, weight: Chunk -> int): int {
    if !(exists q :: q in m) then 0
    else
      var q :| q in m;
      weight(m[q]) + Sum(m - {q}, weight)
  }

  lemma {:induction false} SumRemove(m: map<int, Chunk>, weight: Chunk -> int, q: int)
    requires q in m
    ensures Sum(m, weight) == weight(m[q]) + Sum(m - {q}, weight)
  {
    var r :| r in m && Sum(m, weight) == weight(m[r]) + Sum(m - {r}, weight);
    if r != q {
      SumRemove(m - {r}, weight, q);
      SumRemove(m - {q}, weight, r);
      assert m - {r} - {q} == m - {q} - {r};
    }
  }

  lemma SumPut(m: map<int, Chunk>, weight: Chunk -> int, q: int, c: Chunk)
    ensures Sum(m[q := c], weight) == Sum(m, weight) + weight(c) - (if q in m then weight(m[q]) else 0)
  {
    var n := m[q := c];
    SumRemove(n, weight, q);
    assert n - {q} == m - {q};
    if q in m {
      SumRemove(m, weight, q);
    } else {
      assert m - {q} == m;
    }
  }

  lemma {:induction false} SumSame(m: map<int, Chunk>, n: map<int, Chunk>, weight: Chunk -> int)
    requires m.Keys == n.Keys && forall q :: q in m ==> weight(m[q]) == weight(n[q])
    ensures Sum(m, weight) == Sum(n, weight)
  {
    if exists q :: q in m {
      var q :| q in m;
      SumRemove(m, weight, q);
      SumRemove(n, weight, q);
      SumSame(m - {q}, n - {q}, weight);
    }
  }

  function CommittedSeqs(x: Session): set<int> { set q | q in x.chunks && Committed(x.chunks[q]) }

  lemma {:induction false} CountIsCardinality(x: Session)
    ensures Sum(x.chunks, One) == |CommittedSeqs(x)|
    decreases |x.chunks|
  {
    if !(exists q :: q in x.chunks) {
      assert CommittedSeqs(x) == {};
    } else {
      var q :| q in x.chunks;
      SumRemove(x.chunks, One, q);
      var y := x.(chunks := x.chunks - {q});
      CountIsCardinality(y);
      assert CommittedSeqs(x) == if Committed(x.chunks[q]) then CommittedSeqs(y) + {q} else CommittedSeqs(y);
    }
  }

  /** The counters of a session are those of its committed chunks. */
  ghost predicate RolledUp(x: Session) {
    && x.chunkCount == Sum(x.chunks, One)
    && x.bytesStored == Sum(x.chunks, Size)
    && forall q :: q in x.chunks && Committed(x.chunks[q]) ==> q < x.nextSeq
  }

  ghost predicate AllRolledUp(s: State) {
    forall id :: id in s.sessions ==> RolledUp(s.sessions[id])
  }

  lemma PutKeepsRollup(x: Session, q: int, c: Chunk, y: Session)
    requires RolledUp(x) && y.chunks == x.chunks[q := c]
    requires q in x.chunks && Committed(x.chunks[q]) ==> Committed(c) && x.chunks[q].upload == c.upload
    requires y.chunkCount - x.chunkCount == One(c) - (if q in x.chunks then One(x.chunks[q]) else 0)
    requires y.bytesStored - x.bytesStored == Size(c) - (if q in x.chunks then Size(x.chunks[q]) else 0)
    requires y.nextSeq >= x.nextSeq && (Committed(c) ==> q < y.nextSeq || (q in x.chunks && Committed(x.chunks[q])))
    ensures RolledUp(y)
  {
    SumPut(x.chunks, One, q, c);
    SumPut(x.chunks, Size, q, c);
  }

  lemma ReleaseKeepsRollup(x: Session, q: int)
    requires RolledUp(x) && q in x.chunks && !Committed(x.chunks[q])
    ensures RolledUp(Released(x, q))
  {
    SumRemove(x.chunks, One, q);
    SumRemove(x.chunks, Size, q);
  }

  lemma ClaimKeepsRollup(x: Session, id: string, now: int, picked: set<(string, int)>)
    requires RolledUp(x)
    ensures RolledUp(ClaimedChunks(x, id, now, picked))
  {
    var y := ClaimedChunks(x, id, now, picked);
    SumSame(x.chunks, y.chunks, One);
    SumSame(x.chunks, y.chunks, Size);
  }

  lemma StepKeepsRollup(s: State, now: int, call: Call, id: string)
    requires id in Step(s, now, call).0.sessions && (id in s.sessions ==> RolledUp(s.sessions[id]))
    ensures RolledUp(Step(s, now, call).0.sessions[id])
  {
    hide RolledUp, Idle, Claimable, Expired, Sum, HasLive, HasPending;
    var t := Step(s, now, call).0;
    if id !in s.sessions {
      FreshIsRolledUp(call.project, call.startedAt);
    } else if t.sessions[id] != s.sessions[id] {
      var x, y := s.sessions[id], t.sessions[id];
      match call {
        case Reserve(_, _, q) => PutKeepsRollup(x, q, y.chunks[q], y);
        case Commit(_, _, q, _) => PutKeepsRollup(x, q, y.chunks[q], y);
        case Release(_, _, q) => ReleaseKeepsRollup(x, q);
        case Claim(_, picked) => ClaimKeepsRollup(x, id, now, picked);
        case MarkScrubbed(_, _, q) => PutKeepsRollup(x, q, y.chunks[q], y);
        case MarkScrubFailed(_, _, q) => PutKeepsRollup(x, q, y.chunks[q], y);
        case _ => SameChunksSameRollup(x, y);
      }
    }
  }

  lemma StepKeepsRollups(s: State, now: int, call: Call)
    requires AllRolledUp(s)
    ensures AllRolledUp(Step(s, now, call).0)
  {
    hide Step, RolledUp;
    forall id | id in Step(s, now, call).0.sessions ensures RolledUp(Step(s, now, call).0.sessions[id]) {
      StepKeepsRollup(s, now, call, id);
    }
  }

  lemma FreshIsRolledUp(project: nat, startedAt: int)
    ensures RolledUp(Fresh(project, startedAt))
  {
  }

  lemma SameChunksSameRollup(x: Session, y: Session)
    requires RolledUp(x) && x.chunks == y.chunks
    requires x.chunkCount == y.chunkCount && x.bytesStored == y.bytesStored && x.nextSeq == y.nextSeq
    ensures RolledUp(y)
  {
  }

  lemma {:induction false} RunsKeepRollups(es: seq<Event>)
    ensures AllRolledUp(StateAt(es))
  {
    if es != [] {
      RunsKeepRollups(es[..|es| - 1]);
      StepKeepsRollups(StateAt(es[..|es| - 1]), es[|es| - 1].now, es[|es| - 1].call);
    }
  }

  /** After every run, each session in the table counts its committed chunks and their bytes, and numbers the next
      chunk above all of them. */
  lemma CountersAreExact(es: seq<Event>, id: string)
    requires id in StateAt(es).sessions
    ensures var x := StateAt(es).sessions[id];
            && x.chunkCount == |CommittedSeqs(x)|
            && x.bytesStored == Sum(x.chunks, Size)
            && forall q :: q in CommittedSeqs(x) ==> q < x.nextSeq
  {
    RunsKeepRollups(es);
    CountIsCardinality(StateAt(es).sessions[id]);
  }

  // ---------------------------------------------------------------- tombstones

  predicate TombstonesOk(s: State) {
    forall id :: id in s.sessions && s.sessions[id].status == Deleting ==> id in s.tombstones
  }

  /** Tombstones are kept, cover the sessions that are being or were deleted, and keep those from coming back. */
  lemma StepKeepsTombstones(s: State, now: int, call: Call)
    requires TombstonesOk(s) && Enabled(s, now, call)
    ensures var t := Step(s, now, call).0;
            && TombstonesOk(t) && s.tombstones <= t.tombstones
            && (forall id :: id in s.sessions && id !in t.sessions ==> id in t.tombstones)
            && (forall id :: id in s.tombstones && id !in s.sessions ==> id !in t.sessions)
  {
    hide Claimable, Expired, Idle, HasLive, HasPending, AwaitsAnalysis;
  }

  lemma {:induction false} RunsKeepTombstones(es: seq<Event>)
    requires IsRun(es)
    ensures TombstonesOk(StateAt(es))
  {
    if es != [] {
      hide IsRun, Step, TombstonesOk, Enabled;
      var n := |es| - 1;
      RunPrefix(es, n);
      RunsKeepTombstones(es[..n]);
      LastEnabled(es);
      StepKeepsTombstones(StateAt(es[..n]), es[n].now, es[n].call);
    } else {
      NoTombstones();
    }
  }

  lemma NoTombstones()
    ensures TombstonesOk(EMPTY)
  {
  }

  lemma PrefixAt(es: seq<Event>, k: nat)
    requires IsRun(es) && k < |es|
    ensures Enabled(StateAt(es[..k]), es[k].now, es[k].call) && TombstonesOk(StateAt(es[..k]))
  {
    RunPrefix(es, k);
    RunsKeepTombstones(es[..k]);
  }

  lemma TombstoneNext(es: seq<Event>, k: nat)
    requires IsRun(es) && k < |es|
    ensures StateAt(es[..k]).tombstones <= StateAt(es[..k + 1]).tombstones
  {
    hide *;
    PrefixAt(es, k);
    StateAtNext(es, k);
    StepKeepsTombstones(StateAt(es[..k]), es[k].now, es[k].call);
  }

  lemma {:induction false} TombstonesStay(es: seq<Event>, i: nat, k: nat, id: string)
    requires IsRun(es) && i <= k <= |es| && id in StateAt(es[..i]).tombstones
    ensures id in StateAt(es[..k]).tombstones
    decreases k
  {
    hide *;
    if i < k {
      TombstonesStay(es, i, k - 1, id);
      TombstoneNext(es, k - 1);
    }
  }

  /** Once an id has a tombstone every later registration of it is refused and changes nothing. */
  lemma TombstonedIsNeverRegistered(es: seq<Event>, i: nat, k: nat, id: string)
    requires IsRun(es) && i <= k < |es| && id in StateAt(es[..i]).tombstones
    requires es[k].call.Register? && es[k].call.id == id
    ensures Step(StateAt(es[..k]), es[k].now, es[k].call) == (StateAt(es[..k]), Tombstoned)
  {
    TombstonesStay(es, i, k, id);
  }

  /** A session being deleted always has its tombstone. */
  lemma DeletingHasTombstone(es: seq<Event>, id: string)
    requires IsRun(es) && id in StateAt(es).sessions && StateAt(es).sessions[id].status == Deleting
    ensures id in StateAt(es).tombstones
  {
    RunsKeepTombstones(es);
  }

  predicate WritesStatus(s: State, call: Call, id: string) {
    && (call.SetStatus? || (call.ReapJob? && call.jobStatus == DeadLetter))
    && call.job < |s.jobs| && s.jobs[call.job].session == Some(id)
  }

  /** A session stops being deleted, other than by disappearing, exactly when the worker writes its status. */
  lemma OnlyTheWorkerUndeletes(s: State, now: int, call: Call, id: string)
    requires Enabled(s, now, call) && id in s.sessions && s.sessions[id].status == Deleting
    ensures var t := Step(s, now, call).0;
            (id in t.sessions && t.sessions[id].status != Deleting) <==> WritesStatus(s, call, id)
  {
    hide Claimable, Expired, HasLive, HasPending;
  }

  // ---------------------------------------------------------------- retention pins

  /** The session is pinned until `until`, or gone for good. */
  predicate PinnedOrGone(s: State, id: string, startedAt: int, until: int) {
    if id in s.sessions
    then s.sessions[id].startedAt == startedAt && s.sessions[id].retainUntil.GetOr(until - 1) >= until
    else id in s.tombstones
  }

  lemma StepKeepsPin(s: State, now: int, call: Call, id: string, startedAt: int, until: int)
    requires PinnedOrGone(s, id, startedAt, until) && TombstonesOk(s) && Enabled(s, now, call)
    ensures PinnedOrGone(Step(s, now, call).0, id, startedAt, until)
  {
    hide Claimable, Expired, Idle, HasLive, HasPending, AwaitsAnalysis;
  }

  lemma PinNext(es: seq<Event>, k: nat, id: string, startedAt: int, until: int)
    requires IsRun(es) && k < |es| && PinnedOrGone(StateAt(es[..k]), id, startedAt, until)
    ensures PinnedOrGone(StateAt(es[..k + 1]), id, startedAt, until)
  {
    hide *;
    PrefixAt(es, k);
    StateAtNext(es, k);
    StepKeepsPin(StateAt(es[..k]), es[k].now, es[k].call, id, startedAt, until);
  }

  lemma {:induction false} RunsKeepPin(es: seq<Event>, i: nat, k: nat, id: string, startedAt: int, until: int)
    requires IsRun(es) && i <= k <= |es| && PinnedOrGone(StateAt(es[..i]), id, startedAt, until)
    ensures PinnedOrGone(StateAt(es[..k]), id, startedAt, until)
    decreases k
  {
    hide *;
    if i < k {
      RunsKeepPin(es, i, k - 1, id, startedAt, until);
      PinNext(es, k - 1, id, startedAt, until);
    }
  }

  /** The step starts the deletion of the session. */
  predicate StartsDeletion(s: State, now: int, call: Call, id: string) {
    var t := Step(s, now, call).0;
    id in s.sessions && s.sessions[id].status != Deleting && id in t.sessions && t.sessions[id].status == Deleting
  }

  lemma DeletionRechecks(s: State, now: int, call: Call, id: string)
    requires Enabled(s, now, call) && StartsDeletion(s, now, call, id)
    ensures call.MarkDeleting? && call.id == id && Expired(s.sessions[id], now, call.retentionDays)
  {
    hide Claimable, Expired, HasLive, HasPending;
  }

  /** After an event at time t pins a session, no later step starts its deletion before t plus 30 days, whatever the
      project's retention, unless the 90-day cap has passed. */
  lemma PinHolds(es: seq<Event>, i: nat, k: nat, id: string)
    requires IsRun(es) && i < k < |es|
    requires es[i].call.PinForEvent? && es[i].call.id == id && Found(StateAt(es[..i]), id, es[i].call.project)
    requires StartsDeletion(StateAt(es[..k]), es[k].now, es[k].call, id)
    ensures es[k].now >= es[i].now + PIN || StateAt(es[..i]).sessions[id].startedAt < es[k].now - HARD_CAP
  {
    hide IsRun, StateAt, StartsDeletion, Enabled;
    var s := StateAt(es[..i]);
    StateAtNext(es, i);
    RunsKeepPin(es, i + 1, k, id, s.sessions[id].startedAt, es[i].now + PIN);
    PrefixAt(es, k);
    StartsFromPresent(StateAt(es[..k]), es[k].now, es[k].call, id);
    DeletionRechecks(StateAt(es[..k]), es[k].now, es[k].call, id);
  }

  lemma StartsFromPresent(s: State, now: int, call: Call, id: string)
    requires StartsDeletion(s, now, call, id)
    ensures id in s.sessions
  {
  }

  // ---------------------------------------------------------------- scrub claims

  function ClaimsIn(es: seq<Event>, id: string, q: int): nat {
    if es == [] then 0
    else ClaimsIn(es[..|es| - 1], id, q) + Claims(es[|es| - 1].call, id, q)
  }

  function Claims(call: Call, id: string, q: int): nat {
    if call.Claim? && (id, q) in call.picked then 1 else 0
  }

  /** `n` claims account for the attempts of the chunk. */
  predicate Attempts(s: State, id: string, q: int, n: nat) {
    if id in s.sessions then
      if q in s.sessions[id].chunks
      then
        var c := s.sessions[id].chunks[q];
        n == c.attempts <= MAX_SCRUB_ATTEMPTS && (!Committed(c) ==> n == 0)
      else n == 0
    else if id in s.tombstones then n <= MAX_SCRUB_ATTEMPTS
    else n == 0
  }

  lemma ClaimKeepsAttempts(s: State, now: int, call: Call, id: string, q: int, n: nat)
    requires call.Claim? && Attempts(s, id, q, n) && Enabled(s, now, call)
    ensures Attempts(Step(s, now, call).0, id, q, n + Claims(call, id, q))
  {
    if (id, q) in call.picked {
      assert Claimable(s.sessions[(id, q).0], (id, q).1, now);
    }
  }

  lemma StepKeepsAttempts(s: State, now: int, call: Call, id: string, q: int, n: nat)
    requires Attempts(s, id, q, n) && TombstonesOk(s) && Enabled(s, now, call)
    ensures Attempts(Step(s, now, call).0, id, q, n + Claims(call, id, q))
  {
    hide Expired, Idle, HasLive, HasPending, AwaitsAnalysis, Claimable;
    if call.Claim? {
      ClaimKeepsAttempts(s, now, call, id, q, n);
    } else {
      hide Enabled;
    }
  }

  lemma {:induction false} AttemptsAreClaims(es: seq<Event>, id: string, q: int)
    requires IsRun(es)
    ensures Attempts(StateAt(es), id, q, ClaimsIn(es, id, q))
  {
    if es != [] {
      hide IsRun, Step, TombstonesOk, Enabled, Attempts, Claims;
      var n := |es| - 1;
      RunPrefix(es, n);
      AttemptsAreClaims(es[..n], id, q);
      LastEnabled(es);
      RunsKeepTombstones(es[..n]);
      StepKeepsAttempts(StateAt(es[..n]), es[n].now, es[n].call, id, q, ClaimsIn(es[..n], id, q));
    }
  }

  /** Over a whole run, whatever is released, reserved again or deleted meanwhile, no chunk is claimed for scrubbing
      more than five times. */
  lemma ClaimedAtMostFiveTimes(es: seq<Event>, id: string, q: int)
    requires IsRun(es)
    ensures ClaimsIn(es, id, q) <= MAX_SCRUB_ATTEMPTS
  {
    AttemptsAreClaims(es, id, q);
  }

  // ---------------------------------------------------------------- analysis jobs

  /** Jobs are for sessions in the table that have stopped recording. */
  predicate JobsOk(s: State) {
    forall i :: 0 <= i < |s.jobs| && s.jobs[i].session.Some? ==>
      s.jobs[i].session.value in s.sessions && s.sessions[s.jobs[i].session.value].status != Recording
  }

  /** No session has two jobs that are pending or claimed. */
  predicate UniqueLive(jobs: seq<Job>) {
    forall i, j :: 0 <= i < j < |jobs| && Live(jobs[i]) && Live(jobs[j]) && jobs[i].session.Some? ==>
      jobs[i].session != jobs[j].session
  }

  lemma StepKeepsJobsOk(s: State, now: int, call: Call)
    requires JobsOk(s) && Enabled(s, now, call)
    ensures JobsOk(Step(s, now, call).0)
  {
    hide Claimable, Expired, HasLive, HasPending;
  }

  lemma AppendKeepsUnique(jobs: seq<Job>, order: seq<string>)
    requires UniqueLive(jobs)
    requires forall i, j :: 0 <= i < j < |order| ==> order[i] != order[j]
    ensures UniqueLive(jobs + NewJobs(order)) <==> forall k :: 0 <= k < |order| ==> !HasLive(jobs, order[k])
  {
    var all := jobs + NewJobs(order);
    if k :| 0 <= k < |order| && HasLive(jobs, order[k]) {
      var i :| 0 <= i < |jobs| && LiveFor(jobs[i], order[k]);
      assert all[i] == jobs[i] && all[|jobs| + k] == Job(Some(order[k]), Pending);
    } else {
      forall i, j | 0 <= i < j < |all| && Live(all[i]) && Live(all[j]) && all[i].session.Some?
        ensures all[i].session != all[j].session
      {
        if i < |jobs| <= j {
          assert all[j] == Job(Some(order[j - |jobs|]), Pending);
          assert !HasLive(jobs, order[j - |jobs|]) && all[i] == jobs[i];
          assert !LiveFor(jobs[i], order[j - |jobs|]);
        }
      }
    }
  }

  lemma MoveKeepsUnique(jobs: seq<Job>, k: nat, status: JobStatus)
    requires UniqueLive(jobs) && k < |jobs| && Live(jobs[k])
    ensures UniqueLive(jobs[k := jobs[k].(status := status)])
  {
  }

  lemma DetachKeepsUnique(jobs: seq<Job>, id: string)
    requires UniqueLive(jobs)
    ensures UniqueLive(Detached(jobs, id))
  {
    var after := Detached(jobs, id);
    forall i, j | 0 <= i < j < |after| && Live(after[i]) && Live(after[j]) && after[i].session.Some?
      ensures after[i].session != after[j].session
    {
      assert jobs[i].session != jobs[j].session;
    }
  }

  /** Recording sessions have no job, so closing them gives each its first. */
  lemma IdleHaveNoJob(s: State, now: int, minutes: int, id: string)
    requires JobsOk(s) && id in s.sessions && Idle(s.sessions[id], now, minutes)
    ensures !HasLive(s.jobs, id)
  {
  }

  /** The three producers of ingestion never give a session a second live job; the worker's budget retry does,
      exactly when the session has a claimed job and no pending one. */
  lemma LiveJobStaysUniqueExactly(s: State, now: int, call: Call)
    requires JobsOk(s) && UniqueLive(s.jobs) && Enabled(s, now, call)
    ensures UniqueLive(Step(s, now, call).0.jobs) <==>
            !(call.BudgetRetry? && HasLive(s.jobs, call.id) && !HasPending(s.jobs, call.id))
  {
    hide Claimable, Expired, Idle, HasLive, HasPending, AwaitsAnalysis, UniqueLive, JobsOk, NewJobs, Detached;
    match call {
      case MarkScrubbed(id, _, _) => AppendKeepsUnique(s.jobs, [id]);
      case DeleteMarked(id, _) => DetachKeepsUnique(s.jobs, id);
      case CloseIdle(minutes, order) =>
        forall k | 0 <= k < |order| ensures !HasLive(s.jobs, order[k]) {
          assert order[k] in order;
          IdleHaveNoJob(s, now, minutes, order[k]);
        }
        AppendKeepsUnique(s.jobs, order);
      case Backfill(_, order) => AppendKeepsUnique(s.jobs, order);
      case ClaimJob(k) => MoveKeepsUnique(s.jobs, k, Claimed);
      case FinishJob(k, status) => MoveKeepsUnique(s.jobs, k, status);
      case ReapJob(k, status) => MoveKeepsUnique(s.jobs, k, status);
      case BudgetRetry(id) =>
        assert [id][0] == id;
        AppendKeepsUnique(s.jobs, [id]);
      case _ =>
    }
  }

  /** No budget retry in the run meets a session whose job is claimed and that has none pending. */
  ghost predicate RetriesAreSafe(es: seq<Event>) {
    forall k :: 0 <= k < |es| && es[k].call.BudgetRetry? ==>
      var jobs := StateAt(es[..k]).jobs; HasLive(jobs, es[k].call.id) ==> HasPending(jobs, es[k].call.id)
  }

  lemma SafePrefix(es: seq<Event>)
    requires RetriesAreSafe(es) && es != []
    ensures var n := |es| - 1;
            && RetriesAreSafe(es[..n])
            && (es[n].call.BudgetRetry? && HasLive(StateAt(es[..n]).jobs, es[n].call.id) ==>
                  HasPending(StateAt(es[..n]).jobs, es[n].call.id))
  {
    var n := |es| - 1;
    forall k | 0 <= k < n ensures es[..n][..k] == es[..k] {
    }
  }

  /** In every run each session has at most one pending or claimed analysis job and a recording session has none. */
  lemma {:induction false} OneLiveJobPerSession(es: seq<Event>)
    requires IsRun(es) && RetriesAreSafe(es)
    ensures JobsOk(StateAt(es)) && UniqueLive(StateAt(es).jobs)
  {
    if es != [] {
      hide IsRun, RetriesAreSafe, Step, Enabled, JobsOk, UniqueLive, HasLive, HasPending;
      var n := |es| - 1;
      RunPrefix(es, n);
      SafePrefix(es);
      LastEnabled(es);
      OneLiveJobPerSession(es[..n]);
      StepKeepsJobsOk(StateAt(es[..n]), es[n].now, es[n].call);
      LiveJobStaysUniqueExactly(StateAt(es[..n]), es[n].now, es[n].call);
    }
  }

  /** A step that makes a chunk readable leaves the session with a live job exactly when it is closed, analyzed or failed,
      or had one before; so a chunk that turns readable during an analysis gets no job of its own. */
  lemma ReadableIsCovered(s: State, now: int, call: Call, id: string, q: int)
    requires id in s.sessions && q in s.sessions[id].chunks && !s.sessions[id].chunks[q].scrubbed
    requires var t := Step(s, now, call).0;
             id in t.sessions && q in t.sessions[id].chunks && t.sessions[id].chunks[q].scrubbed
    ensures var t := Step(s, now, call).0; HasLive(t.jobs, id) <==> AwaitsAnalysis(t.sessions[id]) || HasLive(s.jobs, id)
  {
    hide Expired, Idle, HasPending, HasLive, NewJobs, Detached;
    assert call.MarkScrubbed? && call.id == id;
    AppendedIsLive(s.jobs, id);
  }

  lemma AppendedIsLive(jobs: seq<Job>, id: string)
    ensures HasLive(jobs + NewJobs([id]), id)
  {
    assert LiveFor((jobs + NewJobs([id]))[|jobs|], id);
  }

  /** A close is never observed without its job. */
  lemma CloseIsCovered(s: State, now: int, call: Call, id: string)
    requires Enabled(s, now, call) && id in s.sessions && s.sessions[id].status == Recording && JobsOk(s)
    requires id in Step(s, now, call).0.sessions && Step(s, now, call).0.sessions[id].status == Closed
    ensures HasLive(Step(s, now, call).0.jobs, id)
  {
    hide Expired, Claimable, HasPending, HasLive, NewJobs, Detached;
    assert call.CloseIdle? && id in call.order;
    var k :| 0 <= k < |call.order| && call.order[k] == id;
    ClosedIsLive(s.jobs, call.order, k);
  }

  lemma ClosedIsLive(jobs: seq<Job>, order: seq<string>, k: nat)
    requires k < |order|
    ensures HasLive(jobs + NewJobs(order), order[k])
  {
    assert LiveFor((jobs + NewJobs(order))[|jobs| + k], order[k]);
  }

  // ---------------------------------------------------------------- runs that show what does not hold

  /** One more step of a run that has reached state `s`. */
  lemma Extends(es: seq<Event>, s: State, e: Event)
    requires IsRun(es) && StateAt(es) == s && Enabled(s, e.now, e.call)
    ensures IsRun(es + [e]) && StateAt(es + [e]) == Step(s, e.now, e.call).0
  {
    hide Step, Enabled;
    var all := es + [e];
    assert all[..|es|] == es;
    forall k | 0 <= k < |all| ensures Enabled(StateAt(all[..k]), all[k].now, all[k].call) {
      if k < |es| {
        assert all[..k] == es[..k];
      }
    }
  }

  const REGISTER := Event(0, Register("s", 0, 0))
  const CLOSE := Event(1801, CloseIdle(30, ["s"]))
  const CLAIM := Event(1810, ClaimJob(0))

  /** One session without chunks, and jobs. */
  function OneSession(status: Status, tombstones: set<string>, jobs: seq<Job>): State {
    State(map["s" := Fresh(0, 0).(status := status)], tombstones, jobs)
  }

  lemma RegisterStep()
    ensures Enabled(EMPTY, REGISTER.now, REGISTER.call)
    ensures Step(EMPTY, REGISTER.now, REGISTER.call).0 == OneSession(Recording, {}, [])
  {
  }

  lemma CloseStep()
    ensures var s := OneSession(Recording, {}, []);
            && Enabled(s, CLOSE.now, CLOSE.call)
            && Step(s, CLOSE.now, CLOSE.call).0 == OneSession(Closed, {}, [Job(Some("s"), Pending)])
  {
    var s := OneSession(Recording, {}, []);
    assert Step(s, CLOSE.now, CLOSE.call).0.sessions == OneSession(Closed, {}, []).sessions;
  }

  lemma ClaimStep()
    ensures var s := OneSession(Closed, {}, [Job(Some("s"), Pending)]);
            && Enabled(s, CLAIM.now, CLAIM.call)
            && Step(s, CLAIM.now, CLAIM.call).0 == OneSession(Closed, {}, [Job(Some("s"), Claimed)])
  {
  }

  /** A registered session is closed and its job is claimed. */
  lemma ClaimedAfterClose()
    ensures IsRun([REGISTER, CLOSE, CLAIM])
    ensures StateAt([REGISTER, CLOSE, CLAIM]) == OneSession(Closed, {}, [Job(Some("s"), Claimed)])
  {
    hide *;
    EmptyRun();
    RegisterStep();
    CloseStep();
    ClaimStep();
    Extends([], EMPTY, REGISTER);
    assert [] + [REGISTER] == [REGISTER];
    Extends([REGISTER], OneSession(Recording, {}, []), CLOSE);
    assert [REGISTER] + [CLOSE] == [REGISTER, CLOSE];
    Extends([REGISTER, CLOSE], OneSession(Closed, {}, [Job(Some("s"), Pending)]), CLAIM);
    assert [REGISTER, CLOSE] + [CLAIM] == [REGISTER, CLOSE, CLAIM];
  }

  lemma EmptyRun()
    ensures IsRun([]) && StateAt([]) == EMPTY
  {
  }

  const DELETE := Event(91 * DAY, MarkDeleting("s", 0, 30))
  const WRITE_STATUS := Event(91 * DAY + 1, SetStatus(0, Analyzed))

  /** The worker finishes the analysis of a session that retention has started to delete: the session leaves the deletion,
      takes uploads again, and has a tombstone. */
  lemma UndeletedSession()
    ensures var es := [REGISTER, CLOSE, CLAIM, DELETE, WRITE_STATUS];
            && IsRun(es) && StateAt(es[..4]).sessions.Keys == {"s"} && StateAt(es[..4]).sessions["s"].status == Deleting
            && Accepts(StateAt(es), "s", 0) && StateAt(es).sessions["s"].status == Analyzed && "s" in StateAt(es).tombstones
  {
    hide IsRun, StateAt;
    ClaimedAfterClose();
    var claimed := OneSession(Closed, {}, [Job(Some("s"), Claimed)]);
    Extends([REGISTER, CLOSE, CLAIM], claimed, DELETE);
    var deleting := OneSession(Deleting, {"s"}, [Job(Some("s"), Claimed)]);
    assert [REGISTER, CLOSE, CLAIM] + [DELETE] == [REGISTER, CLOSE, CLAIM, DELETE];
    assert Step(claimed, DELETE.now, DELETE.call).0 == deleting;
    Extends([REGISTER, CLOSE, CLAIM, DELETE], deleting, WRITE_STATUS);
    assert [REGISTER, CLOSE, CLAIM, DELETE] + [WRITE_STATUS] == [REGISTER, CLOSE, CLAIM, DELETE, WRITE_STATUS];
    assert [REGISTER, CLOSE, CLAIM, DELETE, WRITE_STATUS][..4] == [REGISTER, CLOSE, CLAIM, DELETE];
  }

  const RETRY := Event(1820, BudgetRetry("s"))

  /** A budget retry while the job of the session is claimed: two live jobs. */
  lemma TwoLiveJobs()
    ensures var es := [REGISTER, CLOSE, CLAIM, RETRY];
            && IsRun(es) && UniqueLive(StateAt(es[..3]).jobs)
            && StateAt(es).jobs == [Job(Some("s"), Claimed), Job(Some("s"), Pending)] && !UniqueLive(StateAt(es).jobs)
  {
    hide IsRun, StateAt;
    ClaimedAfterClose();
    var claimed := OneSession(Closed, {}, [Job(Some("s"), Claimed)]);
    Extends([REGISTER, CLOSE, CLAIM], claimed, RETRY);
    assert [REGISTER, CLOSE, CLAIM] + [RETRY] == [REGISTER, CLOSE, CLAIM, RETRY];
    assert [REGISTER, CLOSE, CLAIM, RETRY][..3] == [REGISTER, CLOSE, CLAIM];
    var jobs := Step(claimed, RETRY.now, RETRY.call).0.jobs;
    assert jobs == [Job(Some("s"), Claimed), Job(Some("s"), Pending)];
    assert Live(jobs[0]) && Live(jobs[1]) && jobs[0].session == jobs[1].session;
  }

  const RESERVE := Event(1, Reserve("s", 0, 0))
  const COMMIT := Event(5, Commit("s", 0, 0, 10))
  const TAKE_CHUNK := Event(1901, Claim(1, {("s", 0)}))
  const ANALYZE := Event(1900, SetStatus(0, Analyzing))
  const DEAD := Event(1902, FinishJob(0, DeadLetter))
  const SCRUBBED := Event(1903, MarkScrubbed("s", 0, 0))

  /** One session with one committed chunk of ten bytes, and one job. */
  function OneChunk(status: Status, chunk: Chunk, job: JobStatus): State {
    State(map["s" := Session(0, status, 0, Some(5), 1, 10, 1, None, map[0 := chunk])], {}, [Job(Some("s"), job)])
  }

  const STORED := Chunk(Some(Upload(5, 10)), false, 0, None)

  function OneReservation(): State {
    State(map["s" := Fresh(0, 0).(chunks := map[0 := Chunk(None, false, 0, None)])], {}, [])
  }

  const CLOSE_LATER := Event(1806, CloseIdle(30, ["s"]))

  lemma ReserveStep()
    ensures var s := OneSession(Recording, {}, []);
            Enabled(s, RESERVE.now, RESERVE.call) && Step(s, RESERVE.now, RESERVE.call).0 == OneReservation()
  {
  }

  lemma CloseLaterStep()
    ensures var s := OneChunk(Recording, STORED, Pending).(jobs := []);
            && Enabled(s, CLOSE_LATER.now, CLOSE_LATER.call)
            && Step(s, CLOSE_LATER.now, CLOSE_LATER.call).0 == OneChunk(Closed, STORED, Pending)
  {
    var s := OneChunk(Recording, STORED, Pending).(jobs := []);
    assert Step(s, CLOSE_LATER.now, CLOSE_LATER.call).0.sessions == OneChunk(Closed, STORED, Pending).sessions;
  }

  lemma CommittedAndClosed()
    ensures IsRun([REGISTER, RESERVE, COMMIT, CLOSE_LATER])
    ensures StateAt([REGISTER, RESERVE, COMMIT, CLOSE_LATER]) == OneChunk(Closed, STORED, Pending)
  {
    hide *;
    EmptyRun();
    RegisterStep();
    ReserveStep();
    CommitStep();
    CloseLaterStep();
    Extends([], EMPTY, REGISTER);
    assert [] + [REGISTER] == [REGISTER];
    Extends([REGISTER], OneSession(Recording, {}, []), RESERVE);
    assert [REGISTER] + [RESERVE] == [REGISTER, RESERVE];
    Extends([REGISTER, RESERVE], OneReservation(), COMMIT);
    assert [REGISTER, RESERVE] + [COMMIT] == [REGISTER, RESERVE, COMMIT];
    Extends([REGISTER, RESERVE, COMMIT], OneChunk(Recording, STORED, Pending).(jobs := []), CLOSE_LATER);
    assert [REGISTER, RESERVE, COMMIT] + [CLOSE_LATER] == [REGISTER, RESERVE, COMMIT, CLOSE_LATER];
  }

  lemma CommitStep()
    ensures Enabled(OneReservation(), COMMIT.now, COMMIT.call)
    ensures Step(OneReservation(), COMMIT.now, COMMIT.call).0 == OneChunk(Recording, STORED, Pending).(jobs := [])
  {
    var x := Fresh(0, 0).(chunks := map[0 := Chunk(None, false, 0, None)]);
    var y := Session(0, Recording, 0, Some(5), 1, 10, 1, None, map[0 := STORED]);
    assert CommittedChunk(x, 5, 0, 10).chunks == y.chunks;
    assert CommittedChunk(x, 5, 0, 10) == y;
    assert map["s" := x]["s" := y] == map["s" := y];
  }

  lemma TakeStep()
    ensures Step(OneChunk(Analyzing, STORED, Claimed), TAKE_CHUNK.now, TAKE_CHUNK.call).0
            == OneChunk(Analyzing, STORED.(attempts := 1, claimedAt := Some(1901)), Claimed)
  {
    var s := OneChunk(Analyzing, STORED, Claimed);
    var x := s.sessions["s"];
    var y := ClaimedChunks(x, "s", 1901, {("s", 0)});
    assert y.chunks == map[0 := STORED.(attempts := 1, claimedAt := Some(1901))];
    var sessions := Step(s, TAKE_CHUNK.now, TAKE_CHUNK.call).0.sessions;
    assert sessions == map["s" := y];
  }

  lemma ScrubStep(s: State)
    requires s == OneChunk(Analyzing, STORED.(attempts := 1, claimedAt := Some(1901)), DeadLetter)
    ensures Step(s, SCRUBBED.now, SCRUBBED.call).0 == OneChunk(Analyzing, STORED.(scrubbed := true, attempts := 1), DeadLetter)
  {
    var x := s.sessions["s"];
    var y := Scrubbed(x, 0);
    assert y.chunks == map[0 := STORED.(scrubbed := true, attempts := 1)];
    assert map["s" := x]["s" := y] == map["s" := y];
  }

  /** The job of a session dies during its analysis, and then the chunk that the scrubber had claimed becomes readable: it is
      readable, and the session has no live job. */
  lemma ReadableWithoutJob()
    ensures var es := [REGISTER, RESERVE, COMMIT, CLOSE_LATER, CLAIM, ANALYZE, TAKE_CHUNK, DEAD, SCRUBBED];
            && IsRun(es) && StateAt(es) == OneChunk(Analyzing, STORED.(scrubbed := true, attempts := 1), DeadLetter)
            && !HasLive(StateAt(es).jobs, "s")
  {
    hide IsRun, StateAt;
    CommittedAndClosed();
    var closed := OneChunk(Closed, STORED, Pending);
    Extends([REGISTER, RESERVE, COMMIT, CLOSE_LATER], closed, CLAIM);
    assert [REGISTER, RESERVE, COMMIT, CLOSE_LATER] + [CLAIM] == [REGISTER, RESERVE, COMMIT, CLOSE_LATER, CLAIM];
    var claimed := OneChunk(Closed, STORED, Claimed);
    assert Step(closed, CLAIM.now, CLAIM.call).0 == claimed;
    Extends([REGISTER, RESERVE, COMMIT, CLOSE_LATER, CLAIM], claimed, ANALYZE);
    assert [REGISTER, RESERVE, COMMIT, CLOSE_LATER, CLAIM] + [ANALYZE] == [REGISTER, RESERVE, COMMIT, CLOSE_LATER, CLAIM, ANALYZE];
    var analyzing := OneChunk(Analyzing, STORED, Claimed);
    assert Step(claimed, ANALYZE.now, ANALYZE.call).0 == analyzing;
    JobDiesBeforeScrub([REGISTER, RESERVE, COMMIT, CLOSE_LATER, CLAIM, ANALYZE]);
    assert [REGISTER, RESERVE, COMMIT, CLOSE_LATER, CLAIM, ANALYZE] + [TAKE_CHUNK, DEAD, SCRUBBED]
        == [REGISTER, RESERVE, COMMIT, CLOSE_LATER, CLAIM, ANALYZE, TAKE_CHUNK, DEAD, SCRUBBED];
  }

  lemma JobDiesBeforeScrub(es: seq<Event>)
    requires IsRun(es) && StateAt(es) == OneChunk(Analyzing, STORED, Claimed)
    ensures var all := es + [TAKE_CHUNK, DEAD, SCRUBBED];
            && IsRun(all) && StateAt(all) == OneChunk(Analyzing, STORED.(scrubbed := true, attempts := 1), DeadLetter)
            && !HasLive(StateAt(all).jobs, "s")
  {
    hide IsRun, StateAt;
    var analyzing := OneChunk(Analyzing, STORED, Claimed);
    Extends(es, analyzing, TAKE_CHUNK);
    var taken := OneChunk(Analyzing, STORED.(attempts := 1, claimedAt := Some(1901)), Claimed);
    TakeStep();
    Extends(es + [TAKE_CHUNK], taken, DEAD);
    var dead := OneChunk(Analyzing, STORED.(attempts := 1, claimedAt := Some(1901)), DeadLetter);
    assert Step(taken, DEAD.now, DEAD.call).0 == dead;
    Extends(es + [TAKE_CHUNK] + [DEAD], dead, SCRUBBED);
    ScrubStep(dead);
    assert es + [TAKE_CHUNK] + [DEAD] + [SCRUBBED] == es + [TAKE_CHUNK, DEAD, SCRUBBED];
  }

  // ---------------------------------------------------------------- the transactions

  predicate Distinct(order: seq<string>) { forall i, j :: 0 <= i < j < |order| ==> order[i] != order[j] }

  function ClosedFor(sessions: map<string, Session>, order: seq<string>): map<string, Session> {
    map id | id in sessions :: if id in order then sessions[id].(status := Closed) else sessions[id]
  }

  lemma NothingClosed(sessions: map<string, Session>)
    ensures ClosedFor(sessions, []) == sessions && NewJobs([]) == []
  {
  }

  lemma ClosedNext(sessions: map<string, Session>, order: seq<string>, id: string)
    requires id in sessions && id !in order
    ensures id in ClosedFor(sessions, order)
    ensures ClosedFor(sessions, order + [id])
            == ClosedFor(sessions, order)[id := ClosedFor(sessions, order)[id].(status := Closed)]
  {
    assert forall x :: x in order + [id] <==> x in order || x == id;
  }

  lemma IdleAreClosed(sessions: map<string, Session>, order: seq<string>, now: int, minutes: int)
    requires forall id :: id in order <==> id in sessions && Idle(sessions[id], now, minutes)
    ensures ClosedFor(sessions, order) ==
            map id | id in sessions :: if Idle(sessions[id], now, minutes) then sessions[id].(status := Closed) else sessions[id]
  {
    hide Idle;
  }

  lemma NewJobsNext(order: seq<string>, id: string)
    ensures NewJobs(order + [id]) == NewJobs(order) + [Job(Some(id), Pending)]
  {
  }

  function ClaimableChunks(sessions: map<string, Session>, now: int): set<(string, int)> {
    set id, q | id in sessions && q in sessions[id].chunks && Claimable(sessions[id], q, now) :: (id, q)
  }

  /** Chunks by the time of their upload. */
  function ByUpload(sessions: map<string, Session>): ((string, int)) -> (int, int) {
    (p: (string, int)) =>
      (if p.0 in sessions && p.1 in sessions[p.0].chunks && Committed(sessions[p.0].chunks[p.1])
       then sessions[p.0].chunks[p.1].upload.value.at else 0, 0)
  }

  /** Sessions that the backfill takes: recent, analyzable, with no live job and not among the `current` ones. */
  function BackfillCandidates(s: State, current: set<string>, now: int): set<string> {
    set id | id in s.sessions && AwaitsAnalysis(s.sessions[id]) && id !in current && !HasLive(s.jobs, id)
             && s.sessions[id].startedAt >= now - 30 * DAY
  }

  /** Sessions by their start, newest first. */
  function ByStart(sessions: map<string, Session>): string -> (int, int) {
    (id: string) => (if id in sessions then -sessions[id].startedAt else 0, 0)
  }

  lemma FirstBackfillIsEnabled(s: State, current: set<string>, now: int, batch: nat, order: seq<string>)
    requires IsFirst(order, BackfillCandidates(s, current, now), ByStart(s.sessions), batch)
    ensures Enabled(s, now, Backfill(batch, order))
  {
  }

  lemma FirstClaimIsEnabled(s: State, locked: set<(string, int)>, now: int, limit: nat, order: seq<(string, int)>, picked: set<(string, int)>)
    requires IsFirst(order, ClaimableChunks(s.sessions, now) - locked, ByUpload(s.sessions), limit)
    requires picked == set p | p in order
    ensures Enabled(s, now, Claim(limit, picked))
  {
    hide Claimable;
    CountsOnce(order);
  }

  class SessionTables {
    var sessions: map<string, Session>
    var tombstones: set<string>
    var jobs: seq<Job>

    ghost function View(): State
      reads this
    {
      State(sessions, tombstones, jobs)
    }

    constructor ()
      ensures View() == EMPTY
    {
      sessions := map[];
      tombstones := {};
      jobs := [];
    }

    method RegisterSession(now: int, id: string, project: nat, startedAt: int) returns (answer: Answer)
      modifies this
      ensures (View(), answer) == Step(old(View()), now, Register(id, project, startedAt))
    {
      if id in tombstones {
        return Tombstoned;
      }
      if id in sessions {
        if sessions[id].project != project {
          return ProjectConflict;
        }
        return Existing;
      }
      sessions := sessions[id := Fresh(project, startedAt)];
      answer := Registered;
    }

    method ReserveChunkSeq(now: int, id: string, project: nat, q: int) returns (answer: Answer)
      modifies this`sessions
      ensures (View(), answer) == Step(old(View()), now, Reserve(id, project, q))
    {
      if id !in sessions || sessions[id].project != project || sessions[id].status == Deleting {
        return NotFound;
      }
      var x := sessions[id];
      if q in x.chunks {
        return SeqTaken;
      }
      sessions := sessions[id := x.(chunks := x.chunks[q := Chunk(None, false, 0, None)])];
      answer := Done;
    }

    method CommitChunk(now: int, id: string, project: nat, q: int, size: int) returns (answer: Answer)
      modifies this`sessions
      ensures (View(), answer) == Step(old(View()), now, Commit(id, project, q, size))
    {
      if id !in sessions || sessions[id].project != project || sessions[id].status == Deleting || q !in sessions[id].chunks {
        return NotFound;
      }
      var x := sessions[id];
      if x.chunks[q].upload.Some? {
        return AlreadyCommitted;
      }
      x := x.(chunks := x.chunks[q := x.chunks[q].(upload := Some(Upload(now, size)))]);
      x := x.(lastChunkAt := Some(now), chunkCount := x.chunkCount + 1, bytesStored := x.bytesStored + size);
      if x.nextSeq < q + 1 {
        x := x.(nextSeq := q + 1);
      }
      sessions := sessions[id := x];
      answer := Done;
    }

    method ReleaseChunkReservation(ghost now: int, id: string, project: nat, q: int)
      modifies this`sessions
      ensures View() == Step(old(View()), now, Release(id, project, q)).0
    {
      if id in sessions && sessions[id].project == project && q in sessions[id].chunks && sessions[id].chunks[q].upload.None? {
        sessions := sessions[id := sessions[id].(chunks := sessions[id].chunks - {q})];
      }
    }

    /** Claims the first chunks by upload time that no other claim has locked. */
    method ClaimUnscrubbedChunks(now: int, locked: set<(string, int)>, limit: nat) returns (order: seq<(string, int)>, picked: set<(string, int)>)
      modifies this`sessions
      ensures IsFirst(order, ClaimableChunks(old(sessions), now) - locked, ByUpload(old(sessions)), limit)
      ensures picked == (set p | p in order) && Enabled(old(View()), now, Claim(limit, picked))
      ensures View() == Step(old(View()), now, Claim(limit, picked)).0
    {
      hide Claimable, IsFirst, ByUpload;
      var candidates := ClaimableChunks(sessions, now);
      order := PickFirst(candidates - locked, ByUpload(sessions), limit);
      picked := set p | p in order;
      FirstClaimIsEnabled(View(), locked, now, limit, order, picked);
      hide Enabled;
      sessions := map id | id in sessions ::
        sessions[id].(chunks := map q | q in sessions[id].chunks ::
          if (id, q) in picked
          then sessions[id].chunks[q].(attempts := sessions[id].chunks[q].attempts + 1, claimedAt := Some(now))
          else sessions[id].chunks[q]);
    }

    method MarkChunkScrubbed(ghost now: int, id: string, project: nat, q: int)
      modifies this`sessions, this`jobs
      ensures View() == Step(old(View()), now, MarkScrubbed(id, project, q)).0
    {
      if id in sessions && sessions[id].project == project {
        var x := sessions[id];
        if q in x.chunks {
          sessions := sessions[id := x.(chunks := x.chunks[q := x.chunks[q].(scrubbed := true, claimedAt := None)])];
        }
        if AwaitsAnalysis(x) && !HasLive(jobs, id) {
          jobs := jobs + [Job(Some(id), Pending)];
        }
      }
    }

    method MarkChunkScrubFailed(ghost now: int, id: string, project: nat, q: int)
      modifies this`sessions
      ensures View() == Step(old(View()), now, MarkScrubFailed(id, project, q)).0
    {
      if id in sessions && sessions[id].project == project && q in sessions[id].chunks {
        var x := sessions[id];
        sessions := sessions[id := x.(chunks := x.chunks[q := x.chunks[q].(claimedAt := None)])];
      }
    }

    method MarkSessionDeleting(now: int, id: string, project: nat, retentionDays: int)
      modifies this`sessions, this`tombstones
      ensures View() == Step(old(View()), now, MarkDeleting(id, project, retentionDays)).0
    {
      if id !in sessions || sessions[id].project != project || sessions[id].status == Deleting {
        return;
      }
      var x := sessions[id];
      if x.startedAt < now - HARD_CAP
         || (x.startedAt < now - retentionDays * DAY && (x.retainUntil.None? || x.retainUntil.value <= now))
      {
        sessions := sessions[id := x.(status := Deleting)];
        tombstones := tombstones + {id};
      }
    }

    method DeleteMarkedSession(ghost now: int, id: string, project: nat)
      modifies this`sessions, this`jobs
      ensures View() == Step(old(View()), now, DeleteMarked(id, project)).0
    {
      if id in sessions && sessions[id].project == project && sessions[id].status == Deleting {
        sessions := sessions - {id};
        DetachJobs(id);
      }
    }

    /** The foreign key of jobs: ON DELETE SET NULL. */
    method DetachJobs(id: string)
      modifies this`jobs
      ensures jobs == Detached(old(jobs), id)
    {
      var i := 0;
      while i < |jobs|
        invariant 0 <= i <= |jobs| == |old(jobs)|
        invariant forall k :: 0 <= k < i ==> jobs[k] == Detached(old(jobs), id)[k]
        invariant forall k :: i <= k < |jobs| ==> jobs[k] == old(jobs)[k]
      {
        if jobs[i].session == Some(id) {
          jobs := jobs[i := jobs[i].(session := None)];
        }
        i := i + 1;
      }
    }

    method CloseIdleSessions(now: int, idleMinutes: int) returns (order: seq<string>)
      modifies this`sessions, this`jobs
      ensures Enabled(old(View()), now, CloseIdle(idleMinutes, order))
      ensures View() == Step(old(View()), now, CloseIdle(idleMinutes, order)).0
    {
      order := [];
      var left := set id | id in sessions && Idle(sessions[id], now, idleMinutes);
      hide Idle, NewJobs, ClosedFor;
      NothingClosed(sessions);
      while left != {}
        invariant Distinct(order) && forall id :: id in order ==> id !in left
        invariant forall id :: id in order || id in left <==> id in old(sessions) && Idle(old(sessions)[id], now, idleMinutes)
        invariant sessions == ClosedFor(old(sessions), order) && jobs == old(jobs) + NewJobs(order)
        decreases |left|
      {
        var id :| id in left;
        left := left - {id};
        NewJobsNext(order, id);
        ClosedNext(old(sessions), order, id);
        order := order + [id];
        sessions := sessions[id := sessions[id].(status := Closed)];
        jobs := jobs + [Job(Some(id), Pending)];
      }
      IdleAreClosed(old(sessions), order, now, idleMinutes);
    }

    /** `current` are the sessions that have an analysis by a recent enough rule version; the newest sessions come first. */
    method EnqueueAnalysisBackfillBatch(now: int, current: set<string>, batch: nat) returns (order: seq<string>)
      modifies this`jobs
      ensures IsFirst(order, BackfillCandidates(old(View()), current, now), ByStart(sessions), batch)
      ensures Enabled(old(View()), now, Backfill(batch, order))
      ensures View() == Step(old(View()), now, Backfill(batch, order)).0
    {
      hide IsFirst, ByStart, Enabled;
      var candidates := set id | id in sessions && AwaitsAnalysis(sessions[id]) && id !in current && !HasLive(jobs, id)
                                 && sessions[id].startedAt >= now - 30 * DAY;
      assert candidates == BackfillCandidates(View(), current, now);
      order := PickFirst(candidates, ByStart(sessions), batch);
      FirstBackfillIsEnabled(View(), current, now, batch, order);
      var i := 0;
      while i < |order|
        invariant 0 <= i <= |order|
        invariant jobs == old(jobs) + NewJobs(order[..i])
      {
        NewJobsNext(order[..i], order[i]);
        assert order[..i + 1] == order[..i] + [order[i]];
        jobs := jobs + [Job(Some(order[i]), Pending)];
        i := i + 1;
      }
      assert order[..i] == order;
    }

    /** The pin that an event puts on its session, in the transaction that stores the event. */
    method PinSession(now: int, id: string, project: nat)
      modifies this`sessions
      ensures View() == Step(old(View()), now, PinForEvent(id, project)).0
    {
      if id in sessions && sessions[id].project == project {
        var until := now + PIN;
        var kept := sessions[id].retainUntil.GetOr(0);
        sessions := sessions[id := sessions[id].(retainUntil := Some(if kept > until then kept else until))];
      }
    }
  }
}
