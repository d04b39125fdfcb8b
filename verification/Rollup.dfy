/**
 Environment rollups and their online backfill (packages/ingestion/db/rollup_backfill.go), beside the
 writers of their source rows: InsertErrorEventAndGroup in packages/ingestion/db/queries.go, settlement
 and merges in packages/ingestion/identity, folds and promotions in
 packages/worker/src/friction/promotion-db.ts.

 Each transaction is one step on a database value.  The backfill walks the error groups in id
 order, a batch at a time, while the writers add rows and groups between its statements.
 Group ids are UUIDs, compared as numbers.
 */
module Rollup {
  import opened Wrappers

  const BATCH_SIZE := 250

  // ---------------------------------------------------------------- data

  datatype Kind = ErrorKind | FrictionKind

  datatype Group = Group(project: string, fingerprint: string, kind: Kind)

  /** An error event, linked to its group; `settled` when identity settlement linked it. */
  datatype EventRow = EventRow(group: nat, environment: string, time: int, settled: bool)

  /** Repeats of a signal within its session, counted from one. */
  type Repeats = n: nat | n >= 1 witness 1

  /** A friction signal attached to its group; `live` when it is neither retracted nor superseded. */
  datatype SignalRow = SignalRow(group: nat, environment: string, time: int, occurrences: Repeats, live: bool)

  datatype Rolled = Rolled(firstSeen: int, lastSeen: int, count: nat)

  /** The tables. `keys` is the unique index of groups on project and fingerprint. */
  datatype Db = Db(groups: map<nat, Group>, keys: map<(string, string), nat>, events: seq<EventRow>,
                   signals: seq<SignalRow>, rollups: map<(nat, string), Rolled>)

  /** Foreign keys and the unique index. */
  ghost predicate Valid(db: Db) {
    && (forall k :: k in db.keys ==>
          db.keys[k] in db.groups && (db.groups[db.keys[k]].project, db.groups[db.keys[k]].fingerprint) == k)
    && (forall k :: 0 <= k < |db.events| ==> db.events[k].group in db.groups)
    && (forall k :: 0 <= k < |db.signals| ==> db.signals[k].group in db.groups)
    && (forall k :: k in db.rollups ==> k.0 in db.groups)
  }

  // ---------------------------------------------------------------- what a rollup should say

  /** A source row of a rollup: when, and how many occurrences it stands for. */
  datatype Occurrence = Occurrence(time: int, n: nat)

  function SignalOccurrences(signals: seq<SignalRow>, g: nat, e: string): seq<Occurrence> {
    if signals == [] then []
    else
      var s := signals[|signals| - 1];
      SignalOccurrences(signals[..|signals| - 1], g, e) +
      (if s.group == g && s.environment == e && s.live then [Occurrence(s.time, s.occurrences)] else [])
  }

  function EventOccurrences(events: seq<EventRow>, g: nat, e: string): seq<Occurrence> {
    if events == [] then []
    else
      var ev := events[|events| - 1];
      EventOccurrences(events[..|events| - 1], g, e) +
      (if ev.group == g && ev.environment == e then [Occurrence(ev.time, 1)] else [])
  }

  function Sources(db: Db, g: nat, e: string): seq<Occurrence> {
    SignalOccurrences(db.signals, g, e) + EventOccurrences(db.events, g, e)
  }

  function Least(a: int, b: int): int { if a <= b then a else b }
  function Greatest(a: int, b: int): int { if a >= b then a else b }

  /** min, max and sum over the source rows. */
  function Aggregate(rows: seq<Occurrence>): Rolled
    requires rows != []
  {
    var last := rows[|rows| - 1];
    if |rows| == 1 then Rolled(last.time, last.time, last.n)
    else
      var before := Aggregate(rows[..|rows| - 1]);
      Rolled(Least(before.firstSeen, last.time), Greatest(before.lastSeen, last.time), before.count + last.n)
  }

  function Total(rows: seq<Occurrence>): nat {
    if rows == [] then 0 else rows[0].n + Total(rows[1..])
  }

  /** The rollup row of group `g` and environment `e`, if there is one. */
  function Recorded(db: Db, g: nat, e: string): Option<Rolled> {
    if (g, e) in db.rollups then Some(db.rollups[(g, e)]) else None
  }

  /** Friction groups have no environment rollups. */
  function Expected(db: Db, g: nat, e: string): Option<Rolled> {
    if Sources(db, g, e) == [] || (g in db.groups && db.groups[g].kind == FrictionKind) then None
    else Some(Aggregate(Sources(db, g, e)))
  }

  /** Every environment rollup of `g` is what its source rows say, and there is none without source rows. */
  ghost predicate Exact(db: Db, g: nat) {
    forall e :: Recorded(db, g, e) == Expected(db, g, e)
  }

  predicate IsErrorGroup(db: Db, g: nat) {
    g in db.groups && db.groups[g].kind == ErrorKind
  }

  ghost predicate AllExact(db: Db) {
    forall g :: IsErrorGroup(db, g) ==> Exact(db, g)
  }

  lemma {:induction false} TotalSnoc(rows: seq<Occurrence>, r: Occurrence)
    ensures Total(rows + [r]) == Total(rows) + r.n
  {
    if rows == [] {
      assert rows + [r] == [r];
    } else {
      assert (rows + [r])[1..] == rows[1..] + [r];
      TotalSnoc(rows[1..], r);
    }
  }

  /** The times of `a` are the earliest and the latest of the rows. */
  ghost predicate Bounds(rows: seq<Occurrence>, a: Rolled) {
    && (forall k :: 0 <= k < |rows| ==> a.firstSeen <= rows[k].time <= a.lastSeen)
    && (exists k :: 0 <= k < |rows| && rows[k].time == a.firstSeen)
    && (exists k :: 0 <= k < |rows| && rows[k].time == a.lastSeen)
  }

  lemma BoundsSnoc(rest: seq<Occurrence>, b: Rolled, last: Occurrence, n: nat)
    requires Bounds(rest, b)
    ensures Bounds(rest + [last], Rolled(Least(b.firstSeen, last.time), Greatest(b.lastSeen, last.time), n))
  {
    var rows := rest + [last];
    var i :| 0 <= i < |rest| && rest[i].time == b.firstSeen;
    var j :| 0 <= j < |rest| && rest[j].time == b.lastSeen;
    assert rows[i] == rest[i] && rows[j] == rest[j] && rows[|rest|] == last;
    assert rows[if b.firstSeen <= last.time then i else |rest|].time == Least(b.firstSeen, last.time);
    assert rows[if b.lastSeen >= last.time then j else |rest|].time == Greatest(b.lastSeen, last.time);
  }

  /** `Aggregate` gives the earliest time, the latest time and the total number of occurrences. */
  lemma {:induction false} AggregateMeaning(rows: seq<Occurrence>)
    requires rows != []
    ensures Bounds(rows, Aggregate(rows)) && Aggregate(rows).count == Total(rows)
  {
    var n := |rows| - 1;
    assert rows == rows[..n] + [rows[n]];
    TotalSnoc(rows[..n], rows[n]);
    hide Total;
    if n == 0 {
      assert rows[0].time == Aggregate(rows).firstSeen;
      NoTotal();
    } else {
      AggregateMeaning(rows[..n]);
      hide Bounds;
      BoundsSnoc(rows[..n], Aggregate(rows[..n]), rows[n], Aggregate(rows).count);
    }
  }

  lemma NoTotal()
    ensures Total([]) == 0
  {
  }

  // ---------------------------------------------------------------- ingestion

  /** One ingested error; `newId` is the id its group gets if the group is new. */
  datatype Ingest = Ingest(project: string, fingerprint: string, environment: string, time: int, newId: nat)

  function Bump(prior: Option<Rolled>, time: int, n: nat): Rolled {
    match prior
    case None => Rolled(time, time, n)
    case Some(r) => Rolled(Least(r.firstSeen, time), Greatest(r.lastSeen, time), r.count + n)
  }

  /**
   The group upsert, the event and its rollup.  The transaction fails as a whole when the key
   belongs to a friction group, or when a new group would take an id already in use.
   */
  function IngestStep(db: Db, i: Ingest): Db {
    var key := (i.project, i.fingerprint);
    var g := if key in db.keys then db.keys[key] else i.newId;
    if (key in db.keys && !IsErrorGroup(db, g)) || (key !in db.keys && g in db.groups) then db
    else
      var groups := if key in db.keys then db.groups else db.groups[g := Group(i.project, i.fingerprint, ErrorKind)];
      db.(groups := groups, keys := db.keys[key := g],
          events := db.events + [EventRow(g, i.environment, i.time, false)],
          rollups := db.rollups[(g, i.environment) := Bump(Recorded(db, g, i.environment), i.time, 1)])
  }

  /** A writer from before rollups: it stores the event and leaves the rollup alone. */
  function LegacyStep(db: Db, i: Ingest): Db {
    IngestStep(db, i).(rollups := db.rollups)
  }

  /** The settlement of an observation on its canonical issue. */
  function SettleStep(db: Db, g: nat, e: string, time: int): Db {
    if !IsErrorGroup(db, g) then db
    else
      db.(events := db.events + [EventRow(g, e, time, true)], rollups := db.rollups[(g, e) := Bump(Recorded(db, g, e), time, 1)])
  }

  /** The fold of a friction signal onto a group, which bumps the rollup of an error group by its repeats. */
  function FoldStep(db: Db, s: SignalRow): Db {
    if s.group !in db.groups || !s.live then db
    else
      var folded := db.(signals := db.signals + [s]);
      if !IsErrorGroup(db, s.group) then folded
      else folded.(rollups := db.rollups[(s.group, s.environment) := Bump(Recorded(db, s.group, s.environment), s.time, s.occurrences)])
  }

  /** The rollups of the groups replaced by what their source rows say. */
  function Replaced(db: Db, locked: set<nat>): Db {
    db.(rollups := Cleared(db.rollups, locked) + Rebuilt(db, locked))
  }

  /** The promotion of an incident: signals are attached to it and its rollups rebuilt from source. */
  function PromoteStep(db: Db, g: nat, signals: seq<SignalRow>): Db {
    if g !in db.groups || exists k :: 0 <= k < |signals| && signals[k].group != g then db
    else Replaced(db.(signals := db.signals + signals), {g})
  }

  datatype Write =
    | Ingested(ingest: Ingest)
    | Settled(group: nat, environment: string, time: int)
    | Folded(signal: SignalRow)
    | Promoted(group: nat, signals: seq<SignalRow>)
    | Legacy(ingest: Ingest)

  function WriteStep(db: Db, w: Write): Db {
    match w
    case Ingested(i) => IngestStep(db, i)
    case Settled(g, e, time) => SettleStep(db, g, e, time)
    case Folded(s) => FoldStep(db, s)
    case Promoted(g, signals) => PromoteStep(db, g, signals)
    case Legacy(i) => LegacyStep(db, i)
  }

  lemma IngestKeepsValid(db: Db, i: Ingest)
    requires Valid(db)
    ensures Valid(IngestStep(db, i)) && Valid(LegacyStep(db, i))
    ensures db.groups.Keys <= IngestStep(db, i).groups.Keys
    ensures forall g :: g in db.groups ==> IngestStep(db, i).groups[g] == db.groups[g]
  {
    hide Bump, Recorded;
  }

  lemma FoldKeepsValid(db: Db, s: SignalRow)
    requires Valid(db)
    ensures Valid(FoldStep(db, s))
  {
    hide Bump, Recorded;
  }

  lemma ReplacedIsValid(db: Db, locked: set<nat>)
    requires Valid(db) && forall g :: g in locked ==> g in db.groups
    ensures Valid(Replaced(db, locked))
  {
    hide Expected, Environments;
  }

  lemma PromoteKeepsValid(db: Db, g: nat, signals: seq<SignalRow>)
    requires Valid(db)
    ensures Valid(PromoteStep(db, g, signals))
  {
    hide Replaced;
    if PromoteStep(db, g, signals) != db {
      var attached := db.(signals := db.signals + signals);
      assert forall k :: 0 <= k < |signals| ==> signals[k].group == g;
      ReplacedIsValid(attached, {g});
    }
  }

  lemma WriteKeepsValid(db: Db, w: Write)
    requires Valid(db)
    ensures Valid(WriteStep(db, w))
    ensures db.groups.Keys <= WriteStep(db, w).groups.Keys
    ensures forall g :: g in db.groups ==> WriteStep(db, w).groups[g] == db.groups[g]
  {
    match w
    case Ingested(i) => hide Valid, IngestStep; IngestKeepsValid(db, i);
    case Settled(_, _, _) => hide Bump, Recorded;
    case Folded(s) => FoldKeepsValid(db, s); hide Valid, Recorded;
    case Promoted(g, signals) => PromoteKeepsValid(db, g, signals); hide Valid, Replaced;
    case Legacy(i) => hide Valid, IngestStep; IngestKeepsValid(db, i);
  }

  function Prior(rows: seq<Occurrence>): Option<Rolled> {
    if rows == [] then None else Some(Aggregate(rows))
  }

  lemma AggregateSnoc(rows: seq<Occurrence>, x: Occurrence)
    ensures Aggregate(rows + [x]) == Bump(Prior(rows), x.time, x.n)
  {
    assert (rows + [x])[..|rows|] == rows;
  }

  lemma BumpsCommute(prior: Option<Rolled>, x: Occurrence, y: Occurrence)
    ensures Bump(Some(Bump(prior, x.time, x.n)), y.time, y.n) == Bump(Some(Bump(prior, y.time, y.n)), x.time, x.n)
  {
  }

  /** A new source row counts the same wherever it stands among the others. */
  lemma {:induction false} AggregateInsert(a: seq<Occurrence>, x: Occurrence, b: seq<Occurrence>)
    ensures Aggregate(a + [x] + b) == Bump(Prior(a + b), x.time, x.n)
    decreases |b|
  {
    hide Aggregate, Bump;
    if b == [] {
      assert a + [x] + b == a + [x] && a + b == a;
      AggregateSnoc(a, x);
    } else {
      var rest, last := b[..|b| - 1], b[|b| - 1];
      AggregateInsert(a, x, rest);
      assert a + [x] + b == (a + [x] + rest) + [last] && a + b == (a + rest) + [last];
      AggregateSnoc(a + [x] + rest, last);
      AggregateSnoc(a + rest, last);
      BumpsCommute(Prior(a + rest), x, last);
    }
  }

  lemma EventSnoc(db: Db, ev: EventRow, g: nat, e: string)
    ensures Sources(db.(events := db.events + [ev]), g, e) ==
            Sources(db, g, e) + (if ev.group == g && ev.environment == e then [Occurrence(ev.time, 1)] else [])
  {
    assert (db.events + [ev])[..|db.events|] == db.events;
  }

  lemma SignalSnoc(db: Db, s: SignalRow, g: nat, e: string)
    ensures Sources(db.(signals := db.signals + [s]), g, e) ==
            SignalOccurrences(db.signals, g, e)
            + (if s.group == g && s.environment == e && s.live then [Occurrence(s.time, s.occurrences)] else [])
            + EventOccurrences(db.events, g, e)
  {
    assert (db.signals + [s])[..|db.signals|] == db.signals;
  }

  /** An event of an error group and its rollup keep every exact group exact, in every environment. */
  lemma BumpKeepsExact(db: Db, ev: EventRow, g: nat, after: Db)
    requires Exact(db, g)
    requires after.events == db.events + [ev] && after.signals == db.signals && IsErrorGroup(after, ev.group)
    requires after.rollups
          == db.rollups[(ev.group, ev.environment) := Bump(Recorded(db, ev.group, ev.environment), ev.time, 1)]
    requires ev.group in db.groups ==> IsErrorGroup(db, ev.group)
    requires g != ev.group ==> (g in db.groups <==> g in after.groups) && (g in db.groups ==> after.groups[g] == db.groups[g])
    ensures Exact(after, g)
  {
    forall e ensures Recorded(after, g, e) == Expected(after, g, e) {
      assert Recorded(db, g, e) == Expected(db, g, e);
      assert Sources(after, g, e) == Sources(db.(events := db.events + [ev]), g, e);
      EventSnoc(db, ev, g, e);
      if ev.group == g && ev.environment == e {
        AggregateInsert(Sources(db, g, e), Occurrence(ev.time, 1), []);
        assert Sources(db, g, e) + [Occurrence(ev.time, 1)] + [] == Sources(after, g, e);
        assert Sources(db, g, e) + [] == Sources(db, g, e);
      } else {
        assert Sources(after, g, e) == Sources(db, g, e);
      }
    }
  }

  /** Current ingestion keeps every exact group exact, in every environment. */
  lemma IngestKeepsExact(db: Db, i: Ingest, g: nat)
    requires Exact(db, g)
    ensures Exact(IngestStep(db, i), g)
  {
    var after := IngestStep(db, i);
    if after != db {
      BumpKeepsExact(db, after.events[|db.events|], g, after);
    }
  }

  /** So does the settlement of an observation. */
  lemma SettleKeepsExact(db: Db, group: nat, e: string, time: int, g: nat)
    requires Exact(db, g)
    ensures Exact(SettleStep(db, group, e, time), g)
  {
    if IsErrorGroup(db, group) {
      BumpKeepsExact(db, EventRow(group, e, time, true), g, SettleStep(db, group, e, time));
    }
  }

  /** So does the fold of a friction signal, which counts all its repeats. */
  lemma FoldKeepsExact(db: Db, s: SignalRow, g: nat)
    requires Exact(db, g)
    ensures Exact(FoldStep(db, s), g)
  {
    forall e ensures Recorded(FoldStep(db, s), g, e) == Expected(FoldStep(db, s), g, e) {
      assert Recorded(db, g, e) == Expected(db, g, e);
      FoldIsExactIn(db, s, g, e);
    }
  }

  lemma FoldIsExactIn(db: Db, s: SignalRow, g: nat, e: string)
    requires Recorded(db, g, e) == Expected(db, g, e)
    ensures Recorded(FoldStep(db, s), g, e) == Expected(FoldStep(db, s), g, e)
  {
    hide Aggregate, Bump, SignalOccurrences, EventOccurrences;
    var after := FoldStep(db, s);
    if after != db {
      assert Sources(after, g, e) == Sources(db.(signals := db.signals + [s]), g, e);
      SignalSnoc(db, s, g, e);
      if s.group == g && s.environment == e {
        AggregateInsert(SignalOccurrences(db.signals, g, e), Occurrence(s.time, s.occurrences), EventOccurrences(db.events, g, e));
      } else {
        assert Sources(after, g, e) == Sources(db, g, e);
      }
    }
  }

  lemma {:induction false} SignalsConcat(a: seq<SignalRow>, b: seq<SignalRow>, g: nat, e: string)
    requires forall k :: 0 <= k < |b| ==> b[k].group != g
    ensures SignalOccurrences(a + b, g, e) == SignalOccurrences(a, g, e)
    decreases |b|
  {
    if b == [] {
      assert a + b == a;
    } else {
      assert (a + b)[..|a + b| - 1] == a + b[..|b| - 1];
      SignalsConcat(a, b[..|b| - 1], g, e);
    }
  }

  /** So does a promotion, and it makes its own group exact. */
  lemma PromoteKeepsExact(db: Db, group: nat, signals: seq<SignalRow>, g: nat)
    requires Exact(db, g)
    ensures Exact(PromoteStep(db, group, signals), g)
  {
    var after := PromoteStep(db, group, signals);
    if after != db {
      var attached := db.(signals := db.signals + signals);
      if g == group {
        ReplacedIsExact(attached, {g}, g);
      } else {
        forall e ensures Recorded(attached, g, e) == Expected(attached, g, e) {
          assert Recorded(db, g, e) == Expected(db, g, e);
          SignalsConcat(db.signals, signals, g, e);
        }
        ReplacedIsExact(attached, {group}, g);
      }
    }
  }

  /** Every write but a legacy one keeps every exact group exact. */
  lemma WriteKeepsExact(db: Db, w: Write, g: nat)
    requires Exact(db, g) && !w.Legacy?
    ensures Exact(WriteStep(db, w), g)
  {
    hide Exact, IngestStep, SettleStep, FoldStep, PromoteStep;
    match w
    case Ingested(i) => IngestKeepsExact(db, i, g);
    case Settled(group, e, time) => SettleKeepsExact(db, group, e, time, g);
    case Folded(s) => FoldKeepsExact(db, s, g);
    case Promoted(group, signals) => PromoteKeepsExact(db, group, signals, g);
  }

  lemma {:induction false} NoEventsNoOccurrences(events: seq<EventRow>, g: nat, e: string)
    requires forall k :: 0 <= k < |events| ==> events[k].group != g
    ensures EventOccurrences(events, g, e) == []
  {
    if events != [] {
      NoEventsNoOccurrences(events[..|events| - 1], g, e);
    }
  }

  lemma {:induction false} NoSignalsNoOccurrences(signals: seq<SignalRow>, g: nat, e: string)
    requires forall k :: 0 <= k < |signals| ==> signals[k].group != g
    ensures SignalOccurrences(signals, g, e) == []
  {
    if signals != [] {
      NoSignalsNoOccurrences(signals[..|signals| - 1], g, e);
    }
  }

  /** A group that does not exist yet has neither source rows nor rollups. */
  lemma MissingGroupIsExact(db: Db, g: nat)
    requires Valid(db) && g !in db.groups
    ensures Exact(db, g)
  {
    forall e ensures Recorded(db, g, e) == Expected(db, g, e) {
      NoEventsNoOccurrences(db.events, g, e);
      NoSignalsNoOccurrences(db.signals, g, e);
    }
  }

  // ---------------------------------------------------------------- one batch

  function Environments(db: Db): set<string> {
    (set k | 0 <= k < |db.events| :: db.events[k].environment) + (set k | 0 <= k < |db.signals| :: db.signals[k].environment)
  }

  function LockedGroups(groups: map<nat, Group>, ids: seq<nat>): set<nat> {
    set g | g in ids && g in groups && groups[g].kind == ErrorKind
  }

  function Cleared(rollups: map<(nat, string), Rolled>, locked: set<nat>): map<(nat, string), Rolled> {
    map k | k in rollups && k.0 !in locked :: rollups[k]
  }

  function Rebuilt(db: Db, locked: set<nat>): map<(nat, string), Rolled> {
    map g, e | g in locked && e in Environments(db) && Expected(db, g, e).Some? :: (g, e) := Expected(db, g, e).value
  }

  /** Replaces the rollups of the batch's error groups by what their source rows say. */
  function RecomputeStep(db: Db, ids: seq<nat>): Db {
    Replaced(db, LockedGroups(db.groups, ids))
  }

  lemma {:induction false} EventOccurrencesIn(events: seq<EventRow>, g: nat, e: string)
    requires forall k :: 0 <= k < |events| ==> events[k].environment != e
    ensures EventOccurrences(events, g, e) == []
  {
    if events != [] {
      EventOccurrencesIn(events[..|events| - 1], g, e);
    }
  }

  lemma {:induction false} SignalOccurrencesIn(signals: seq<SignalRow>, g: nat, e: string)
    requires forall k :: 0 <= k < |signals| ==> signals[k].environment != e
    ensures SignalOccurrences(signals, g, e) == []
  {
    if signals != [] {
      SignalOccurrencesIn(signals[..|signals| - 1], g, e);
    }
  }

  lemma SourcesAreInEnvironments(db: Db, g: nat, e: string)
    requires Sources(db, g, e) != []
    ensures e in Environments(db)
  {
    if e !in Environments(db) {
      EventOccurrencesIn(db.events, g, e);
      SignalOccurrencesIn(db.signals, g, e);
    }
  }

  /** Replacing makes its groups exact and leaves every other group as it was. */
  lemma ReplacedIsExact(db: Db, locked: set<nat>, g: nat)
    requires Exact(db, g) || g in locked
    ensures Exact(Replaced(db, locked), g)
  {
    var after := Replaced(db, locked);
    forall e ensures Recorded(after, g, e) == Expected(after, g, e) {
      assert Sources(after, g, e) == Sources(db, g, e);
      if Sources(db, g, e) != [] {
        SourcesAreInEnvironments(db, g, e);
      }
      if g !in locked {
        assert Recorded(db, g, e) == Expected(db, g, e);
      }
    }
  }

  /** Recomputing makes the batch's groups exact and leaves every other group as it was. */
  lemma RecomputeMakesExact(db: Db, ids: seq<nat>, g: nat)
    requires Valid(db) && (Exact(db, g) || (g in ids && IsErrorGroup(db, g)))
    ensures Exact(RecomputeStep(db, ids), g) && Valid(RecomputeStep(db, ids))
  {
    hide Exact, Valid, Replaced;
    ReplacedIsExact(db, LockedGroups(db.groups, ids), g);
    ReplacedIsValid(db, LockedGroups(db.groups, ids));
  }

  // ---------------------------------------------------------------- the pass

  /** The error groups the keyset has not reached. */
  function Remaining(db: Db, after: Option<nat>): set<nat> {
    set g | g in db.groups && db.groups[g].kind == ErrorKind && (after.Some? ==> g > after.value)
  }

  /** A keyset page of `ids`: at most `limit` of them, ascending, with none skipped. */
  ghost predicate IsPage(page: seq<nat>, ids: set<nat>, limit: nat) {
    && |page| <= limit
    && (forall k :: 0 <= k < |page| ==> page[k] in ids)
    && (forall j, k :: 0 <= j < k < |page| ==> page[j] < page[k])
    && (page == [] ==> ids == {} || limit == 0)
    && (page != [] ==> forall g :: g in ids && g <= page[|page| - 1] ==> g in page)
  }

  /** SELECT id ... ORDER BY id LIMIT limit. */
  method SelectPage(ids: set<nat>, limit: nat) returns (page: seq<nat>)
    ensures IsPage(page, ids, limit)
  {
    page := PickFirst(ids, id => (id, 0), limit);
    if page != [] {
      assert forall g :: g in ids && g !in page ==> g != page[|page| - 1] && page[|page| - 1] in page;
    }
  }

  /** Writes that other transactions commit at one point of the pass. */
  type Interference = seq<Write>

  function WriteAll(db: Db, ws: Interference): Db
    decreases |ws|
  {
    if ws == [] then db else WriteAll(WriteStep(db, ws[0]), ws[1..])
  }

  predicate AllCurrent(ws: Interference) {
    forall k :: 0 <= k < |ws| ==> !ws[k].Legacy?
  }

  /** Groups that a write creates are exact from birth, and exact groups stay so. */
  lemma {:induction false} WritesKeepExact(db: Db, ws: Interference, g: nat)
    requires Valid(db)
    ensures Valid(WriteAll(db, ws)) && db.groups.Keys <= WriteAll(db, ws).groups.Keys
    ensures forall h :: h in db.groups ==> WriteAll(db, ws).groups[h] == db.groups[h]
    ensures AllCurrent(ws) && (Exact(db, g) || g !in db.groups) ==> Exact(WriteAll(db, ws), g)
    decreases |ws|
  {
    if g !in db.groups {
      MissingGroupIsExact(db, g);
    }
    if ws != [] {
      WriteKeepsValid(db, ws[0]);
      if AllCurrent(ws) && Exact(db, g) {
        WriteKeepsExact(db, ws[0], g);
      }
      assert AllCurrent(ws) ==> AllCurrent(ws[1..]);
      WritesKeepExact(WriteStep(db, ws[0]), ws[1..], g);
    }
  }

  /** The groups the pass has dealt with: those up to `after`, and those created since it began. */
  ghost predicate Done(initial: Db, after: Option<nat>, g: nat) {
    g !in initial.groups || (after.Some? && g <= after.value)
  }

  /** What holds between any two statements of a pass. */
  ghost predicate PassInvariant(initial: Db, db: Db, after: Option<nat>, current: bool) {
    && Valid(db)
    && initial.groups.Keys <= db.groups.Keys
    && (forall h :: h in initial.groups ==> db.groups[h] == initial.groups[h])
    && (current ==> forall g :: IsErrorGroup(db, g) && Done(initial, after, g) ==> Exact(db, g))
    && (current ==> forall g :: Exact(initial, g) ==> Exact(db, g))
  }

  lemma WritesKeepPassInvariant(initial: Db, db: Db, after: Option<nat>, ws: Interference, current: bool)
    requires PassInvariant(initial, db, after, current) && (current ==> AllCurrent(ws))
    ensures PassInvariant(initial, WriteAll(db, ws), after, current)
  {
    hide Exact;
    WritesKeepExact(db, ws, 0);
    forall g | current && (Exact(initial, g) || (IsErrorGroup(WriteAll(db, ws), g) && Done(initial, after, g)))
      ensures Exact(WriteAll(db, ws), g)
    {
      WritesKeepExact(db, ws, g);
    }
  }

  lemma RecomputeKeepsPassInvariant(initial: Db, listed: Db, db: Db, after: Option<nat>, page: seq<nat>, current: bool)
    requires PassInvariant(initial, db, after, current) && PassInvariant(initial, listed, after, current)
    requires page != [] && IsPage(page, Remaining(listed, after), BATCH_SIZE)
    requires forall h :: h in listed.groups ==> h in db.groups && db.groups[h] == listed.groups[h]
    ensures PassInvariant(initial, RecomputeStep(db, page), Some(page[|page| - 1]), current)
  {
    hide Exact;
    var last := page[|page| - 1];
    var done := RecomputeStep(db, page);
    forall g | current && (Exact(initial, g) || (IsErrorGroup(done, g) && Done(initial, Some(last), g)))
      ensures Exact(done, g)
    {
      if IsErrorGroup(done, g) && !Done(initial, after, g) && Done(initial, Some(last), g) {
        assert g in Remaining(listed, after);
      }
      RecomputeMakesExact(db, page, g);
    }
    RecomputeMakesExact(db, page, page[0]);
  }

  lemma PassEnds(initial: Db, db: Db, after: Option<nat>, current: bool)
    requires PassInvariant(initial, db, after, current) && current && Remaining(db, after) == {}
    ensures AllExact(db)
  {
    assert forall g :: IsErrorGroup(db, g) && !Done(initial, after, g) ==> g in Remaining(db, after);
  }

  lemma PageAdvances(listed: Db, db: Db, after: Option<nat>, page: seq<nat>)
    requires page != [] && IsPage(page, Remaining(listed, after), BATCH_SIZE)
    requires forall h :: h in listed.groups ==> h in db.groups && db.groups[h] == listed.groups[h]
    ensures Remaining(RecomputeStep(db, page), Some(page[|page| - 1])) < Remaining(db, after)
  {
    assert page[0] in Remaining(db, after);
    assert page[|page| - 1] in Remaining(db, after);
  }

  /**
   One keyset pass.  `before` and `between` are the writes other transactions commit in front of
   each list query and between it and its batch; after the last given entry there are none.  The
   statement number `failure`, if there is one, fails; a batch that fails is rolled back.
   */
  method RunPass(initial: Db, before: seq<Interference>, between: seq<Interference>, failure: Option<nat>, ghost current: bool)
    returns (ok: bool, db: Db)
    requires Valid(initial) && |before| == |between|
    requires current ==> forall k :: 0 <= k < |before| ==> AllCurrent(before[k]) && AllCurrent(between[k])
    ensures Valid(db) && (current && ok ==> AllExact(db)) && (failure.None? ==> ok)
    ensures current ==> forall g :: Exact(initial, g) ==> Exact(db, g)
  {
    hide Exact, IsPage, AllExact;
    db := initial;
    var after: Option<nat> := None;
    var turn, statements := 0, 0;
    while true
      invariant turn <= |before|
      invariant PassInvariant(initial, db, after, current)
      decreases |before| - turn, Remaining(db, after)
    {
      if turn < |before| {
        WritesKeepPassInvariant(initial, db, after, before[turn], current);
        db := WriteAll(db, before[turn]);
      }
      if failure == Some(statements) {
        return false, db;
      }
      var page := SelectPage(Remaining(db, after), BATCH_SIZE);
      if page == [] {
        if current {
          PassEnds(initial, db, after, current);
        }
        return true, db;
      }
      ghost var listed := db;
      if turn < |before| {
        WritesKeepExact(db, between[turn], 0);
        WritesKeepPassInvariant(initial, db, after, between[turn], current);
        db := WriteAll(db, between[turn]);
        turn := turn + 1;
      }
      if failure == Some(statements + 1) {
        return false, db;
      }
      RecomputeKeepsPassInvariant(initial, listed, db, after, page, current);
      PageAdvances(listed, db, after, page);
      db := RecomputeStep(db, page);
      after := Some(page[|page| - 1]);
      statements := statements + 2;
    }
  }

  // ---------------------------------------------------------------- the backfill

  datatype Status = Pending | Running | Complete

  /** Where a run fails, if anywhere: statements of the two passes, the two updates of the status, its reset. */
  datatype Failures = Failures(marking: bool, first: Option<nat>, second: Option<nat>, completing: bool, resetting: bool)

  datatype Answer = Ran | Skipped | Failed

  /**
   The whole backfill: nothing when it is complete or another replica holds the lock, otherwise two
   passes.  Writers from before rollups may still run during the first pass, not during the second;
   `current` says that there are none in the first pass either.  `lockedStatus` is the status read
   again under the lock.
   */
  method RunRollupBackfill(initial: Db, status: Status, locked: bool, lockedStatus: Status, failures: Failures,
                           before1: seq<Interference>, between1: seq<Interference>,
                           before2: seq<Interference>, between2: seq<Interference>, ghost current: bool)
    returns (answer: Answer, db: Db, final: Status)
    requires Valid(initial) && |before1| == |between1| && |before2| == |between2|
    requires current ==> forall k :: 0 <= k < |before1| ==> AllCurrent(before1[k]) && AllCurrent(between1[k])
    requires forall k :: 0 <= k < |before2| ==> AllCurrent(before2[k]) && AllCurrent(between2[k])
    ensures Valid(db)
    ensures answer == Skipped <==> status == Complete || !locked || lockedStatus == Complete
    ensures answer == Skipped ==> db == initial && final == (if status == Complete || !locked then status else lockedStatus)
    ensures answer == Ran <==> answer != Skipped && final == Complete
    ensures answer == Ran ==> AllExact(db)
    ensures answer == Failed ==> failures != Failures(false, None, None, false, failures.resetting)
    ensures answer == Failed && !failures.marking && !failures.completing && !failures.resetting ==> final == Pending
    ensures current ==> forall g :: Exact(initial, g) ==> Exact(db, g)
  {
    hide Exact, AllExact;
    if status == Complete || !locked {
      return Skipped, initial, status;
    }
    if lockedStatus == Complete {
      return Skipped, initial, lockedStatus;
    }
    if failures.marking {
      return Failed, initial, lockedStatus;
    }
    var ok;
    ok, db := RunPass(initial, before1, between1, failures.first, current);
    if !ok {
      return Failed, db, if failures.resetting then Running else Pending;
    }
    ok, db := RunPass(db, before2, between2, failures.second, true);
    if !ok {
      return Failed, db, if failures.resetting then Running else Pending;
    }
    if failures.completing {
      return Failed, db, Running;
    }
    return Ran, db, Complete;
  }

  /** Once the backfill is complete, current ingestion keeps every rollup exact. */
  lemma ExactStaysExact(db: Db, ws: Interference)
    requires Valid(db) && AllExact(db) && AllCurrent(ws)
    ensures AllExact(WriteAll(db, ws))
  {
    WritesKeepExact(db, ws, 0);
    forall g | IsErrorGroup(WriteAll(db, ws), g) ensures Exact(WriteAll(db, ws), g) {
      WritesKeepExact(db, ws, g);
    }
  }

  /** Why one pass is not enough while old writers run: their write makes an exact group inexact. */
  lemma LegacyWriteBreaksExactness(db: Db, i: Ingest)
    requires (i.project, i.fingerprint) in db.keys
    requires var g := db.keys[(i.project, i.fingerprint)]; IsErrorGroup(db, g) && Exact(db, g)
    ensures !Exact(LegacyStep(db, i), db.keys[(i.project, i.fingerprint)])
  {
    var g := db.keys[(i.project, i.fingerprint)];
    var e := i.environment;
    var after := LegacyStep(db, i);
    var ev := EventRow(g, e, i.time, false);
    assert after.events == db.events + [ev];
    assert Sources(after, g, e) == Sources(db.(events := db.events + [ev]), g, e);
    EventSnoc(db, ev, g, e);
    AggregateInsert(Sources(db, g, e), Occurrence(i.time, 1), []);
    assert Sources(db, g, e) + [Occurrence(i.time, 1)] + [] == Sources(after, g, e) && Sources(db, g, e) + [] == Sources(db, g, e);
    assert Recorded(db, g, e) == Expected(db, g, e);
    assert Recorded(after, g, e) != Expected(after, g, e);
  }

  // ---------------------------------------------------------------- what an exact rollup says of the rows

  /** The rows that count: events of the group in the environment, and live signals folded onto it there. */
  predicate EventCounts(ev: EventRow, g: nat, e: string) { ev.group == g && ev.environment == e }
  predicate SignalCounts(s: SignalRow, g: nat, e: string) { s.group == g && s.environment == e && s.live }

  ghost predicate HasRow(db: Db, g: nat, e: string) {
    || (exists k :: 0 <= k < |db.events| && EventCounts(db.events[k], g, e))
    || (exists k :: 0 <= k < |db.signals| && SignalCounts(db.signals[k], g, e))
  }

  ghost predicate RowAt(db: Db, g: nat, e: string, time: int) {
    || (exists k :: 0 <= k < |db.events| && EventCounts(db.events[k], g, e) && db.events[k].time == time)
    || (exists k :: 0 <= k < |db.signals| && SignalCounts(db.signals[k], g, e) && db.signals[k].time == time)
  }

  function EventsCounted(events: seq<EventRow>, g: nat, e: string): nat {
    if events == [] then 0 else EventsCounted(events[1..], g, e) + (if EventCounts(events[0], g, e) then 1 else 0)
  }

  function RepeatsCounted(signals: seq<SignalRow>, g: nat, e: string): nat {
    if signals == [] then 0
    else
      RepeatsCounted(signals[1..], g, e) + (if SignalCounts(signals[0], g, e) then signals[0].occurrences else 0)
  }

  /** A rollup row as the source rows have it: earliest and latest time, one for each event and all repeats of the signals. */
  ghost predicate Summarizes(db: Db, g: nat, e: string, r: Rolled) {
    && RowAt(db, g, e, r.firstSeen) && RowAt(db, g, e, r.lastSeen)
    && (forall time: int :: RowAt(db, g, e, time) ==> r.firstSeen <= time <= r.lastSeen)
    && r.count == EventsCounted(db.events, g, e) + RepeatsCounted(db.signals, g, e)
  }

  lemma {:induction false} EventIsSource(events: seq<EventRow>, g: nat, e: string, k: nat)
    requires k < |events| && EventCounts(events[k], g, e)
    ensures Occurrence(events[k].time, 1) in EventOccurrences(events, g, e)
  {
    if k < |events| - 1 {
      EventIsSource(events[..|events| - 1], g, e, k);
    }
  }

  lemma {:induction false} SourceIsEvent(events: seq<EventRow>, g: nat, e: string, o: Occurrence) returns (k: nat)
    requires o in EventOccurrences(events, g, e)
    ensures k < |events| && EventCounts(events[k], g, e) && events[k].time == o.time
  {
    k := |events| - 1;
    if o in EventOccurrences(events[..k], g, e) {
      k := SourceIsEvent(events[..k], g, e, o);
    }
  }

  lemma {:induction false} CountSnoc(events: seq<EventRow>, ev: EventRow, g: nat, e: string)
    ensures EventsCounted(events + [ev], g, e) == EventsCounted(events, g, e) + (if EventCounts(ev, g, e) then 1 else 0)
  {
    if events == [] {
      assert events + [ev] == [ev];
    } else {
      assert (events + [ev])[1..] == events[1..] + [ev];
      CountSnoc(events[1..], ev, g, e);
    }
  }

  lemma {:induction false} EventTotal(events: seq<EventRow>, g: nat, e: string)
    ensures Total(EventOccurrences(events, g, e)) == EventsCounted(events, g, e)
  {
    if events != [] {
      var n := |events| - 1;
      var rest := events[..n];
      EventTotal(rest, g, e);
      assert events == rest + [events[n]];
      CountSnoc(rest, events[n], g, e);
      hide EventsCounted, Total;
      if EventCounts(events[n], g, e) {
        TotalSnoc(EventOccurrences(rest, g, e), Occurrence(events[n].time, 1));
      } else {
        assert EventOccurrences(events, g, e) == EventOccurrences(rest, g, e);
      }
    }
  }

  lemma {:induction false} RepeatsSnoc(signals: seq<SignalRow>, s: SignalRow, g: nat, e: string)
    ensures RepeatsCounted(signals + [s], g, e) == RepeatsCounted(signals, g, e) + (if SignalCounts(s, g, e) then s.occurrences else 0)
  {
    if signals == [] {
      assert signals + [s] == [s];
    } else {
      assert (signals + [s])[1..] == signals[1..] + [s];
      RepeatsSnoc(signals[1..], s, g, e);
    }
  }

  lemma {:induction false} SignalIsSource(signals: seq<SignalRow>, g: nat, e: string, k: nat)
    requires k < |signals| && SignalCounts(signals[k], g, e)
    ensures Occurrence(signals[k].time, signals[k].occurrences) in SignalOccurrences(signals, g, e)
  {
    if k < |signals| - 1 {
      SignalIsSource(signals[..|signals| - 1], g, e, k);
    }
  }

  lemma {:induction false} SourceIsSignal(signals: seq<SignalRow>, g: nat, e: string, o: Occurrence) returns (k: nat)
    requires o in SignalOccurrences(signals, g, e)
    ensures k < |signals| && SignalCounts(signals[k], g, e) && signals[k].time == o.time
  {
    k := |signals| - 1;
    if o in SignalOccurrences(signals[..k], g, e) {
      k := SourceIsSignal(signals[..k], g, e, o);
    }
  }

  lemma {:induction false} SignalTotal(signals: seq<SignalRow>, g: nat, e: string)
    ensures Total(SignalOccurrences(signals, g, e)) == RepeatsCounted(signals, g, e)
  {
    if signals != [] {
      var n := |signals| - 1;
      var rest := signals[..n];
      SignalTotal(rest, g, e);
      assert signals == rest + [signals[n]];
      RepeatsSnoc(rest, signals[n], g, e);
      if SignalCounts(signals[n], g, e) {
        TotalSnoc(SignalOccurrences(rest, g, e), Occurrence(signals[n].time, signals[n].occurrences));
      } else {
        assert SignalOccurrences(signals, g, e) == SignalOccurrences(rest, g, e);
      }
    }
  }

  lemma RowIsSource(db: Db, g: nat, e: string, time: int)
    requires RowAt(db, g, e, time)
    ensures exists o :: o in Sources(db, g, e) && o.time == time
  {
    hide EventOccurrences, SignalOccurrences, EventCounts, SignalCounts;
    if k :| 0 <= k < |db.events| && EventCounts(db.events[k], g, e) && db.events[k].time == time {
      EventIsSource(db.events, g, e, k);
      assert Occurrence(time, 1) in Sources(db, g, e);
    } else {
      var k :| 0 <= k < |db.signals| && SignalCounts(db.signals[k], g, e) && db.signals[k].time == time;
      SignalIsSource(db.signals, g, e, k);
      assert Occurrence(time, db.signals[k].occurrences) in Sources(db, g, e);
    }
  }

  lemma SourceIsRow(db: Db, g: nat, e: string, o: Occurrence)
    requires o in Sources(db, g, e)
    ensures RowAt(db, g, e, o.time)
  {
    hide EventOccurrences, SignalOccurrences, EventCounts, SignalCounts;
    if o in EventOccurrences(db.events, g, e) {
      var k := SourceIsEvent(db.events, g, e, o);
    } else {
      var k := SourceIsSignal(db.signals, g, e, o);
    }
  }

  lemma SourcesAreRows(db: Db, g: nat, e: string)
    ensures forall time: int :: RowAt(db, g, e, time) <==> exists o :: o in Sources(db, g, e) && o.time == time
    ensures HasRow(db, g, e) <==> Sources(db, g, e) != []
    ensures Total(Sources(db, g, e)) == EventsCounted(db.events, g, e) + RepeatsCounted(db.signals, g, e)
  {
    EventTotal(db.events, g, e);
    SignalTotal(db.signals, g, e);
    TotalConcat(SignalOccurrences(db.signals, g, e), EventOccurrences(db.events, g, e));
    forall time: int ensures RowAt(db, g, e, time) <==> exists o :: o in Sources(db, g, e) && o.time == time {
      if RowAt(db, g, e, time) {
        RowIsSource(db, g, e, time);
      }
      if o :| o in Sources(db, g, e) && o.time == time {
        SourceIsRow(db, g, e, o);
      }
    }
    RowsExist(db, g, e);
  }

  lemma RowsExist(db: Db, g: nat, e: string)
    ensures HasRow(db, g, e) <==> Sources(db, g, e) != []
  {
    hide EventOccurrences, SignalOccurrences, EventCounts, SignalCounts;
    if Sources(db, g, e) != [] {
      SourceIsRow(db, g, e, Sources(db, g, e)[0]);
    }
    if k :| 0 <= k < |db.events| && EventCounts(db.events[k], g, e) {
      EventIsSource(db.events, g, e, k);
    }
    if k :| 0 <= k < |db.signals| && SignalCounts(db.signals[k], g, e) {
      SignalIsSource(db.signals, g, e, k);
    }
  }

  /** What an exact error group has recorded: a row for each environment with source rows and for no other, which summarizes
      them. */
  lemma ExactMeans(db: Db, g: nat, e: string)
    requires IsErrorGroup(db, g) && Exact(db, g)
    ensures (g, e) in db.rollups <==> HasRow(db, g, e)
    ensures (g, e) in db.rollups ==> Summarizes(db, g, e, db.rollups[(g, e)])
  {
    assert Recorded(db, g, e) == Expected(db, g, e);
    SourcesAreRows(db, g, e);
    hide Sources, Aggregate, Summarizes, HasRow;
    if Sources(db, g, e) != [] {
      AggregateSummarizes(db, g, e);
    }
  }

  lemma AggregateSummarizes(db: Db, g: nat, e: string)
    requires Sources(db, g, e) != []
    ensures Summarizes(db, g, e, Aggregate(Sources(db, g, e)))
  {
    SourcesAreRows(db, g, e);
    var rows := Sources(db, g, e);
    hide Sources, Aggregate, EventsCounted, RepeatsCounted, Total, RowAt, HasRow;
    AggregateMeaning(rows);
    var a := Aggregate(rows);
    assert forall o :: o in rows ==> a.firstSeen <= o.time <= a.lastSeen;
    var i :| 0 <= i < |rows| && rows[i].time == a.firstSeen;
    var j :| 0 <= j < |rows| && rows[j].time == a.lastSeen;
    assert rows[i] in rows && rows[j] in rows;
  }

  // ---------------------------------------------------------------- what the writes store

  /** The transaction goes through: the key is that of an error group, or new while the new id is free. */
  predicate IngestCommits(db: Db, i: Ingest) {
    var key := (i.project, i.fingerprint);
    if key in db.keys then IsErrorGroup(db, db.keys[key]) else i.newId !in db.groups
  }

  /** One more source row, in its group and environment, and the rollup there grown by it. */
  ghost predicate RollupGrew(before: Db, after: Db, g: nat, e: string, time: int, n: nat) {
    && after.rollups.Keys == before.rollups.Keys + {(g, e)}
    && (forall k :: k in before.rollups && k != (g, e) ==> after.rollups[k] == before.rollups[k])
    && if (g, e) in before.rollups
       then
         var was, now := before.rollups[(g, e)], after.rollups[(g, e)];
         && now.count == was.count + n
         && now.firstSeen == (if time < was.firstSeen then time else was.firstSeen)
         && now.lastSeen == (if time > was.lastSeen then time else was.lastSeen)
       else after.rollups[(g, e)] == Rolled(time, time, n)
  }

  ghost predicate IngestStored(before: Db, after: Db, i: Ingest) {
    var key := (i.project, i.fingerprint);
    && key in after.keys && IsErrorGroup(after, after.keys[key])
    && var g := after.keys[key];
       && (if key in before.keys then after.keys == before.keys && after.groups == before.groups
           else g == i.newId && after.keys == before.keys[key := g]
                && after.groups == before.groups[g := Group(i.project, i.fingerprint, ErrorKind)])
       && |after.events| == |before.events| + 1 && after.events[..|before.events|] == before.events
       && after.events[|before.events|] == EventRow(g, i.environment, i.time, false)
       && after.signals == before.signals && RollupGrew(before, after, g, i.environment, i.time, 1)
  }

  /** An ingestion stores the error under its key's group, in its environment and at its time, exactly when it commits;
      otherwise it changes nothing. */
  lemma IngestStores(db: Db, i: Ingest)
    ensures IngestCommits(db, i) ==> IngestStored(db, IngestStep(db, i), i)
    ensures !IngestCommits(db, i) ==> IngestStep(db, i) == db
  {
  }

  /** A settlement stores its observation in an error group and nowhere else. */
  lemma SettleStores(db: Db, g: nat, e: string, time: int)
    ensures var after := SettleStep(db, g, e, time);
            if g in db.groups && db.groups[g].kind == ErrorKind
            then after.(rollups := db.rollups) == db.(events := db.events + [EventRow(g, e, time, true)])
                 && RollupGrew(db, after, g, e, time, 1)
            else after == db
  {
  }

  /** A fold stores a live signal in its group, and only an error group's rollup grows, by all its repeats. */
  lemma FoldStores(db: Db, s: SignalRow)
    ensures var after := FoldStep(db, s);
            if s.group in db.groups && s.live
            then && after.(rollups := db.rollups) == db.(signals := db.signals + [s])
                 && (if db.groups[s.group].kind == ErrorKind
                     then RollupGrew(db, after, s.group, s.environment, s.time, s.occurrences)
                     else after.rollups == db.rollups)
            else after == db
  {
  }

  /** A recomputed batch touches no rows, and no rollup of a group that is not an error group of the batch. */
  lemma RecomputeStores(db: Db, ids: seq<nat>)
    ensures var after := RecomputeStep(db, ids);
            && after.(rollups := db.rollups) == db
            && (forall k: (nat, string) :: !(k.0 in ids && IsErrorGroup(db, k.0)) ==>
                  (k in after.rollups <==> k in db.rollups) && (k in db.rollups ==> after.rollups[k] == db.rollups[k]))
  {
    hide Environments, Expected;
  }

  /** A promotion stores its signals, makes the group exact from its source rows, and leaves other rollups alone. */
  lemma PromoteStores(db: Db, g: nat, signals: seq<SignalRow>)
    requires g in db.groups && forall k :: 0 <= k < |signals| ==> signals[k].group == g
    ensures var after := PromoteStep(db, g, signals);
            && after.(rollups := db.rollups) == db.(signals := db.signals + signals)
            && Exact(after, g)
            && (forall k: (nat, string) :: k.0 != g ==> (k in after.rollups <==> k in db.rollups) && (k in db.rollups ==> after.rollups[k] == db.rollups[k]))
  {
    hide Exact, Environments, Expected;
    ReplacedIsExact(db.(signals := db.signals + signals), {g}, g);
  }

  // ---------------------------------------------------------------- merging issues

  /** A merge is refused for friction groups and for groups with an event that settlement did not link. */
  predicate Mergeable(db: Db, winner: nat, loser: nat) {
    && winner != loser && IsErrorGroup(db, winner) && IsErrorGroup(db, loser)
    && forall k :: 0 <= k < |db.events| && db.events[k].group in {winner, loser} ==> db.events[k].settled
  }

  function Moved(events: seq<EventRow>, winner: nat, loser: nat): seq<EventRow> {
    if events == [] then []
    else
      var last := events[|events| - 1];
      Moved(events[..|events| - 1], winner, loser) + [if last.group == loser then last.(group := winner) else last]
  }

  /** min, max and count of the events alone. */
  function FromEvents(events: seq<EventRow>, g: nat, environments: set<string>): map<(nat, string), Rolled> {
    map e | e in environments && EventOccurrences(events, g, e) != [] :: (g, e) := Aggregate(EventOccurrences(events, g, e))
  }

  /** A confirmed merge: the loser's events move, the rollups of both are cleared, and the winner's are rebuilt from the
      settled events. */
  function MergeStep(db: Db, winner: nat, loser: nat): Db
    requires Mergeable(db, winner, loser)
  {
    var events := Moved(db.events, winner, loser);
    db.(events := events, rollups := Cleared(db.rollups, {winner, loser}) + FromEvents(events, winner, Environments(db)))
  }

  /** No live signal is folded onto the group. */
  ghost predicate NoFolds(db: Db, g: nat) {
    forall k :: 0 <= k < |db.signals| && db.signals[k].live ==> db.signals[k].group != g
  }

  lemma {:induction false} MovedOccurrences(events: seq<EventRow>, winner: nat, loser: nat, g: nat, e: string)
    requires winner != loser
    ensures g != winner && g != loser ==> EventOccurrences(Moved(events, winner, loser), g, e) == EventOccurrences(events, g, e)
    ensures EventOccurrences(Moved(events, winner, loser), loser, e) == []
    ensures EventOccurrences(Moved(events, winner, loser), winner, e) != [] ==>
              EventOccurrences(events, winner, e) != [] || EventOccurrences(events, loser, e) != []
  {
    if events != [] {
      var n := |events| - 1;
      var moved := Moved(events, winner, loser);
      assert moved[..|moved| - 1] == Moved(events[..n], winner, loser);
      MovedOccurrences(events[..n], winner, loser, g, e);
    }
  }

  lemma {:induction false} NoFoldsNoOccurrences(signals: seq<SignalRow>, g: nat, e: string)
    requires forall k :: 0 <= k < |signals| && signals[k].live ==> signals[k].group != g
    ensures SignalOccurrences(signals, g, e) == []
  {
    if signals != [] {
      NoFoldsNoOccurrences(signals[..|signals| - 1], g, e);
    }
  }

  lemma {:induction false} FoldCounts(signals: seq<SignalRow>, g: nat, e: string, k: nat)
    requires k < |signals| && signals[k].live && signals[k].group == g && signals[k].environment == e
    ensures Total(SignalOccurrences(signals, g, e)) > 0
  {
    var n := |signals| - 1;
    var before := SignalOccurrences(signals[..n], g, e);
    if k < n {
      FoldCounts(signals[..n], g, e, k);
    }
    if signals[n].group == g && signals[n].environment == e && signals[n].live {
      TotalSnoc(before, Occurrence(signals[n].time, signals[n].occurrences));
    } else {
      assert SignalOccurrences(signals, g, e) == before;
    }
  }

  lemma {:induction false} TotalConcat(a: seq<Occurrence>, b: seq<Occurrence>)
    ensures Total(a + b) == Total(a) + Total(b)
    decreases |b|
  {
    if b == [] {
      assert a + b == a;
    } else {
      var n := |b| - 1;
      assert a + b == (a + b[..n]) + [b[n]] && b == b[..n] + [b[n]];
      TotalConcat(a, b[..n]);
      TotalSnoc(a + b[..n], b[n]);
      TotalSnoc(b[..n], b[n]);
    }
  }

  lemma WinnerEnvironments(db: Db, winner: nat, loser: nat, e: string)
    requires winner != loser && EventOccurrences(Moved(db.events, winner, loser), winner, e) != []
    ensures e in Environments(db)
  {
    hide Environments;
    MovedOccurrences(db.events, winner, loser, winner, e);
    if EventOccurrences(db.events, winner, e) != [] {
      SourcesAreInEnvironments(db, winner, e);
    } else {
      SourcesAreInEnvironments(db, loser, e);
    }
  }

  lemma FromEventsAt(events: seq<EventRow>, winner: nat, environments: set<string>, g: nat, e: string)
    requires EventOccurrences(events, winner, e) != [] ==> e in environments
    ensures (g, e) in FromEvents(events, winner, environments) <==> g == winner && EventOccurrences(events, g, e) != []
    ensures (g, e) in FromEvents(events, winner, environments) ==>
              FromEvents(events, winner, environments)[(g, e)] == Aggregate(EventOccurrences(events, g, e))
  {
    hide Aggregate, EventOccurrences;
  }

  /** What a merge leaves recorded. */
  lemma MergeRecords(db: Db, winner: nat, loser: nat, g: nat, e: string)
    requires Mergeable(db, winner, loser)
    ensures var after := MergeStep(db, winner, loser);
            && (g == winner ==> Recorded(after, g, e) == Prior(EventOccurrences(after.events, g, e)))
            && (g == loser ==> Recorded(after, g, e) == None && EventOccurrences(after.events, g, e) == [])
            && (g != winner && g != loser ==> Recorded(after, g, e) == Recorded(db, g, e) && Sources(after, g, e) == Sources(db, g, e))
  {
    MovedOccurrences(db.events, winner, loser, g, e);
    if EventOccurrences(Moved(db.events, winner, loser), winner, e) != [] {
      WinnerEnvironments(db, winner, loser, e);
    }
    FromEventsAt(Moved(db.events, winner, loser), winner, Environments(db), g, e);
    hide Aggregate, Environments, Moved, EventOccurrences, SignalOccurrences, FromEvents;
  }

  /** The events of the loser are the winner's after a merge, and no row is lost or changed otherwise. */
  lemma {:induction false} MergeMoves(events: seq<EventRow>, winner: nat, loser: nat)
    ensures |Moved(events, winner, loser)| == |events|
    ensures forall k :: 0 <= k < |events| ==>
              Moved(events, winner, loser)[k] == if events[k].group == loser then events[k].(group := winner) else events[k]
  {
    if events != [] {
      MergeMoves(events[..|events| - 1], winner, loser);
    }
  }

  /** The rebuild counts no signal, so in an environment with a live one it is short. */
  lemma FoldsAreMissed(db: Db, g: nat, e: string, k: nat)
    requires IsErrorGroup(db, g) && k < |db.signals|
    requires db.signals[k].live && db.signals[k].group == g && db.signals[k].environment == e
    ensures Prior(EventOccurrences(db.events, g, e)) != Expected(db, g, e)
  {
    var signals, events := SignalOccurrences(db.signals, g, e), EventOccurrences(db.events, g, e);
    FoldCounts(db.signals, g, e, k);
    TotalConcat(signals, events);
    hide Aggregate, EventOccurrences, SignalOccurrences;
    assert Total([]) == 0;
    AggregateMeaning(signals + events);
    if events != [] {
      AggregateMeaning(events);
    }
  }

  lemma MergedGroupIsExact(db: Db, g: nat)
    requires IsErrorGroup(db, g)
    requires forall e :: Recorded(db, g, e) == Prior(EventOccurrences(db.events, g, e))
    ensures Exact(db, g) <==> NoFolds(db, g)
  {
    hide Aggregate;
    if NoFolds(db, g) {
      forall e ensures Recorded(db, g, e) == Expected(db, g, e) {
        NoFoldsNoOccurrences(db.signals, g, e);
        assert Sources(db, g, e) == EventOccurrences(db.events, g, e);
      }
    } else {
      var k :| 0 <= k < |db.signals| && db.signals[k].live && db.signals[k].group == g;
      FoldsAreMissed(db, g, db.signals[k].environment, k);
      assert Recorded(db, g, db.signals[k].environment) != Expected(db, g, db.signals[k].environment);
    }
  }

  /** A merge keeps the rollups of other groups exact, and leaves those of the winner, and of the loser, exact if and only if
      no live signal is folded onto it. */
  lemma MergeIsExactExactly(db: Db, winner: nat, loser: nat, g: nat)
    requires Mergeable(db, winner, loser)
    ensures g == winner || g == loser ==> (Exact(MergeStep(db, winner, loser), g) <==> NoFolds(db, g))
    ensures g != winner && g != loser && Exact(db, g) ==> Exact(MergeStep(db, winner, loser), g)
  {
    hide Aggregate, Moved, EventOccurrences, SignalOccurrences;
    var after := MergeStep(db, winner, loser);
    if g == winner || g == loser {
      forall e ensures Recorded(after, g, e) == Prior(EventOccurrences(after.events, g, e)) {
        MergeRecords(db, winner, loser, g, e);
      }
      MergedGroupIsExact(after, g);
    } else if Exact(db, g) {
      forall e ensures Recorded(after, g, e) == Expected(after, g, e) {
        MergeRecords(db, winner, loser, g, e);
        assert Recorded(db, g, e) == Expected(db, g, e);
      }
    }
  }

  const TWO_ISSUES := Db(map[0 := Group("p", "a", ErrorKind), 1 := Group("p", "b", ErrorKind)],
                         map[("p", "a") := 0, ("p", "b") := 1], [], [], map[])
  const CLICKS := SignalRow(0, "live", 2, 3, true)
  const FOLDED := [Settled(0, "live", 1), Folded(CLICKS), Settled(1, "live", 3)]

  lemma ThreeWrites(db: Db, a: Write, b: Write, c: Write)
    ensures WriteAll(db, [a, b, c]) == WriteStep(WriteStep(WriteStep(db, a), b), c)
  {
    hide WriteStep;
    assert [a, b, c][1..] == [b, c] && [b, c][1..] == [c] && [c][1..] == [];
    var d := WriteStep(WriteStep(WriteStep(db, a), b), c);
    assert WriteAll(d, []) == d && WriteAll(WriteStep(WriteStep(db, a), b), [c]) == d;
  }

  lemma FoldedTables()
    ensures var db := WriteAll(TWO_ISSUES, FOLDED);
            && db.groups == TWO_ISSUES.groups && db.signals == [CLICKS]
            && db.events == [EventRow(0, "live", 1, true), EventRow(1, "live", 3, true)]
  {
    ThreeWrites(TWO_ISSUES, FOLDED[0], FOLDED[1], FOLDED[2]);
    hide WriteAll, Bump, Recorded;
  }

  lemma NewTablesAreExact()
    ensures Valid(TWO_ISSUES) && AllExact(TWO_ISSUES)
  {
    hide Aggregate;
  }

  /** Two issues with a settled event each and a signal folded onto the first: all exact, and mergeable; after the merge the
      three repeats of the signal are missing from the rollup. */
  lemma MergeLosesFolds()
    ensures Valid(TWO_ISSUES) && AllCurrent(FOLDED)
    ensures var db := WriteAll(TWO_ISSUES, FOLDED);
            AllExact(db) && Mergeable(db, 0, 1) && !Exact(MergeStep(db, 0, 1), 0)
  {
    hide Exact, AllExact, Valid, WriteAll, MergeStep;
    var db := WriteAll(TWO_ISSUES, FOLDED);
    FoldedTables();
    NewTablesAreExact();
    ExactStaysExact(TWO_ISSUES, FOLDED);
    assert db.signals[0].live && db.signals[0].group == 0;
    MergeIsExactExactly(db, 0, 1, 0);
  }

  // ---------------------------------------------------------------- the transactions

  class Tables {
    var groups: map<nat, Group>
    var keys: map<(string, string), nat>
    var events: seq<EventRow>
    var signals: seq<SignalRow>
    var rollups: map<(nat, string), Rolled>
    var ledger: map<(nat, nat), nat>

    ghost function View(): Db
      reads this
    {
      Db(groups, keys, events, signals, rollups)
    }

    /** One ingested error: event, group upsert, link and rollup in one transaction. */
    method InsertErrorEventAndGroup(i: Ingest) returns (committed: bool)
      modifies this
      ensures View() == IngestStep(old(View()), i) && ledger == old(ledger)
      ensures committed <==> IngestCommits(old(View()), i)
      ensures if committed then IngestStored(old(View()), View(), i) else View() == old(View())
    {
      IngestStores(View(), i);
      hide IngestStored;
      var key := (i.project, i.fingerprint);
      var group: nat;
      if key in keys {
        group := keys[key];
        if group !in groups || groups[group].kind != ErrorKind {
          return false;
        }
        assert keys[key := group] == keys;
      } else {
        group := i.newId;
        if group in groups {
          return false;
        }
        groups := groups[group := Group(i.project, i.fingerprint, ErrorKind)];
        keys := keys[key := group];
      }
      events := events + [EventRow(group, i.environment, i.time, false)];
      AddToRollup(group, i.environment, i.time, 1);
      committed := true;
    }

    /** Settlement attaches an observation to its canonical issue. */
    method AttachObservation(group: nat, environment: string, time: int)
      modifies this
      ensures View() == SettleStep(old(View()), group, environment, time) && ledger == old(ledger)
    {
      if group !in groups || groups[group].kind != ErrorKind {
        return;
      }
      events := events + [EventRow(group, environment, time, true)];
      AddToRollup(group, environment, time, 1);
    }

    /** Attaches one signal with its incremental impact. */
    method AttachSignal(s: SignalRow)
      modifies this
      ensures View() == FoldStep(old(View()), s) && ledger == old(ledger)
    {
      if s.group !in groups || !s.live {
        return;
      }
      signals := signals + [s];
      if groups[s.group].kind == ErrorKind {
        AddToRollup(s.group, s.environment, s.time, s.occurrences);
      }
    }

    /** Merges the loser into the winner unless the merge is refused. */
    method ConfirmMerge(winner: nat, loser: nat) returns (merged: bool)
      modifies this
      ensures merged <==> Mergeable(old(View()), winner, loser)
      ensures View() == if merged then MergeStep(old(View()), winner, loser) else old(View())
      ensures ledger == old(ledger)
    {
      var snapshot := Db(groups, keys, events, signals, rollups);
      merged := Mergeable(snapshot, winner, loser);
      if merged {
        events := Moved(events, winner, loser);
        rollups := Cleared(rollups, {winner, loser});
        rollups := rollups + FromEvents(events, winner, Environments(snapshot));
      }
    }

    method AddToRollup(group: nat, environment: string, time: int, n: nat)
      modifies this`rollups
      ensures rollups == old(rollups)[(group, environment) := Bump(Recorded(old(View()), group, environment), time, n)]
    {
      var row := (group, environment);
      if row in rollups {
        var r := rollups[row];
        rollups := rollups[row := Rolled(Least(r.firstSeen, time), Greatest(r.lastSeen, time), r.count + n)];
      } else {
        rollups := rollups[row := Rolled(time, time, n)];
      }
    }

    /** Deletes the rollups of a batch, inserts what the source rows say, and records the batch of the pass. */
    method RecomputeRollupBatch(ids: seq<nat>, turn: nat)
      requires ids != []
      modifies this
      ensures View() == RecomputeStep(old(View()), ids)
      ensures ledger == old(ledger)[(ids[0], turn) := ids[|ids| - 1]]
    {
      var locked := LockedGroups(groups, ids);
      var snapshot := Db(groups, keys, events, signals, rollups);
      rollups := Cleared(rollups, locked);
      rollups := rollups + Rebuilt(snapshot, locked);
      ledger := ledger[(ids[0], turn) := ids[|ids| - 1]];
    }
  }
}
