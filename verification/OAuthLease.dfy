/**
 The lease on OAuth login states (ReserveOAuthLoginState, FinalizeOAuthLoginState,
 ReleaseOAuthLoginState and ConsumeOAuthLoginStateDetails in packages/ingestion/db/queries.go).

 Each SQL statement is one step at a clock reading, in seconds.  A log lists the calls of all
 callers, interleaved in any way, with what each returned.
 */
module OAuthLease {
  import opened Wrappers

  /** How long a reservation lasts. */
  const LEASE := 120
  const DAY := 86400

  // ---------------------------------------------------------------- data and steps

  datatype Row = Row(expiresAt: int, consumedAt: Option<int>, reservedAt: Option<int>, token: Option<nat>)

  type Rows = map<string, Row>

  /** A call; `Reserve` carries the random token the database would generate. */
  datatype Call =
    | Store(hash: string, expiresAt: int)
    | Reserve(hash: string, newToken: nat)
    | Finalize(hash: string, token: nat)
    | Release(hash: string, token: nat)
    | Consume(hash: string)
    | Cleanup

  datatype Answer = Stored | Reserved | InFlight | Finalized | Released | Consumed | Refused | Cleaned

  /** A state that is neither consumed nor expired. */
  predicate Live(row: Row, now: int) {
    row.consumedAt.None? && row.expiresAt > now
  }

  predicate Leased(row: Row, now: int) {
    row.reservedAt.Some? && row.reservedAt.value > now - LEASE
  }

  predicate CanFinalize(rows: Rows, now: int, hash: string, token: nat) {
    hash in rows && rows[hash].token == Some(token) && Leased(rows[hash], now) && Live(rows[hash], now)
  }

  predicate Expired(row: Row, now: int) {
    row.expiresAt < now - DAY || (row.consumedAt.Some? && row.consumedAt.value < now - DAY)
  }

  function Apply(rows: Rows, now: int, call: Call): (Rows, Answer) {
    match call
    case Store(hash, expiresAt) =>
      if hash in rows then (rows, Refused) else (rows[hash := Row(expiresAt, None, None, None)], Stored)
    case Reserve(hash, newToken) =>
      if hash in rows && Live(rows[hash], now) && !Leased(rows[hash], now)
      then (rows[hash := rows[hash].(reservedAt := Some(now), token := Some(newToken))], Reserved)
      else (rows, if hash in rows && Live(rows[hash], now) && Leased(rows[hash], now) then InFlight else Refused)
    case Finalize(hash, token) =>
      if CanFinalize(rows, now, hash, token)
      then (rows[hash := rows[hash].(consumedAt := Some(now), reservedAt := None, token := None)], Finalized)
      else (rows, Refused)
    case Release(hash, token) =>
      if hash in rows && rows[hash].token == Some(token) && rows[hash].consumedAt.None?
      then (rows[hash := rows[hash].(reservedAt := None, token := None)], Released)
      else (rows, Refused)
    case Consume(hash) =>
      if hash in rows && Live(rows[hash], now)
      then (rows[hash := rows[hash].(consumedAt := Some(now))], Consumed)
      else (rows, Refused)
    case Cleanup =>
      (map h | h in rows && !Expired(rows[h], now) :: rows[h], Cleaned)
  }

  // ---------------------------------------------------------------- logs

  datatype Entry = Entry(time: int, call: Call, answer: Answer)

  function RowsAfter(log: seq<Entry>): Rows {
    if log == [] then map[]
    else Apply(RowsAfter(log[..|log| - 1]), log[|log| - 1].time, log[|log| - 1].call).0
  }

  ghost predicate AnswersOk(log: seq<Entry>) {
    forall k :: 0 <= k < |log| ==> log[k].answer == Apply(RowsAfter(log[..k]), log[k].time, log[k].call).1
  }

  predicate ClockOk(log: seq<Entry>) {
    forall i, j :: 0 <= i < j < |log| ==> log[i].time <= log[j].time
  }

  predicate TokensOk(log: seq<Entry>) {
    forall i, j :: 0 <= i < j < |log| && log[i].call.Reserve? && log[j].call.Reserve? ==>
      log[i].call.newToken != log[j].call.newToken
  }

  predicate HashesOk(log: seq<Entry>) {
    forall i, j :: 0 <= i < j < |log| && log[i].call.Store? && log[j].call.Store? ==> log[i].call.hash != log[j].call.hash
  }

  /** The answers are the program's, the clock does not go back, tokens are never reissued and
      state hashes, which are random, are never stored again. */
  ghost predicate IsLog(log: seq<Entry>) {
    AnswersOk(log) && ClockOk(log) && TokensOk(log) && HashesOk(log)
  }

  lemma LogPrefix(log: seq<Entry>, n: nat)
    requires IsLog(log) && n <= |log|
    ensures IsLog(log[..n])
  {
    AnswersPrefix(log, n);
    hide AnswersOk;
    assert forall k :: 0 <= k < n ==> log[..n][k] == log[k];
  }

  lemma AnswersPrefix(log: seq<Entry>, n: nat)
    requires AnswersOk(log) && n <= |log|
    ensures AnswersOk(log[..n])
  {
    hide Apply, RowsAfter;
    forall k | 0 <= k < n
      ensures log[..n][k].answer == Apply(RowsAfter(log[..n][..k]), log[..n][k].time, log[..n][k].call).1
    {
      assert log[..n][..k] == log[..k] && log[..n][k] == log[k];
    }
  }

  predicate Reserves(e: Entry, hash: string) { e.answer == Reserved && e.call.Reserve? && e.call.hash == hash }
  predicate Gives(e: Entry, hash: string) { e.answer == Released && e.call.Release? && e.call.hash == hash }
  predicate Finalizes(e: Entry, hash: string) { e.answer == Finalized && e.call.Finalize? && e.call.hash == hash }

  /** The entry used the state up. */
  predicate Uses(e: Entry, hash: string) {
    Finalizes(e, hash) || (e.answer == Consumed && e.call.Consume? && e.call.hash == hash)
  }

  predicate Stores(e: Entry, hash: string) { e.call.Store? && e.call.hash == hash }

  datatype Lease = Lease(token: nat, since: int)

  /** The lease the log says `hash` has: the last reservation, unless it was released or finalized since. */
  function LeaseIn(log: seq<Entry>, hash: string): Option<Lease> {
    if log == [] then None
    else
      LeaseNext(LeaseIn(log[..|log| - 1], hash), log[|log| - 1], hash)
  }

  function LeaseNext(lease: Option<Lease>, last: Entry, hash: string): Option<Lease> {
    if Reserves(last, hash) then Some(Lease(last.call.newToken, last.time))
    else if Gives(last, hash) || Finalizes(last, hash) then None
    else lease
  }

  function UsesIn(log: seq<Entry>, hash: string): nat {
    if log == [] then 0 else UsesIn(log[..|log| - 1], hash) + (if Uses(log[|log| - 1], hash) then 1 else 0)
  }

  predicate StoredIn(log: seq<Entry>, hash: string) {
    exists k :: 0 <= k < |log| && Stores(log[k], hash)
  }

  // ---------------------------------------------------------------- the table is the history

  /** The rows say of `hash` that it has that lease and was used that often. */
  predicate RowSays(rows: Rows, hash: string, stored: bool, lease: Option<Lease>, uses: nat) {
    && uses <= 1
    && (!stored ==> hash !in rows && lease == None && uses == 0)
    && (hash in rows ==>
          && (rows[hash].consumedAt.Some? <==> uses == 1)
          && rows[hash].token == (if lease.Some? then Some(lease.value.token) else None)
          && rows[hash].reservedAt == (if lease.Some? then Some(lease.value.since) else None))
  }

  /** What the log says of `hash` is what its row says. */
  ghost predicate RowIsHistory(log: seq<Entry>, hash: string) {
    RowSays(RowsAfter(log), hash, StoredIn(log, hash), LeaseIn(log, hash), UsesIn(log, hash))
  }

  lemma StoredSnoc(log: seq<Entry>, hash: string)
    requires log != []
    ensures StoredIn(log, hash) <==> StoredIn(log[..|log| - 1], hash) || Stores(log[|log| - 1], hash)
  {
    var rest := log[..|log| - 1];
    if StoredIn(rest, hash) {
      var k :| 0 <= k < |rest| && Stores(rest[k], hash);
      assert Stores(log[k], hash);
    }
    if StoredIn(log, hash) {
      var k :| 0 <= k < |log| && Stores(log[k], hash);
      assert k < |rest| ==> Stores(rest[k], hash);
    }
  }

  lemma StoredOnce(log: seq<Entry>, hash: string)
    requires IsLog(log) && log != [] && Stores(log[|log| - 1], hash)
    ensures !StoredIn(log[..|log| - 1], hash)
  {
    var n := |log| - 1;
    forall k | 0 <= k < n ensures !Stores(log[..n][k], hash) {
      assert log[..n][k] == log[k];
    }
  }

  lemma LastAnswer(log: seq<Entry>)
    requires IsLog(log) && log != []
    ensures var n := |log| - 1; log[n].answer == Apply(RowsAfter(log[..n]), log[n].time, log[n].call).1
  {
  }

  lemma RowSaysNext(rows: Rows, e: Entry, hash: string, stored: bool, lease: Option<Lease>, uses: nat)
    requires RowSays(rows, hash, stored, lease, uses)
    requires e.answer == Apply(rows, e.time, e.call).1
    requires Stores(e, hash) ==> !stored
    ensures RowSays(Apply(rows, e.time, e.call).0, hash, stored || Stores(e, hash), LeaseNext(lease, e, hash),
                    uses + (if Uses(e, hash) then 1 else 0))
  {
  }

  lemma HistoryNext(log: seq<Entry>, hash: string)
    requires log != []
    ensures var n := |log| - 1;
            && RowsAfter(log) == Apply(RowsAfter(log[..n]), log[n].time, log[n].call).0
            && LeaseIn(log, hash) == LeaseNext(LeaseIn(log[..n], hash), log[n], hash)
            && UsesIn(log, hash) == UsesIn(log[..n], hash) + (if Uses(log[n], hash) then 1 else 0)
  {
    hide Apply, LeaseNext, Uses;
  }

  lemma NoHistory(hash: string)
    ensures RowIsHistory([], hash)
  {
  }

  lemma {:induction false} RowFollowsHistory(log: seq<Entry>, hash: string)
    requires IsLog(log)
    ensures RowIsHistory(log, hash)
  {
    if log == [] {
      NoHistory(hash);
    } else {
      hide IsLog, StoredIn, Apply, RowSays, LeaseNext, Uses, LeaseIn, UsesIn, RowsAfter;
      var rest, last := log[..|log| - 1], log[|log| - 1];
      LogPrefix(log, |rest|);
      RowFollowsHistory(rest, hash);
      StoredSnoc(log, hash);
      if Stores(last, hash) {
        StoredOnce(log, hash);
      }
      LastAnswer(log);
      HistoryNext(log, hash);
      RowSaysNext(RowsAfter(rest), last, hash, StoredIn(rest, hash), LeaseIn(rest, hash), UsesIn(rest, hash));
    }
  }

  // ---------------------------------------------------------------- the guarantees

  /** Each state is consumed at most once in total, by a finalize or by a consume. */
  lemma ConsumedAtMostOnce(log: seq<Entry>, hash: string, i: nat, j: nat)
    requires IsLog(log) && i < |log| && j < |log| && Uses(log[i], hash) && Uses(log[j], hash)
    ensures i == j
  {
    RowFollowsHistory(log, hash);
    if i < j {
      UsesBetween(log, hash, i, j);
    } else if j < i {
      UsesBetween(log, hash, j, i);
    }
  }

  lemma {:induction false} UsesBetween(log: seq<Entry>, hash: string, i: nat, j: nat)
    requires i < j < |log| && Uses(log[i], hash) && Uses(log[j], hash)
    ensures UsesIn(log, hash) >= 2
  {
    var rest := log[..|log| - 1];
    if j < |rest| {
      UsesBetween(rest, hash, i, j);
    } else {
      UsedBefore(rest, hash, i);
    }
  }

  lemma {:induction false} UsedBefore(log: seq<Entry>, hash: string, i: nat)
    requires i < |log| && Uses(log[i], hash)
    ensures UsesIn(log, hash) >= 1
  {
    if i < |log| - 1 {
      UsedBefore(log[..|log| - 1], hash, i);
    }
  }

  /** After any log, the token that can finalize a state is the one of its current lease, so there is at most one. */
  lemma OnlyTheLeaseFinalizes(log: seq<Entry>, now: int, hash: string, token: nat)
    requires IsLog(log) && hash in RowsAfter(log)
    ensures CanFinalize(RowsAfter(log), now, hash, token) <==>
            && LeaseIn(log, hash).Some? && LeaseIn(log, hash).value.token == token
            && now < LeaseIn(log, hash).value.since + LEASE
            && UsesIn(log, hash) == 0 && now < RowsAfter(log)[hash].expiresAt
  {
    RowFollowsHistory(log, hash);
  }

  /** A lease in the log is some reservation, with nothing newer and no release since. */
  lemma {:induction false} LeaseIsLastReservation(log: seq<Entry>, hash: string) returns (k: nat)
    requires LeaseIn(log, hash).Some?
    ensures k < |log| && Reserves(log[k], hash)
    ensures LeaseIn(log, hash) == Some(Lease(log[k].call.newToken, log[k].time))
    ensures forall j :: k < j < |log| ==> !Reserves(log[j], hash) && !Gives(log[j], hash)
  {
    var rest := log[..|log| - 1];
    if Reserves(log[|log| - 1], hash) {
      k := |log| - 1;
    } else {
      k := LeaseIsLastReservation(rest, hash);
      forall j | k < j < |log| ensures !Reserves(log[j], hash) && !Gives(log[j], hash) {
        if j < |rest| {
          assert rest[j] == log[j];
        }
      }
    }
  }

  /** A stale token never finalizes or releases a newer lease. */
  lemma StaleTokenDoesNothing(log: seq<Entry>, hash: string, i: nat, j: nat, k: nat)
    requires IsLog(log) && i < j < k < |log|
    requires Reserves(log[i], hash) && Reserves(log[j], hash)
    requires log[k].call == Finalize(hash, log[i].call.newToken) || log[k].call == Release(hash, log[i].call.newToken)
    ensures log[k].answer == Refused
    ensures RowsAfter(log[..k + 1]) == RowsAfter(log[..k])
  {
    hide *;
    var before := log[..k];
    LogPrefix(log, k);
    RowFollowsHistory(before, hash);
    ReservesIsReserve(log[i], hash);
    if LeaseIn(before, hash).Some? {
      var r := LeaseIsLastReservation(before, hash);
      assert before[r] == log[r] && before[j] == log[j];
      ReservesIsReserve(log[r], hash);
      TokensDiffer(log, i, r);
    }
    LogAnswer(log, k);
    LastRows(log, k);
    WrongTokenIsRefused(before, hash, log[k], log[i].call.newToken);
  }

  lemma ReservesIsReserve(e: Entry, hash: string)
    requires Reserves(e, hash)
    ensures e.call.Reserve?
  {
  }

  lemma LastRows(log: seq<Entry>, k: nat)
    requires k < |log|
    ensures RowsAfter(log[..k + 1]) == Apply(RowsAfter(log[..k]), log[k].time, log[k].call).0
  {
    assert log[..k + 1][..k] == log[..k] && log[..k + 1][k] == log[k];
  }

  lemma WrongTokenIsRefused(log: seq<Entry>, hash: string, e: Entry, token: nat)
    requires RowIsHistory(log, hash) && (LeaseIn(log, hash).Some? ==> LeaseIn(log, hash).value.token != token)
    requires e.call == Finalize(hash, token) || e.call == Release(hash, token)
    ensures Apply(RowsAfter(log), e.time, e.call) == (RowsAfter(log), Refused)
  {
    hide RowsAfter, LeaseIn, StoredIn, UsesIn;
  }

  lemma LogAnswer(log: seq<Entry>, k: nat)
    requires IsLog(log) && k < |log|
    ensures log[k].answer == Apply(RowsAfter(log[..k]), log[k].time, log[k].call).1
  {
  }

  lemma TokensDiffer(log: seq<Entry>, i: nat, r: nat)
    requires IsLog(log) && i < r < |log| && log[i].call.Reserve? && log[r].call.Reserve?
    ensures log[i].call.newToken != log[r].call.newToken
  {
  }

  /** Two reservations of a state with no release in between are at least a lease apart. */
  lemma LeasesDoNotOverlap(log: seq<Entry>, hash: string, i: nat, j: nat)
    requires IsLog(log) && i < j < |log| && Reserves(log[i], hash) && Reserves(log[j], hash)
    requires forall k :: i < k < j ==> !Gives(log[k], hash)
    ensures log[j].time >= log[i].time + LEASE
  {
    var before := log[..j];
    LogPrefix(log, j);
    RowFollowsHistory(before, hash);
    assert hash in RowsAfter(before) && Live(RowsAfter(before)[hash], log[j].time);
    assert UsesIn(before, hash) == 0;
    StillLeased(before, hash, i);
  }

  lemma {:induction false} StillLeased(log: seq<Entry>, hash: string, i: nat)
    requires IsLog(log) && i < |log| && Reserves(log[i], hash) && UsesIn(log, hash) == 0
    requires forall k :: i < k < |log| ==> !Gives(log[k], hash)
    ensures LeaseIn(log, hash).Some? && LeaseIn(log, hash).value.since >= log[i].time
  {
    hide IsLog, Uses, RowsAfter;
    var n := |log| - 1;
    if i < n {
      LogPrefix(log, n);
      var rest, last := log[..n], log[n];
      assert rest[i] == log[i];
      assert forall k :: i < k < n ==> rest[k] == log[k];
      NotFinalized(log, hash);
      StillLeased(rest, hash, i);
      LogIsOrdered(log, i, n);
    }
  }

  lemma NotFinalized(log: seq<Entry>, hash: string)
    requires log != [] && UsesIn(log, hash) == 0
    ensures UsesIn(log[..|log| - 1], hash) == 0 && !Finalizes(log[|log| - 1], hash)
  {
  }

  lemma LogIsOrdered(log: seq<Entry>, i: nat, j: nat)
    requires IsLog(log) && i <= j < |log|
    ensures log[i].time <= log[j].time
  {
  }

  // ---------------------------------------------------------------- the statements

  class LoginStates {
    var rows: Rows

    constructor ()
      ensures rows == map[]
    {
      rows := map[];
    }

    method StoreState(now: int, hash: string, expiresAt: int) returns (answer: Answer)
      modifies this
      ensures (rows, answer) == Apply(old(rows), now, Store(hash, expiresAt))
    {
      if hash in rows {
        return Refused;
      }
      rows := rows[hash := Row(expiresAt, None, None, None)];
      answer := Stored;
    }

    method ReserveState(now: int, hash: string, newToken: nat) returns (answer: Answer)
      modifies this
      ensures (rows, answer) == Apply(old(rows), now, Reserve(hash, newToken))
    {
      if hash in rows && Live(rows[hash], now) && (rows[hash].reservedAt.None? || rows[hash].reservedAt.value <= now - LEASE) {
        rows := rows[hash := rows[hash].(reservedAt := Some(now), token := Some(newToken))];
        return Reserved;
      }
      if hash in rows && Live(rows[hash], now) && Leased(rows[hash], now) {
        return InFlight;
      }
      answer := Refused;
    }

    method FinalizeState(now: int, hash: string, token: nat) returns (answer: Answer)
      modifies this
      ensures (rows, answer) == Apply(old(rows), now, Finalize(hash, token))
    {
      if hash in rows && rows[hash].token == Some(token) && Leased(rows[hash], now) && Live(rows[hash], now) {
        rows := rows[hash := rows[hash].(consumedAt := Some(now), reservedAt := None, token := None)];
        return Finalized;
      }
      answer := Refused;
    }

    method ReleaseState(hash: string, token: nat, ghost now: int) returns (answer: Answer)
      modifies this
      ensures (rows, answer) == Apply(old(rows), now, Release(hash, token))
    {
      if hash in rows && rows[hash].token == Some(token) && rows[hash].consumedAt.None? {
        rows := rows[hash := rows[hash].(reservedAt := None, token := None)];
        return Released;
      }
      answer := Refused;
    }

    method ConsumeState(now: int, hash: string) returns (answer: Answer)
      modifies this
      ensures (rows, answer) == Apply(old(rows), now, Consume(hash))
    {
      if hash in rows && rows[hash].consumedAt.None? && rows[hash].expiresAt > now {
        rows := rows[hash := rows[hash].(consumedAt := Some(now))];
        return Consumed;
      }
      answer := Refused;
    }

    method CleanupStates(now: int) returns (answer: Answer)
      modifies this
      ensures (rows, answer) == Apply(old(rows), now, Cleanup)
    {
      rows := map h | h in rows && !Expired(rows[h], now) :: rows[h];
      answer := Cleaned;
    }
  }
}
