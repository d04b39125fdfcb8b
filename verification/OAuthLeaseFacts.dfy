/**
 The answers to OAuth login calls by the history of calls alone: when a state is live, and exactly when
 reserving, finalizing, releasing and consuming it succeed.
 */
module OAuthLeaseFacts {
  import opened Wrappers
  import opened OAuthLease

  /** When the state was stored to expire, if it was stored. */
  function ExpiryIn(log: seq<Entry>, hash: string): Option<int> {
    if log == [] then None
    else if log[|log| - 1].call.Store? && log[|log| - 1].call.hash == hash && log[|log| - 1].answer == Stored
    then Some(log[|log| - 1].call.expiresAt)
    else ExpiryIn(log[..|log| - 1], hash)
  }

  /** The calls that used the state up. */
  function UsedIn(log: seq<Entry>, hash: string): nat {
    if log == [] then 0
    else
      var e := log[|log| - 1];
      UsedIn(log[..|log| - 1], hash)
      + (if (e.call.Finalize? && e.call.hash == hash && e.answer == Finalized) || (e.call.Consume? && e.call.hash == hash && e.answer == Consumed)
         then 1 else 0)
  }

  /** The token and time of the last successful reservation, unless a release or a use by its token followed. */
  function HeldIn(log: seq<Entry>, hash: string): Option<(nat, int)> {
    if log == [] then None
    else
      var e := log[|log| - 1];
      if e.call.Reserve? && e.call.hash == hash && e.answer == Reserved then Some((e.call.newToken, e.time))
      else if (e.call.Release? && e.call.hash == hash && e.answer == Released) || (e.call.Finalize? && e.call.hash == hash && e.answer == Finalized)
      then None
      else HeldIn(log[..|log| - 1], hash)
  }

  /** The state can still be used: stored, not used and not expired. */
  predicate LiveIn(log: seq<Entry>, hash: string, now: int) {
    ExpiryIn(log, hash).Some? && UsedIn(log, hash) == 0 && now < ExpiryIn(log, hash).value
  }

  /** A reservation holds for two minutes. */
  predicate HoldsIn(log: seq<Entry>, hash: string, now: int) {
    HeldIn(log, hash).Some? && now < HeldIn(log, hash).value.1 + 120
  }

  // ---------------------------------------------------------------- the table by the history

  lemma {:induction false} SameHistory(log: seq<Entry>, hash: string)
    ensures UsedIn(log, hash) == UsesIn(log, hash)
    ensures HeldIn(log, hash) == (if LeaseIn(log, hash).Some? then Some((LeaseIn(log, hash).value.token, LeaseIn(log, hash).value.since)) else None)
  {
    if log != [] {
      SameHistory(log[..|log| - 1], hash);
    }
  }

  /** A row has the expiry it was stored with; one that is gone was used, or expired more than a day before `time`. */
  ghost predicate RowExpires(log: seq<Entry>, hash: string, time: int) {
    var rows, expiry := RowsAfter(log), ExpiryIn(log, hash);
    && (hash in rows ==> expiry == Some(rows[hash].expiresAt))
    && (expiry.Some? && hash !in rows ==> UsesIn(log, hash) > 0 || expiry.value < time - 86400)
  }

  lemma ExpiryNext(rows: Rows, e: Entry, hash: string, expiry: Option<int>, uses: nat, time: int)
    requires hash in rows ==> expiry == Some(rows[hash].expiresAt) && (rows[hash].consumedAt.Some? <==> uses == 1)
    requires expiry.Some? && hash !in rows ==> uses > 0 || expiry.value < time - 86400
    requires e.answer == Apply(rows, e.time, e.call).1 && time <= e.time
    ensures var after := Apply(rows, e.time, e.call).0;
            var now := if e.call.Store? && e.call.hash == hash && e.answer == Stored then Some(e.call.expiresAt) else expiry;
            var used := uses + (if Uses(e, hash) then 1 else 0);
            && (hash in after ==> now == Some(after[hash].expiresAt))
            && (now.Some? && hash !in after ==> used > 0 || now.value < e.time - 86400)
  {
  }

  lemma {:induction false} RowsExpire(log: seq<Entry>, hash: string, time: int)
    requires IsLog(log) && (forall k :: 0 <= k < |log| ==> log[k].time <= time)
    ensures RowExpires(log, hash, time)
  {
    if log != [] {
      var n := |log| - 1;
      LogPrefix(log, n);
      LogIsOrderedTo(log, n);
      RowsExpire(log[..n], hash, log[n].time);
      RowFollowsHistory(log[..n], hash);
      LastAnswer(log);
      HistoryNext(log, hash);
      hide IsLog, Apply, StoredIn, LeaseIn;
      ExpiryNext(RowsAfter(log[..n]), log[n], hash, ExpiryIn(log[..n], hash), UsesIn(log[..n], hash), log[n].time);
    }
  }

  lemma LogIsOrderedTo(log: seq<Entry>, n: nat)
    requires IsLog(log) && n < |log|
    ensures forall k :: 0 <= k < n ==> log[..n][k].time <= log[n].time
  {
  }

  lemma LiveMeans(log: seq<Entry>, hash: string, now: int)
    requires IsLog(log) && (forall k :: 0 <= k < |log| ==> log[k].time <= now)
    ensures hash in RowsAfter(log) && Live(RowsAfter(log)[hash], now) <==> LiveIn(log, hash, now)
    ensures hash in RowsAfter(log) ==> RowsAfter(log)[hash].token == (if HeldIn(log, hash).Some? then Some(HeldIn(log, hash).value.0) else None)
    ensures hash in RowsAfter(log) ==> RowsAfter(log)[hash].reservedAt == (if HeldIn(log, hash).Some? then Some(HeldIn(log, hash).value.1) else None)
    ensures hash in RowsAfter(log) ==> (RowsAfter(log)[hash].consumedAt.None? <==> UsedIn(log, hash) == 0)
  {
    SameHistory(log, hash);
    RowFollowsHistory(log, hash);
    RowsExpire(log, hash, now);
    hide IsLog, RowsAfter, ExpiryIn, UsedIn, HeldIn, UsesIn, LeaseIn, StoredIn;
  }

  // ---------------------------------------------------------------- the answers

  /** In every log, by the calls before: a reservation succeeds exactly when the state is live and nobody holds it, is in flight
      exactly when it is live and held, and is refused otherwise; a finalize succeeds exactly when the state is live and held by
      that token; a consume exactly when it is live; and a release exactly when its row is there, unused and held by that token,
      also past the two minutes. */
  lemma AnswersByHistory(log: seq<Entry>, k: nat)
    requires IsLog(log) && k < |log|
    ensures var (before, e) := (log[..k], log[k]);
            match e.call
            case Reserve(hash, _) =>
              && (e.answer == Reserved <==> LiveIn(before, hash, e.time) && !HoldsIn(before, hash, e.time))
              && (e.answer == InFlight <==> LiveIn(before, hash, e.time) && HoldsIn(before, hash, e.time))
              && (e.answer == Refused <==> !LiveIn(before, hash, e.time))
            case Finalize(hash, token) =>
              && (e.answer == Finalized <==> LiveIn(before, hash, e.time) && HoldsIn(before, hash, e.time) && HeldIn(before, hash).value.0 == token)
              && (e.answer == Refused <==> e.answer != Finalized)
            case Consume(hash) =>
              && (e.answer == Consumed <==> LiveIn(before, hash, e.time)) && (e.answer == Refused <==> e.answer != Consumed)
            case Release(hash, token) =>
              && (e.answer == Released <==> hash in RowsAfter(before) && UsedIn(before, hash) == 0
                                            && HeldIn(before, hash).Some? && HeldIn(before, hash).value.0 == token)
              && (e.answer == Refused <==> e.answer != Released)
            case _ => true
  {
    var before, e := log[..k], log[k];
    LogPrefix(log, k);
    LogIsOrderedTo(log, k);
    LogAnswer(log, k);
    if e.call.Reserve? || e.call.Finalize? || e.call.Consume? || e.call.Release? {
      LiveMeans(before, e.call.hash, e.time);
    }
    hide IsLog, RowsAfter, ExpiryIn, UsedIn, HeldIn, LiveIn;
  }

  /** What a call changes: storing adds a fresh row where there was none; the daily cleanup removes exactly the rows that expired
      or were used more than a day ago; no other call adds, removes or touches another row, or moves an expiry. */
  lemma RowsChange(rows: Rows, now: int, call: Call)
    ensures var (after, answer) := Apply(rows, now, call);
            match call
            case Store(hash, expiresAt) =>
              && (answer == Stored <==> hash !in rows)
              && after == if hash in rows then rows else rows[hash := Row(expiresAt, None, None, None)]
            case Cleanup =>
              && after.Keys <= rows.Keys && (forall h :: h in after ==> after[h] == rows[h])
              && forall h :: h in rows ==>
                   (h !in after <==> rows[h].expiresAt + 86400 < now || (rows[h].consumedAt.Some? && rows[h].consumedAt.value + 86400 < now))
            case _ =>
              && after.Keys == rows.Keys
              && (forall h :: h in rows && h != call.hash ==> after[h] == rows[h])
              && (forall h :: h in rows ==> after[h].expiresAt == rows[h].expiresAt)
              && (forall h :: h in rows ==> after[h].consumedAt == rows[h].consumedAt || after[h].consumedAt == Some(now))
  {
  }
}
