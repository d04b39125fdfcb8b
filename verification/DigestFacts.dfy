/**
 What the digest selects and why it leaves a candidate out, from the fields of the candidates: the order of
 impact, the slot of the longest waiter, the caps, and the one reason of each candidate.
 */
module DigestFacts {
  import opened Wrappers
  import opened Digest

  // ---------------------------------------------------------------- the order

  /** The two strings agree on their first `n` characters, and then the first ends or has the smaller character. */
  predicate ComesFirst(a: string, b: string, n: nat) {
    && n <= |a| && n < |b| && a[..n] == b[..n]
    && (n == |a| || a[n] < b[n])
  }

  /** The order of ids is the lexicographic one. */
  lemma {:induction false} IdOrder(a: string, b: string)
    ensures StringLess(a, b) <==> exists n: nat :: ComesFirst(a, b, n)
  {
    if a == [] || b == [] {
      if b != [] {
        assert ComesFirst(a, b, 0);
      }
    } else if a[0] != b[0] {
      if a[0] < b[0] {
        assert ComesFirst(a, b, 0);
      }
      forall n: nat | n > 0 ensures !ComesFirst(a, b, n) {
        HeadsDiffer(a, b, n);
      }
    } else {
      IdOrder(a[1..], b[1..]);
      if n: nat :| ComesFirst(a[1..], b[1..], n) {
        assert a[..n + 1] == [a[0]] + a[1..][..n] && b[..n + 1] == [b[0]] + b[1..][..n];
        assert ComesFirst(a, b, n + 1);
      }
      if n: nat :| ComesFirst(a, b, n) {
        TailComesFirst(a, b, n);
      }
    }
  }

  lemma HeadsDiffer(a: string, b: string, n: nat)
    requires a != [] && b != [] && a[0] != b[0] && n > 0
    ensures !ComesFirst(a, b, n)
  {
    if n <= |a| && n < |b| {
      assert a[..n][0] != b[..n][0];
    }
  }

  lemma TailComesFirst(a: string, b: string, n: nat)
    requires a != [] && b != [] && a[0] == b[0] && ComesFirst(a, b, n)
    ensures n > 0 && ComesFirst(a[1..], b[1..], n - 1)
  {
    assert n > 0;
    assert a[1..][..n - 1] == a[..n][1..] && b[1..][..n - 1] == b[..n][1..];
  }

  /** More recorded visits, none being fewest; then more occurrences; then the first id. */
  ghost predicate Beats(l: Candidate, r: Candidate) {
    var lv, rv := if l.impactVisits.Some? then (1, l.impactVisits.value) else (0, 0), if r.impactVisits.Some? then (1, r.impactVisits.value) else (0, 0);
    || lv.0 > rv.0 || (lv.0 == rv.0 && lv.1 > rv.1)
    || (lv == rv && (l.occurrenceCount > r.occurrenceCount
                     || (l.occurrenceCount == r.occurrenceCount && exists n: nat :: ComesFirst(l.groupId, r.groupId, n))))
  }

  lemma ImpactMeans(l: Candidate, r: Candidate)
    ensures MoreImpactful(l, r) <==> Beats(l, r)
  {
    IdOrder(l.groupId, r.groupId);
    hide StringLess, ComesFirst;
  }

  /** It has waited longer: since an earlier time, ties by id. */
  ghost predicate WaitedLonger(c: Candidate, d: Candidate)
    requires c.actionableSince.Some? && d.actionableSince.Some?
  {
    || c.actionableSince.value < d.actionableSince.value
    || (c.actionableSince.value == d.actionableSince.value && exists n: nat :: ComesFirst(c.groupId, d.groupId, n))
  }

  lemma OlderMeans(c: Candidate, d: Candidate)
    requires c.actionableSince.Some? && d.actionableSince.Some?
    ensures Older(c, d) <==> WaitedLonger(c, d)
  {
    IdOrder(c.groupId, d.groupId);
  }

  // ---------------------------------------------------------------- the selection

  /** The competitors in the order of impact. */
  ghost predicate InOrder(ranked: seq<Candidate>, competitors: seq<Candidate>) {
    && multiset(ranked) == multiset(competitors)
    && forall i, j :: 0 <= i < j < |ranked| ==> Beats(ranked[i], ranked[j])
  }

  /** The last slot: the longest waiter among those behind the top, or the next by impact if none of them waits. */
  ghost predicate LastSlot(behind: seq<Candidate>, x: Candidate)
    requires behind != []
  {
    if exists d :: d in behind && d.actionableSince.Some?
    then x in behind && x.actionableSince.Some?
         && forall d :: d in behind && d.actionableSince.Some? && d != x ==> WaitedLonger(x, d)
    else x == behind[0]
  }

  ghost predicate Selects(competitors: seq<Candidate>, limit: nat, picked: seq<Candidate>, overflow: nat) {
    exists ranked :: InOrder(ranked, competitors) && SelectsFrom(ranked, limit, picked, overflow)
  }

  ghost predicate SelectsFrom(ranked: seq<Candidate>, limit: nat, picked: seq<Candidate>, overflow: nat) {
    if |ranked| <= limit then picked == ranked && overflow == 0
    else |picked| == limit && limit >= 1 && picked[..limit - 1] == ranked[..limit - 1]
         && LastSlot(ranked[limit - 1..], picked[limit - 1]) && overflow == |ranked| - limit
  }

  /** The selection takes the competitors by impact; if they are more than the limit, its last slot goes to the longest waiter
      among the rest. */
  lemma SelectionMeans(competitors: seq<Candidate>, limit: nat)
    requires limit >= 1 && DistinctIds(competitors)
    ensures var s := Select(competitors, limit); Selects(competitors, limit, s.picked, s.overflow)
  {
    var ranked, s := Rank(competitors), Select(competitors, limit);
    RankRanks(competitors);
    RankLength(competitors);
    forall i, j | 0 <= i < j < |ranked| ensures Beats(ranked[i], ranked[j]) {
      ImpactMeans(ranked[i], ranked[j]);
    }
    assert InOrder(ranked, competitors);
    if |ranked| > limit {
      LastIsLastSlot(competitors, ranked, limit);
    }
  }

  lemma LastIsLastSlot(competitors: seq<Candidate>, ranked: seq<Candidate>, limit: nat)
    requires limit >= 1 && DistinctIds(competitors) && ranked == Rank(competitors) && |ranked| > limit && |ranked| == |competitors|
    ensures var o := OldestWaiter(competitors, ranked[..limit - 1]);
            LastSlot(ranked[limit - 1..], if o.Some? then o.value else ranked[limit - 1])
  {
    var top, behind := ranked[..limit - 1], ranked[limit - 1..];
    var o := OldestWaiter(competitors, top);
    RankRanks(competitors);
    RankedDistinct(competitors);
    PermutationMembers(ranked, competitors);
    OldestIsOldest(competitors, top);
    hide Rank, OldestWaiter, MoreImpactful, Older, WaitedLonger, Ranked;
    BehindIsOutside(ranked, limit - 1);
    forall d | d in behind ensures d in competitors {
      assert d in ranked;
    }
    if o.Some? {
      var x := o.value;
      assert x in ranked && !Picked(top, x.groupId);
      InBehind(ranked, limit - 1, x);
      forall d | d in behind && d.actionableSince.Some? && d != x ensures WaitedLonger(x, d) {
        assert Waits(d, top);
        if d.groupId == x.groupId {
          UniqueById(competitors, d, x);
        }
        OlderMeans(x, d);
      }
    } else {
      forall d | d in behind ensures d.actionableSince.None? {
        assert !Waits(d, top);
      }
    }
  }

  lemma BehindIsOutside(ranked: seq<Candidate>, n: nat)
    requires DistinctIds(ranked) && n <= |ranked|
    ensures forall d :: d in ranked[n..] ==> !Picked(ranked[..n], d.groupId)
  {
    forall d | d in ranked[n..] ensures !Picked(ranked[..n], d.groupId) {
      var j :| 0 <= j < |ranked[n..]| && ranked[n..][j] == d;
      forall c | c in ranked[..n] ensures c.groupId != d.groupId {
        var i :| 0 <= i < n && ranked[..n][i] == c;
        assert ranked[i].groupId != ranked[n + j].groupId;
      }
    }
  }

  lemma InBehind(ranked: seq<Candidate>, n: nat, x: Candidate)
    requires n <= |ranked| && x in ranked && !Picked(ranked[..n], x.groupId)
    ensures x in ranked[n..]
  {
    assert ranked == ranked[..n] + ranked[n..];
    assert x !in ranked[..n];
  }

  // ---------------------------------------------------------------- the reasons

  /** A candidate with a validated cause: a ticket that is on a card, or an incident that is eligible for one. */
  predicate HasCard(c: Candidate) { if c.ticketOnCard.Some? then c.ticketOnCard.value else c.cardEligible }

  predicate IsSnoozed(c: Candidate, now: int) { c.snoozedUntil.Some? && now < c.snoozedUntil.value }

  /** Why the receipts lane leaves a candidate out before it ranks: snoozed; an error that its lane does not take; without a
      card; already in the frozen lane.  The first that holds counts. */
  lemma ReceiptReasons(c: Candidate, frozen: set<string>, now: int)
    ensures var r := ReceiptExclusion(c, frozen, now);
            && (r == Snoozed <==> IsSnoozed(c, now))
            && (r == ErrorLaneIneligible <==> !IsSnoozed(c, now) && c.isError && !c.errorLaneEligible)
            && (r == NotPublishable <==> !IsSnoozed(c, now) && !(c.isError && !c.errorLaneEligible) && !HasCard(c))
            && (r == FrozenLaneOwns <==>
                  !IsSnoozed(c, now) && !(c.isError && !c.errorLaneEligible) && HasCard(c) && c.groupId in frozen)
            && (r == Unassigned <==> !IsSnoozed(c, now) && !(c.isError && !c.errorLaneEligible) && HasCard(c) && c.groupId !in frozen)
  {
  }

  /** Why the card lane does: a ticket off the cards; snoozed; without a waiting age; without a card. */
  lemma CardReasons(c: Candidate, at: int)
    ensures var r := CardExclusion(c, at);
            && (r == NotPublishable <==>
                  c.ticketOnCard == Some(false) || (!IsSnoozed(c, at) && c.actionableSince != None && !HasCard(c)))
            && (r == Snoozed <==> c.ticketOnCard != Some(false) && IsSnoozed(c, at))
            && (r == MissingWaitingAge <==> c.ticketOnCard != Some(false) && !IsSnoozed(c, at) && c.actionableSince == None)
            && (r == Unassigned <==>
                  c.ticketOnCard != Some(false) && !IsSnoozed(c, at) && c.actionableSince != None && HasCard(c))
  {
  }

  /** An evaluation by the reasons: the candidates without one compete for the places, and every other candidate, and every
      competitor that is not picked, has its reason. */
  ghost predicate Evaluates(e: Evaluation, why: Candidate -> Reason, limit: nat) {
    && (exists competitors :: (forall c :: c in competitors <==> c in e.candidates && why(c) == Unassigned)
          && DistinctIds(competitors) && Selects(competitors, limit, e.included, e.overflow))
    && (forall c :: c in e.candidates ==>
          if why(c) != Unassigned then c.groupId in e.excluded && e.excluded[c.groupId] == why(c)
          else if c in e.included then c.groupId !in e.excluded
          else c.groupId in e.excluded && e.excluded[c.groupId] == CappedOverflow)
    && (forall id :: id in e.excluded ==> exists c :: c in e.candidates && c.groupId == id)
  }

  lemma AccountedEvaluates(e: Evaluation, why: Candidate -> Reason, limit: nat)
    requires limit >= 1 && DistinctIds(e.candidates) && Accounted(e, why, limit)
    ensures Evaluates(e, why, limit)
  {
    var competitors := Eligible(e.candidates, why);
    EligibleAre(e.candidates, why);
    SelectionMeans(competitors, limit);
    SelectionShape(competitors, limit);
    hide Select, Eligible, Selects, DistinctIds, KnownExclusion;
    forall c | c in e.candidates
      ensures if why(c) != Unassigned then c.groupId in e.excluded && e.excluded[c.groupId] == why(c)
              else if c in e.included then c.groupId !in e.excluded
              else c.groupId in e.excluded && e.excluded[c.groupId] == CappedOverflow
    {
      assert OneOutcome(e, why, limit, c);
      if c in e.included {
        assert Picked(e.included, c.groupId);
      }
    }
  }

  /** The receipts lane has five places and the card lane nine. */
  lemma LanesEvaluate(receipts: Evaluation, cards: Evaluation, frozen: set<string>, now: int)
    requires DistinctIds(receipts.candidates) && Accounted(receipts, (c: Candidate) => ReceiptExclusion(c, frozen, now), RECEIPT_CAP)
    requires DistinctIds(cards.candidates) && Accounted(cards, (c: Candidate) => CardExclusion(c, now), CARD_CAP)
    ensures Evaluates(receipts, (c: Candidate) => ReceiptExclusion(c, frozen, now), 5)
    ensures Evaluates(cards, (c: Candidate) => CardExclusion(c, now), 9)
  {
    hide Evaluates, Accounted, DistinctIds, ReceiptExclusion, CardExclusion;
    AccountedEvaluates(receipts, (c: Candidate) => ReceiptExclusion(c, frozen, now), RECEIPT_CAP);
    AccountedEvaluates(cards, (c: Candidate) => CardExclusion(c, now), CARD_CAP);
  }

  /** The ledger row of a candidate: included, or excluded with its reason, which for a competitor is the cap. */
  lemma RowsMean(e: Evaluation, why: Candidate -> Reason, limit: nat, c: Candidate)
    requires limit >= 1 && DistinctIds(e.candidates) && Accounted(e, why, limit) && c in e.candidates
    ensures var row := RowOf(e, why, c);
            && row.groupId == c.groupId && (row.included <==> c in e.included)
            && row.reason == if c in e.included then IncludedReason else if why(c) != Unassigned then why(c) else CappedOverflow
  {
    hide Select, Eligible, DistinctIds;
    assert OneOutcome(e, why, limit, c);
  }

  /** The reconciliation adds what is included to the rows with a reason of the vocabulary. */
  lemma ReconciliationCounts(e: Evaluation)
    ensures Reconciles(e) <==>
            |e.included| + |set id | id in e.excluded && e.excluded[id] in {Snoozed, ErrorLaneIneligible, NotPublishable, FrozenLaneOwns,
                                                                            CappedOverflow, MissingWaitingAge, CardHeldBack}|
            == |e.candidates|
  {
    assert KnownRows(e.excluded)
        == set id | id in e.excluded && e.excluded[id] in {Snoozed, ErrorLaneIneligible, NotPublishable, FrozenLaneOwns,
                                                          CappedOverflow, MissingWaitingAge, CardHeldBack};
  }
}
