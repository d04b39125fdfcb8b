/**
 Digest selection and its ledger (packages/ingestion/digest/actionable.go and
 packages/ingestion/digest/freeze_friction.go).

 Candidates are ranked by impact, capped, and one slot is kept for the oldest waiter; every
 candidate that does not make it gets a ledger reason.
 */
module Digest {
  import opened Wrappers

  const RECEIPT_CAP := 5
  const CARD_CAP := 9

  // ---------------------------------------------------------------- data

  /**
   `ticketOnCard` is present for a ticket and then says whether the ticket is on a card;
   `cardEligible` is the answer of onCardEligible, which reads prose.
   */
  datatype Candidate = Candidate(groupId: string, isError: bool, impactVisits: Option<int>, occurrenceCount: int,
                                 actionableSince: Option<int>, snoozedUntil: Option<int>, errorLaneEligible: bool,
                                 ticketOnCard: Option<bool>, cardEligible: bool)

  datatype Reason =
    | Snoozed | ErrorLaneIneligible | NotPublishable | FrozenLaneOwns | CappedOverflow | MissingWaitingAge
    | CardHeldBack | IncludedReason | Unassigned

  ghost predicate DistinctIds(cs: seq<Candidate>) {
    forall i, j :: 0 <= i < j < |cs| ==> cs[i].groupId != cs[j].groupId
  }

  // ---------------------------------------------------------------- the order

  /** Go's string order. */
  predicate StringLess(a: string, b: string) {
    if b == [] then false
    else if a == [] then true
    else if a[0] != b[0] then a[0] < b[0]
    else StringLess(a[1..], b[1..])
  }

  lemma {:induction false} StringOrder(a: string, b: string, c: string)
    ensures !StringLess(a, a)
    ensures a != b ==> StringLess(a, b) || StringLess(b, a)
    ensures StringLess(a, b) && StringLess(b, c) ==> StringLess(a, c)
    ensures !(StringLess(a, b) && StringLess(b, a))
  {
    if a != [] && b != [] {
      assert a == [a[0]] + a[1..] && b == [b[0]] + b[1..];
      StringOrder(a[1..], b[1..], if c == [] then [] else c[1..]);
    } else if a != [] {
      StringOrder(a[1..], [], []);
    }
  }

  predicate MoreImpactful(l: Candidate, r: Candidate) {
    if l.impactVisits.Some? && r.impactVisits.None? then true
    else if l.impactVisits.None? && r.impactVisits.Some? then false
    else if l.impactVisits.Some? && l.impactVisits.value != r.impactVisits.value then
      l.impactVisits.value > r.impactVisits.value
    else if l.occurrenceCount != r.occurrenceCount then l.occurrenceCount > r.occurrenceCount
    else StringLess(l.groupId, r.groupId)
  }

  /** The impact order is a strict total order on candidates with distinct ids. */
  lemma ImpactIsStrictTotalOrder(a: Candidate, b: Candidate, c: Candidate)
    ensures !MoreImpactful(a, a)
    ensures a.groupId != b.groupId ==> MoreImpactful(a, b) || MoreImpactful(b, a)
    ensures !(MoreImpactful(a, b) && MoreImpactful(b, a))
    ensures MoreImpactful(a, b) && MoreImpactful(b, c) ==> MoreImpactful(a, c)
  {
    StringOrder(a.groupId, b.groupId, c.groupId);
  }

  ghost predicate Ranked(cs: seq<Candidate>) {
    forall i, j :: 0 <= i < j < |cs| ==> MoreImpactful(cs[i], cs[j])
  }

  ghost predicate Permutes(a: seq<Candidate>, b: seq<Candidate>) {
    multiset(a) == multiset(b)
  }

  lemma PermutationMembers(a: seq<Candidate>, b: seq<Candidate>)
    requires Permutes(a, b)
    ensures |a| == |b|
    ensures forall c :: c in a <==> c in b
  {
    assert |multiset(a)| == |a| && |multiset(b)| == |b|;
    forall c ensures c in a <==> c in b {
      assert c in a <==> c in multiset(a);
      assert c in b <==> c in multiset(b);
    }
  }

  lemma BestIsUnique(a: seq<Candidate>, b: seq<Candidate>)
    requires Ranked(a) && Ranked(b) && a != [] && b != []
    requires forall c :: c in a <==> c in b
    ensures a[0] == b[0]
  {
    hide MoreImpactful;
    assert a[0] in b && b[0] in a;
    var i :| 0 <= i < |b| && b[i] == a[0];
    var j :| 0 <= j < |a| && a[j] == b[0];
    ImpactIsStrictTotalOrder(a[0], b[0], a[0]);
  }

  lemma TailPermutes(a: seq<Candidate>, b: seq<Candidate>)
    requires Permutes(a, b) && a != [] && b != [] && a[0] == b[0]
    ensures Permutes(a[1..], b[1..])
  {
    assert a == [a[0]] + a[1..] && b == [b[0]] + b[1..];
    assert multiset(a[1..]) == multiset(a) - multiset{a[0]};
    assert multiset(b[1..]) == multiset(b) - multiset{b[0]};
  }

  lemma TailRanked(a: seq<Candidate>)
    requires Ranked(a) && a != []
    ensures Ranked(a[1..])
  {
    hide MoreImpactful;
  }

  /** There is only one ranking of a collection of candidates. */
  lemma {:induction false} RankingIsUnique(a: seq<Candidate>, b: seq<Candidate>)
    requires Ranked(a) && Ranked(b) && Permutes(a, b)
    ensures a == b
  {
    hide *;
    PermutationMembers(a, b);
    if a != [] {
      BestIsUnique(a, b);
      TailPermutes(a, b);
      TailRanked(a);
      TailRanked(b);
      RankingIsUnique(a[1..], b[1..]);
      assert a == [a[0]] + a[1..] && b == [b[0]] + b[1..];
    }
  }

  /** Inserts a candidate into a ranking. */
  function Insert(c: Candidate, ranked: seq<Candidate>): seq<Candidate> {
    if ranked == [] || MoreImpactful(c, ranked[0]) then [c] + ranked
    else [ranked[0]] + Insert(c, ranked[1..])
  }

  function Rank(cs: seq<Candidate>): seq<Candidate> {
    if cs == [] then [] else Insert(cs[0], Rank(cs[1..]))
  }

  lemma RankedCons(c: Candidate, ranked: seq<Candidate>)
    requires Ranked(ranked) && forall d :: d in ranked ==> MoreImpactful(c, d)
    ensures Ranked([c] + ranked)
  {
    hide MoreImpactful;
  }

  lemma PermutesCons(c: Candidate, first: Candidate, tail: seq<Candidate>, rest: seq<Candidate>)
    requires Permutes(tail, [c] + rest)
    ensures Permutes([first] + tail, [c] + ([first] + rest))
  {
  }

  lemma FirstIsBest(c: Candidate, ranked: seq<Candidate>, d: Candidate)
    requires Ranked(ranked) && ranked != [] && d in ranked
    ensures d == ranked[0] || MoreImpactful(ranked[0], d)
    ensures MoreImpactful(c, ranked[0]) ==> MoreImpactful(c, d)
  {
    hide MoreImpactful;
    var k :| 0 <= k < |ranked| && ranked[k] == d;
    ImpactIsStrictTotalOrder(c, ranked[0], d);
  }

  lemma {:induction false} InsertRanks(c: Candidate, ranked: seq<Candidate>)
    requires Ranked(ranked) && forall d :: d in ranked ==> d.groupId != c.groupId
    ensures Ranked(Insert(c, ranked))
    ensures Permutes(Insert(c, ranked), [c] + ranked)
  {
    if ranked == [] {
      assert Insert(c, ranked) == [c];
    } else {
      hide MoreImpactful, Permutes;
      var first, rest := ranked[0], ranked[1..];
      assert ranked == [first] + rest;
      forall d | d in ranked ensures MoreImpactful(c, first) ==> MoreImpactful(c, d) {
        FirstIsBest(c, ranked, d);
      }
      if MoreImpactful(c, first) {
        RankedCons(c, ranked);
        assert Permutes([c] + ranked, [c] + ranked) by {
          SamePermutes([c] + ranked);
        }
      } else {
        InsertRanks(c, rest);
        var tail := Insert(c, rest);
        ImpactIsStrictTotalOrder(c, first, c);
        PermutationMembers(tail, [c] + rest);
        forall d | d in tail ensures MoreImpactful(first, d) {
          RestIsWorse(ranked, d, c);
        }
        RankedCons(first, tail);
        PermutesCons(c, first, tail, rest);
      }
    }
  }

  lemma SamePermutes(a: seq<Candidate>)
    ensures Permutes(a, a)
  {
  }

  lemma RestIsWorse(ranked: seq<Candidate>, d: Candidate, c: Candidate)
    requires ranked != [] && Ranked(ranked) && d in [c] + ranked[1..] && MoreImpactful(ranked[0], c)
    ensures MoreImpactful(ranked[0], d)
  {
    hide MoreImpactful;
    if d != c {
      var k :| 0 <= k < |ranked[1..]| && ranked[1..][k] == d;
      assert ranked[k + 1] == d;
    }
  }

  lemma {:induction false} RankRanks(cs: seq<Candidate>)
    requires DistinctIds(cs)
    ensures Ranked(Rank(cs)) && Permutes(Rank(cs), cs)
  {
    if cs != [] {
      RankRanks(cs[1..]);
      PermutationMembers(Rank(cs[1..]), cs[1..]);
      forall k | 0 <= k < |Rank(cs[1..])| ensures Rank(cs[1..])[k].groupId != cs[0].groupId {
        assert Rank(cs[1..])[k] in cs[1..];
      }
      InsertRanks(cs[0], Rank(cs[1..]));
      assert cs == [cs[0]] + cs[1..];
    }
  }

  lemma PermutationsRankAlike(a: seq<Candidate>, b: seq<Candidate>)
    requires DistinctIds(a) && DistinctIds(b) && Permutes(a, b)
    ensures Rank(a) == Rank(b)
  {
    RankRanks(a);
    RankRanks(b);
    RankingIsUnique(Rank(a), Rank(b));
  }

  // ---------------------------------------------------------------- the oldest waiter

  lemma UniqueById(cs: seq<Candidate>, c: Candidate, d: Candidate)
    requires DistinctIds(cs) && c in cs && d in cs && c.groupId == d.groupId
    ensures c == d
  {
    var i :| 0 <= i < |cs| && cs[i] == c;
    var j :| 0 <= j < |cs| && cs[j] == d;
  }

  /** `c` has waited longer than `d`; the group id breaks ties. */
  predicate Older(c: Candidate, d: Candidate)
    requires c.actionableSince.Some? && d.actionableSince.Some?
  {
    c.actionableSince.value < d.actionableSince.value
    || (c.actionableSince.value == d.actionableSince.value && StringLess(c.groupId, d.groupId))
  }

  predicate Picked(picked: seq<Candidate>, id: string) {
    exists c :: c in picked && c.groupId == id
  }

  predicate Waits(c: Candidate, picked: seq<Candidate>) {
    c.actionableSince.Some? && !Picked(picked, c.groupId)
  }

  /** The oldest of the waiting candidates that are not picked. */
  function OldestWaiter(cs: seq<Candidate>, picked: seq<Candidate>): (o: Option<Candidate>)
    ensures o.Some? ==> o.value in cs && Waits(o.value, picked)
  {
    if cs == [] then None
    else
      var before := OldestWaiter(cs[..|cs| - 1], picked);
      var last := cs[|cs| - 1];
      if Waits(last, picked) && (before.None? || Older(last, before.value)) then Some(last) else before
  }

  ghost predicate IsOldest(c: Candidate, cs: seq<Candidate>, picked: seq<Candidate>) {
    c in cs && Waits(c, picked) && forall d :: d in cs && Waits(d, picked) && d.groupId != c.groupId ==> Older(c, d)
  }

  lemma OlderOrder(a: Candidate, b: Candidate, c: Candidate)
    requires a.actionableSince.Some? && b.actionableSince.Some? && c.actionableSince.Some?
    ensures a.groupId != b.groupId ==> Older(a, b) || Older(b, a)
    ensures !(Older(a, b) && Older(b, a))
    ensures Older(a, b) && Older(b, c) ==> Older(a, c)
  {
    StringOrder(a.groupId, b.groupId, c.groupId);
  }

  lemma {:induction false} OldestIsOldest(cs: seq<Candidate>, picked: seq<Candidate>)
    requires DistinctIds(cs)
    ensures var o := OldestWaiter(cs, picked);
            if o.Some? then IsOldest(o.value, cs, picked) else forall c :: c in cs ==> !Waits(c, picked)
  {
    if cs != [] {
      var rest := cs[..|cs| - 1];
      var last := cs[|cs| - 1];
      OldestIsOldest(rest, picked);
      assert cs == rest + [last];
      var o, before := OldestWaiter(cs, picked), OldestWaiter(rest, picked);
      hide Older;
      if o.Some? {
        forall d | d in cs && Waits(d, picked) && d.groupId != o.value.groupId ensures Older(o.value, d) {
          if before.Some? {
            assert last.groupId != before.value.groupId;
            if last.actionableSince.Some? {
              OlderOrder(last, before.value, d);
            }
            if d in rest && d.groupId == before.value.groupId {
              UniqueById(rest, d, before.value);
            }
          }
        }
      }
    }
  }

  // ---------------------------------------------------------------- the selection

  datatype Selection = Selection(picked: seq<Candidate>, overflow: nat)

  function TakeWithOldestWaiter(eligible: seq<Candidate>, ranked: seq<Candidate>, limit: nat): Selection
    requires limit >= 1 && |eligible| == |ranked|
  {
    if |ranked| <= limit then Selection(ranked, 0)
    else
      var top := ranked[..limit - 1];
      var oldest := OldestWaiter(eligible, top);
      Selection(top + [if oldest.Some? then oldest.value else ranked[limit - 1]], |eligible| - limit)
  }

  lemma {:induction false} InsertLength(c: Candidate, ranked: seq<Candidate>)
    ensures |Insert(c, ranked)| == |ranked| + 1
  {
    if ranked != [] && !MoreImpactful(c, ranked[0]) {
      InsertLength(c, ranked[1..]);
    }
  }

  lemma {:induction false} RankLength(cs: seq<Candidate>)
    ensures |Rank(cs)| == |cs|
  {
    if cs != [] {
      RankLength(cs[1..]);
      InsertLength(cs[0], Rank(cs[1..]));
    }
  }

  function Select(eligible: seq<Candidate>, limit: nat): Selection
    requires limit >= 1
  {
    RankLength(eligible);
    TakeWithOldestWaiter(eligible, Rank(eligible), limit)
  }

  lemma OldestIgnoresOrder(a: seq<Candidate>, b: seq<Candidate>, picked: seq<Candidate>)
    requires DistinctIds(a) && DistinctIds(b) && Permutes(a, b)
    ensures OldestWaiter(a, picked) == OldestWaiter(b, picked)
  {
    OldestIsOldest(a, picked);
    OldestIsOldest(b, picked);
    PermutationMembers(a, b);
    var x, y := OldestWaiter(a, picked), OldestWaiter(b, picked);
    if x.Some? && y.Some? && x != y {
      if x.value.groupId == y.value.groupId {
        UniqueById(a, x.value, y.value);
      } else {
        OlderOrder(x.value, y.value, x.value);
      }
    }
  }

  /** The selection is the same, in the same order, however the candidates are listed. */
  lemma SelectionIgnoresInputOrder(a: seq<Candidate>, b: seq<Candidate>, limit: nat)
    requires limit >= 1 && DistinctIds(a) && DistinctIds(b) && Permutes(a, b)
    ensures Select(a, limit) == Select(b, limit)
  {
    PermutationsRankAlike(a, b);
    PermutationMembers(a, b);
    RankLength(a);
    if |a| > limit {
      OldestIgnoresOrder(a, b, Rank(a)[..limit - 1]);
    }
  }

  lemma RankedDistinct(cs: seq<Candidate>)
    requires DistinctIds(cs)
    ensures DistinctIds(Rank(cs))
  {
    RankRanks(cs);
    PermutationMembers(Rank(cs), cs);
    var r := Rank(cs);
    forall i, j | 0 <= i < j < |r| ensures r[i].groupId != r[j].groupId {
      assert r[i] in cs && r[j] in cs;
      if r[i].groupId == r[j].groupId {
        UniqueById(cs, r[i], r[j]);
        ImpactIsStrictTotalOrder(r[i], r[j], r[j]);
      }
    }
  }

  /** How many are picked, that they are distinct candidates, and that the best are among them. */
  lemma SelectionShape(eligible: seq<Candidate>, limit: nat)
    requires limit >= 1 && DistinctIds(eligible)
    ensures var s := Select(eligible, limit);
            && |s.picked| == (if |eligible| <= limit then |eligible| else limit)
            && |s.picked| + s.overflow == |eligible|
            && DistinctIds(s.picked)
            && (forall c :: c in s.picked ==> c in eligible)
            && (var best := s.picked[..if |eligible| <= limit then |eligible| else limit - 1];
                forall c, d :: c in eligible && d in best && MoreImpactful(c, d) ==> c in best)
  {
    var r := Rank(eligible);
    var s := Select(eligible, limit);
    RankRanks(eligible);
    RankedDistinct(eligible);
    RankLength(eligible);
    PermutationMembers(r, eligible);
    var n := if |eligible| <= limit then |eligible| else limit - 1;
    assert s.picked[..n] == r[..n];
    forall c, d | c in eligible && d in s.picked[..n] && MoreImpactful(c, d) ensures c in s.picked[..n] {
      assert c in r;
      var i :| 0 <= i < |r| && r[i] == c;
      var j :| 0 <= j < n && r[j] == d;
      ImpactIsStrictTotalOrder(c, d, c);
      assert s.picked[..n][i] == c;
    }
    PickedAreDistinct(eligible, limit);
  }

  lemma DistinctSnoc(cs: seq<Candidate>, c: Candidate)
    requires DistinctIds(cs) && forall d :: d in cs ==> d.groupId != c.groupId
    ensures DistinctIds(cs + [c])
  {
    forall i, j | 0 <= i < j < |cs + [c]| ensures (cs + [c])[i].groupId != (cs + [c])[j].groupId {
      assert cs[i] in cs;
    }
  }

  lemma PickedAreDistinct(eligible: seq<Candidate>, limit: nat)
    requires limit >= 1 && DistinctIds(eligible)
    ensures DistinctIds(Select(eligible, limit).picked)
    ensures forall c :: c in Select(eligible, limit).picked ==> c in eligible
  {
    hide Rank, OldestWaiter, Ranked, Permutes;
    var r := Rank(eligible);
    RankRanks(eligible);
    RankedDistinct(eligible);
    RankLength(eligible);
    PermutationMembers(r, eligible);
    if |r| > limit {
      var top := r[..limit - 1];
      var oldest := OldestWaiter(eligible, top);
      if oldest.Some? {
        hide Older;
        WaitsOutside(oldest.value, top);
        DistinctSnoc(top, oldest.value);
      }
    }
  }

  lemma WaitsOutside(c: Candidate, picked: seq<Candidate>)
    requires Waits(c, picked)
    ensures forall d :: d in picked ==> d.groupId != c.groupId
  {
  }

  /** The candidate that has waited longest of all is always picked. */
  lemma OldestIsAlwaysPicked(eligible: seq<Candidate>, limit: nat, c: Candidate)
    requires limit >= 1 && DistinctIds(eligible) && IsOldest(c, eligible, [])
    ensures c in Select(eligible, limit).picked
  {
    var r := Rank(eligible);
    RankRanks(eligible);
    RankLength(eligible);
    PermutationMembers(r, eligible);
    if |r| > limit {
      var top := r[..limit - 1];
      if c !in top {
        forall d | d in top ensures d.groupId != c.groupId {
          assert d in r;
          if d.groupId == c.groupId {
            UniqueById(eligible, c, d);
          }
        }
        assert Waits(c, top);
        OldestIsOldest(eligible, top);
        var o := OldestWaiter(eligible, top).value;
        if o.groupId == c.groupId {
          UniqueById(eligible, c, o);
        } else {
          assert Waits(o, []);
          OlderOrder(o, c, o);
        }
        assert Select(eligible, limit).picked[limit - 1] == c;
      }
    }
  }

  /** Some candidate is the oldest as soon as one has a waiting age. */
  lemma SomeoneIsOldest(eligible: seq<Candidate>, d: Candidate)
    requires DistinctIds(eligible) && d in eligible && d.actionableSince.Some?
    ensures exists c :: IsOldest(c, eligible, [])
  {
    OldestIsOldest(eligible, []);
    assert Waits(d, []);
  }

  // ---------------------------------------------------------------- the programs

  /** A stable sort by impact. */
  method SortByImpact(cs: seq<Candidate>) returns (sorted: seq<Candidate>)
    requires DistinctIds(cs)
    ensures sorted == Rank(cs)
  {
    sorted := [];
    var k := |cs|;
    while k > 0
      invariant 0 <= k <= |cs| && sorted == Rank(cs[k..])
    {
      k := k - 1;
      assert cs[k..][1..] == cs[k + 1..];
      sorted := Insert(cs[k], sorted);
    }
    assert cs[0..] == cs;
  }

  method TakeOldest(eligible: seq<Candidate>, ranked: seq<Candidate>, limit: nat)
    returns (picked: seq<Candidate>, overflow: nat)
    requires limit >= 1 && |eligible| == |ranked|
    ensures Selection(picked, overflow) == TakeWithOldestWaiter(eligible, ranked, limit)
  {
    if |ranked| <= limit {
      return ranked, 0;
    }
    picked := ranked[..limit - 1];
    var inPicked := set c | c in picked :: c.groupId;
    var oldest: Option<Candidate> := None;
    for i := 0 to |eligible|
      invariant oldest == OldestWaiter(eligible[..i], picked)
    {
      assert eligible[..i + 1][..i] == eligible[..i];
      var candidate := eligible[i];
      if candidate.groupId in inPicked || candidate.actionableSince.None? {
        continue;
      }
      if oldest.None? || Older(candidate, oldest.value) {
        oldest := Some(candidate);
      }
    }
    assert eligible[..|eligible|] == eligible;
    picked := picked + [if oldest.Some? then oldest.value else ranked[limit - 1]];
    overflow := |eligible| - |picked|;
  }

  method SelectActionable(eligible: seq<Candidate>, limit: nat) returns (picked: seq<Candidate>, overflow: nat)
    requires limit >= 1 && DistinctIds(eligible)
    ensures Selection(picked, overflow) == Select(eligible, limit)
  {
    var byImpact := SortByImpact(eligible);
    RankLength(eligible);
    picked, overflow := TakeOldest(eligible, byImpact, limit);
  }

  // ---------------------------------------------------------------- the ledger

  predicate SnoozedAt(c: Candidate, now: int) {
    c.snoozedUntil.Some? && c.snoozedUntil.value > now
  }

  predicate Publishable(c: Candidate) {
    c.ticketOnCard.GetOr(c.cardEligible)
  }

  /** Why the receipts lane leaves a candidate out before ranking; Unassigned if it does not. */
  function ReceiptExclusion(c: Candidate, frozen: set<string>, now: int): Reason {
    if SnoozedAt(c, now) then Snoozed
    else if c.isError && !c.errorLaneEligible then ErrorLaneIneligible
    else if !Publishable(c) then NotPublishable
    else if c.groupId in frozen then FrozenLaneOwns
    else Unassigned
  }

  /** Why the card lane leaves a candidate out before ranking. */
  function CardExclusion(c: Candidate, at: int): Reason {
    if c.ticketOnCard == Some(false) then NotPublishable
    else if SnoozedAt(c, at) then Snoozed
    else if c.actionableSince.None? then MissingWaitingAge
    else if !Publishable(c) then NotPublishable
    else Unassigned
  }

  /** The ledger vocabulary without the included reason. */
  predicate KnownExclusion(r: Reason) {
    r != IncludedReason && r != Unassigned
  }

  datatype Evaluation = Evaluation(included: seq<Candidate>, excluded: map<string, Reason>, overflow: nat,
                                   candidates: seq<Candidate>)

  /** `why` excludes some candidates; the rest compete for `limit` places. */
  function Eligible(cs: seq<Candidate>, why: Candidate -> Reason): seq<Candidate> {
    if cs == [] then []
    else
      var last := cs[|cs| - 1];
      Eligible(cs[..|cs| - 1], why) + (if why(last) == Unassigned then [last] else [])
  }

  /**
   A candidate's one outcome: kept by the selection, or excluded with a known reason, which is
   its own reason if it never competed and the cap if it did.
   */
  ghost predicate OneOutcome(e: Evaluation, why: Candidate -> Reason, limit: nat, c: Candidate)
    requires limit >= 1
  {
    var kept := Picked(e.included, c.groupId);
    && (kept <==> c.groupId !in e.excluded)
    && (kept ==> c in e.included && why(c) == Unassigned)
    && (!kept ==> (KnownExclusion(e.excluded[c.groupId])
                   && e.excluded[c.groupId] == (if why(c) == Unassigned then CappedOverflow else why(c))))
  }

  ghost predicate Accounted(e: Evaluation, why: Candidate -> Reason, limit: nat)
    requires limit >= 1
  {
    && Selection(e.included, e.overflow) == Select(Eligible(e.candidates, why), limit)
    && (forall c :: c in e.candidates ==> OneOutcome(e, why, limit, c))
    && (forall id :: id in e.excluded ==> exists c :: c in e.candidates && c.groupId == id)
  }

  lemma {:induction false} EligibleAre(cs: seq<Candidate>, why: Candidate -> Reason)
    ensures forall c :: c in Eligible(cs, why) <==> c in cs && why(c) == Unassigned
    ensures DistinctIds(cs) ==> DistinctIds(Eligible(cs, why))
  {
    if cs != [] {
      var rest := cs[..|cs| - 1];
      assert cs == rest + [cs[|cs| - 1]];
      EligibleAre(rest, why);
      if DistinctIds(cs) {
        forall c | c in rest ensures c.groupId != cs[|cs| - 1].groupId {
          var k :| 0 <= k < |rest| && rest[k] == c;
          assert cs[k] == c;
        }
        assert forall k :: 0 <= k < |Eligible(rest, why)| ==> Eligible(rest, why)[k] in rest;
      }
    }
  }

  /** Sorts the candidates into competitors and reasons. */
  method Partition(cs: seq<Candidate>, why: Candidate -> Reason)
    returns (eligible: seq<Candidate>, excluded: map<string, Reason>)
    requires DistinctIds(cs)
    ensures eligible == Eligible(cs, why)
    ensures forall c :: c in cs ==> (c.groupId in excluded <==> why(c) != Unassigned)
    ensures forall c :: c in cs && why(c) != Unassigned ==> excluded[c.groupId] == why(c)
    ensures forall id :: id in excluded ==> exists c :: c in cs && c.groupId == id
  {
    eligible, excluded := [], map[];
    for k := 0 to |cs|
      invariant eligible == Eligible(cs[..k], why)
      invariant forall j :: 0 <= j < k ==> (cs[j].groupId in excluded <==> why(cs[j]) != Unassigned)
      invariant forall j :: 0 <= j < k && why(cs[j]) != Unassigned ==> excluded[cs[j].groupId] == why(cs[j])
      invariant forall id :: id in excluded ==> exists j :: 0 <= j < k && cs[j].groupId == id
    {
      assert cs[..k + 1][..k] == cs[..k];
      var reason := why(cs[k]);
      if reason != Unassigned {
        excluded := excluded[cs[k].groupId := reason];
      } else {
        eligible := eligible + [cs[k]];
      }
    }
    assert cs[..|cs|] == cs;
  }

  /** Selects among the competitors and marks the ones the cap leaves out. */
  method SelectAndMark(cs: seq<Candidate>, eligible: seq<Candidate>, reasons: map<string, Reason>,
                       ghost why: Candidate -> Reason, limit: nat) returns (e: Evaluation)
    requires limit >= 1 && DistinctIds(cs) && eligible == Eligible(cs, why)
    requires forall c :: c in cs ==> KnownExclusion(why(c)) || why(c) == Unassigned
    requires forall c :: c in cs ==> (c.groupId in reasons <==> why(c) != Unassigned)
    requires forall c :: c in cs && why(c) != Unassigned ==> reasons[c.groupId] == why(c)
    requires forall id :: id in reasons ==> exists c :: c in cs && c.groupId == id
    ensures e.candidates == cs && Accounted(e, why, limit)
  {
    hide Select, Eligible, KnownExclusion;
    EligibleAre(cs, why);
    var picked, overflow := SelectActionable(eligible, limit);
    var excluded := MarkOverflow(eligible, picked, reasons);
    e := Evaluation(picked, excluded, overflow, cs);
    forall c | c in cs ensures OneOutcome(e, why, limit, c) {
      OutcomeOf(e, reasons, why, limit, c);
    }
  }

  /** Records the cap as the reason of every competitor that was not picked. */
  method MarkOverflow(eligible: seq<Candidate>, picked: seq<Candidate>, reasons: map<string, Reason>)
    returns (excluded: map<string, Reason>)
    ensures forall id :: id in excluded <==> id in reasons || OverflowsAs(eligible, picked, id)
    ensures forall id :: id in excluded ==>
              excluded[id] == if OverflowsAs(eligible, picked, id) then CappedOverflow else reasons[id]
  {
    excluded := reasons;
    for k := 0 to |eligible|
      invariant forall id :: id in excluded <==> id in reasons || OverflowsAs(eligible[..k], picked, id)
      invariant forall id :: id in excluded ==>
                  excluded[id] == if OverflowsAs(eligible[..k], picked, id) then CappedOverflow else reasons[id]
    {
      var id := eligible[k].groupId;
      forall other {
        OverflowsSnoc(eligible[..k], eligible[k], picked, other);
      }
      assert eligible[..k + 1] == eligible[..k] + [eligible[k]];
      if !Picked(picked, id) {
        excluded := excluded[id := CappedOverflow];
      }
    }
    assert eligible[..|eligible|] == eligible;
  }

  /** `id` belongs to a competitor that was not picked. */
  ghost predicate OverflowsAs(eligible: seq<Candidate>, picked: seq<Candidate>, id: string) {
    !Picked(picked, id) && exists c :: c in eligible && c.groupId == id
  }

  lemma OverflowsSnoc(eligible: seq<Candidate>, c: Candidate, picked: seq<Candidate>, id: string)
    ensures OverflowsAs(eligible + [c], picked, id) <==>
            OverflowsAs(eligible, picked, id) || (id == c.groupId && !Picked(picked, id))
  {
    if OverflowsAs(eligible, picked, id) {
      var d :| d in eligible && d.groupId == id;
      assert d in eligible + [c];
    }
    assert c in eligible + [c];
  }

  lemma OutcomeOf(e: Evaluation, reasons: map<string, Reason>, why: Candidate -> Reason, limit: nat, c: Candidate)
    requires limit >= 1 && DistinctIds(e.candidates) && c in e.candidates
    requires KnownExclusion(why(c)) || why(c) == Unassigned
    requires c.groupId in reasons <==> why(c) != Unassigned
    requires why(c) != Unassigned ==> reasons[c.groupId] == why(c)
    requires var eligible := Eligible(e.candidates, why);
             && Selection(e.included, e.overflow) == Select(eligible, limit)
             && (c.groupId in e.excluded <==> c.groupId in reasons || OverflowsAs(eligible, e.included, c.groupId))
             && (c.groupId in e.excluded ==>
                   e.excluded[c.groupId] ==
                   if OverflowsAs(eligible, e.included, c.groupId) then CappedOverflow else reasons[c.groupId])
    ensures OneOutcome(e, why, limit, c)
  {
    var eligible := Eligible(e.candidates, why);
    EligibleAre(e.candidates, why);
    SelectionShape(eligible, limit);
    hide Select, Eligible, KnownExclusion;
    if Picked(e.included, c.groupId) {
      var d :| d in e.included && d.groupId == c.groupId;
      UniqueById(e.candidates, c, d);
    } else if OverflowsAs(eligible, e.included, c.groupId) {
      var d :| d in eligible && d.groupId == c.groupId;
      UniqueById(e.candidates, c, d);
      assert KnownExclusion(CappedOverflow) by {
        OverflowIsKnown();
      }
    }
  }

  lemma OverflowIsKnown()
    ensures KnownExclusion(CappedOverflow)
  {
  }

  method EvaluateActionable(candidates: seq<Candidate>, frozen: set<string>, now: int) returns (e: Evaluation)
    requires DistinctIds(candidates)
    ensures e.candidates == candidates
    ensures Accounted(e, (c: Candidate) => ReceiptExclusion(c, frozen, now), RECEIPT_CAP)
  {
    var why := (c: Candidate) => ReceiptExclusion(c, frozen, now);
    var eligible, excluded := Partition(candidates, why);
    e := SelectAndMark(candidates, eligible, excluded, why, RECEIPT_CAP);
  }

  method SelectOnCardCandidates(all: seq<Candidate>, at: int) returns (e: Evaluation)
    requires DistinctIds(all)
    ensures e.candidates == all
    ensures Accounted(e, (c: Candidate) => CardExclusion(c, at), CARD_CAP)
    ensures forall c :: c in e.included ==> c.actionableSince.Some?
  {
    var why := (c: Candidate) => CardExclusion(c, at);
    var eligible, excluded := Partition(all, why);
    e := SelectAndMark(all, eligible, excluded, why, CARD_CAP);
    hide DistinctIds, CardExclusion;
    CompetitorsAreIncluded(e, why);
    forall c | c in e.included ensures c.actionableSince.Some? {
      CompetitorsHaveAge(c, at);
    }
  }

  lemma CompetitorsAreIncluded(e: Evaluation, why: Candidate -> Reason)
    requires DistinctIds(e.candidates) && Accounted(e, why, CARD_CAP)
    ensures forall c :: c in e.included ==> why(c) == Unassigned
  {
    EligibleAre(e.candidates, why);
    SelectionShape(Eligible(e.candidates, why), CARD_CAP);
    hide Select, Eligible, DistinctIds, OneOutcome;
  }

  lemma CompetitorsHaveAge(c: Candidate, at: int)
    requires CardExclusion(c, at) == Unassigned
    ensures c.actionableSince.Some?
  {
  }

  /** The ids excluded with a reason of the vocabulary. */
  function KnownRows(excluded: map<string, Reason>): set<string> {
    set id | id in excluded && KnownExclusion(excluded[id])
  }

  predicate Reconciles(e: Evaluation) {
    |e.included| + |KnownRows(e.excluded)| == |e.candidates|
  }

  function Ids(cs: seq<Candidate>): set<string> {
    set c | c in cs :: c.groupId
  }

  lemma IdsSnoc(rest: seq<Candidate>, last: Candidate)
    requires DistinctIds(rest + [last])
    ensures DistinctIds(rest) && last.groupId !in Ids(rest) && Ids(rest + [last]) == Ids(rest) + {last.groupId}
  {
    var cs := rest + [last];
    assert forall k :: 0 <= k < |rest| ==> cs[k] == rest[k];
    forall c | c in rest ensures c.groupId != last.groupId {
      var k :| 0 <= k < |rest| && rest[k] == c;
      assert cs[k] == c && cs[|rest|] == last;
    }
    assert forall c :: c in cs <==> c in rest || c == last;
  }

  lemma {:induction false} IdsCount(cs: seq<Candidate>)
    requires DistinctIds(cs)
    ensures |Ids(cs)| == |cs|
  {
    if cs == [] {
      assert Ids(cs) == {};
    } else {
      hide DistinctIds, Ids;
      var n := |cs| - 1;
      assert cs == cs[..n] + [cs[n]];
      IdsSnoc(cs[..n], cs[n]);
      IdsCount(cs[..n]);
    }
  }

  lemma DisjointCount(a: set<string>, b: set<string>)
    requires a !! b
    ensures |a + b| == |a| + |b|
  {
  }

  /** Each candidate id is either kept or a row with a known reason, and no other id is. */
  lemma KeptOrRow(e: Evaluation, why: Candidate -> Reason, limit: nat, id: string)
    requires limit >= 1 && DistinctIds(e.candidates) && Accounted(e, why, limit)
    ensures id in Ids(e.candidates) <==> id in Ids(e.included) || id in KnownRows(e.excluded)
    ensures !(id in Ids(e.included) && id in KnownRows(e.excluded))
    ensures id in Ids(e.included) <==> Picked(e.included, id)
  {
    EligibleAre(e.candidates, why);
    SelectionShape(Eligible(e.candidates, why), limit);
    hide Select, Eligible, DistinctIds, KnownExclusion;
    if id in Ids(e.candidates) {
      var c :| c in e.candidates && c.groupId == id;
      assert OneOutcome(e, why, limit, c);
    } else {
      assert id !in e.excluded;
    }
  }

  lemma IncludedAreDistinct(e: Evaluation, why: Candidate -> Reason, limit: nat)
    requires limit >= 1 && DistinctIds(e.candidates) && Accounted(e, why, limit)
    ensures DistinctIds(e.included)
  {
    EligibleAre(e.candidates, why);
    SelectionShape(Eligible(e.candidates, why), limit);
    hide Select, Eligible, DistinctIds;
  }

  /** The reconciliation never reports a mismatch: included and excluded together are all candidates. */
  lemma EvaluationReconciles(e: Evaluation, why: Candidate -> Reason, limit: nat)
    requires limit >= 1 && DistinctIds(e.candidates) && Accounted(e, why, limit)
    ensures Reconciles(e)
  {
    hide Accounted, DistinctIds, Ids, KnownRows;
    IncludedAreDistinct(e, why, limit);
    IdsCount(e.included);
    IdsCount(e.candidates);
    forall id
      ensures id in Ids(e.candidates) <==> id in Ids(e.included) || id in KnownRows(e.excluded)
      ensures !(id in Ids(e.included) && id in KnownRows(e.excluded))
    {
      KeptOrRow(e, why, limit, id);
    }
    assert Ids(e.candidates) == Ids(e.included) + KnownRows(e.excluded);
    DisjointCount(Ids(e.included), KnownRows(e.excluded));
  }

  function OverflowRows(excluded: map<string, Reason>): set<string> {
    set id | id in excluded && excluded[id] == CappedOverflow
  }

  /** A competitor is either kept or an overflow row, and only competitors are. */
  lemma KeptOrOverflow(e: Evaluation, why: Candidate -> Reason, limit: nat, id: string)
    requires limit >= 1 && DistinctIds(e.candidates) && Accounted(e, why, limit)
    requires forall c :: c in e.candidates ==> why(c) != CappedOverflow
    ensures id in Ids(Eligible(e.candidates, why)) <==> id in Ids(e.included) || id in OverflowRows(e.excluded)
    ensures !(id in Ids(e.included) && id in OverflowRows(e.excluded))
  {
    var eligible := Eligible(e.candidates, why);
    EligibleAre(e.candidates, why);
    SelectionShape(eligible, limit);
    KeptOrRow(e, why, limit, id);
    hide Select, Eligible, DistinctIds, KnownExclusion;
    if id in Ids(eligible) {
      var c :| c in eligible && c.groupId == id;
      assert OneOutcome(e, why, limit, c);
    } else if id in e.excluded {
      var c :| c in e.candidates && c.groupId == id;
      assert OneOutcome(e, why, limit, c);
    }
  }

  /** The capped_overflow rows are as many as the overflow count. */
  lemma OverflowRowsAreCounted(e: Evaluation, why: Candidate -> Reason, limit: nat)
    requires limit >= 1 && DistinctIds(e.candidates) && Accounted(e, why, limit)
    requires forall c :: c in e.candidates ==> why(c) != CappedOverflow
    ensures |OverflowRows(e.excluded)| == e.overflow
  {
    var eligible := Eligible(e.candidates, why);
    EligibleAre(e.candidates, why);
    SelectionShape(eligible, limit);
    IdsCount(e.included);
    IdsCount(eligible);
    forall id
      ensures id in Ids(eligible) <==> id in Ids(e.included) || id in OverflowRows(e.excluded)
      ensures !(id in Ids(e.included) && id in OverflowRows(e.excluded))
    {
      KeptOrOverflow(e, why, limit, id);
    }
    hide Ids, OverflowRows, DistinctIds;
    assert Ids(eligible) == Ids(e.included) + OverflowRows(e.excluded);
    DisjointCount(Ids(e.included), OverflowRows(e.excluded));
  }

  datatype Row = Row(groupId: string, included: bool, reason: Reason)

  /** The row a candidate should get. */
  ghost function RowOf(e: Evaluation, why: Candidate -> Reason, c: Candidate): Row {
    var included := Picked(e.included, c.groupId);
    Row(c.groupId, included, if included then IncludedReason else if why(c) == Unassigned then CappedOverflow else why(c))
  }

  ghost predicate SortedRows(rows: seq<Row>) {
    forall i, j :: 0 <= i < j < |rows| ==> StringLess(rows[i].groupId, rows[j].groupId)
  }

  function InsertRow(row: Row, rows: seq<Row>): seq<Row> {
    if rows == [] || StringLess(row.groupId, rows[0].groupId) then [row] + rows else [rows[0]] + InsertRow(row, rows[1..])
  }

  lemma {:induction false} InsertRowSorts(row: Row, rows: seq<Row>)
    requires SortedRows(rows) && forall r :: r in rows ==> r.groupId != row.groupId
    ensures SortedRows(InsertRow(row, rows)) && |InsertRow(row, rows)| == |rows| + 1
    ensures forall r :: r in InsertRow(row, rows) <==> r == row || r in rows
  {
    hide StringLess;
    if rows == [] {
    } else if StringLess(row.groupId, rows[0].groupId) {
      forall j | 0 <= j < |rows| ensures StringLess(row.groupId, rows[j].groupId) {
        StringOrder(row.groupId, rows[0].groupId, rows[j].groupId);
      }
    } else {
      var tail := InsertRow(row, rows[1..]);
      assert rows == [rows[0]] + rows[1..];
      InsertRowSorts(row, rows[1..]);
      StringOrder(row.groupId, rows[0].groupId, row.groupId);
      forall j | 0 <= j < |tail| ensures StringLess(rows[0].groupId, tail[j].groupId) {
        assert tail[j] in tail;
      }
    }
  }

  lemma EmptyIsSorted()
    ensures SortedRows([])
  {
  }

  lemma RowIsKnown(e: Evaluation, why: Candidate -> Reason, limit: nat, k: nat)
    requires limit >= 1 && k < |e.candidates| && Accounted(e, why, limit)
    ensures var c := e.candidates[k];
            && (Picked(e.included, c.groupId) || (c.groupId in e.excluded && e.excluded[c.groupId] != Unassigned))
            && (!Picked(e.included, c.groupId) ==>
                  e.excluded[c.groupId] == if why(c) == Unassigned then CappedOverflow else why(c))
  {
    hide Select, Eligible, Picked;
    assert OneOutcome(e, why, limit, e.candidates[k]);
  }

  lemma OthersDiffer(cs: seq<Candidate>, k: nat)
    requires DistinctIds(cs) && k < |cs|
    ensures forall j :: 0 <= j < k ==> cs[j].groupId != cs[k].groupId
  {
  }

  /** The freeze ledger: one row per considered candidate, by id; the empty-reason fallback is never used. */
  method FreezeLedger(e: Evaluation, ghost why: Candidate -> Reason, ghost limit: nat) returns (rows: seq<Row>)
    requires limit >= 1 && DistinctIds(e.candidates) && Accounted(e, why, limit)
    ensures |rows| == |e.candidates| && SortedRows(rows)
    ensures forall r :: r in rows <==> exists c :: c in e.candidates && r == RowOf(e, why, c)
  {
    hide StringLess, SortedRows, InsertRow, OneOutcome, DistinctIds, Select, Eligible, Picked;
    rows := [];
    EmptyIsSorted();
    for k := 0 to |e.candidates|
      invariant |rows| == k && SortedRows(rows)
      invariant forall r :: r in rows ==> exists j :: 0 <= j < k && r == RowOf(e, why, e.candidates[j])
      invariant forall j :: 0 <= j < k ==> RowOf(e, why, e.candidates[j]) in rows
    {
      var id := e.candidates[k].groupId;
      RowIsKnown(e, why, limit, k);
      var included := Picked(e.included, id);
      var reason := if id in e.excluded then e.excluded[id] else Unassigned;
      if included {
        reason := IncludedReason;
      }
      if reason == Unassigned {
        // The fallback of the source: no candidate gets here.
        assert false;
        reason := NotPublishable;
      }
      assert Row(id, included, reason) == RowOf(e, why, e.candidates[k]);
      OthersDiffer(e.candidates, k);
      InsertRowSorts(Row(id, included, reason), rows);
      rows := InsertRow(Row(id, included, reason), rows);
    }
  }
}
