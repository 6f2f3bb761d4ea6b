/** Pure scheduling rules: which ready candidate is published, and how wake-ups are coalesced. */
module Domain {
  import opened Wrappers

  function Min(a: nat, b: nat): nat { if a <= b then a else b }

  function Max(a: nat, b: nat): nat { if a <= b then b else a }

  datatype Due = Due(since: nat, due: nat)

  function CoalesceDue(pendingSince: Option<nat>, previousDue: Option<nat>, now: nat, debounceMs: nat, maxWaitMs: nat): Due {
    var since := pendingSince.GetOr(now);
    var due := Min(now + debounceMs, since + maxWaitMs);
    Due(since, if previousDue.Some? then Min(due, previousDue.value) else due)
  }

  /** One batch of wake-ups: the first opens it, every later one passes through the stored since/due pair. */
  function Coalesced(times: seq<nat>, debounceMs: nat, maxWaitMs: nat): Due
    requires times != []
  {
    var last := |times| - 1;
    if last == 0 then CoalesceDue(None, None, times[0], debounceMs, maxWaitMs)
    else
      var before := Coalesced(times[..last], debounceMs, maxWaitMs);
      CoalesceDue(Some(before.since), Some(before.due), times[last], debounceMs, maxWaitMs)
  }

  /** Continuous traffic cannot starve an agent: the deadline never moves past the first wake-up plus the limit,
      and no wake-up ever postpones it. */
  lemma {:induction false} CoalescingIsBounded(times: seq<nat>, debounceMs: nat, maxWaitMs: nat)
    requires times != []
    ensures Coalesced(times, debounceMs, maxWaitMs).since == times[0]
    ensures Coalesced(times, debounceMs, maxWaitMs).due <= times[0] + maxWaitMs
    ensures forall i :: 0 <= i < |times| ==> Coalesced(times, debounceMs, maxWaitMs).due <= times[i] + debounceMs
    ensures |times| > 1 ==> Coalesced(times, debounceMs, maxWaitMs).due <= Coalesced(times[..|times| - 1], debounceMs, maxWaitMs).due
  {
    if |times| > 1 {
      CoalescingIsBounded(times[..|times| - 1], debounceMs, maxWaitMs);
    }
  }

  function RetryDelay(errors: nat): nat {
    Min(30000, 1000 * [1, 2, 4, 8, 16, 32][Min(errors, 5)])
  }

  datatype Eligible = Eligible(id: nat, agent: nat, ready: bool, reviewedRevision: nat, reviewedWake: nat, currentWake: nat,
                               firstInterestedAt: nat, notBefore: nat, directed: bool)

  datatype Arbitration = Arbitration(revision: nat, now: nat, agingMs: nat, graceTargets: set<nat>, graceUntil: nat)

  predicate Aged(e: Eligible, arb: Arbitration) { arb.now >= e.firstInterestedAt + arb.agingMs }

  function Rank(e: Eligible, arb: Arbitration): nat {
    if Aged(e, arb) then 0 else if e.directed then 1 else 2
  }

  predicate Publishable(e: Eligible, arb: Arbitration) {
    && e.ready && e.reviewedRevision == arb.revision && e.reviewedWake == e.currentWake && e.notBefore <= arb.now
    && (arb.now >= arb.graceUntil || arb.graceTargets == {} || e.agent in arb.graceTargets || Rank(e, arb) == 0)
  }

  /** The comparator of the final sort; ties are broken by the candidate id, which is unique. */
  predicate Before(a: Eligible, b: Eligible, arb: Arbitration) {
    if Rank(a, arb) != Rank(b, arb) then Rank(a, arb) < Rank(b, arb)
    else if a.firstInterestedAt != b.firstInterestedAt then a.firstInterestedAt < b.firstInterestedAt
    else if a.notBefore != b.notBefore then a.notBefore < b.notBefore
    else a.id < b.id
  }

  /** The first element of the sorted, filtered list. */
  function SelectCandidate(candidates: seq<Eligible>, arb: Arbitration): (r: Option<Eligible>)
    ensures r.Some? ==> r.value in candidates && Publishable(r.value, arb)
    ensures r.None? <==> forall e :: e in candidates ==> !Publishable(e, arb)
    ensures r.Some? ==> forall e :: e in candidates && Publishable(e, arb) ==> !Before(e, r.value, arb)
  {
    if candidates == [] then None
    else
      var rest := SelectCandidate(candidates[1..], arb);
      if !Publishable(candidates[0], arb) then rest
      else if rest.Some? && Before(rest.value, candidates[0], arb) then rest
      else Some(candidates[0])
  }

  /** Arbitration is fair to row order: two listings of the same rows elect the same candidate, as long as ids are unique. */
  lemma SelectionIgnoresOrder(left: seq<Eligible>, right: seq<Eligible>, arb: Arbitration)
    requires forall e :: e in left <==> e in right
    requires forall a, b :: a in left && b in left && a.id == b.id ==> a == b
    ensures SelectCandidate(left, arb) == SelectCandidate(right, arb)
  {
    var l, r := SelectCandidate(left, arb), SelectCandidate(right, arb);
    if l.Some? && r.Some? {
      assert !Before(l.value, r.value, arb) && !Before(r.value, l.value, arb);
    }
  }

  /** An aged valid intention always precedes a younger one, directed or not. */
  lemma AgedGoesFirst(candidates: seq<Eligible>, senior: Eligible, arb: Arbitration)
    requires senior in candidates && Publishable(senior, arb) && Aged(senior, arb)
    ensures SelectCandidate(candidates, arb).Some? && Aged(SelectCandidate(candidates, arb).value, arb)
    ensures SelectCandidate(candidates, arb).value.firstInterestedAt <= senior.firstInterestedAt
  {
    var pick := SelectCandidate(candidates, arb);
    assert pick.Some?;
    assert !Before(senior, pick.value, arb);
  }
}
