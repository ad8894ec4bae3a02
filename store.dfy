/**
 * The two searches the store performs inside its atomic find-and-modify:
 * the first record in claim order that `get` may take, and the record that
 * `ack` and `ping` address by its lease token.
 */
module Store {
  import opened Wrappers
  import opened Tasks

  /** Position `i` holds a waiting record that no waiting record strictly precedes. */
  predicate FirstInClaimOrder<D>(rs: seq<Task<D>>, i: nat, now: int, retries: Retries, insistent: bool)
  {
    && i < |rs|
    && IsWaiting(rs[i], now, retries)
    && forall j :: 0 <= j < |rs| && IsWaiting(rs[j], now, retries) ==> Precedes(rs[i], rs[j], insistent)
  }

  /**
   * The position of a waiting record that comes first in claim order, or
   * `None` when no record is waiting. Among records with equal keys the
   * earliest position is taken; callers rely only on minimality.
   */
  function ClaimIndex<D>(rs: seq<Task<D>>, now: int, retries: Retries, insistent: bool): (r: Option<nat>)
    ensures r.None? <==> forall j :: 0 <= j < |rs| ==> !IsWaiting(rs[j], now, retries)
    ensures r.Some? ==> FirstInClaimOrder(rs, r.value, now, retries, insistent)
    decreases |rs|
  {
    if rs == [] then None
    else
      var last := |rs| - 1;
      var best := ClaimIndex(rs[..last], now, retries, insistent);
      assert forall j :: 0 <= j < last ==> rs[..last][j] == rs[j];
      if !IsWaiting(rs[last], now, retries) then best
      else if best.None? then Some(last)
      else if Precedes(rs[best.value], rs[last], insistent) then best
      else
        PrecedesTotal(rs[best.value], rs[last], insistent);
        assert forall j :: 0 <= j < last && IsWaiting(rs[j], now, retries) ==>
          Precedes(rs[last], rs[j], insistent) by {
          forall j | 0 <= j < last && IsWaiting(rs[j], now, retries)
            ensures Precedes(rs[last], rs[j], insistent)
          {
            PrecedesTransitive(rs[last], rs[best.value], rs[j], insistent);
          }
        }
        Some(last)
  }

  /** The first position whose record is leased under `tag` at `now`, or `None`. */
  function LeaseIndex<D>(rs: seq<Task<D>>, tag: Tag, now: int): (r: Option<nat>)
    ensures r.None? <==> forall j :: 0 <= j < |rs| ==> !HoldsLease(rs[j], tag, now)
    ensures r.Some? ==> r.value < |rs| && HoldsLease(rs[r.value], tag, now)
    ensures r.Some? ==> forall j :: 0 <= j < r.value ==> !HoldsLease(rs[j], tag, now)
    decreases |rs|
  {
    if rs == [] then None
    else if HoldsLease(rs[0], tag, now) then Some(0)
    else
      match LeaseIndex(rs[1..], tag, now)
      case None => None
      case Some(i) => Some(i + 1)
  }

  /**
   * A record whose retry budget is spent is never claimed again, at any
   * instant, whatever the claim order; it stays in the collection.
   */
  lemma ExhaustedNeverClaimed<D>(rs: seq<Task<D>>, i: nat, now: int, limit: int, insistent: bool)
    requires i < |rs| && rs[i].tries.Some? && rs[i].tries.value >= limit
    ensures ClaimIndex(rs, now, Limited(limit), insistent) != Some(i)
  {
  }
}
