/**
 * A queue instance: its configuration and the collection of task records
 * the store holds for it. Each method is one atomic store operation at the
 * instant `now`; `get` also receives the fresh lease token it writes.
 */
module Queue {
  import opened Wrappers
  import opened Tasks
  import opened Store
  import opened Counters

  /** The options a queue is created with. */
  datatype Config<D> = Config(
    name: string,
    ttl: int,
    tries: Retries,
    clean: bool,
    insistent: bool,
    items: Items<D>,
    strict: bool)

  /** The read-only view `options` exposes. */
  datatype OptionsView = OptionsView(ttl: int, tries: Retries, insistent: bool)

  /** What a strict queue raises when `get` finds nothing to claim. */
  datatype GetError = QueueGetError(stats: Counts)

  /** The options used when the caller gives none. */
  function DefaultConfig<D>(): Config<D>
  {
    Config("mq", 30000, Limited(10), false, false, Absent, false)
  }

  /** Every record has an id below `next`, the id the store hands out next. */
  ghost predicate IdsBelow<D>(rs: seq<Task<D>>, next: Id)
  {
    forall k :: 0 <= k < |rs| ==> rs[k].id < next
  }

  ghost predicate DistinctIds<D>(rs: seq<Task<D>>)
  {
    forall j, k :: 0 <= j < k < |rs| ==> rs[j].id != rs[k].id
  }

  /** No two records carry the same tag: the unique sparse index on `tag`. */
  ghost predicate DistinctTags<D>(rs: seq<Task<D>>)
  {
    forall j, k :: 0 <= j < |rs| && 0 <= k < |rs| && j != k && rs[j].tag.Some? ==> rs[j].tag != rs[k].tag
  }

  /** The invariant of a queue's collection. */
  ghost predicate Consistent<D>(rs: seq<Task<D>>, next: Id, retries: Retries)
  {
    AllWellFormed(rs, retries) && IdsBelow(rs, next) && DistinctIds(rs) && DistinctTags(rs)
  }

  /** Inserting freshly numbered, untagged, well-formed records keeps the invariant. */
  lemma InsertKeepsConsistent<D>(rs: seq<Task<D>>, next: Id, retries: Retries, drafts: seq<Draft<D>>)
    requires Consistent(rs, next, retries)
    requires forall k :: 0 <= k < |drafts| ==> drafts[k].tries == InitialTries(retries)
    ensures Consistent(rs + Stamp(drafts, next), next + |drafts|, retries)
  {
    var rs' := rs + Stamp(drafts, next);
    assert forall k :: 0 <= k < |rs'| ==> rs'[k] == if k < |rs| then rs[k] else Stamp(drafts, next)[k - |rs|];
  }

  /** Deleting one record keeps the invariant. */
  lemma RemoveKeepsConsistent<D>(rs: seq<Task<D>>, next: Id, retries: Retries, i: nat)
    requires Consistent(rs, next, retries) && i < |rs|
    ensures Consistent(rs[..i] + rs[i + 1..], next, retries)
  {
    var rs' := rs[..i] + rs[i + 1..];
    forall j | 0 <= j < |rs'|
      ensures rs'[j] == rs[if j < i then j else j + 1]
    {
    }
    forall j, k | 0 <= j < |rs'| && 0 <= k < |rs'| && j != k && rs'[j].tag.Some?
      ensures rs'[j].tag != rs'[k].tag
    {
      var j', k' := if j < i then j else j + 1, if k < i then k else k + 1;
      assert j' != k';
    }
    forall j, k | 0 <= j < k < |rs'|
      ensures rs'[j].id != rs'[k].id
    {
      var j', k' := if j < i then j else j + 1, if k < i then k else k + 1;
      assert j' < k';
    }
  }

  /**
   * Replacing a record by one with the same id and a tag no other record
   * carries (or the same tag) keeps the invariant.
   */
  lemma UpdateKeepsConsistent<D>(rs: seq<Task<D>>, next: Id, retries: Retries, i: nat, x: Task<D>)
    requires Consistent(rs, next, retries) && i < |rs|
    requires x.id == rs[i].id && WellFormed(x, retries)
    requires x.tag == rs[i].tag || forall k :: 0 <= k < |rs| && k != i ==> rs[k].tag != x.tag
    ensures Consistent(rs[i := x], next, retries)
  {
  }

  class Queue<D> {
    const config: Config<D>
    /** The records of the queue's collection. */
    var records: seq<Task<D>>
    /** The next identifier the store hands out. */
    var nextId: Id

    /** The collection satisfies the invariant for the configured retry limit. */
    ghost predicate Valid()
      reads this
    {
      Consistent(records, nextId, config.tries)
    }

    /**
     * Opens the queue on an empty collection and inserts the configured seed
     * items; purging an empty collection changes nothing.
     */
    constructor (config: Config<D>, now: int)
      ensures Valid() && this.config == config
      ensures Prepare(config.items, now, config.tries).None? ==> records == [] && nextId == 0
      ensures Prepare(config.items, now, config.tries).Some? ==>
        records == Stamp(Prepare(config.items, now, config.tries).value, 0) &&
        nextId == |records|
    {
      this.config := config;
      match Prepare(config.items, now, config.tries)
      case None =>
        records, nextId := [], 0;
      case Some(drafts) =>
        records, nextId := Stamp(drafts, 0), |drafts|;
    }

    /** The lease a call uses: its own duration, or the configured `ttl`. */
    function Lease(t: Option<int>): int
    {
      match t
      case Some(d) => d
      case None => config.ttl
    }

    /**
     * `add`: inserts one record per payload, in order, and returns their
     * ids; nothing is inserted for an absent payload or an empty batch.
     */
    method Add(items: Items<D>, now: int) returns (ids: seq<Id>)
      requires Valid()
      modifies this
      ensures Valid()
      ensures |ids| == |Payloads(items)|
      ensures match Prepare(items, now, config.tries)
        case None => records == old(records) && nextId == old(nextId)
        case Some(drafts) => records == old(records) + Stamp(drafts, old(nextId)) && nextId == old(nextId) + |drafts|
      ensures forall k :: 0 <= k < |ids| ==>
        ids[k] == records[|old(records)| + k].id && records[|old(records)| + k].data == Payloads(items)[k]
      ensures forall k, j :: 0 <= k < |ids| && 0 <= j < |old(records)| ==> ids[k] != old(records)[j].id
      ensures forall k, j :: 0 <= k < j < |ids| ==> ids[k] != ids[j]
    {
      match Prepare(items, now, config.tries)
      case None =>
        ids := [];
      case Some(drafts) =>
        var first := nextId;
        var stamped := Stamp(drafts, first);
        InsertKeepsConsistent(records, first, config.tries, drafts);
        ids := seq(|drafts|, k requires 0 <= k < |drafts| => first + k);
        assert forall k :: 0 <= k < |ids| ==> (records + stamped)[|records| + k] == stamped[k];
        records := records + stamped;
        nextId := nextId + |drafts|;
    }

    /**
     * `get`: claims the waiting record that comes first in claim order,
     * giving it the lease token `tag`, a new expiry `now + t` and one more
     * try, and returns the updated record. With nothing to claim the store
     * is unchanged and the result is empty, or, on a strict queue, the
     * error carrying the breakdown at that instant. `at` is the position of
     * the claimed record.
     */
    method Get(t: Option<int>, now: int, tag: Tag) returns (r: Result<Option<Task<D>>, GetError>, ghost at: nat)
      requires Valid()
      requires forall k :: 0 <= k < |records| ==> records[k].tag != Some(tag)
      modifies this
      ensures Valid() && nextId == old(nextId)
      ensures r.Success? && r.value.Some? ==>
        && FirstInClaimOrder(old(records), at, now, config.tries, config.insistent)
        && records == old(records)[at := r.value.value]
        && r.value.value.id == old(records)[at].id
        && r.value.value.data == old(records)[at].data
        && r.value.value.created == old(records)[at].created
        && r.value.value.expires == now + Lease(t)
        && r.value.value.tag == Some(tag)
        && r.value.value.tries == (if config.tries.Unlimited? then None else Some(old(records)[at].tries.value + 1))
      ensures !(r.Success? && r.value.Some?) ==>
        && records == old(records)
        && (forall j :: 0 <= j < |records| ==> !IsWaiting(records[j], now, config.tries))
        && r == (if config.strict then Failure(QueueGetError(StatsOf(records, now, config.tries))) else Success(None))
    {
      match ClaimIndex(records, now, config.tries, config.insistent)
      case Some(k) =>
        var task := Claimed(records[k], now, Lease(t), tag, config.tries);
        ClaimKeepsWellFormed(records[k], now, Lease(t), tag, config.tries);
        UpdateKeepsConsistent(records, nextId, config.tries, k, task);
        records := records[k := task];
        r, at := Success(Some(task)), k;
      case None =>
        at := 0;
        if config.strict {
          r := Failure(QueueGetError(Stats(now)));
        } else {
          r := Success(None);
        }
    }

    /**
     * `ack`: deletes the record leased under `tag` and returns its id; with
     * no such record (lease lapsed, already acknowledged, unknown token)
     * nothing changes. Afterwards no record is leased under `tag`.
     */
    method Ack(tag: Tag, now: int) returns (id: Option<Id>)
      requires Valid()
      modifies this
      ensures Valid() && nextId == old(nextId)
      ensures match LeaseIndex(old(records), tag, now)
        case None => id == None && records == old(records)
        case Some(k) => id == Some(old(records)[k].id) && records == old(records)[..k] + old(records)[k + 1..]
      ensures forall j :: 0 <= j < |records| ==> !HoldsLease(records[j], tag, now)
    {
      match LeaseIndex(records, tag, now)
      case None =>
        id := None;
      case Some(k) =>
        id := Some(records[k].id);
        ghost var before := records;
        RemoveKeepsConsistent(records, nextId, config.tries, k);
        records := records[..k] + records[k + 1..];
        forall j | 0 <= j < |records|
          ensures !HoldsLease(records[j], tag, now)
        {
          var was := if j < k then j else j + 1;
          assert records[j] == before[was];
          assert before[k].tag == Some(tag) && was != k;
        }
    }

    /**
     * `ping`: extends to `now + t` the lease of the record leased under
     * `tag`, changing nothing else, and returns the updated record; with no
     * such record nothing changes.
     */
    method Ping(tag: Tag, t: Option<int>, now: int) returns (r: Option<Task<D>>)
      requires Valid()
      modifies this
      ensures Valid() && nextId == old(nextId)
      ensures match LeaseIndex(old(records), tag, now)
        case None => r == None && records == old(records)
        case Some(k) =>
          && records == old(records)[k := Renewed(old(records)[k], now, Lease(t))]
          && r == Some(records[k])
          && r.value.expires == now + Lease(t)
          && r.value.tag == Some(tag)
    {
      match LeaseIndex(records, tag, now)
      case None =>
        r := None;
      case Some(k) =>
        UpdateKeepsConsistent(records, nextId, config.tries, k, Renewed(records[k], now, Lease(t)));
        records := records[k := Renewed(records[k], now, Lease(t))];
        r := Some(records[k]);
    }

    /** `total`: the number of records, at every instant the sum of the three counters. */
    function Total(): (n: nat)
      reads this
      requires Valid()
      ensures forall now :: n == ActiveCount(records, now) + WaitingCount(records, now, config.tries) +
                                 FailedCount(records, now, config.tries)
    {
      assert forall now :: |records| == ActiveCount(records, now) + WaitingCount(records, now, config.tries) +
                                        FailedCount(records, now, config.tries) by {
        forall now
          ensures |records| == ActiveCount(records, now) + WaitingCount(records, now, config.tries) +
                               FailedCount(records, now, config.tries)
        {
          CountsPartition(records, now, config.tries);
        }
      }
      |records|
    }

    /** `active`: the number of records leased at `now`, the `active` entry of `stats`. */
    function Active(now: int): (n: nat)
      reads this
      ensures n == StatsOf(records, now, config.tries).active
    {
      StatsActiveAgrees(records, now, config.tries);
      ActiveCount(records, now)
    }

    /** `waiting`: nonzero exactly when `get` at the same instant claims a record. */
    function Waiting(now: int): (n: nat)
      reads this
      ensures n > 0 <==> ClaimIndex(records, now, config.tries, config.insistent).Some?
    {
      WaitingIffClaimable(records, now, config.tries, config.insistent);
      WaitingCount(records, now, config.tries)
    }

    /** `failed`: the records neither active nor waiting; none without a retry limit. */
    function Failed(now: int): (n: nat)
      reads this
      requires Valid()
      ensures config.tries.Unlimited? ==> n == 0
      ensures n == Total() - Active(now) - Waiting(now)
    {
      CountsPartition(records, now, config.tries);
      FailedCount(records, now, config.tries)
    }

    /**
     * `stats`: the breakdown of one pass over the records, equal to the
     * three counters and adding up to `total`.
     */
    function Stats(now: int): (c: Counts)
      reads this
      requires Valid()
      ensures c == Counts(Active(now), Waiting(now), Failed(now))
      ensures c.active + c.waiting + c.failed == Total()
    {
      StatsAgreeWithCounters(records, now, config.tries);
      StatsSumToTotal(records, now, config.tries);
      StatsOf(records, now, config.tries)
    }

    /** `options`: the lease used when a call gives none, the retry limit and the claim order. */
    function Options(): (o: OptionsView)
      ensures o.ttl == Lease(None)
      ensures o.tries == config.tries && o.insistent == config.insistent
    {
      OptionsView(config.ttl, config.tries, config.insistent)
    }
  }
}
