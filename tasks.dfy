/**
 * Task records of the queue and the per-record predicates shared by the
 * claim engine, the lease operations and the counters: which records are
 * active, waiting or failed at an instant, and in which order waiting
 * records are claimed.
 */
module Tasks {
  import opened Wrappers

  /** Identifier the store assigns to a record on insertion. */
  type Id = nat

  /** Lease token written into a record when it is claimed. */
  type Tag = string

  /** The retry limit of a queue: `tries: null` is `Unlimited`. */
  datatype Retries = Unlimited | Limited(limit: int)

  /**
   * A stored task. `tries` is absent when retries are unlimited;
   * `tag` is absent until the first claim and then keeps the latest token.
   */
  datatype Task<D> = Task(id: Id, data: D, created: int, expires: int, tries: Option<nat>, tag: Option<Tag>)

  /** A record as prepared for insertion, before the store gives it an id. */
  datatype Draft<D> = Draft(data: D, created: int, expires: int, tries: Option<nat>)

  /** What a caller passes to `add`: nothing (`null`/`undefined`), one payload, or an array of payloads. */
  datatype Items<D> = Absent | One(item: D) | Many(items: seq<D>)

  /** The three classes of a stored record at an instant. */
  datatype State = Active | Waiting | Failed

  /** The payloads a call to `add` carries, in order. */
  function Payloads<D>(items: Items<D>): seq<D>
  {
    match items
    case Absent => []
    case One(x) => [x]
    case Many(xs) => xs
  }

  /** The attempt counter a fresh record starts with. */
  function InitialTries(retries: Retries): Option<nat>
  {
    if retries.Unlimited? then None else Some(0)
  }

  /**
   * Normalises the argument of `add` into one draft per payload, or `None`
   * when there is nothing to insert.
   */
  function Prepare<D>(items: Items<D>, now: int, retries: Retries): (r: Option<seq<Draft<D>>>)
    ensures r.None? <==> Payloads(items) == []
    ensures r.Some? ==> |r.value| == |Payloads(items)|
    ensures r.Some? ==> forall k :: 0 <= k < |r.value| ==>
      && r.value[k].data == Payloads(items)[k]
      && r.value[k].created == now
      && r.value[k].expires == 0
      && (r.value[k].tries == Some(0) <==> retries.Limited?)
      && (r.value[k].tries == None <==> retries.Unlimited?)
  {
    if items.Absent? then None
    else
      var xs := if items.One? then [items.item] else items.items;
      assert xs == Payloads(items);
      var prepared := seq(|xs|, k requires 0 <= k < |xs| => Draft(xs[k], now, 0, InitialTries(retries)));
      assert forall k :: 0 <= k < |prepared| ==> prepared[k].tries == InitialTries(retries);
      if |prepared| == 0 then None else Some(prepared)
  }

  /** The records the store holds after inserting `drafts`, numbered from `first`. */
  function Stamp<D>(drafts: seq<Draft<D>>, first: Id): (r: seq<Task<D>>)
    ensures |r| == |drafts|
    ensures forall k :: 0 <= k < |r| ==>
      r[k] == Task(first + k, drafts[k].data, drafts[k].created, drafts[k].expires, drafts[k].tries, None)
  {
    seq(|drafts|, k requires 0 <= k < |drafts| =>
      Task(first + k, drafts[k].data, drafts[k].created, drafts[k].expires, drafts[k].tries, None))
  }

  function Max0(x: int): nat
  {
    if x < 0 then 0 else x
  }

  /**
   * The shape every record of a queue keeps: the attempt counter is present
   * exactly when a limit is configured, and never exceeds that limit (or 0).
   */
  predicate WellFormed<D>(t: Task<D>, retries: Retries)
  {
    match retries
    case Unlimited => t.tries.None?
    case Limited(l) => t.tries.Some? && t.tries.value <= Max0(l)
  }

  /** Leased: the `active` filter. */
  predicate IsActive<D>(t: Task<D>, now: int)
  {
    t.expires > now
  }

  /** Claimable: the filter of `get` and of `waiting`. */
  predicate IsWaiting<D>(t: Task<D>, now: int, retries: Retries)
  {
    && t.expires <= now
    && match retries
       case Unlimited => true
       case Limited(l) => t.tries.Some? && t.tries.value < l
  }

  /** Retry budget spent: the `failed` filter, for a queue with a limit. */
  predicate IsFailed<D>(t: Task<D>, now: int, limit: int)
  {
    t.tries.Some? && t.tries.value >= limit && t.expires <= now
  }

  /**
   * The class the `stats` aggregation assigns to a record; on well-formed
   * records it agrees with the three separate filters.
   */
  function Classify<D>(t: Task<D>, now: int, retries: Retries): State
  {
    if t.expires > now then Active
    else
      match retries
      case Unlimited => Waiting
      case Limited(l) => if t.tries.Some? && t.tries.value >= l then Failed else Waiting
  }

  lemma ClassifyAgrees<D>(t: Task<D>, now: int, retries: Retries)
    ensures Classify(t, now, retries) == Active <==> IsActive(t, now)
    ensures WellFormed(t, retries) ==> (Classify(t, now, retries) == Waiting <==> IsWaiting(t, now, retries))
    ensures Classify(t, now, retries) == Failed <==> retries.Limited? && IsFailed(t, now, retries.limit)
  {
  }

  /**
   * Claim order: sort by `expires` (ascending, or descending when the queue
   * is insistent), then by `created` ascending. `Precedes(a, b, _)` holds
   * when `a` may be claimed before `b`.
   */
  predicate Precedes<D>(a: Task<D>, b: Task<D>, insistent: bool)
  {
    if a.expires != b.expires then
      (if insistent then a.expires > b.expires else a.expires < b.expires)
    else a.created <= b.created
  }

  lemma PrecedesTotal<D>(a: Task<D>, b: Task<D>, insistent: bool)
    ensures Precedes(a, b, insistent) || Precedes(b, a, insistent)
  {
  }

  lemma PrecedesTransitive<D>(a: Task<D>, b: Task<D>, c: Task<D>, insistent: bool)
    requires Precedes(a, b, insistent) && Precedes(b, c, insistent)
    ensures Precedes(a, c, insistent)
  {
  }

  /** The record is leased under `tag`: the filter of `ack` and `ping`. */
  predicate HoldsLease<D>(t: Task<D>, tag: Tag, now: int)
  {
    t.tag == Some(tag) && t.expires > now
  }

  /** The attempt counter as `$inc` reads it: an absent field counts as 0. */
  function TriesSoFar<D>(t: Task<D>): nat
  {
    match t.tries
    case None => 0
    case Some(n) => n
  }

  /** The update `get` applies to the record it claims. */
  function Claimed<D>(t: Task<D>, now: int, lease: int, tag: Tag, retries: Retries): Task<D>
  {
    t.(tag := Some(tag), expires := now + lease,
       tries := if retries.Unlimited? then t.tries else Some(TriesSoFar(t) + 1))
  }

  /**
   * A claim keeps a record well formed: the counter is bumped only below the
   * limit, so it never passes it.
   */
  lemma ClaimKeepsWellFormed<D>(t: Task<D>, now: int, lease: int, tag: Tag, retries: Retries)
    requires WellFormed(t, retries) && IsWaiting(t, now, retries)
    ensures WellFormed(Claimed(t, now, lease, tag, retries), retries)
    ensures retries.Limited? ==> Claimed(t, now, lease, tag, retries).tries == Some(t.tries.value + 1)
  {
  }

  /** The update `ping` applies to the record it renews. */
  function Renewed<D>(t: Task<D>, now: int, lease: int): Task<D>
  {
    t.(expires := now + lease)
  }
}
