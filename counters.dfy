/**
 * The queue's counters. `active`, `waiting` and `failed` each count the
 * records matching their own filter; `stats` makes one pass that classifies
 * every record. The lemmas show that the two agree, that the three classes
 * partition the store, that `waiting` is nonzero exactly when `get` can
 * claim, and how each operation moves records between the classes.
 */
module Counters {
  import opened Wrappers
  import opened Tasks
  import opened Store

  /** The breakdown `stats` reports; a class with no record counts 0. */
  datatype Counts = Counts(active: nat, waiting: nat, failed: nat)

  function Plus(a: Counts, b: Counts): Counts
  {
    Counts(a.active + b.active, a.waiting + b.waiting, a.failed + b.failed)
  }

  /** The breakdown of a single record in class `s`. */
  function Unit(s: State): Counts
  {
    match s
    case Active => Counts(1, 0, 0)
    case Waiting => Counts(0, 1, 0)
    case Failed => Counts(0, 0, 1)
  }

  /** Number of records with `expires > now`. */
  function ActiveCount<D>(rs: seq<Task<D>>, now: int): nat
  {
    if rs == [] then 0
    else (if IsActive(rs[0], now) then 1 else 0) + ActiveCount(rs[1..], now)
  }

  /** Number of records `get` could claim at `now`. */
  function WaitingCount<D>(rs: seq<Task<D>>, now: int, retries: Retries): nat
  {
    if rs == [] then 0
    else (if IsWaiting(rs[0], now, retries) then 1 else 0) + WaitingCount(rs[1..], now, retries)
  }

  /** Number of records matching the `failed` filter for `limit`. */
  function FailedMatches<D>(rs: seq<Task<D>>, now: int, limit: int): nat
  {
    if rs == [] then 0
    else (if IsFailed(rs[0], now, limit) then 1 else 0) + FailedMatches(rs[1..], now, limit)
  }

  /** `failed`: 0 without a retry limit, otherwise the records matching its filter. */
  function FailedCount<D>(rs: seq<Task<D>>, now: int, retries: Retries): nat
  {
    match retries
    case Unlimited => 0
    case Limited(l) => FailedMatches(rs, now, l)
  }

  /** `stats`: one pass over the store, each record counted in its class. */
  function StatsOf<D>(rs: seq<Task<D>>, now: int, retries: Retries): Counts
  {
    if rs == [] then Counts(0, 0, 0)
    else Plus(Unit(Classify(rs[0], now, retries)), StatsOf(rs[1..], now, retries))
  }

  /** Each record lands in exactly one class: the breakdown adds up to `total`. */
  lemma {:induction false} StatsSumToTotal<D>(rs: seq<Task<D>>, now: int, retries: Retries)
    ensures StatsOf(rs, now, retries).active + StatsOf(rs, now, retries).waiting +
            StatsOf(rs, now, retries).failed == |rs|
  {
    if rs != [] {
      StatsSumToTotal(rs[1..], now, retries);
    }
  }

  ghost predicate AllWellFormed<D>(rs: seq<Task<D>>, retries: Retries)
  {
    forall k :: 0 <= k < |rs| ==> WellFormed(rs[k], retries)
  }

  lemma AllWellFormedTail<D>(rs: seq<Task<D>>, retries: Retries)
    requires rs != [] && AllWellFormed(rs, retries)
    ensures WellFormed(rs[0], retries) && AllWellFormed(rs[1..], retries)
  {
    forall k | 0 <= k < |rs[1..]| ensures WellFormed(rs[1..][k], retries) {
      assert rs[1..][k] == rs[k + 1];
    }
  }

  /** The `active` count of the single pass is the `active` filter's count. */
  lemma {:induction false} StatsActiveAgrees<D>(rs: seq<Task<D>>, now: int, retries: Retries)
    ensures StatsOf(rs, now, retries).active == ActiveCount(rs, now)
  {
    if rs != [] {
      StatsActiveAgrees(rs[1..], now, retries);
      ClassifyAgrees(rs[0], now, retries);
    }
  }

  /** On well-formed records the `waiting` count of the single pass is the `waiting` filter's count. */
  lemma {:induction false} StatsWaitingAgrees<D>(rs: seq<Task<D>>, now: int, retries: Retries)
    requires AllWellFormed(rs, retries)
    ensures StatsOf(rs, now, retries).waiting == WaitingCount(rs, now, retries)
  {
    if rs != [] {
      AllWellFormedTail(rs, retries);
      StatsWaitingAgrees(rs[1..], now, retries);
      ClassifyAgrees(rs[0], now, retries);
    }
  }

  /** The `failed` count of the single pass is the `failed` filter's count. */
  lemma {:induction false} StatsFailedAgrees<D>(rs: seq<Task<D>>, now: int, retries: Retries)
    ensures StatsOf(rs, now, retries).failed == FailedCount(rs, now, retries)
  {
    if rs != [] {
      StatsFailedAgrees(rs[1..], now, retries);
      ClassifyAgrees(rs[0], now, retries);
    }
  }

  /** The single-pass breakdown equals the three separately filtered counts. */
  lemma StatsAgreeWithCounters<D>(rs: seq<Task<D>>, now: int, retries: Retries)
    requires AllWellFormed(rs, retries)
    ensures StatsOf(rs, now, retries) ==
      Counts(ActiveCount(rs, now), WaitingCount(rs, now, retries), FailedCount(rs, now, retries))
  {
    StatsActiveAgrees(rs, now, retries);
    StatsWaitingAgrees(rs, now, retries);
    StatsFailedAgrees(rs, now, retries);
  }

  /** Every record is active, waiting or failed: the counts add up to `total`. */
  lemma CountsPartition<D>(rs: seq<Task<D>>, now: int, retries: Retries)
    requires AllWellFormed(rs, retries)
    ensures ActiveCount(rs, now) + WaitingCount(rs, now, retries) + FailedCount(rs, now, retries) == |rs|
  {
    StatsAgreeWithCounters(rs, now, retries);
    StatsSumToTotal(rs, now, retries);
  }

  /** Without a retry limit the single pass classifies no record as failed. */
  lemma {:induction false} UnlimitedNeverFails<D>(rs: seq<Task<D>>, now: int)
    ensures StatsOf(rs, now, Unlimited).failed == 0
  {
    if rs != [] {
      UnlimitedNeverFails(rs[1..], now);
      ClassifyAgrees(rs[0], now, Unlimited);
    }
  }

  lemma {:induction false} WaitingCountZero<D>(rs: seq<Task<D>>, now: int, retries: Retries)
    ensures WaitingCount(rs, now, retries) == 0 <==> forall j :: 0 <= j < |rs| ==> !IsWaiting(rs[j], now, retries)
  {
    if rs != [] {
      WaitingCountZero(rs[1..], now, retries);
      assert forall j :: 1 <= j < |rs| ==> rs[j] == rs[1..][j - 1];
    }
  }

  /**
   * `waiting` and `get` agree at the same instant: some record is counted as
   * waiting exactly when `get` finds one to claim, whatever the claim order.
   */
  lemma WaitingIffClaimable<D>(rs: seq<Task<D>>, now: int, retries: Retries, insistent: bool)
    ensures WaitingCount(rs, now, retries) > 0 <==> ClaimIndex(rs, now, retries, insistent).Some?
  {
    WaitingCountZero(rs, now, retries);
  }

  lemma PlusAssociative(a: Counts, b: Counts, c: Counts)
    ensures Plus(a, Plus(b, c)) == Plus(Plus(a, b), c)
  {
  }

  /** The breakdown of a concatenation is the sum of the breakdowns. */
  lemma {:induction false} StatsOfAppend<D>(a: seq<Task<D>>, b: seq<Task<D>>, now: int, retries: Retries)
    ensures StatsOf(a + b, now, retries) == Plus(StatsOf(a, now, retries), StatsOf(b, now, retries))
  {
    if a == [] {
      assert a + b == b;
    } else {
      assert (a + b)[1..] == a[1..] + b && (a + b)[0] == a[0];
      StatsOfAppend(a[1..], b, now, retries);
      var head := Unit(Classify(a[0], now, retries));
      assert StatsOf(a + b, now, retries) == Plus(head, StatsOf(a[1..] + b, now, retries));
      PlusAssociative(head, StatsOf(a[1..], now, retries), StatsOf(b, now, retries));
    }
  }

  /** Moving the same unit on both sides of an equation of breakdowns. */
  lemma PlusRearrange(h: Counts, a: Counts, b: Counts, u: Counts, v: Counts)
    requires Plus(a, u) == Plus(b, v)
    ensures Plus(Plus(h, a), u) == Plus(Plus(h, b), v)
  {
  }

  /** Replacing the first record moves one unit from its old class to its new one. */
  lemma StatsOfUpdateHead<D>(rs: seq<Task<D>>, x: Task<D>, now: int, retries: Retries)
    requires 0 < |rs|
    ensures Plus(StatsOf(rs[0 := x], now, retries), Unit(Classify(rs[0], now, retries))) ==
            Plus(StatsOf(rs, now, retries), Unit(Classify(x, now, retries)))
  {
    var rs' := rs[0 := x];
    assert rs'[1..] == rs[1..] && rs'[0] == x;
    var was, becomes := Unit(Classify(rs[0], now, retries)), Unit(Classify(x, now, retries));
    var rest := StatsOf(rs[1..], now, retries);
    assert StatsOf(rs, now, retries) == Plus(was, rest);
    assert StatsOf(rs', now, retries) == Plus(becomes, rest);
  }

  /** Replacing one record moves one unit from its old class to its new one. */
  lemma {:induction false} StatsOfUpdate<D>(rs: seq<Task<D>>, i: nat, x: Task<D>, now: int, retries: Retries)
    requires i < |rs|
    ensures Plus(StatsOf(rs[i := x], now, retries), Unit(Classify(rs[i], now, retries))) ==
            Plus(StatsOf(rs, now, retries), Unit(Classify(x, now, retries)))
  {
    if i == 0 {
      StatsOfUpdateHead(rs, x, now, retries);
    } else {
      var rs' := rs[i := x];
      var was, becomes := Unit(Classify(rs[i], now, retries)), Unit(Classify(x, now, retries));
      var tail, tail' := rs[1..], rs'[1..];
      assert tail' == tail[i - 1 := x];
      assert tail[i - 1] == rs[i];
      StatsOfUpdate(tail, i - 1, x, now, retries);
      var head := Unit(Classify(rs[0], now, retries));
      assert StatsOf(rs, now, retries) == Plus(head, StatsOf(tail, now, retries));
      assert StatsOf(rs', now, retries) == Plus(head, StatsOf(tail', now, retries));
      PlusRearrange(head, StatsOf(tail', now, retries), StatsOf(tail, now, retries), was, becomes);
    }
  }

  /** Deleting one record removes one unit from its class. */
  lemma {:induction false} StatsOfRemove<D>(rs: seq<Task<D>>, i: nat, now: int, retries: Retries)
    requires i < |rs|
    ensures Plus(StatsOf(rs[..i] + rs[i + 1..], now, retries), Unit(Classify(rs[i], now, retries))) ==
            StatsOf(rs, now, retries)
  {
    if i == 0 {
      assert rs[..i] + rs[i + 1..] == rs[1..];
    } else {
      assert (rs[..i] + rs[i + 1..])[1..] == rs[1..][..i - 1] + rs[1..][i..];
      assert rs[1..][i - 1] == rs[i];
      StatsOfRemove(rs[1..], i - 1, now, retries);
    }
  }

  /**
   * A claim with a positive lease turns one waiting record into an active
   * one and leaves the other classes as they were.
   */
  lemma ClaimMovesWaitingToActive<D>(rs: seq<Task<D>>, i: nat, now: int, lease: int, tag: Tag, retries: Retries)
    requires i < |rs| && IsWaiting(rs[i], now, retries)
    requires lease > 0
    ensures StatsOf(rs[i := Claimed(rs[i], now, lease, tag, retries)], now, retries).active ==
            StatsOf(rs, now, retries).active + 1
    ensures StatsOf(rs[i := Claimed(rs[i], now, lease, tag, retries)], now, retries).waiting + 1 ==
            StatsOf(rs, now, retries).waiting
    ensures StatsOf(rs[i := Claimed(rs[i], now, lease, tag, retries)], now, retries).failed ==
            StatsOf(rs, now, retries).failed
  {
    StatsOfUpdate(rs, i, Claimed(rs[i], now, lease, tag, retries), now, retries);
  }

  /** A successful `ack` removes one active record and nothing else. */
  lemma AckRemovesOneActive<D>(rs: seq<Task<D>>, tag: Tag, now: int)
    requires LeaseIndex(rs, tag, now).Some?
    ensures forall retries: Retries ::
      var i := LeaseIndex(rs, tag, now).value;
      var after := StatsOf(rs[..i] + rs[i + 1..], now, retries);
      after.active + 1 == StatsOf(rs, now, retries).active &&
      after.waiting == StatsOf(rs, now, retries).waiting &&
      after.failed == StatsOf(rs, now, retries).failed
  {
    var i := LeaseIndex(rs, tag, now).value;
    forall retries: Retries
      ensures StatsOf(rs[..i] + rs[i + 1..], now, retries).active + 1 == StatsOf(rs, now, retries).active
      ensures StatsOf(rs[..i] + rs[i + 1..], now, retries).waiting == StatsOf(rs, now, retries).waiting
      ensures StatsOf(rs[..i] + rs[i + 1..], now, retries).failed == StatsOf(rs, now, retries).failed
    {
      StatsOfRemove(rs, i, now, retries);
    }
  }

  /** Renewing a lease by a positive duration leaves every class count unchanged. */
  lemma RenewKeepsStats<D>(rs: seq<Task<D>>, tag: Tag, now: int, lease: int, retries: Retries)
    requires LeaseIndex(rs, tag, now).Some?
    requires lease > 0
    ensures var i := LeaseIndex(rs, tag, now).value;
      StatsOf(rs[i := Renewed(rs[i], now, lease)], now, retries) == StatsOf(rs, now, retries)
  {
    var i := LeaseIndex(rs, tag, now).value;
    StatsOfUpdate(rs, i, Renewed(rs[i], now, lease), now, retries);
  }

  /** The breakdown of `n` records all in class `s`. */
  function AllIn(s: State, n: nat): Counts
  {
    match s
    case Active => Counts(n, 0, 0)
    case Waiting => Counts(0, n, 0)
    case Failed => Counts(0, 0, n)
  }

  /** Records that all fall in one class are counted in that class only. */
  lemma {:induction false} StatsOfUniform<D>(rs: seq<Task<D>>, now: int, retries: Retries, s: State)
    requires forall k :: 0 <= k < |rs| ==> Classify(rs[k], now, retries) == s
    ensures StatsOf(rs, now, retries) == AllIn(s, |rs|)
  {
    if rs != [] {
      assert forall k :: 0 <= k < |rs[1..]| ==> rs[1..][k] == rs[k + 1];
      StatsOfUniform(rs[1..], now, retries, s);
      assert StatsOf(rs, now, retries) == Plus(Unit(s), AllIn(s, |rs| - 1));
    }
  }

  /**
   * Freshly added records are waiting, or failed at once when the retry
   * limit is 0 or below; `now` is a positive clock reading.
   */
  lemma StampedAreWaiting<D>(drafts: seq<Draft<D>>, first: Id, now: int, retries: Retries)
    requires now >= 0
    requires forall k :: 0 <= k < |drafts| ==> drafts[k].expires == 0 && drafts[k].tries == InitialTries(retries)
    ensures StatsOf(Stamp(drafts, first), now, retries) ==
      AllIn(if retries.Limited? && retries.limit <= 0 then Failed else Waiting, |drafts|)
  {
    var kind := if retries.Limited? && retries.limit <= 0 then Failed else Waiting;
    var stamped := Stamp(drafts, first);
    forall k | 0 <= k < |stamped| ensures Classify(stamped[k], now, retries) == kind {
      assert stamped[k].expires == 0 && stamped[k].tries == InitialTries(retries);
    }
    StatsOfUniform(stamped, now, retries, kind);
  }

  /**
   * `add` grows the breakdown by one waiting record per payload, or by one
   * failed record per payload when the retry limit is 0 or below.
   */
  lemma AddGrowsStats<D>(rs: seq<Task<D>>, items: Items<D>, first: Id, now: int, retries: Retries)
    requires now >= 0
    requires Prepare(items, now, retries).Some?
    ensures var n := |Payloads(items)|;
      StatsOf(rs + Stamp(Prepare(items, now, retries).value, first), now, retries) ==
      Plus(StatsOf(rs, now, retries),
           AllIn(if retries.Limited? && retries.limit <= 0 then Failed else Waiting, n))
  {
    var drafts := Prepare(items, now, retries).value;
    StatsOfAppend(rs, Stamp(drafts, first), now, retries);
    StampedAreWaiting(drafts, first, now, retries);
  }
}
