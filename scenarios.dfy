/**
 * The repository's test scenarios replayed against the queue's contracts.
 * Each waiting step of a test becomes an explicit later instant; the
 * outcomes in the `ensures` clauses are the ones the tests assert.
 */
module Scenarios {
  import opened Wrappers
  import opened Tasks
  import opened Counters
  import opened Queue

  /** The payload of a claimed record, or `None` when nothing was claimed. */
  function DataOf<D>(r: Result<Option<Task<D>>, GetError>): Option<D>
  {
    match r
    case Success(Some(t)) => Some(t.data)
    case _ => None
  }

  /** A scenario record on a queue with a retry limit: inserted at `created`, claimed `tries` times. */
  function Rec(id: Id, data: string, created: int, expires: int, tries: nat, tag: Option<Tag>): Task<string>
  {
    Task(id, data, created, expires, Some(tries), tag)
  }

  /** Three payloads added at instants 100, 110 and 120 on a default queue. */
  method FifoSetup() returns (q: Queue<string>)
    ensures fresh(q) && q.Valid() && q.config == DefaultConfig()
    ensures q.records == [Rec(0, "test1", 100, 0, 0, None), Rec(1, "test2", 110, 0, 0, None),
                          Rec(2, "test3", 120, 0, 0, None)]
  {
    q := new Queue<string>(DefaultConfig(), 100);
    var _ := q.Add(One("test1"), 100);
    var _ := q.Add(One("test2"), 110);
    var _ := q.Add(One("test3"), 120);
  }

  /** Never-claimed records go out oldest first. */
  method FifoFirstRound(q: Queue<string>) returns (a: Option<string>, b: Option<string>, c: Option<string>)
    requires q.Valid() && q.config == DefaultConfig()
    requires q.records == [Rec(0, "test1", 100, 0, 0, None), Rec(1, "test2", 110, 0, 0, None),
                           Rec(2, "test3", 120, 0, 0, None)]
    modifies q
    ensures q.Valid()
    ensures q.records == [Rec(0, "test1", 100, 121, 1, Some("t1")), Rec(1, "test2", 110, 30130, 1, Some("t2")),
                          Rec(2, "test3", 120, 30130, 1, Some("t3"))]
    ensures a == Some("test1") && b == Some("test2") && c == Some("test3")
  {
    ghost var s := q.records;
    var r1, at1 := q.Get(Some(1), 120, "t1");
    assert at1 == 0 by {
      assert IsWaiting(s[0], 120, q.config.tries);
    }
    s := q.records;
    var r2, at2 := q.Get(None, 130, "t2");
    assert at2 == 1 by {
      assert IsWaiting(s[1], 130, q.config.tries);
    }
    s := q.records;
    var r3, at3 := q.Get(None, 130, "t3");
    assert at3 == 2 by {
      assert IsWaiting(s[2], 130, q.config.tries);
    }
    a, b, c := DataOf(r1), DataOf(r2), DataOf(r3);
  }

  /**
   * Adding one payload returns one id and stores the payload; adding
   * nothing, or an empty batch, returns no ids and stores nothing.
   */
  method AddScenario() returns (one: seq<Id>, total: nat, stored: string, none: seq<Id>, empty: seq<Id>, after: nat)
    ensures |one| == 1 && total == 1 && stored == "test" && none == [] && empty == [] && after == 1
  {
    var q := new Queue<string>(DefaultConfig(), 0);
    one := q.Add(One("test"), 0);
    total := q.Total();
    stored := q.records[0].data;
    none := q.Add(Absent, 0);
    empty := q.Add(Many([]), 0);
    after := q.Total();
  }

  /** The first record returns once its lease has lapsed; then nothing is left. */
  method FifoSecondRound(q: Queue<string>) returns (d: Option<string>, e: Option<string>)
    requires q.Valid() && q.config == DefaultConfig()
    requires q.records == [Rec(0, "test1", 100, 121, 1, Some("t1")), Rec(1, "test2", 110, 30130, 1, Some("t2")),
                           Rec(2, "test3", 120, 30130, 1, Some("t3"))]
    modifies q
    ensures q.Valid() && |q.records| == 3
    ensures d == Some("test1") && e == None
  {
    ghost var s := q.records;
    var r4, at4 := q.Get(None, 130, "t4");
    assert at4 == 0 by {
      assert IsWaiting(s[0], 130, q.config.tries);
    }
    s := q.records;
    var r5, at5 := q.Get(None, 130, "t5");
    assert !IsWaiting(s[0], 130, q.config.tries);
    d, e := DataOf(r4), DataOf(r5);
  }

  /**
   * Three payloads added one after another are claimed in insertion order;
   * the first comes back once its one-unit lease has lapsed, and then
   * nothing is left to claim. No record is deleted.
   */
  method FifoScenario() returns (got: seq<Option<string>>, total: nat)
    ensures got == [Some("test1"), Some("test2"), Some("test3"), Some("test1"), None]
    ensures total == 3
  {
    var q := FifoSetup();
    var a, b, c := FifoFirstRound(q);
    var d, e := FifoSecondRound(q);
    got := [a, b, c, d, e];
    total := q.Total();
  }

  /** A fresh queue with `config` holding the single payload "test", added at instant 0. */
  method SingleTask(config: Config<string>) returns (q: Queue<string>)
    requires config.items == Absent
    ensures fresh(q) && q.Valid() && q.config == config
    ensures q.records == [Task(0, "test", 0, 0, InitialTries(config.tries), None)]
  {
    q := new Queue<string>(config, 0);
    var _ := q.Add(One("test"), 0);
  }

  /**
   * An acknowledgement after the lease has lapsed deletes nothing; a fresh
   * claim of the same record can then be acknowledged, which deletes it.
   */
  method AckScenario() returns (late: Option<Id>, countAfterLate: nat, again: Option<string>, acked: bool, countAfter: nat)
    ensures late == None && countAfterLate == 1
    ensures again == Some("test") && acked && countAfter == 0
  {
    var q := SingleTask(DefaultConfig());
    var _, _ := q.Get(Some(1), 0, "a");
    assert q.records == [Rec(0, "test", 0, 1, 1, Some("a"))];
    late := q.Ack("a", 10);
    countAfterLate := q.Total();
    var r, _ := q.Get(None, 10, "b");
    assert q.records == [Rec(0, "test", 0, 30010, 2, Some("b"))];
    again := DataOf(r);
    var id := q.Ack("b", 10);
    acked := id.Some?;
    countAfter := q.Total();
  }

  /** Renewing a live lease returns the record; once the renewed lease lapses, renewal fails. */
  method PingScenario() returns (renewed: Option<string>, lapsed: Option<Task<string>>)
    ensures renewed == Some("test") && lapsed == None
  {
    var q := SingleTask(DefaultConfig());
    var _, _ := q.Get(None, 0, "a");
    assert q.records == [Rec(0, "test", 0, 30000, 1, Some("a"))];
    var r := q.Ping("a", Some(1), 0);
    assert q.records == [Rec(0, "test", 0, 1, 1, Some("a"))];
    renewed := if r.Some? then Some(r.value.data) else None;
    lapsed := q.Ping("a", Some(1), 100);
  }

  /**
   * With a configured lease of 100, a record claimed with the default lease
   * is claimed again once that lease has lapsed, and then not a third time.
   */
  method TtlScenario() returns (first: Option<string>, second: Option<string>, third: Option<string>)
    ensures first == Some("test") && second == Some("test") && third == None
  {
    var q := SingleTask(DefaultConfig().(ttl := 100));
    var r1, _ := q.Get(None, 0, "a");
    assert q.records == [Rec(0, "test", 0, 100, 1, Some("a"))];
    var r2, _ := q.Get(None, 200, "b");
    assert q.records == [Rec(0, "test", 0, 300, 2, Some("b"))];
    var r3, _ := q.Get(None, 200, "c");
    first, second, third := DataOf(r1), DataOf(r2), DataOf(r3);
  }

  /**
   * With a limit of one try, a record whose only lease has lapsed is not
   * claimed again; it stays in the store, counted as failed.
   */
  method TriesScenario() returns (first: Option<string>, second: Option<string>, total: nat, failed: nat)
    ensures first == Some("test") && second == None && total == 1 && failed == 1
  {
    var q := SingleTask(DefaultConfig().(tries := Limited(1)));
    var r1, _ := q.Get(Some(100), 0, "a");
    assert q.records == [Rec(0, "test", 0, 100, 1, Some("a"))];
    var r2, _ := q.Get(Some(100), 200, "b");
    assert q.records == [Rec(0, "test", 0, 100, 1, Some("a"))];
    assert FailedMatches(q.records[1..], 200, 1) == 0;
    first, second := DataOf(r1), DataOf(r2);
    total := q.Total();
    failed := q.Failed(200);
  }

  /** Two payloads added at instants 0 and 10, with `config`. */
  method TwoTasks(config: Config<string>) returns (q: Queue<string>)
    requires config.items == Absent && config.tries == Limited(10)
    ensures fresh(q) && q.Valid() && q.config == config
    ensures q.records == [Rec(0, "test1", 0, 0, 0, None), Rec(1, "test2", 10, 0, 0, None)]
  {
    q := new Queue<string>(config, 0);
    var _ := q.Add(One("test1"), 0);
    var _ := q.Add(One("test2"), 10);
  }

  /**
   * An insistent queue claims the most recently lapsed record (`test1`,
   * lease ended at 11) again before `test2`, which was added later and
   * never claimed: the order is decided by `expires` (11 against 0).
   */
  method InsistentScenario() returns (first: Option<string>, second: Option<string>)
    ensures first == Some("test1") && second == Some("test1")
  {
    var q := TwoTasks(DefaultConfig().(insistent := true));
    ghost var s := q.records;
    var r1, at1 := q.Get(Some(1), 10, "a");
    assert at1 == 0 by {
      assert IsWaiting(s[0], 10, q.config.tries);
    }
    s := q.records;
    var r2, at2 := q.Get(Some(1), 20, "b");
    assert at2 == 0 by {
      assert IsWaiting(s[0], 20, q.config.tries);
    }
    first, second := DataOf(r1), DataOf(r2);
  }

  /** The same steps on a default queue claim the never-claimed record second. */
  method DefaultOrderScenario() returns (first: Option<string>, second: Option<string>)
    ensures first == Some("test1") && second == Some("test2")
  {
    var q := TwoTasks(DefaultConfig());
    ghost var s := q.records;
    var r1, at1 := q.Get(Some(1), 10, "a");
    assert at1 == 0 by {
      assert IsWaiting(s[0], 10, q.config.tries);
    }
    s := q.records;
    var r2, at2 := q.Get(Some(1), 20, "b");
    assert at2 == 1 by {
      assert IsWaiting(s[1], 20, q.config.tries);
    }
    first, second := DataOf(r1), DataOf(r2);
  }

  /** Seed items given at creation are stored and waiting. */
  method InitItemsScenario() returns (total: nat, waiting: nat)
    ensures total == 2 && waiting == 2
  {
    var q := new Queue<string>(DefaultConfig().(items := Many(["test1", "test2"])), 0);
    assert q.records == [Rec(0, "test1", 0, 0, 0, None), Rec(1, "test2", 0, 0, 0, None)];
    assert WaitingCount(q.records[1..], 0, q.config.tries) == 1;
    total := q.Total();
    waiting := q.Waiting(0);
  }

  /** Without a retry limit a record is claimed again and again and never gets a counter. */
  method UnlimitedScenario() returns (r: Result<Option<Task<string>>, GetError>)
    ensures r.Success? && r.value.Some?
    ensures r.value.value.data == "test" && r.value.value.tries == None
  {
    var q := SingleTask(DefaultConfig().(tries := Unlimited));
    var _, _ := q.Get(Some(1), 0, "a");
    assert q.records == [Task(0, "test", 0, 1, None, Some("a"))];
    var _, _ := q.Get(Some(1), 10, "b");
    assert q.records == [Task(0, "test", 0, 11, None, Some("b"))];
    assert IsWaiting(q.records[0], 20, q.config.tries);
    ghost var at;
    r, at := q.Get(Some(1), 20, "c");
  }

  /** A strict queue with nothing to claim reports the breakdown instead of an empty result. */
  method StrictScenario() returns (r: Result<Option<Task<string>>, GetError>)
    ensures r == Failure(QueueGetError(Counts(1, 0, 0)))
  {
    var q := SingleTask(DefaultConfig().(strict := true));
    var _, _ := q.Get(None, 0, "a");
    ghost var s := q.records;
    assert s == [Rec(0, "test", 0, 30000, 1, Some("a"))];
    assert StatsOf(s, 0, q.config.tries) == Counts(1, 0, 0) by {
      assert Classify(s[0], 0, q.config.tries) == Active;
      assert StatsOf(s[1..], 0, q.config.tries) == Counts(0, 0, 0);
    }
    assert !IsWaiting(s[0], 0, q.config.tries);
    ghost var at;
    r, at := q.Get(None, 0, "b");
  }

  /**
   * The records of the 'size' replay: never claimed (no try, no expiry, no
   * token), or claimed once under one of the `used` tokens.
   */
  ghost predicate SizeShape(rs: seq<Task<string>>, used: set<Tag>)
  {
    forall k :: 0 <= k < |rs| ==>
      || (rs[k].tries == Some(0) && rs[k].expires == 0 && rs[k].tag == None)
      || (rs[k].tries == Some(1) && rs[k].tag.Some? && rs[k].tag.value in used)
  }

  /**
   * One claim of the 'size' replay, with the breakdown taken at instant 30:
   * the claimed record leaves `waiting` for `active` when its lease outlives
   * instant 30, and for `failed` otherwise (its single try is spent).
   */
  method SizeClaim(q: Queue<string>, t: Option<int>, now: int, tag: Tag, ghost used: set<Tag>)
    requires q.Valid() && q.config == DefaultConfig().(tries := Limited(1))
    requires SizeShape(q.records, used) && tag !in used && now >= 0
    requires StatsOf(q.records, 30, Limited(1)).waiting > 0
    modifies q
    ensures q.Valid() && SizeShape(q.records, used + {tag}) && |q.records| == old(|q.records|)
    ensures var b, a := old(StatsOf(q.records, 30, Limited(1))), StatsOf(q.records, 30, Limited(1));
      && a.waiting + 1 == b.waiting
      && if now + q.Lease(t) > 30 then a.active == b.active + 1 && a.failed == b.failed
         else a.active == b.active && a.failed == b.failed + 1
  {
    ghost var s := q.records;
    SizeSomeWaiting(s, used, now);
    var r, at := q.Get(t, now, tag);
    assert r.Success? && r.value.Some?;
    SizeClaimShape(s, used, at, r.value.value, tag);
    SizeClaimStats(s, used, at, r.value.value, now, q.Lease(t));
  }

  /** Some never-claimed record remains, and it is claimable at any instant from 0 on. */
  lemma SizeSomeWaiting(s: seq<Task<string>>, used: set<Tag>, now: int)
    requires SizeShape(s, used) && AllWellFormed(s, Limited(1)) && now >= 0
    requires StatsOf(s, 30, Limited(1)).waiting > 0
    ensures exists j :: 0 <= j < |s| && IsWaiting(s[j], now, Limited(1))
  {
    StatsWaitingAgrees(s, 30, Limited(1));
    WaitingCountZero(s, 30, Limited(1));
    var j :| 0 <= j < |s| && IsWaiting(s[j], 30, Limited(1));
    assert IsWaiting(s[j], now, Limited(1));
  }

  /** Claiming record `at` under a new token keeps the shape of the replay. */
  lemma SizeClaimShape(s: seq<Task<string>>, used: set<Tag>, at: nat, x: Task<string>, tag: Tag)
    requires SizeShape(s, used) && at < |s|
    requires x.tries == Some(1) && x.tag == Some(tag)
    ensures SizeShape(s[at := x], used + {tag})
  {
    var s' := s[at := x];
    forall k | 0 <= k < |s'|
      ensures || (s'[k].tries == Some(0) && s'[k].expires == 0 && s'[k].tag == None)
              || (s'[k].tries == Some(1) && s'[k].tag.Some? && s'[k].tag.value in used + {tag})
    {
      if k != at {
        assert s'[k] == s[k];
      }
    }
  }

  /** Claiming a waiting record moves it out of `waiting` at instant 30, into `active` or `failed`. */
  lemma SizeClaimStats(s: seq<Task<string>>, used: set<Tag>, at: nat, x: Task<string>, now: int, lease: int)
    requires SizeShape(s, used) && at < |s| && IsWaiting(s[at], now, Limited(1))
    requires x.tries == Some(1) && x.expires == now + lease
    ensures var b, a := StatsOf(s, 30, Limited(1)), StatsOf(s[at := x], 30, Limited(1));
      && a.waiting + 1 == b.waiting
      && if now + lease > 30 then a.active == b.active + 1 && a.failed == b.failed
         else a.active == b.active && a.failed == b.failed + 1
  {
    assert Classify(s[at], 30, Limited(1)) == Waiting;
    assert Classify(x, 30, Limited(1)) == if now + lease > 30 then Active else Failed;
    StatsOfUpdate(s, at, x, 30, Limited(1));
  }

  /** A prepared batch with a limit of one try: never-claimed records, all waiting at instant 30. */
  lemma SizeBatch(items: Items<string>, drafts: seq<Draft<string>>)
    requires Prepare(items, 0, Limited(1)) == Some(drafts)
    ensures SizeShape(Stamp(drafts, 0), {})
    ensures StatsOf(Stamp(drafts, 0), 30, Limited(1)) == Counts(0, |drafts|, 0)
  {
    StampedAreWaiting(drafts, 0, 30, Limited(1));
  }

  /** Nine payloads added at instant 0 with a limit of one try: all waiting at instant 30. */
  method SizeSetup() returns (q: Queue<string>)
    ensures fresh(q) && q.Valid() && q.config == DefaultConfig().(tries := Limited(1))
    ensures SizeShape(q.records, {}) && |q.records| == 9
    ensures StatsOf(q.records, 30, Limited(1)) == Counts(0, 9, 0)
  {
    q := new Queue<string>(DefaultConfig().(tries := Limited(1)), 0);
    var items := Many(seq(9, _ => ""));
    ghost var drafts := Prepare(items, 0, Limited(1)).value;
    var _ := q.Add(items, 0);
    assert q.records == Stamp(drafts, 0);
    SizeBatch(items, drafts);
  }

  /**
   * Nine payloads with a limit of one try: three claims with a one-unit
   * lease at instants 0, 10 and 20 and two default claims at instant 30
   * leave, at instant 30, two active, four waiting and three failed
   * records, whichever records the ties among equal keys selected.
   */
  method SizeScenario() returns (c: Counts, total: nat, waiting: nat, active: nat, failed: nat)
    ensures c == Counts(2, 4, 3) && total == 9 && waiting == 4 && active == 2 && failed == 3
  {
    var q := SizeSetup();
    SizeShortLeases(q);
    SizeClaim(q, None, 30, "4", {"1", "2", "3"});
    SizeClaim(q, None, 30, "5", {"1", "2", "3", "4"});
    c, total, waiting, active, failed := SizeReport(q);
  }

  /** The three one-unit leases of the 'size' replay, all lapsed by instant 30. */
  method SizeShortLeases(q: Queue<string>)
    requires q.Valid() && q.config == DefaultConfig().(tries := Limited(1))
    requires SizeShape(q.records, {}) && |q.records| == 9
    requires StatsOf(q.records, 30, Limited(1)) == Counts(0, 9, 0)
    modifies q
    ensures q.Valid() && SizeShape(q.records, {"1", "2", "3"}) && |q.records| == 9
    ensures StatsOf(q.records, 30, Limited(1)) == Counts(0, 6, 3)
  {
    SizeClaim(q, Some(1), 0, "1", {});
    SizeClaim(q, Some(1), 10, "2", {"1"});
    SizeClaim(q, Some(1), 20, "3", {"1", "2"});
  }

  /** The counters of the 'size' replay at instant 30, read from its breakdown. */
  method SizeReport(q: Queue<string>) returns (c: Counts, total: nat, waiting: nat, active: nat, failed: nat)
    requires q.Valid() && |q.records| == 9
    requires StatsOf(q.records, 30, q.config.tries) == Counts(2, 4, 3)
    ensures c == Counts(2, 4, 3) && total == 9 && waiting == 4 && active == 2 && failed == 3
  {
    c := q.Stats(30);
    total := q.Total();
    waiting := q.Waiting(30);
    active := q.Active(30);
    failed := q.Failed(30);
  }
}
