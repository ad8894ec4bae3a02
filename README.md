# mq-mongo work queue, modelled in Dafny

`mq-mongo` is a lease-based work queue kept in one MongoDB collection. Each
task record holds:

- a payload (`data`);
- its insertion instant (`created`);
- the end of its current lease (`expires`, 0 while never claimed);
- an attempt counter (`tries`, present only when a retry limit is configured);
- the token of its latest claim (`tag`).

The queue's operations are:

- `add` inserts payloads.
- `get` claims the first claimable record in claim order. It writes a fresh
  token and a new expiry, and, when a retry limit is set, spends one try.
- `ping` extends a live lease.
- `ack` deletes the record of a live lease.
- `total`, `active`, `waiting`, `failed` and `stats` count the records.
  Each record is active, waiting or failed at a given instant.

The model keeps the collection as a sequence of records in a class
`Queue.Queue`. Every operation is one atomic step at an explicit instant
`now`. `get` receives the fresh token it writes.

The files are:

- `tasks.dfy` holds the records and the per-record filters: active, waiting, failed, leased under a token. It also holds the claim order and the updates `get` and `ping` apply.
- `store.dfy` holds the two searches of the atomic find-and-modify calls: the first record in claim order, and the record leased under a token.
- `counters.dfy` holds the three separately filtered counters and the single-pass `stats`, with lemmas. The lemmas show:
  - the counters and `stats` agree;
  - the classes partition the collection;
  - `waiting` is nonzero exactly when `get` can claim;
  - each operation moves records between the classes in a stated way.
- `queue.dfy` holds the queue class. `add`, `get`, `ack` and `ping` are methods that update the collection. Each method keeps the collection invariant:
  - every record is well formed for the retry limit;
  - ids are distinct and below the next id;
  - tokens are distinct, as the unique sparse index on `tag` enforces.
- `scenarios.dfy` replays the repository's test scenarios against the methods' contracts. Each wait becomes a later instant.

## Model

| member | source | states |
|---|---|---|
| Tasks.Prepare | index.js:14-23 | `null`/`undefined` and `[]` give nothing to insert. Otherwise there is one draft per payload, in order, with `data` the payload, `created` now and `expires` 0. `tries` is 0 exactly when a limit is configured and absent otherwise. |
| Tasks.ClassifyAgrees | index.js:37-65 | The class `stats` assigns is `active` exactly on the `active` filter and `failed` exactly on the `failed` filter (limited queues only). On well-formed records it is `waiting` exactly on the `waiting` filter. |
| Tasks.ClaimKeepsWellFormed | index.js:91-99 | A claim only bumps `tries` below the limit, so `tries` never exceeds it. With a limit the new counter is the old one plus 1. |
| Store.ClaimIndex | index.js:91-106 | Nothing is found exactly when no record passes the `get` filter. What is found passes the filter and precedes every record that does under the sort (`expires` ascending, or descending when insistent, then `created`). |
| Store.LeaseIndex | index.js:117-129 | Nothing is found exactly when no record has the token and an unexpired lease. What is found has both, and is the first such record. |
| Store.ExhaustedNeverClaimed | index.js:91-95 | A record whose `tries` reached the limit is never selected, at any instant and in either order. |
| Counters.StatsSumToTotal | index.js:49-82 | The single-pass breakdown adds up to the number of records. |
| Counters.StatsActiveAgrees | index.js:42-56 | The `active` entry of `stats` equals `active()`. |
| Counters.StatsWaitingAgrees | index.js:37-59 | On well-formed records the `waiting` entry of `stats` equals `waiting()`. |
| Counters.StatsFailedAgrees | index.js:44-59 | The `failed` entry of `stats` equals `failed()`, 0 without a limit. |
| Counters.StatsAgreeWithCounters | index.js:35-82 | On well-formed records `stats()` equals the three counters. |
| Counters.CountsPartition | index.js:35-82 | On well-formed records `active + waiting + failed = total`. |
| Counters.UnlimitedNeverFails | index.js:58 | Without a retry limit the aggregation classifies no record as failed. |
| Counters.WaitingCountZero | index.js:37-40 | `waiting()` is 0 exactly when no record passes its filter. |
| Counters.WaitingIffClaimable | index.js:91-95 | `waiting()` is nonzero exactly when `get` at the same instant claims a record. |
| Counters.StatsOfAppend | index.js:84-89 | The breakdown of an appended collection is the sum of the two breakdowns. |
| Counters.StatsOfUpdate | index.js:91-99 | Replacing one record moves one unit from its old class to its new class. |
| Counters.StatsOfRemove | index.js:117-120 | Deleting one record removes one unit from its class. |
| Counters.ClaimMovesWaitingToActive | index.js:91-99 | A claim with a positive lease adds one to `active`, takes one from `waiting` and leaves `failed` as it was. |
| Counters.AckRemovesOneActive | index.js:117-120 | A successful `ack` takes one from `active` and leaves `waiting` and `failed` as they were, for any retry limit. |
| Counters.RenewKeepsStats | index.js:122-129 | A `ping` with a positive lease leaves the breakdown unchanged. |
| Counters.StatsOfUniform | index.js:49-82 | Records that all fall in one class are counted in that class only. |
| Counters.StampedAreWaiting | index.js:14-23 | Fresh records are all waiting at any instant from 0 on, or all failed when the limit is 0 or below. |
| Counters.AddGrowsStats | index.js:84-89 | `add` grows `waiting` by the number of payloads, or `failed` when the limit is 0 or below. |
| Queue.InsertKeepsConsistent | index.js:84-89 | Appending freshly numbered, untagged, well-formed records keeps the collection invariant. |
| Queue.RemoveKeepsConsistent | index.js:117-120 | Deleting one record keeps the invariant. |
| Queue.UpdateKeepsConsistent | index.js:91-129 | Replacing a record with a well-formed one with the same id and a token no other record carries keeps the invariant. |
| Queue.Queue.constructor | index.js:25-33 | The queue opens on the configured options with the seed items inserted, as `add` would insert them. |
| Queue.Queue.Add | index.js:84-89 | The collection becomes the old one followed by the prepared records, in order. One id is returned per payload, naming the inserted record holding that payload. The ids are new and distinct. Absent or empty input inserts nothing and returns no ids. |
| Queue.Queue.Get | index.js:91-115 | On a claim, the record taken is first in claim order among claimable ones. Only that record changes: it gets the new token, `expires = now + t` and one more try (or still none). Its id, data and created are kept, and the post-update record is returned. With nothing claimable, nothing changes and the result is `null`. A strict queue instead fails with `QueueGetError` carrying `stats` at that instant. |
| Queue.Queue.Ack | index.js:117-120 | Deletes exactly the record leased under the token and returns its id. Otherwise returns `null` and changes nothing. Afterwards no record is leased under the token. |
| Queue.Queue.Ping | index.js:122-129 | Sets `expires = now + t` on the record leased under the token and changes nothing else. Returns the updated record, or `null` with nothing changed. |
| Queue.Queue.Total | index.js:35 | At every instant the number of records equals `active + waiting + failed` as the three filters count them. |
| Queue.Queue.Active | index.js:42 | Counts the records with `expires > now`, which is the `active` entry of `stats` at that instant. |
| Queue.Queue.Waiting | index.js:37-40 | Nonzero exactly when `get` at the same instant claims a record. |
| Queue.Queue.Failed | index.js:44-47 | 0 without a retry limit, and always `total - active - waiting`. |
| Queue.Queue.Stats | index.js:49-82 | Equals `{active, waiting, failed}` as the three counters report them, and adds up to `total`. |
| Queue.Queue.Options | index.js:142-144 | Exposes the lease used when a call gives none, the retry limit and the claim order. |
| Scenarios.AddScenario | test.js:20-32 | One payload gives one id and one record holding that payload. Absent input and an empty batch give no ids and no records. |
| Scenarios.FifoScenario | test.js:34-52 | Claims go test1, test2, test3, then test1 again once its one-unit lease lapsed, then nothing. Three records remain. |
| Scenarios.AckScenario | test.js:54-68 | An `ack` after the lease lapsed deletes nothing. After a new claim the `ack` returns an id and deletes the record. |
| Scenarios.PingScenario | test.js:70-79 | A `ping` on a live lease returns the record. Once the renewed lease has lapsed it returns `null`. |
| Scenarios.TriesScenario | test.js:92-101 | With a limit of one try the record is not claimed a second time. It stays in the collection, counted as failed. |
| Scenarios.TtlScenario | test.js:103-113 | With `ttl` 100 the record is claimed again after 200 units, and not a third time. |
| Scenarios.UnlimitedScenario | test.js:115-132 | Without a limit the record is claimed repeatedly and never has a `tries` field. |
| Scenarios.InsistentScenario | test.js:143-152 | An insistent queue claims the most recently lapsed record (`test1`, lease ended at 11) again before `test2`, which was added later and never claimed. The order is decided by `expires` (11 against 0). |
| Scenarios.DefaultOrderScenario | index.js:102-105 | On a default queue the same steps claim the never-claimed record second. |
| Scenarios.SizeScenario | test.js:154-169 | Nine records with a limit of one try: after three short claims and two default ones, `stats` is `{active: 2, waiting: 4, failed: 3}`. The counters agree and `total` is 9, whichever records the ties selected. |
| Scenarios.InitItemsScenario | test.js:171-177 | Seed items are stored and waiting. |
| Scenarios.StrictScenario | index.js:107-114 | A strict queue with its only record leased fails with the breakdown `{active: 1, waiting: 0, failed: 0}`. |

## Left out

- MongoDB plumbing is not modelled: the connection, `collection(name)`, index creation, `insertMany`, `countDocuments`, and the aggregation pipeline's syntax. The aggregation is given its meaning (`StatsOf`), not its form.
- Ids are a counter in the queue, not ObjectIds rendered as strings. The model keeps only the property callers use: the ids are distinct.
- `Date.now()` is not modelled. Each operation takes one instant `now`. The source reads the clock separately for the filter, for the update, for each added record's `created` and for the strict error's `stats`. The model takes those readings to be equal.
- `crypto.randomBytes` is not modelled. `get` receives the token as a parameter and requires that no record carries it. This is what the unique sparse index on `tag` makes a collision-free token amount to.
- Concurrent callers are not modelled. Each operation is one atomic step, as the store's find-and-modify makes it.
- The constructor opens on an empty collection. `clean` removes nothing there, so records left from an earlier run are not modelled.
- Queue.Queue.Get, Queue.Queue.Ping: `get(null)` and `ping(tag, null)` add `null` (that is, 0) to the clock, because the default lease applies only to an omitted argument (index.js:91, 122, 127). The model writes this as an explicit lease of 0 and does not tell `null` apart from that value.
- A fractional or non-numeric retry limit is not modelled. The limit is an integer.
- Instants, `created`, `expires`, `ttl` and lease durations are integers (milliseconds). A fractional `t` or `ttl` is not modelled. In the source `get(0.5)` writes `expires = now + 0.5`, which sorts strictly before a lease of 1 taken at the same instant.
- Counters.StatsAgreeWithCounters and Counters.CountsPartition hold only for well-formed records, and `Valid()` admits no others. With a retry limit set, the source can hold a record with no `tries` field, written by a `tries: null` queue sharing the collection or left from an earlier run. `waiting()` skips such a record, because `$lt` does not match a missing field (index.js:39). `failed()` and `get` skip it too (index.js:45, 94). Yet `stats` puts it in `waiting`, because `$gte` on a missing field is false (index.js:59). So in the source `stats` and the counters disagree on such a record, and the three counters fall short of `total`. The model does not represent such records.
- Queue.Queue.Get: among records with equal `(expires, created)` the store's choice is unspecified. The contract states only that the claimed record is minimal in claim order.
- `after` is folded into the updates as `now + lease`.
- The `name` test (test.js:81-90) is not replayed. The collection name is carried in the configuration but has no other effect in the model.
- The `clean` test (test.js:134-141) is not replayed. Pre-existing records are not modelled.
- Payloads are a type parameter. Their JSON representation is not modelled.
