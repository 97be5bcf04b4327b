# go-ds-badger `datastore.go`, modelled in Dafny

`datastore.go` is an adapter. It serves the go-datastore interface (`Put`,
`Get`, `Has`, `Delete`, `Query`, `Batch`) from the ordered key-value engine
badger (its early `KV` API). This project models that adapter over an
abstract engine and proves what its operations do.

- **The engine** (`OrderedKV`) is a list of key/value entries in strictly
  ascending key order. Keys and values are byte strings. Keys are ordered the
  way `bytes.Compare` orders them (`ByteKeys`).
  - `AsMap` is the map the engine stands for.
  - A point read yields no value for a missing key, as the engine's nil item
    value does.
  - An iterator is an index into the list. `Seek` puts it on the first key at
    or after a target.
- **The adapter** (`Datastore`) is a class whose one field is the engine's
  list.
  - `Put` and `Delete` change it.
  - `Get` and `Has` read it; `Batch` ignores it.
  - `Query` chooses the fast path or the general path. The choice is the
    predicate `UsesGeneralPath`: any filter, any order, a positive limit or a
    positive offset selects the general path.
    - The fast path is the `PrefixIterator` class, whose `Next` plays the
      iterator closure.
    - The general path is `QueryOrig` over the worker `RunQuery`, as
      written. The worker walks the iterator with the source's two loops: an
      offset loop, then a limit loop.
    - `QueryOrigIntended` is the same pipeline over the corrected worker
      `RunPrefixQuery` (see Findings).
  - Filters and orders belong to the query library and are opaque stages.
    What the model keeps is the order in which `QueryOrig` layers them.
- **What each path emits** (`Queries`) is defined as functions on the sorted
  list:
  - `PrefixScan` for the fast path;
  - `GeneralScan` for the general path as written;
  - `IntendedGeneralScan` for the general path with the prefix respected.
  - Each is related to an independent reference selection: `WithPrefix`,
    `AtOrAfter` or `Window`.
- **The test expectations** of `ds_test.go` that concern this adapter are
  stated over the model (`DatastoreTestData`).

## Model

| member | source | states |
|---|---|---|
| ByteKeys.PrefixedNotBefore | datastore.go:84-97 | a key starting with the prefix never sorts before the prefix, so seeking to the prefix skips none of them |
| ByteKeys.PrefixBlockEndsAt | datastore.go:95-97 | a key at or after the prefix that lacks it sorts after every key that has it: the keys with a prefix form one contiguous block |
| OrderedKV.Lookup | datastore.go:42-43 | the engine's point read yields a value exactly when the key is in the map, and then the stored value |
| OrderedKV.Set | datastore.go:38 | the engine's write leaves the map updated at the key with the new value and otherwise unchanged |
| OrderedKV.SetKeepsSorted | datastore.go:38 | the write keeps keys strictly ascending and adds no entry other than the new one |
| OrderedKV.Remove | datastore.go:64 | the engine's delete leaves the map without the key and otherwise unchanged; a missing key is no error |
| OrderedKV.RemoveKeepsSorted | datastore.go:64 | the delete keeps keys strictly ascending and leaves no entry under the key |
| OrderedKV.SeekSplits | datastore.go:84 | every key before the seek position sorts before the target; the key at it does not |
| OrderedKV.SeekLowerBound | datastore.go:142 | in a sorted list every key from the seek position on is at or after the target |
| OrderedKV.SortedCanonical | ds_test.go:53-59 | two sorted lists standing for the same map are equal, so the order of the writes does not matter |
| Datastore.Datastore.constructor | datastore.go:27-29 | a new store is empty and sorted |
| Datastore.Datastore.Put | datastore.go:32-39 | a value that is not a byte slice gives ErrInvalidType and leaves the store as it was; a byte slice gives no error and the map becomes the old map updated at the key |
| Datastore.Datastore.Get | datastore.go:41-51 | success exactly when the key is stored, with the stored value; otherwise ErrNotFound |
| Datastore.Datastore.Has | datastore.go:53-61 | true exactly when the key is stored; absence is an answer, not an error |
| Datastore.Datastore.Delete | datastore.go:63-65 | the map loses the key and nothing else; the order is kept |
| Datastore.Datastore.Query | datastore.go:67-86 | a query with a filter, an order, a positive limit or a positive offset (`UsesGeneralPath`, datastore.go:72-75) goes down the general path: its base results are the general scan as written, with the filters and then the orders layered on. Any other query gets a fresh iterator over the store, placed at the prefix, with nothing handed out yet |
| Datastore.Datastore.QueryOrig | datastore.go:115-133 | the as-written worker's results (the general scan, no prefix check) form the base; every filter is layered on, in the query's order, and then every order, in the query's order |
| Datastore.Datastore.QueryOrigIntended | datastore.go:115-133 | the same pipeline over the corrected worker: the base is the intended general scan, with filters and then orders layered on |
| Datastore.Datastore.Layer | datastore.go:124-131 | the base stays the worker's entries; the stages are the query's filters, in order, followed by its orders, in order |
| Datastore.Datastore.RunQuery | datastore.go:135-170 | the worker as written emits exactly the general scan: from the seek position, past `offset` entries, up to `limit` entries when `limit` is positive, and no prefix check. Keys-only entries carry no value |
| Datastore.Datastore.RunPrefixQuery | datastore.go:135-170 | the corrected worker emits exactly the intended general scan: the offset skips and the limit counts keys with the prefix, and the walk stops at the first key without it |
| Datastore.Datastore.Batch | datastore.go:178-180 | always fails with a not-implemented error and returns no batch; the store is not touched |
| Datastore.PrefixIterator.constructor | datastore.go:79-84 | the iterator is placed at the seek position for the prefix and has handed out nothing |
| Datastore.PrefixIterator.Next | datastore.go:87-107 | while the key under the cursor has the prefix: hands that entry out (value copied unless keys-only) and advances by one. At the end of the list, or at a key without the prefix: reports the end without advancing, and everything handed out is then exactly the fast path's selection |
| Queries.PrefixEndSplits | datastore.go:88-97 | every key the fast path's walk passes has the prefix, and the key it stops at, if any, lacks it |
| Queries.PrefixScanEndsAt | datastore.go:88-97 | the fast path stops at exactly one place: the first index past the seek position whose key lacks the prefix, or the end of the list |
| Queries.PastPrefixBlock | datastore.go:95-97 | in a sorted list no key after the stopping point has the prefix, so stopping loses nothing |
| Queries.PrefixScanIsWithPrefix | datastore.go:84-107 | on a sorted store the fast path's seek-then-stop walk selects exactly the entries whose keys have the prefix |
| Queries.FastPathSelectsPrefix | datastore.go:84-107 | the fast path yields exactly the stored keys with the prefix, each once and in ascending order. Each carries the stored value, or none in keys-only mode |
| Queries.WithPrefixFromStore | datastore.go:99-103 | each selected entry carries a copy of the value stored for its key, or no value in keys-only mode |
| Queries.EmptyPrefixSelectsAll | ds_test.go:521-554 | with the empty prefix the fast path walks the whole store |
| Queries.GeneralScanIsWindow | datastore.go:141-169 | on a sorted store the general path as written emits the entries at or after the prefix, minus the first `offset`, capped at a positive `limit` |
| Queries.GeneralScanIsRun | datastore.go:141-169 | that output is one contiguous run of the store, starting `offset` entries past the seek position |
| Queries.GeneralScanEntries | datastore.go:141-169 | everything the general path emits is stored, at or after the prefix, in ascending order, with the stored value unless keys-only. Its count is the number of keys at or after the prefix, less the offset, capped at a positive limit |
| Queries.PrefixBlockToEndIff | datastore.go:95-97 | the prefix block runs to the end of a sorted store exactly when no stored key lies at or after the prefix without having it |
| Queries.FastPathIsHeadOfGeneralPath | datastore.go:72-84 | on a query the fast path serves, the general path would emit everything at or after the prefix, and the fast path's output is a leading part of it |
| Queries.FastPathMatchesGeneralPathIff | datastore.go:72-77 | on such a query the two paths agree exactly when no stored key lies past the prefix block |
| Queries.IntendedGeneralScanStaysInPrefix | datastore.go:135-170 | the intended general path is the window (offset, then limit) of the entries with the prefix. Every key it emits has the prefix, and it agrees with the path as written whenever nothing is stored past the prefix block |
| DatastoreTestData.TestStoreSorted | ds_test.go:20-30 | the nine test cases in key order are strictly ascending |
| DatastoreTestData.TestStorePrefixBlock | ds_test.go:78-89 | on the test cases, seeking "/a/" passes "/a" and lands on "/a/b", and the block of keys with "/a/" ends at "/e" |
| DatastoreTestData.PrefixQueryMatches | ds_test.go:78-89 | the query for "/a/" yields "/a/b", "/a/b/c", "/a/b/d", "/a/c", "/a/d" |
| DatastoreTestData.OffsetLimitQueryMatches | ds_test.go:91-101 | the query for "/a/" with offset 2 and limit 2 takes the general path and yields "/a/b/d", "/a/c", both as written and as intended |
| DatastoreTestData.GeneralPathLeavesPrefix | datastore.go:149-169 | the query for "/a/" with limit 10, as written, emits "/e" (which lacks the prefix) after the five keys with it; the intended scan emits only those five |
| DatastoreTestData.NewTestStore | ds_test.go:53-71 | putting the nine test cases into a fresh store leaves exactly the sorted test list |
| DatastoreTestData.QueryScenario | ds_test.go:72-102 | the query test, run through `Query`, the iterator and the general path, yields the two expected key lists |
| DatastoreTestData.LimitQueryScenario | datastore.go:141-169 | through `Query`, the query for "/a/" with limit 10 returns eight keys, the sixth "/e" without the prefix |
| DatastoreTestData.LimitQueryIntendedScenario | datastore.go:141-169 | through the corrected general path, the same query returns only the five keys with the prefix |
| DatastoreTestData.Drain | ds_test.go:221-241 | reading a fresh iterator to the end yields exactly the fast path's selection |
| DatastoreTestData.PutThenGet | datastore.go:32-61 | on any store, a value put under a key is read back and the key is there |
| DatastoreTestData.DeleteThenHas | datastore.go:41-65 | on any store, a deleted key is not there and reading it fails with ErrNotFound |
| DatastoreTestData.HasScenario | ds_test.go:104-126 | "/a/b/c" is found and "/a/b/c/d" is not |
| DatastoreTestData.NotExistGetScenario | ds_test.go:148-173 | "/a/b/c/d" is not there and reading it fails with ErrNotFound |
| DatastoreTestData.DeleteScenario | ds_test.go:175-200 | "/a/b/c" is there before the delete and gone after it |
| DatastoreTestData.GetEmptyScenario | ds_test.go:202-219 | an empty value is stored and read back as present and empty |
| DatastoreTestData.BasicPutGetScenario | ds_test.go:405-457 | put, has, get, has, delete, has on "/foo" give no error, true, the value, true, and false |
| DatastoreTestData.NotFoundsScenario | ds_test.go:459-481 | on an empty store a read fails with ErrNotFound and `Has` says no |

## Left out

- Opening the engine (`NewDatastore`, its options and directories) and
  `Close`. These are file-system I/O; the constructor yields an empty store.
- Errors the engine itself returns from `Get`, `Set`, `Delete` or its
  iterator. These are disk and I/O failures, and the engine is modelled as
  never failing.
- `IsThreadSafe`, an empty marker method.
- The goprocess worker, the result channel, the `select` on the worker's
  closing signal, and `CloseAfterChildren`. This is concurrency: the model
  emits the worker's results as one sequence. In the source, the `break` at
  datastore.go:166 leaves only the `select`, so a closing client does not
  stop the walk. That has no counterpart here.
- The query library's `ResultsFromIterator`, `NewResultBuilder`,
  `NaiveFilter` and `NaiveOrder`. Their code is not part of this model.
  Filters and orders are opaque stages, and only the order of their
  layering is modelled.
- Concurrent use of the store, engine snapshots, and an iterator that sees
  writes made after it was opened. The iterator's entries are fixed when
  `Query` opens it.
- `ds.Key` cleaning. Keys are taken as the byte strings the engine
  receives, so the tests' keys appear already cleaned ("/foo", "/notreal").
- Datastore.Datastore.Get: the source reports ErrNotFound whenever the
  engine hands back a nil value. The model treats every stored value as
  present, including an empty one. This is what `TestGetEmpty` expects;
  whether this early engine returns nil for an empty value is engine
  behaviour outside the model.
- Stepping the iterator past the end: `runQuery` calls the engine's `Next`
  `offset` times without checking validity (datastore.go:144-146). In the
  model a step at the end leaves the cursor at the end. What the engine
  itself does on `Next` past the end is not modelled.
- The tests about transactions, TTL, garbage collection, disk usage, sizes
  and successful batching. They target a later version of the adapter.

## Findings

| source | as written | input that shows it | evidently intended | confidence | as-written member | corrected member |
|---|---|---|---|---|---|---|
| datastore.go:141-169 | `runQuery` seeks to the prefix and then emits every following key until `limit` is reached or the keys run out; it never checks the prefix, and `offset` counts keys without it too | the nine test cases and the query for "/a/" with limit 10: "/e", "/f" and "/g" are emitted after the five keys with "/a/" | only keys with the prefix are emitted, with offset and limit counted among them, as the fast path's prefix check does | not executed | Datastore.Datastore.RunQuery, DatastoreTestData.GeneralPathLeavesPrefix | Datastore.Datastore.RunPrefixQuery, Datastore.Datastore.QueryOrigIntended, Queries.IntendedGeneralScanStaysInPrefix |
