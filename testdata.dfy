/**
 * The fixtures and expectations of ds_test.go, stated over the model: the
 * nine test cases as the engine holds them, the two prefix queries of the
 * query test, the point-operation scenarios, and the query that shows the
 * general path walking past the prefix.
 */
module DatastoreTestData {
  import opened ByteKeys
  import opened OrderedKV
  import opened Optional
  import opened Queries
  import opened Datastore

  // Keys and values in ASCII: '/' = 47, 'a' = 97, 'b' = 98, 'c' = 99,
  // 'd' = 100, 'e' = 101, 'f' = 102, 'g' = 103.

  const KeyA: Bytes := [47, 97]                  // "/a"
  const KeyAB: Bytes := [47, 97, 47, 98]         // "/a/b"
  const KeyABC: Bytes := [47, 97, 47, 98, 47, 99]  // "/a/b/c"
  const KeyABD: Bytes := [47, 97, 47, 98, 47, 100] // "/a/b/d"
  const KeyAC: Bytes := [47, 97, 47, 99]         // "/a/c"
  const KeyAD: Bytes := [47, 97, 47, 100]        // "/a/d"
  const KeyE: Bytes := [47, 101]                 // "/e"
  const KeyF: Bytes := [47, 102]                 // "/f"
  const KeyG: Bytes := [47, 103]                 // "/g"

  /** The query prefix "/a/". */
  const PrefixA: Bytes := [47, 97, 47]

  /** The nine test cases in the engine's key order. */
  function TestStore(): seq<Entry>
  {
    [ Entry(KeyA, [97]),
      Entry(KeyAB, [97, 98]),
      Entry(KeyABC, [97, 98, 99]),
      Entry(KeyABD, [97, 47, 98, 47, 100]),
      Entry(KeyAC, [97, 99]),
      Entry(KeyAD, [97, 100]),
      Entry(KeyE, [101]),
      Entry(KeyF, [102]),
      Entry(KeyG, []) ]
  }

  /** The test cases are listed in strictly ascending key order. */
  lemma TestStoreSorted()
    ensures Sorted(TestStore())
  {
    var es := TestStore();
    ProperPrefixLess(KeyA, KeyAB);
    ProperPrefixLess(KeyAB, KeyABC);
    FirstDifferenceLess(KeyABC, KeyABD, 5);
    FirstDifferenceLess(KeyABD, KeyAC, 3);
    FirstDifferenceLess(KeyAC, KeyAD, 3);
    FirstDifferenceLess(KeyAD, KeyE, 1);
    FirstDifferenceLess(KeyE, KeyF, 1);
    FirstDifferenceLess(KeyF, KeyG, 1);
    SortedFromAdjacent(es);
  }

  /** Seeking "/a/" passes "/a" and lands on "/a/b"; the prefix block ends at "/e". */
  lemma TestStorePrefixBlock()
    ensures Seek(TestStore(), PrefixA) == 1
    ensures PrefixEnd(TestStore(), PrefixA, 1) == 6
  {
    var es := TestStore();
    ProperPrefixLess(KeyA, PrefixA);
    assert HasPrefix(KeyAB, PrefixA);
    PrefixedNotBefore(KeyAB, PrefixA);
    assert Seek(es, PrefixA) == 1;
    assert HasPrefix(KeyABC, PrefixA) && HasPrefix(KeyABD, PrefixA);
    assert HasPrefix(KeyAC, PrefixA) && HasPrefix(KeyAD, PrefixA);
    assert !HasPrefix(KeyE, PrefixA) by {
      assert KeyE[1] != PrefixA[1];
    }
    PrefixScanEndsAt(es, PrefixA, 6);
  }

  /** The query for prefix "/a/" yields "/a/b", "/a/b/c", "/a/b/d", "/a/c", "/a/d". */
  lemma PrefixQueryMatches()
    ensures KeysOfResults(ToResults(PrefixScan(TestStore(), PrefixA), false))
      == [KeyAB, KeyABC, KeyABD, KeyAC, KeyAD]
  {
    TestStorePrefixBlock();
    var r := ToResults(PrefixScan(TestStore(), PrefixA), false);
    assert PrefixScan(TestStore(), PrefixA) == TestStore()[1..6];
    assert |r| == 5;
  }

  /**
   * With offset 2 and limit 2 the query for "/a/" takes the general path and
   * yields "/a/b/d" and "/a/c", both as written and as intended.
   */
  lemma OffsetLimitQueryMatches()
    ensures var q := Query(PrefixA, [], [], 2, 2, false);
      && UsesGeneralPath(q)
      && KeysOfResults(ToResults(IntendedGeneralScan(TestStore(), q), false)) == [KeyABD, KeyAC]
      && KeysOfResults(ToResults(GeneralScan(TestStore(), q), false)) == [KeyABD, KeyAC]
  {
    var q := Query(PrefixA, [], [], 2, 2, false);
    TestStorePrefixBlock();
    assert PrefixScan(TestStore(), PrefixA) == TestStore()[1..6];
    assert IntendedGeneralScan(TestStore(), q) == TestStore()[3..5];
    assert GeneralScan(TestStore(), q) == TestStore()[3..5];
  }

  /**
   * The query for "/a/" with limit 10 goes down the general path, which as
   * written emits "/e" after the five keys with the prefix; the intended
   * scan stops after those five.
   */
  lemma GeneralPathLeavesPrefix()
    ensures var q := Query(PrefixA, [], [], 10, 0, false);
      && UsesGeneralPath(q)
      && |GeneralScan(TestStore(), q)| == 8
      && GeneralScan(TestStore(), q)[5].key == KeyE
      && !HasPrefix(KeyE, PrefixA)
      && IntendedGeneralScan(TestStore(), q) == PrefixScan(TestStore(), PrefixA)
      && |IntendedGeneralScan(TestStore(), q)| == 5
  {
    var q := Query(PrefixA, [], [], 10, 0, false);
    TestStorePrefixBlock();
    assert PrefixScan(TestStore(), PrefixA) == TestStore()[1..6];
    assert GeneralScan(TestStore(), q) == TestStore()[1..];
    assert KeyE[1] != PrefixA[1];
  }

  // ---------------------------------------------------------------------------
  // Scenarios

  const KeyABCD: Bytes := [47, 97, 47, 98, 47, 99, 47, 100] // "/a/b/c/d"
  const KeyFoo: Bytes := [47, 102, 111, 111]                // "/foo"
  const KeyNotReal: Bytes := [47, 110, 111, 116, 114, 101, 97, 108] // "/notreal"

  /** "Hello Datastore!" */
  const Hello: Bytes := [72, 101, 108, 108, 111, 32, 68, 97, 116, 97, 115, 116, 111, 114, 101, 33]

  /** The test cases as a map from key to value. */
  function TestCases(): map<Bytes, Bytes>
  {
    map[KeyG := [], KeyF := [102], KeyE := [101], KeyAD := [97, 100], KeyAC := [97, 99],
        KeyABD := [97, 47, 98, 47, 100], KeyABC := [97, 98, 99], KeyAB := [97, 98], KeyA := [97]]
  }

  /** The sorted list stands for the test cases. */
  lemma TestStoreHoldsTestCases()
    ensures AsMap(TestStore()) == TestCases()
  {
  }

  /**
   * addTestCases: a fresh store with every test case put into it. The Go map
   * is walked in no fixed order; any order leads to the same sorted list.
   */
  method NewTestStore() returns (d: Datastore)
    ensures fresh(d) && d.Valid()
    ensures d.Contents() == TestCases() && d.db == TestStore()
  {
    d := new Datastore();
    var err := d.Put(KeyG, ByteSlice([]));
    err := d.Put(KeyF, ByteSlice([102]));
    err := d.Put(KeyE, ByteSlice([101]));
    err := d.Put(KeyAD, ByteSlice([97, 100]));
    err := d.Put(KeyAC, ByteSlice([97, 99]));
    err := d.Put(KeyABD, ByteSlice([97, 47, 98, 47, 100]));
    err := d.Put(KeyABC, ByteSlice([97, 98, 99]));
    err := d.Put(KeyAB, ByteSlice([97, 98]));
    err := d.Put(KeyA, ByteSlice([97]));
    TestStoreSorted();
    TestStoreHoldsTestCases();
    SortedCanonical(d.db, TestStore());
  }

  /**
   * TestQuery: the plain query for "/a/" drained through the fast path's
   * iterator, then the query with offset 2 and limit 2.
   */
  method QueryScenario() returns (keys: seq<Bytes>, windowKeys: seq<Bytes>)
    ensures keys == [KeyAB, KeyABC, KeyABD, KeyAC, KeyAD]
    ensures windowKeys == [KeyABD, KeyAC]
  {
    var d := NewTestStore();
    var r := d.Query(Query(PrefixA, [], [], 0, 0, false));
    var results := Drain(r.iter);
    PrefixQueryMatches();
    keys := KeysOfResults(results);

    var r2 := d.Query(Query(PrefixA, [], [], 2, 2, false));
    OffsetLimitQueryMatches();
    NoStagesIsBase(r2);
    windowKeys := KeysOfResults(r2.entries);
  }

  /**
   * The query for "/a/" with limit 10, run through `Query`: eight keys come
   * back, the sixth of them "/e", which lacks the prefix.
   */
  method LimitQueryScenario() returns (keys: seq<Bytes>)
    ensures |keys| == 8 && keys[5] == KeyE && !HasPrefix(keys[5], PrefixA)
  {
    var d := NewTestStore();
    var r := d.Query(Query(PrefixA, [], [], 10, 0, false));
    NoStagesIsBase(r);
    GeneralPathLeavesPrefix();
    keys := KeysOfResults(r.entries);
  }

  /** The same query through the corrected general path returns only the five keys with the prefix. */
  method LimitQueryIntendedScenario() returns (keys: seq<Bytes>)
    ensures keys == [KeyAB, KeyABC, KeyABD, KeyAC, KeyAD]
  {
    var d := NewTestStore();
    var r := d.QueryOrigIntended(Query(PrefixA, [], [], 10, 0, false));
    NoStagesIsBase(r);
    GeneralPathLeavesPrefix();
    PrefixQueryMatches();
    keys := KeysOfResults(r.entries);
  }

  /** Reads an iterator's results to the end, as the tests' `Rest` does. */
  method Drain(it: PrefixIterator) returns (results: seq<ResultEntry>)
    requires it.Valid() && it.Emitted() == []
    modifies it
    ensures results == ToResults(PrefixScan(it.entries, it.prefix), it.keysOnly)
  {
    results := [];
    var done := false;
    while !done
      invariant it.Valid() && results == it.Emitted()
      invariant done ==> results == ToResults(PrefixScan(it.entries, it.prefix), it.keysOnly)
      decreases |it.entries| - it.pos, if done then 0 else 1
    {
      var next := it.Next();
      match next
      case Some(e) =>
        results := results + [e];
      case None =>
        done := true;
    }
  }

  /** On any store, a value put under a key is read back, and the key is there. */
  method PutThenGet(d: Datastore, key: Bytes, data: Bytes) returns (got: Result<Bytes, Error>, has: bool)
    requires d.Valid()
    modifies d
    ensures got == Success(data) && has
  {
    var err := d.Put(key, ByteSlice(data));
    got := d.Get(key);
    has := d.Has(key);
  }

  /** On any store, a deleted key is gone: `Has` says no and a read fails with ErrNotFound. */
  method DeleteThenHas(d: Datastore, key: Bytes) returns (has: bool, got: Result<Bytes, Error>)
    requires d.Valid()
    modifies d
    ensures !has && got == Failure(ErrNotFound)
  {
    d.Delete(key);
    has := d.Has(key);
    got := d.Get(key);
  }

  /** TestHas: a stored key is found, a longer key under it is not. */
  method HasScenario() returns (found: bool, missing: bool)
    ensures found && !missing
  {
    var d := NewTestStore();
    found := d.Has(KeyABC);
    missing := d.Has(KeyABCD);
  }

  /** TestNotExistGet: a missing key is not there, and reading it fails with ErrNotFound. */
  method NotExistGetScenario() returns (has: bool, got: Result<Bytes, Error>)
    ensures !has && got == Failure(ErrNotFound)
  {
    var d := NewTestStore();
    has := d.Has(KeyABCD);
    got := d.Get(KeyABCD);
  }

  /** TestDelete: a stored key is there before the delete and gone after it. */
  method DeleteScenario() returns (before: bool, after: bool)
    ensures before && !after
  {
    var d := NewTestStore();
    before := d.Has(KeyABC);
    d.Delete(KeyABC);
    after := d.Has(KeyABC);
  }

  /** TestGetEmpty: an empty value is stored and read back as a present, empty value. */
  method GetEmptyScenario() returns (putErr: Option<Error>, got: Result<Bytes, Error>)
    ensures putErr == None && got == Success([])
  {
    var d := new Datastore();
    putErr := d.Put(KeyA, ByteSlice([]));
    got := d.Get(KeyA);
  }

  /** TestBasicPutGet: put, has, get, has, delete, has. */
  method BasicPutGetScenario()
    returns (putErr: Option<Error>, hadAfterPut: bool, got: Result<Bytes, Error>, hadAfterGet: bool, hadAfterDelete: bool)
    ensures putErr == None && hadAfterPut && got == Success(Hello) && hadAfterGet && !hadAfterDelete
  {
    var d := new Datastore();
    putErr := d.Put(KeyFoo, ByteSlice(Hello));
    hadAfterPut := d.Has(KeyFoo);
    got := d.Get(KeyFoo);
    hadAfterGet := d.Has(KeyFoo);
    d.Delete(KeyFoo);
    hadAfterDelete := d.Has(KeyFoo);
  }

  /** TestNotFounds: on an empty store a read fails with ErrNotFound and `Has` says no. */
  method NotFoundsScenario() returns (got: Result<Bytes, Error>, have: bool)
    ensures got == Failure(ErrNotFound) && !have
  {
    var d := new Datastore();
    got := d.Get(KeyNotReal);
    have := d.Has(KeyNotReal);
  }
}
