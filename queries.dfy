/**
 * The pure side of the adapter's query handling (datastore.go): the query
 * record, which execution path a query takes, and what each path emits over
 * the engine's sorted entries. The methods that walk the iterator live in
 * module Datastore and are proved equal to the scans defined here.
 */
module Queries {
  import opened ByteKeys
  import opened OrderedKV
  import opened Optional

  /** A filter or order of the query library; the adapter only passes them on. */
  datatype Filter = Filter(name: string)
  datatype Order = Order(name: string)

  /** `dsq.Query`, reduced to the fields the adapter reads. `limit` and `offset` are Go `int`s. */
  datatype Query = Query(
    prefix: Bytes,
    filters: seq<Filter>,
    orders: seq<Order>,
    limit: int,
    offset: int,
    keysOnly: bool)

  /** `dsq.Entry`: the value is absent (nil) in keys-only mode, otherwise a copy of the stored bytes. */
  datatype ResultEntry = ResultEntry(key: Bytes, value: Option<Bytes>)

  /** A post-processing stage layered on the raw results. */
  datatype Stage = FilterStage(filter: Filter) | OrderStage(order: Order)

  /** Any filter, any order, a positive limit or a positive offset sends a query down the general path. */
  predicate UsesGeneralPath(q: Query)
  {
    |q.filters| > 0 || |q.orders| > 0 || q.limit > 0 || q.offset > 0
  }

  /** The stage list holds the query's filters, in order, followed by its orders, in order. */
  ghost predicate FiltersThenOrders(q: Query, stages: seq<Stage>)
  {
    && |stages| == |q.filters| + |q.orders|
    && (forall i :: 0 <= i < |q.filters| ==> stages[i] == FilterStage(q.filters[i]))
    && (forall j :: 0 <= j < |q.orders| ==> stages[|q.filters| + j] == OrderStage(q.orders[j]))
  }

  function ToResult(e: Entry, keysOnly: bool): ResultEntry
  {
    ResultEntry(e.key, if keysOnly then None else Some(e.value))
  }

  function ToResults(es: seq<Entry>, keysOnly: bool): seq<ResultEntry>
  {
    seq(|es|, i requires 0 <= i < |es| => ToResult(es[i], keysOnly))
  }

  function KeysOfResults(rs: seq<ResultEntry>): seq<Bytes>
  {
    seq(|rs|, i requires 0 <= i < |rs| => rs[i].key)
  }

  /** Keys strictly ascend: key order, and no key twice. */
  ghost predicate Ascending(ks: seq<Bytes>)
  {
    forall i, j :: 0 <= i < j < |ks| ==> Less(ks[i], ks[j])
  }

  /**
   * Every result names a stored key and carries a copy of its stored value,
   * or no value in keys-only mode.
   */
  ghost predicate FromStore(es: seq<Entry>, rs: seq<ResultEntry>, keysOnly: bool)
  {
    forall i :: 0 <= i < |rs| ==>
      && rs[i].key in AsMap(es)
      && rs[i].value == (if keysOnly then None else Some(AsMap(es)[rs[i].key]))
  }

  /** No result key sorts before `target`. */
  ghost predicate AllAtOrAfter(rs: seq<ResultEntry>, target: Bytes)
  {
    forall i :: 0 <= i < |rs| ==> !Less(rs[i].key, target)
  }

  // ---------------------------------------------------------------------------
  // Fast path

  /**
   * Where a walk from index `i` leaves the keys with the prefix: the first
   * index from `i` on whose key lacks it, or the length when there is none.
   */
  function PrefixEnd(es: seq<Entry>, prefix: Bytes, i: nat): (r: nat)
    requires i <= |es|
    ensures i <= r <= |es|
    decreases |es| - i
  {
    if i == |es| || !HasPrefix(es[i].key, prefix) then i
    else PrefixEnd(es, prefix, i + 1)
  }

  /** What the fast path walks: from the seek position, while keys start with the prefix. */
  function PrefixScan(es: seq<Entry>, prefix: Bytes): seq<Entry>
  {
    var s := Seek(es, prefix);
    es[s..PrefixEnd(es, prefix, s)]
  }

  /** Every key the walk passes has the prefix, and the key it stops at does not. */
  lemma {:induction false} PrefixEndSplits(es: seq<Entry>, prefix: Bytes, i: nat)
    requires i <= |es|
    ensures forall j :: i <= j < PrefixEnd(es, prefix, i) ==> HasPrefix(es[j].key, prefix)
    ensures PrefixEnd(es, prefix, i) < |es| ==> !HasPrefix(es[PrefixEnd(es, prefix, i)].key, prefix)
    decreases |es| - i
  {
    if i < |es| && HasPrefix(es[i].key, prefix) {
      PrefixEndSplits(es, prefix, i + 1);
    }
  }

  /** `end` is where a walk from the seek position leaves the keys with the prefix. */
  ghost predicate PrefixRunEndsAt(es: seq<Entry>, prefix: Bytes, end: nat)
  {
    && Seek(es, prefix) <= end <= |es|
    && (forall i :: Seek(es, prefix) <= i < end ==> HasPrefix(es[i].key, prefix))
    && (end < |es| ==> !HasPrefix(es[end].key, prefix))
  }

  /** The fast path's run ends where the walk leaves the prefix, and nowhere else. */
  lemma PrefixScanEndsAt(es: seq<Entry>, prefix: Bytes, end: nat)
    ensures PrefixRunEndsAt(es, prefix, end) <==> end == PrefixEnd(es, prefix, Seek(es, prefix))
  {
    var s := Seek(es, prefix);
    PrefixEndSplits(es, prefix, s);
  }

  /** With the empty prefix the fast path walks the whole store. */
  lemma EmptyPrefixSelectsAll(es: seq<Entry>)
    ensures PrefixScan(es, []) == es
  {
    SeekSplits(es, []);
    assert Seek(es, []) == 0;
    forall i | 0 <= i < |es| ensures HasPrefix(es[i].key, []) {
      assert es[i].key[..0] == [];
    }
    PrefixScanEndsAt(es, [], |es|);
  }

  /** In a sorted list no key past the end of the prefix block starts with the prefix. */
  lemma PastPrefixBlock(es: seq<Entry>, prefix: Bytes, j: nat)
    requires Sorted(es)
    requires PrefixEnd(es, prefix, Seek(es, prefix)) <= j < |es|
    ensures !HasPrefix(es[j].key, prefix)
  {
    var s := Seek(es, prefix);
    var e := PrefixEnd(es, prefix, s);
    PrefixEndSplits(es, prefix, s);
    if e < j && HasPrefix(es[j].key, prefix) {
      SeekLowerBound(es, prefix, e);
      PrefixBlockEndsAt(es[j].key, es[e].key, prefix);
      LessAsymmetric(es[e].key, es[j].key);
    }
  }

  /** Reference selection: every entry whose key starts with `prefix`, in list order. */
  function WithPrefix(es: seq<Entry>, prefix: Bytes): seq<Entry>
  {
    if es == [] then []
    else if HasPrefix(es[0].key, prefix) then [es[0]] + WithPrefix(es[1..], prefix)
    else WithPrefix(es[1..], prefix)
  }

  /** An entry is selected exactly when it is in the list and its key starts with the prefix. */
  lemma {:induction false} WithPrefixMembers(es: seq<Entry>, prefix: Bytes)
    ensures forall e :: e in WithPrefix(es, prefix) <==> e in es && HasPrefix(e.key, prefix)
  {
    if es != [] {
      WithPrefixMembers(es[1..], prefix);
      assert forall e :: e in es <==> e == es[0] || e in es[1..];
    }
  }

  /** Nothing is selected from a list where no key starts with the prefix. */
  lemma {:induction false} WithPrefixNone(es: seq<Entry>, prefix: Bytes)
    requires forall i :: 0 <= i < |es| ==> !HasPrefix(es[i].key, prefix)
    ensures WithPrefix(es, prefix) == []
  {
    if es != [] {
      WithPrefixNone(es[1..], prefix);
    }
  }

  lemma {:induction false} WithPrefixAppend(a: seq<Entry>, b: seq<Entry>, prefix: Bytes)
    ensures WithPrefix(a + b, prefix) == WithPrefix(a, prefix) + WithPrefix(b, prefix)
  {
    if a == [] {
      assert a + b == b;
    } else {
      var ab := a + b;
      assert ab[0] == a[0] && ab[1..] == a[1..] + b;
      WithPrefixAppend(a[1..], b, prefix);
      if HasPrefix(a[0].key, prefix) {
        assert WithPrefix(ab, prefix) == [a[0]] + WithPrefix(ab[1..], prefix);
        assert [a[0]] + (WithPrefix(a[1..], prefix) + WithPrefix(b, prefix))
          == ([a[0]] + WithPrefix(a[1..], prefix)) + WithPrefix(b, prefix);
      }
    }
  }

  lemma {:induction false} WithPrefixSorted(es: seq<Entry>, prefix: Bytes)
    requires Sorted(es)
    ensures Sorted(WithPrefix(es, prefix))
  {
    if es != [] {
      SortedTail(es);
      WithPrefixSorted(es[1..], prefix);
      var tail := WithPrefix(es[1..], prefix);
      if HasPrefix(es[0].key, prefix) {
        WithPrefixMembers(es[1..], prefix);
        forall i | 0 <= i < |tail| ensures Less(es[0].key, tail[i].key) {
          assert tail[i] in tail;
          var m :| 0 <= m < |es[1..]| && es[1..][m] == tail[i];
          assert es[m + 1] == tail[i];
        }
        SortedCons(es[0], tail);
      }
    }
  }

  /** Everything is selected from a list where every key starts with the prefix. */
  lemma {:induction false} WithPrefixAll(es: seq<Entry>, prefix: Bytes)
    requires forall i :: 0 <= i < |es| ==> HasPrefix(es[i].key, prefix)
    ensures WithPrefix(es, prefix) == es
  {
    if es != [] {
      WithPrefixAll(es[1..], prefix);
      assert es == [es[0]] + es[1..];
    }
  }

  /**
   * Fast path, seek then stop at the first key without the prefix: this selects
   * exactly the stored entries whose keys start with the prefix.
   */
  lemma PrefixScanIsWithPrefix(es: seq<Entry>, prefix: Bytes)
    requires Sorted(es)
    ensures PrefixScan(es, prefix) == WithPrefix(es, prefix)
  {
    var s := Seek(es, prefix);
    var e := PrefixEnd(es, prefix, s);
    BeforeSeekUnselected(es, prefix);
    PrefixBlockSelected(es, prefix);
    PastBlockUnselected(es, prefix);
    WithPrefixOfThree(es, s, e, prefix);
  }

  /** No entry before the seek position is selected. */
  lemma BeforeSeekUnselected(es: seq<Entry>, prefix: Bytes)
    ensures WithPrefix(es[..Seek(es, prefix)], prefix) == []
  {
    var s := Seek(es, prefix);
    SeekSplits(es, prefix);
    forall i | 0 <= i < s ensures !HasPrefix(es[..s][i].key, prefix) {
      assert es[..s][i] == es[i];
      if HasPrefix(es[i].key, prefix) {
        PrefixedNotBefore(es[i].key, prefix);
      }
    }
    WithPrefixNone(es[..s], prefix);
  }

  /** Every entry of the fast path's run is selected. */
  lemma PrefixBlockSelected(es: seq<Entry>, prefix: Bytes)
    ensures var s := Seek(es, prefix);
      WithPrefix(es[s..PrefixEnd(es, prefix, s)], prefix) == es[s..PrefixEnd(es, prefix, s)]
  {
    var s := Seek(es, prefix);
    var e := PrefixEnd(es, prefix, s);
    PrefixEndSplits(es, prefix, s);
    forall i | 0 <= i < e - s ensures HasPrefix(es[s..e][i].key, prefix) {
      assert es[s..e][i] == es[s + i];
    }
    WithPrefixAll(es[s..e], prefix);
  }

  /** In a sorted list no entry past the fast path's run is selected. */
  lemma PastBlockUnselected(es: seq<Entry>, prefix: Bytes)
    requires Sorted(es)
    ensures WithPrefix(es[PrefixEnd(es, prefix, Seek(es, prefix))..], prefix) == []
  {
    var e := PrefixEnd(es, prefix, Seek(es, prefix));
    forall i | 0 <= i < |es| - e ensures !HasPrefix(es[e..][i].key, prefix) {
      assert es[e..][i] == es[e + i];
      PastPrefixBlock(es, prefix, e + i);
    }
    WithPrefixNone(es[e..], prefix);
  }

  /** A list cut in three whose outer parts select nothing selects exactly its selected middle. */
  lemma WithPrefixOfThree(es: seq<Entry>, s: nat, e: nat, prefix: Bytes)
    requires s <= e <= |es|
    requires WithPrefix(es[..s], prefix) == [] && WithPrefix(es[e..], prefix) == []
    requires WithPrefix(es[s..e], prefix) == es[s..e]
    ensures WithPrefix(es, prefix) == es[s..e]
  {
    assert es == (es[..s] + es[s..e]) + es[e..];
    WithPrefixAppend(es[..s] + es[s..e], es[e..], prefix);
    WithPrefixAppend(es[..s], es[s..e], prefix);
  }

  /**
   * The fast path yields exactly the stored keys that start with the prefix,
   * each once, in ascending order; each carries the stored value, or no value
   * in keys-only mode.
   */
  lemma FastPathSelectsPrefix(es: seq<Entry>, prefix: Bytes, keysOnly: bool)
    requires Sorted(es)
    ensures var ks := KeysOfResults(ToResults(PrefixScan(es, prefix), keysOnly));
      forall k :: k in ks <==> k in AsMap(es) && HasPrefix(k, prefix)
    ensures Ascending(KeysOfResults(ToResults(PrefixScan(es, prefix), keysOnly)))
    ensures FromStore(es, ToResults(PrefixScan(es, prefix), keysOnly), keysOnly)
  {
    PrefixScanIsWithPrefix(es, prefix);
    WithPrefixKeys(es, prefix, keysOnly);
    WithPrefixFromStore(es, prefix, keysOnly);
    var w := WithPrefix(es, prefix);
    WithPrefixSorted(es, prefix);
    var ks := KeysOfResults(ToResults(w, keysOnly));
    forall i, j | 0 <= i < j < |ks| ensures Less(ks[i], ks[j]) {
      assert ks[i] == w[i].key && ks[j] == w[j].key;
    }
  }

  /** The selected keys are the stored keys with the prefix. */
  lemma WithPrefixKeys(es: seq<Entry>, prefix: Bytes, keysOnly: bool)
    ensures var ks := KeysOfResults(ToResults(WithPrefix(es, prefix), keysOnly));
      forall k :: k in ks <==> k in AsMap(es) && HasPrefix(k, prefix)
  {
    var w := WithPrefix(es, prefix);
    var ks := KeysOfResults(ToResults(w, keysOnly));
    WithPrefixMembers(es, prefix);
    AsMapKeys(es);
    forall k | k in ks ensures k in AsMap(es) && HasPrefix(k, prefix) {
      var i :| 0 <= i < |ks| && ks[i] == k;
      assert w[i] in w;
      var m :| 0 <= m < |es| && es[m] == w[i];
    }
    forall k | k in AsMap(es) && HasPrefix(k, prefix) ensures k in ks {
      var m :| 0 <= m < |es| && es[m].key == k;
      assert es[m] in w;
      var i :| 0 <= i < |w| && w[i] == es[m];
      assert ks[i] == k;
    }
  }

  /** In a sorted list every selected entry carries the stored value, or none in keys-only mode. */
  lemma WithPrefixFromStore(es: seq<Entry>, prefix: Bytes, keysOnly: bool)
    requires Sorted(es)
    ensures FromStore(es, ToResults(WithPrefix(es, prefix), keysOnly), keysOnly)
  {
    var w := WithPrefix(es, prefix);
    var rs := ToResults(w, keysOnly);
    WithPrefixMembers(es, prefix);
    forall i | 0 <= i < |rs| ensures rs[i].key in AsMap(es) && rs[i].value == (if keysOnly then None else Some(AsMap(es)[rs[i].key])) {
      assert w[i] in w;
      var m :| 0 <= m < |es| && es[m] == w[i];
      AsMapAt(es, m);
    }
  }

  // ---------------------------------------------------------------------------
  // General path

  /** How many entries an offset skips among `n`: none for a non-positive offset, at most all. */
  function Skipped(offset: int, n: nat): (k: nat)
    ensures k <= n
    ensures offset <= 0 ==> k == 0
    ensures 0 < offset <= n ==> k == offset
    ensures offset >= n ==> k == n
  {
    if offset <= 0 then 0 else if offset < n then offset else n
  }

  /** Skip `offset` elements, then keep at most `limit` when `limit` is positive. */
  function Window<T>(s: seq<T>, offset: int, limit: int): seq<T>
  {
    var rest := s[Skipped(offset, |s|)..];
    if limit > 0 && limit < |rest| then rest[..limit] else rest
  }

  /** What the general path walks: from the seek position, skip `offset`, keep up to `limit`. */
  function GeneralScan(es: seq<Entry>, q: Query): seq<Entry>
  {
    Window(es[Seek(es, q.prefix)..], q.offset, q.limit)
  }

  /** Reference selection: every entry whose key is not before `target`, in list order. */
  function AtOrAfter(es: seq<Entry>, target: Bytes): seq<Entry>
  {
    if es == [] then []
    else if Less(es[0].key, target) then AtOrAfter(es[1..], target)
    else [es[0]] + AtOrAfter(es[1..], target)
  }

  /** `AtOrAfter` keeps exactly the entries whose keys are not before the target. */
  lemma {:induction false} AtOrAfterMembers(es: seq<Entry>, target: Bytes)
    ensures forall e :: e in AtOrAfter(es, target) <==> e in es && !Less(e.key, target)
  {
    if es != [] {
      AtOrAfterMembers(es[1..], target);
      assert forall e :: e in es <==> e == es[0] || e in es[1..];
    }
  }

  /** On a sorted list, the entries at or after the target are the suffix from the seek position. */
  lemma AtOrAfterOfSorted(es: seq<Entry>, target: Bytes)
    requires Sorted(es)
    ensures AtOrAfter(es, target) == es[Seek(es, target)..]
  {
    AtOrAfterFrom(es, target, 0);
  }

  lemma {:induction false} AtOrAfterFrom(es: seq<Entry>, target: Bytes, i: nat)
    requires Sorted(es) && i <= |es|
    ensures AtOrAfter(es[i..], target) == es[SeekFrom(es, target, i)..]
    decreases |es| - i
  {
    if i < |es| {
      if Less(es[i].key, target) {
        AtOrAfterFrom(es, target, i + 1);
        assert es[i..][1..] == es[i + 1..];
      } else {
        forall j | 0 <= j < |es[i..]| ensures !Less(es[i..][j].key, target) {
          if j > 0 && Less(es[i + j].key, target) {
            LessTransitive(es[i].key, es[i + j].key, target);
          }
        }
        AtOrAfterAll(es[i..], target);
      }
    }
  }

  /** When no key is before the target, `AtOrAfter` keeps everything. */
  lemma {:induction false} AtOrAfterAll(es: seq<Entry>, target: Bytes)
    requires forall j :: 0 <= j < |es| ==> !Less(es[j].key, target)
    ensures AtOrAfter(es, target) == es
  {
    if es != [] {
      AtOrAfterAll(es[1..], target);
      assert es == [es[0]] + es[1..];
    }
  }

  /** The shape of a window: its length, and which element sits at each position. */
  lemma WindowShape<T>(s: seq<T>, offset: int, limit: int)
    ensures var m := |s| - Skipped(offset, |s|);
      |Window(s, offset, limit)| == if 0 < limit < m then limit else m
    ensures forall i :: 0 <= i < |Window(s, offset, limit)| ==>
      Window(s, offset, limit)[i] == s[Skipped(offset, |s|) + i]
  {
  }

  /** A window is a contiguous slice of what it is taken from. */
  lemma WindowIsSlice<T>(s: seq<T>, offset: int, limit: int)
    ensures var k := Skipped(offset, |s|);
      k + |Window(s, offset, limit)| <= |s| &&
      Window(s, offset, limit) == s[k..k + |Window(s, offset, limit)|]
  {
  }

  /**
   * The general path emits the stored entries at or after the prefix, in key
   * order, minus the first `offset`, capped at `limit` when `limit` is
   * positive. It does not stop at the end of the prefix.
   */
  lemma GeneralScanIsWindow(es: seq<Entry>, q: Query)
    requires Sorted(es)
    ensures GeneralScan(es, q) == Window(AtOrAfter(es, q.prefix), q.offset, q.limit)
  {
    AtOrAfterOfSorted(es, q.prefix);
  }

  /**
   * Any run of a sorted list from the seek position on holds stored entries at
   * or after the target, in ascending key order, each with its stored value.
   */
  lemma RunAtOrAfter(es: seq<Entry>, target: Bytes, a: nat, b: nat, run: seq<Entry>, keysOnly: bool)
    requires Sorted(es) && Seek(es, target) <= a <= b <= |es| && run == es[a..b]
    ensures FromStore(es, ToResults(run, keysOnly), keysOnly)
    ensures AllAtOrAfter(ToResults(run, keysOnly), target)
    ensures Ascending(KeysOfResults(ToResults(run, keysOnly)))
  {
    var rs := ToResults(run, keysOnly);
    forall i | 0 <= i < |rs|
      ensures rs[i].key in AsMap(es) && !Less(rs[i].key, target) &&
        rs[i].value == (if keysOnly then None else Some(AsMap(es)[rs[i].key]))
    {
      assert rs[i] == ToResult(es[a + i], keysOnly);
      AsMapAt(es, a + i);
      SeekLowerBound(es, target, a + i);
    }
    var ks := KeysOfResults(rs);
    forall i, j | 0 <= i < j < |ks| ensures Less(ks[i], ks[j]) {
      assert ks[i] == es[a + i].key && ks[j] == es[a + j].key;
    }
  }

  /** The general path's output is one contiguous run of the list, starting `offset` past the seek position. */
  lemma GeneralScanIsRun(es: seq<Entry>, q: Query)
    ensures var a := Seek(es, q.prefix) + Skipped(q.offset, |es| - Seek(es, q.prefix));
      a + |GeneralScan(es, q)| <= |es| && GeneralScan(es, q) == es[a..a + |GeneralScan(es, q)|]
  {
    var s := Seek(es, q.prefix);
    WindowIsSlice(es[s..], q.offset, q.limit);
  }

  /**
   * Every entry the general path emits is stored, at or after the prefix, in
   * ascending key order, and carries the stored value unless the query is
   * keys-only; the count is the number of keys at or after the prefix less the
   * offset, capped at a positive limit.
   */
  lemma GeneralScanEntries(es: seq<Entry>, q: Query)
    requires Sorted(es)
    ensures FromStore(es, ToResults(GeneralScan(es, q), q.keysOnly), q.keysOnly)
    ensures AllAtOrAfter(ToResults(GeneralScan(es, q), q.keysOnly), q.prefix)
    ensures Ascending(KeysOfResults(ToResults(GeneralScan(es, q), q.keysOnly)))
    ensures var n := |AtOrAfter(es, q.prefix)| - Skipped(q.offset, |AtOrAfter(es, q.prefix)|);
      |GeneralScan(es, q)| == if 0 < q.limit < n then q.limit else n
  {
    var s := Seek(es, q.prefix);
    var a := s + Skipped(q.offset, |es| - s);
    var g := GeneralScan(es, q);
    GeneralScanIsRun(es, q);
    assert g == es[a..a + |g|];
    RunAtOrAfter(es, q.prefix, a, a + |g|, g, q.keysOnly);
    AtOrAfterOfSorted(es, q.prefix);
    WindowShape(es[s..], q.offset, q.limit);
  }

  /** No stored key lies at or after the prefix without starting with it. */
  ghost predicate NothingPastPrefix(es: seq<Entry>, prefix: Bytes)
  {
    forall k :: k in AsMap(es) && !Less(k, prefix) ==> HasPrefix(k, prefix)
  }

  /** In a sorted list, that is: every entry from the seek position on starts with the prefix. */
  lemma NothingPastPrefixFromSeek(es: seq<Entry>, prefix: Bytes)
    requires Sorted(es)
    ensures NothingPastPrefix(es, prefix) <==>
      forall i :: Seek(es, prefix) <= i < |es| ==> HasPrefix(es[i].key, prefix)
  {
    var s := Seek(es, prefix);
    if NothingPastPrefix(es, prefix) {
      forall i | s <= i < |es| ensures HasPrefix(es[i].key, prefix) {
        SeekLowerBound(es, prefix, i);
        AsMapAt(es, i);
      }
    }
    if forall i :: s <= i < |es| ==> HasPrefix(es[i].key, prefix) {
      AsMapKeys(es);
      SeekSplits(es, prefix);
      forall k | k in AsMap(es) && !Less(k, prefix) ensures HasPrefix(k, prefix) {
        var m :| 0 <= m < |es| && es[m].key == k;
      }
    }
  }

  /** The prefix block runs to the end of a sorted list exactly when no stored key lies past it. */
  lemma PrefixBlockToEndIff(es: seq<Entry>, prefix: Bytes)
    requires Sorted(es)
    ensures PrefixEnd(es, prefix, Seek(es, prefix)) == |es| <==> NothingPastPrefix(es, prefix)
  {
    PrefixEndSplits(es, prefix, Seek(es, prefix));
    NothingPastPrefixFromSeek(es, prefix);
  }

  /**
   * On a query the fast path serves (no filter, order, positive limit or
   * positive offset), the general path would emit everything at or after the
   * prefix, and the fast path's output is a leading part of that.
   */
  lemma FastPathIsHeadOfGeneralPath(es: seq<Entry>, q: Query)
    requires Sorted(es) && !UsesGeneralPath(q)
    ensures GeneralScan(es, q) == AtOrAfter(es, q.prefix)
    ensures |PrefixScan(es, q.prefix)| <= |GeneralScan(es, q)|
    ensures GeneralScan(es, q)[..|PrefixScan(es, q.prefix)|] == PrefixScan(es, q.prefix)
  {
    AtOrAfterOfSorted(es, q.prefix);
    var s := Seek(es, q.prefix);
    var e := PrefixEnd(es, q.prefix, s);
    assert GeneralScan(es, q) == es[s..];
    assert es[s..][..e - s] == es[s..e];
  }

  /**
   * The two paths agree on such a query exactly when no stored key lies past
   * the prefix block; otherwise the general path emits more.
   */
  lemma FastPathMatchesGeneralPathIff(es: seq<Entry>, q: Query)
    requires Sorted(es) && !UsesGeneralPath(q)
    ensures PrefixScan(es, q.prefix) == GeneralScan(es, q) <==> NothingPastPrefix(es, q.prefix)
  {
    var s := Seek(es, q.prefix);
    var e := PrefixEnd(es, q.prefix, s);
    assert GeneralScan(es, q) == es[s..];
    PrefixBlockToEndIff(es, q.prefix);
    if e == |es| {
      assert es[s..e] == es[s..];
    }
  }

  // ---------------------------------------------------------------------------
  // The general path as evidently intended

  /** The general path with the prefix respected: the fast path's entries, then offset and limit. */
  function IntendedGeneralScan(es: seq<Entry>, q: Query): seq<Entry>
  {
    Window(PrefixScan(es, q.prefix), q.offset, q.limit)
  }

  /**
   * The intended general path emits only keys with the prefix: the stored
   * entries with the prefix, in key order, minus `offset`, capped at `limit`.
   * It agrees with the general path as written whenever no stored key at or
   * after the prefix lacks it.
   */
  lemma IntendedGeneralScanStaysInPrefix(es: seq<Entry>, q: Query)
    requires Sorted(es)
    ensures IntendedGeneralScan(es, q) == Window(WithPrefix(es, q.prefix), q.offset, q.limit)
    ensures forall i :: 0 <= i < |IntendedGeneralScan(es, q)| ==> HasPrefix(IntendedGeneralScan(es, q)[i].key, q.prefix)
    ensures NothingPastPrefix(es, q.prefix) ==> IntendedGeneralScan(es, q) == GeneralScan(es, q)
  {
    PrefixScanIsWithPrefix(es, q.prefix);
    WindowOfPrefixScan(es, q);
    var e := PrefixEnd(es, q.prefix, Seek(es, q.prefix));
    PrefixBlockToEndIff(es, q.prefix);
    if e == |es| {
      assert PrefixScan(es, q.prefix) == es[Seek(es, q.prefix)..];
    }
  }

  /** Every entry of a window of the fast path's run has the prefix. */
  lemma WindowOfPrefixScan(es: seq<Entry>, q: Query)
    ensures forall i :: 0 <= i < |IntendedGeneralScan(es, q)| ==> HasPrefix(IntendedGeneralScan(es, q)[i].key, q.prefix)
  {
    var s := Seek(es, q.prefix);
    var w := PrefixScan(es, q.prefix);
    WindowShape(w, q.offset, q.limit);
    PrefixEndSplits(es, q.prefix, s);
    forall i | 0 <= i < |IntendedGeneralScan(es, q)| ensures HasPrefix(IntendedGeneralScan(es, q)[i].key, q.prefix) {
      var k := Skipped(q.offset, |w|) + i;
      assert w[k] == es[s + k];
    }
  }

  /**
   * A walk that starts past `offset` keys of the prefix block and stops at the
   * block's end, or earlier once `limit` entries have gone out, covers exactly
   * the intended general path.
   */
  lemma IntendedGeneralScanFromWalk(es: seq<Entry>, q: Query, end: nat, start: nat, stop: nat)
    requires PrefixRunEndsAt(es, q.prefix, end)
    requires start == Seek(es, q.prefix) + Skipped(q.offset, end - Seek(es, q.prefix))
    requires start <= stop <= end
    requires q.limit > 0 ==> stop - start <= q.limit
    requires stop == end || (q.limit > 0 && stop - start == q.limit)
    ensures es[start..stop] == IntendedGeneralScan(es, q)
  {
    var s := Seek(es, q.prefix);
    PrefixScanEndsAt(es, q.prefix, end);
    WalkIsWindow(es, s, end, q.offset, q.limit, start, stop);
  }

  /**
   * A walk that starts past `offset` entries from the seek position and
   * stops at the end of the list, or earlier once `limit` entries have gone
   * out, covers exactly the general path.
   */
  lemma GeneralScanFromWalk(es: seq<Entry>, q: Query, start: nat, stop: nat)
    requires start == Seek(es, q.prefix) + Skipped(q.offset, |es| - Seek(es, q.prefix))
    requires start <= stop <= |es|
    requires q.limit > 0 ==> stop - start <= q.limit
    requires stop == |es| || (q.limit > 0 && stop - start == q.limit)
    ensures es[start..stop] == GeneralScan(es, q)
  {
    var s := Seek(es, q.prefix);
    WalkIsWindow(es, s, |es|, q.offset, q.limit, start, stop);
    assert es[s..|es|] == es[s..];
  }

  /**
   * Walking `xs` from `lo`, first past `offset` elements (never beyond `hi`),
   * then on to `hi` or until `limit` elements are taken when it is positive,
   * covers the window of `xs[lo..hi]`.
   */
  lemma WalkIsWindow<T>(xs: seq<T>, lo: nat, hi: nat, offset: int, limit: int, start: nat, stop: nat)
    requires lo <= hi <= |xs|
    requires start == lo + Skipped(offset, hi - lo)
    requires start <= stop <= hi
    requires limit > 0 ==> stop - start <= limit
    requires stop == hi || (limit > 0 && stop - start == limit)
    ensures xs[start..stop] == Window(xs[lo..hi], offset, limit)
  {
    assert xs[lo..hi][start - lo..] == xs[start..hi];
    if limit > 0 && limit < hi - start {
      assert xs[start..hi][..limit] == xs[start..stop];
    }
  }

  /** Emitting one more entry of a walk appends its result. */
  lemma ToResultsSnoc(es: seq<Entry>, a: nat, b: nat, keysOnly: bool)
    requires a <= b < |es|
    ensures ToResults(es[a..b + 1], keysOnly) == ToResults(es[a..b], keysOnly) + [ToResult(es[b], keysOnly)]
  {
    assert es[a..b + 1] == es[a..b] + [es[b]];
  }
}
