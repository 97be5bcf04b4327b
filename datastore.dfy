/**
 * The adapter of datastore.go: a datastore whose point operations and queries
 * go straight to the ordered key-value engine it holds.
 */
module Datastore {
  import opened ByteKeys
  import opened OrderedKV
  import opened Optional
  import opened Queries

  datatype Error = ErrNotFound | ErrInvalidType | ErrNotImplemented

  /** The untyped value `Put` receives: a byte slice, or a value of any other type. */
  datatype Value = ByteSlice(data: Bytes) | OtherType

  /** A batch of the datastore interface; this adapter never hands one out. */
  datatype BatchHandle = BatchHandle

  /**
   * The results a query returns: the fast path's iterator, the general path's
   * builder output, or one of those with naive filter and order stages layered
   * on top (each stage wraps the results before it).
   */
  datatype Results =
    | FromIterator(iter: PrefixIterator)
    | FromBuilder(entries: seq<ResultEntry>)
    | NaiveFilter(input: Results, filter: Filter)
    | NaiveOrder(input: Results, order: Order)

  /** The results under all stages. */
  function Base(r: Results): (b: Results)
    ensures b.FromIterator? || b.FromBuilder?
  {
    match r
    case NaiveFilter(input, _) => Base(input)
    case NaiveOrder(input, _) => Base(input)
    case _ => r
  }

  /** The stages layered on the base results, innermost (applied first) first. */
  function Stages(r: Results): seq<Stage>
  {
    match r
    case NaiveFilter(input, f) => Stages(input) + [FilterStage(f)]
    case NaiveOrder(input, o) => Stages(input) + [OrderStage(o)]
    case _ => []
  }

  /** Results with no stage layered on are their own base. */
  lemma NoStagesIsBase(r: Results)
    requires |Stages(r)| == 0
    ensures r == Base(r)
  {
    match r
    case NaiveFilter(input, _) =>
    case NaiveOrder(input, _) =>
    case _ =>
  }

  class Datastore {
    /** The engine's contents (`DB`), in ascending key order. */
    var db: seq<Entry>

    ghost predicate Valid()
      reads this
    {
      Sorted(db)
    }

    /** The ordered map the engine holds. */
    function Contents(): map<Bytes, Bytes>
      reads this
    {
      AsMap(db)
    }

    /** An empty store; opening the engine on disk is not modelled. */
    constructor ()
      ensures Valid() && Contents() == map[]
    {
      db := [];
    }

    /** Stores `value` under `key`; a value that is not a byte slice is refused and nothing changes. */
    method Put(key: Bytes, value: Value) returns (err: Option<Error>)
      requires Valid()
      modifies this
      ensures Valid()
      ensures value.OtherType? ==> err == Some(ErrInvalidType) && db == old(db)
      ensures value.ByteSlice? ==> err == None && Contents() == old(Contents())[key := value.data]
    {
      if !value.ByteSlice? {
        return Some(ErrInvalidType);
      }
      SetKeepsSorted(db, key, value.data);
      db := Set(db, key, value.data);
      err := None;
    }

    /** The stored value, or ErrNotFound (and no value) when the engine has none for the key. */
    function Get(key: Bytes): (r: Result<Bytes, Error>)
      reads this
      ensures r.Success? <==> key in Contents()
      ensures r.Success? ==> r.value == Contents()[key]
      ensures r.Failure? ==> r.error == ErrNotFound
    {
      match Lookup(db, key)
      case None => Failure(ErrNotFound)
      case Some(v) => Success(v)
    }

    /** Whether the engine holds a value for the key; absence is an answer, not an error. */
    function Has(key: Bytes): (b: bool)
      reads this
      ensures b <==> key in Contents()
    {
      Lookup(db, key).Some?
    }

    /** Removes the key; removing a missing key changes nothing. */
    method Delete(key: Bytes)
      requires Valid()
      modifies this
      ensures Valid()
      ensures Contents() == old(Contents()) - {key}
    {
      RemoveKeepsSorted(db, key);
      db := Remove(db, key);
    }

    /**
     * Runs a query: a plain one (no filter, order, positive limit or positive
     * offset) gets an iterator positioned at the prefix; any other goes down
     * the general path.
     */
    method Query(q: Query) returns (r: Results)
      requires Valid()
      ensures UsesGeneralPath(q) ==>
        && Base(r) == FromBuilder(ToResults(GeneralScan(db, q), q.keysOnly))
        && FiltersThenOrders(q, Stages(r))
      ensures !UsesGeneralPath(q) ==>
        && r.FromIterator? && fresh(r.iter)
        && r.iter.entries == db && r.iter.prefix == q.prefix && r.iter.keysOnly == q.keysOnly
        && r.iter.Valid() && r.iter.Emitted() == []
    {
      if UsesGeneralPath(q) {
        r := QueryOrig(q);
        return;
      }
      var it := new PrefixIterator(db, q.prefix, q.keysOnly);
      r := FromIterator(it);
    }

    /** The general path: run the worker, then layer every filter and after them every order. */
    method QueryOrig(q: Query) returns (r: Results)
      ensures Base(r) == FromBuilder(ToResults(GeneralScan(db, q), q.keysOnly))
      ensures FiltersThenOrders(q, Stages(r))
    {
      var entries := RunQuery(q);
      r := Layer(q, entries);
    }

    /** The general path over the corrected worker, which keeps to the prefix. */
    method QueryOrigIntended(q: Query) returns (r: Results)
      ensures Base(r) == FromBuilder(ToResults(IntendedGeneralScan(db, q), q.keysOnly))
      ensures FiltersThenOrders(q, Stages(r))
    {
      var entries := RunPrefixQuery(q);
      r := Layer(q, entries);
    }

    /** Wraps the worker's entries in every filter of the query and then every order. */
    static method Layer(q: Query, entries: seq<ResultEntry>) returns (r: Results)
      ensures Base(r) == FromBuilder(entries)
      ensures FiltersThenOrders(q, Stages(r))
    {
      r := FromBuilder(entries);
      for i := 0 to |q.filters|
        invariant Base(r) == FromBuilder(entries)
        invariant |Stages(r)| == i
        invariant forall k :: 0 <= k < i ==> Stages(r)[k] == FilterStage(q.filters[k])
      {
        r := NaiveFilter(r, q.filters[i]);
      }
      for j := 0 to |q.orders|
        invariant Base(r) == FromBuilder(entries)
        invariant |Stages(r)| == |q.filters| + j
        invariant forall k :: 0 <= k < |q.filters| ==> Stages(r)[k] == FilterStage(q.filters[k])
        invariant forall k :: 0 <= k < j ==> Stages(r)[|q.filters| + k] == OrderStage(q.orders[k])
      {
        r := NaiveOrder(r, q.orders[j]);
      }
    }

    /**
     * The general path's worker: seek to the prefix, step past `offset`
     * entries, then emit entries while the iterator is valid, stopping once
     * `limit` have gone out when `limit` is positive. It never checks the prefix.
     */
    method RunQuery(q: Query) returns (out: seq<ResultEntry>)
      ensures out == ToResults(GeneralScan(db, q), q.keysOnly)
    {
      var it := Seek(db, q.prefix);
      ghost var seek := it;
      if q.offset > 0 {
        for j := 0 to q.offset
          invariant it == if seek + j < |db| then seek + j else |db|
        {
          if it < |db| {
            it := it + 1;
          }
        }
      }
      ghost var start := it;
      assert start == seek + Skipped(q.offset, |db| - seek);
      out := [];
      var sent := 0;
      while it < |db|
        invariant start <= it <= |db|
        invariant sent == it - start
        invariant q.limit > 0 ==> sent <= q.limit
        invariant out == ToResults(db[start..it], q.keysOnly)
      {
        if q.limit > 0 && sent >= q.limit {
          break;
        }
        ToResultsSnoc(db, start, it, q.keysOnly);
        out := out + [ToResult(db[it], q.keysOnly)];
        it := it + 1;
        sent := sent + 1;
      }
      GeneralScanFromWalk(db, q, start, it);
    }

    /**
     * The general path's worker as evidently intended: as `RunQuery`, except
     * that the offset skips and the limit counts keys with the prefix only,
     * and the walk ends at the first key without the prefix.
     */
    method RunPrefixQuery(q: Query) returns (out: seq<ResultEntry>)
      ensures out == ToResults(IntendedGeneralScan(db, q), q.keysOnly)
    {
      var it := Seek(db, q.prefix);
      ghost var seek := it;
      assert exists e :: PrefixRunEndsAt(db, q.prefix, e) by {
        PrefixScanEndsAt(db, q.prefix, PrefixEnd(db, q.prefix, seek));
      }
      ghost var end: nat :| PrefixRunEndsAt(db, q.prefix, end);
      if q.offset > 0 {
        for j := 0 to q.offset
          invariant it == if seek + j < end then seek + j else end
        {
          if it < |db| && HasPrefix(db[it].key, q.prefix) {
            it := it + 1;
          }
        }
      }
      ghost var start := it;
      assert start == seek + Skipped(q.offset, end - seek);
      out := [];
      var sent := 0;
      while it < |db| && HasPrefix(db[it].key, q.prefix)
        invariant start <= it <= end
        invariant sent == it - start
        invariant q.limit > 0 ==> sent <= q.limit
        invariant out == ToResults(db[start..it], q.keysOnly)
      {
        if q.limit > 0 && sent >= q.limit {
          break;
        }
        ToResultsSnoc(db, start, it, q.keysOnly);
        out := out + [ToResult(db[it], q.keysOnly)];
        it := it + 1;
        sent := sent + 1;
      }
      IntendedGeneralScanFromWalk(db, q, end, start, it);
    }

    /** Batching is not offered: always an error, never a batch. */
    function Batch(): (r: Result<BatchHandle, Error>)
      ensures r == Failure(ErrNotImplemented)
    {
      Failure(ErrNotImplemented)
    }
  }

  /**
   * The fast path's iterator: a cursor into the engine's sorted entries,
   * placed at the prefix by a seek, that hands out one entry per call and
   * reports the end at the first key without the prefix.
   */
  class PrefixIterator {
    const entries: seq<Entry>
    const prefix: Bytes
    const keysOnly: bool
    var pos: nat

    /** The cursor is between the seek position and the end, and everything it passed had the prefix. */
    ghost predicate Valid()
      reads this
    {
      && Sorted(entries)
      && Seek(entries, prefix) <= pos <= |entries|
      && forall i :: Seek(entries, prefix) <= i < pos ==> HasPrefix(entries[i].key, prefix)
    }

    /** What the iterator has handed out so far. */
    ghost function Emitted(): seq<ResultEntry>
      reads this
      requires Valid()
    {
      ToResults(entries[Seek(entries, prefix)..pos], keysOnly)
    }

    /** Opens an iterator on the entries and seeks to the prefix. */
    constructor (entries: seq<Entry>, prefix: Bytes, keysOnly: bool)
      requires Sorted(entries)
      ensures this.entries == entries && this.prefix == prefix && this.keysOnly == keysOnly
      ensures Valid() && Emitted() == []
    {
      this.entries := entries;
      this.prefix := prefix;
      this.keysOnly := keysOnly;
      pos := Seek(entries, prefix);
    }

    /**
     * The next entry with the prefix, advancing past it; none once the
     * entries run out or a key lacks the prefix, and then everything the fast
     * path selects has been handed out.
     */
    method Next() returns (r: Option<ResultEntry>)
      requires Valid()
      modifies this
      ensures Valid()
      ensures r.Some? ==> pos == old(pos) + 1 && Emitted() == old(Emitted()) + [r.value]
      ensures r.None? ==> pos == old(pos) && Emitted() == ToResults(PrefixScan(entries, prefix), keysOnly)
    {
      var s := Seek(entries, prefix);
      if pos == |entries| || !HasPrefix(entries[pos].key, prefix) {
        PrefixScanEndsAt(entries, prefix, pos);
        return None;
      }
      r := Some(ToResult(entries[pos], keysOnly));
      assert entries[s..pos + 1] == entries[s..pos] + [entries[pos]];
      pos := pos + 1;
    }
  }
}
