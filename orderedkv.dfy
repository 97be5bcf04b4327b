/**
 * The ordered key-value engine the adapter sits on, reduced to what the
 * adapter observes: an ordered map from byte-string keys to byte-string
 * values, kept as a list of entries in strictly ascending key order. A point
 * lookup yields no value (Go's nil) for a missing key; an iterator is an index
 * into the list; `Seek` puts it on the first key at or after a target.
 */
module OrderedKV {
  import opened ByteKeys
  import opened Optional

  datatype Entry = Entry(key: Bytes, value: Bytes)

  /** Keys strictly ascend, so each key occurs once. */
  ghost predicate Sorted(es: seq<Entry>)
  {
    forall i, j :: 0 <= i < j < |es| ==> Less(es[i].key, es[j].key)
  }

  /** The set of keys the entries hold. */
  function KeysOf(es: seq<Entry>): set<Bytes>
  {
    set i | 0 <= i < |es| :: es[i].key
  }

  /** The map the entries stand for; the first entry for a key wins. */
  function AsMap(es: seq<Entry>): map<Bytes, Bytes>
  {
    if es == [] then map[] else AsMap(es[1..])[es[0].key := es[0].value]
  }

  /** The map's keys are exactly the keys the entries hold. */
  lemma {:induction false} AsMapKeys(es: seq<Entry>)
    ensures AsMap(es).Keys == KeysOf(es)
  {
    if es != [] {
      AsMapKeys(es[1..]);
      forall k | k in KeysOf(es) ensures k in {es[0].key} + KeysOf(es[1..]) {
        var i :| 0 <= i < |es| && es[i].key == k;
        if i > 0 {
          assert es[1..][i - 1].key == k;
        }
      }
      forall k | k in KeysOf(es[1..]) ensures k in KeysOf(es) {
        var i :| 0 <= i < |es[1..]| && es[1..][i].key == k;
        assert es[i + 1].key == k;
      }
    }
  }

  /** In a sorted list every entry is the one the map keeps for its key. */
  lemma {:induction false} AsMapAt(es: seq<Entry>, i: nat)
    requires Sorted(es) && i < |es|
    ensures es[i].key in AsMap(es) && AsMap(es)[es[i].key] == es[i].value
  {
    if i > 0 {
      SortedTail(es);
      AsMapAt(es[1..], i - 1);
      assert es[0].key != es[i].key by {
        LessIrreflexive(es[0].key);
      }
    }
  }

  /** In a sorted list the head's key occurs nowhere else, so the tail holds the rest of the map. */
  lemma AsMapTailOfSorted(es: seq<Entry>)
    requires Sorted(es) && es != []
    ensures AsMap(es[1..]) == AsMap(es) - {es[0].key}
  {
    var m := AsMap(es[1..]);
    var k := es[0].key;
    assert k !in m by {
      AsMapKeys(es[1..]);
      if k in KeysOf(es[1..]) {
        var i :| 0 <= i < |es[1..]| && es[1..][i].key == k;
        assert es[i + 1].key == k;
        LessIrreflexive(k);
      }
    }
    assert AsMap(es) == m[k := es[0].value];
    assert m[k := es[0].value] - {k} == m;
  }

  /**
   * A sorted list is determined by the map it stands for: whatever order the
   * writes came in, equal contents mean equal lists.
   */
  lemma {:induction false} SortedCanonical(a: seq<Entry>, b: seq<Entry>)
    requires Sorted(a) && Sorted(b) && AsMap(a) == AsMap(b)
    ensures a == b
    decreases |a|
  {
    assert a == [] <==> b == [] by {
      if a != [] {
        assert a[0].key in AsMap(a);
      }
      if b != [] {
        assert b[0].key in AsMap(b);
      }
    }
    if a != [] {
      assert a[0].key == b[0].key by {
        AsMapKeys(a);
        AsMapKeys(b);
        assert a[0].key in KeysOf(a) && b[0].key in KeysOf(b);
        var j :| 0 <= j < |b| && b[j].key == a[0].key;
        var i :| 0 <= i < |a| && a[i].key == b[0].key;
        if a[0].key != b[0].key {
          assert i > 0 && j > 0;
          LessAsymmetric(a[0].key, b[0].key);
        }
      }
      AsMapAt(a, 0);
      AsMapAt(b, 0);
      SortedTail(a);
      SortedTail(b);
      AsMapTailOfSorted(a);
      AsMapTailOfSorted(b);
      SortedCanonical(a[1..], b[1..]);
      assert a == [a[0]] + a[1..] && b == [b[0]] + b[1..];
    }
  }

  /** The engine's point read: the stored value, or no value when the key is absent. */
  function Lookup(es: seq<Entry>, key: Bytes): (r: Option<Bytes>)
    ensures r.Some? <==> key in AsMap(es)
    ensures r.Some? ==> r.value == AsMap(es)[key]
  {
    if es == [] then None
    else if es[0].key == key then Some(es[0].value)
    else Lookup(es[1..], key)
  }

  /** The engine's write: replaces the key's value, or inserts it in key order. */
  function Set(es: seq<Entry>, key: Bytes, value: Bytes): (r: seq<Entry>)
    ensures AsMap(r) == AsMap(es)[key := value]
  {
    if es == [] then [Entry(key, value)]
    else if es[0].key == key then
      assert ([Entry(key, value)] + es[1..])[1..] == es[1..];
      [Entry(key, value)] + es[1..]
    else if Less(key, es[0].key) then
      assert ([Entry(key, value)] + es)[1..] == es;
      [Entry(key, value)] + es
    else
      var tail := Set(es[1..], key, value);
      assert ([es[0]] + tail)[1..] == tail;
      [es[0]] + tail
  }

  /** The tail of a sorted list is sorted. */
  lemma SortedTail(es: seq<Entry>)
    requires Sorted(es) && es != []
    ensures Sorted(es[1..])
  {
    forall a, b | 0 <= a < b < |es[1..]| ensures Less(es[1..][a].key, es[1..][b].key) {
      assert es[1..][a] == es[a + 1] && es[1..][b] == es[b + 1];
    }
  }

  /** A list whose neighbouring keys ascend is sorted. */
  lemma {:induction false} SortedFromAdjacent(es: seq<Entry>)
    requires forall i :: 0 < i < |es| ==> Less(es[i - 1].key, es[i].key)
    ensures Sorted(es)
  {
    if |es| > 1 {
      var tail := es[1..];
      forall i | 0 < i < |tail| ensures Less(tail[i - 1].key, tail[i].key) {
        assert tail[i - 1] == es[i] && tail[i] == es[i + 1];
      }
      SortedFromAdjacent(tail);
      forall i | 0 <= i < |tail| ensures Less(es[0].key, tail[i].key) {
        if i > 0 {
          LessTransitive(es[0].key, tail[0].key, tail[i].key);
        }
      }
      SortedCons(es[0], tail);
      assert es == [es[0]] + tail;
    }
  }

  /** Every suffix of a sorted list is sorted. */
  lemma SortedSuffix(es: seq<Entry>, s: nat)
    requires Sorted(es) && s <= |es|
    ensures Sorted(es[s..])
  {
    forall a, b | 0 <= a < b < |es[s..]| ensures Less(es[s..][a].key, es[s..][b].key) {
      assert es[s..][a] == es[s + a] && es[s..][b] == es[s + b];
    }
  }

  /** Prepending an entry below every key of a sorted list keeps it sorted. */
  lemma SortedCons(e: Entry, es: seq<Entry>)
    requires Sorted(es)
    requires forall i :: 0 <= i < |es| ==> Less(e.key, es[i].key)
    ensures Sorted([e] + es)
  {
    var r := [e] + es;
    forall i, j | 0 <= i < j < |r| ensures Less(r[i].key, r[j].key) {
      assert r[j] == es[j - 1];
      if i > 0 {
        assert r[i] == es[i - 1];
      }
    }
  }

  /** Every entry `Set` leaves is the new one or an old one, and it keeps the order. */
  lemma {:induction false} SetKeepsSorted(es: seq<Entry>, key: Bytes, value: Bytes)
    requires Sorted(es)
    ensures forall i :: 0 <= i < |Set(es, key, value)| ==>
      Set(es, key, value)[i] == Entry(key, value) || Set(es, key, value)[i] in es
    ensures Sorted(Set(es, key, value))
  {
    var r := Set(es, key, value);
    if es == [] {
    } else if es[0].key == key {
      SortedTail(es);
      forall i | 0 <= i < |es[1..]| ensures Less(key, es[1..][i].key) {
        assert es[1..][i] == es[i + 1];
      }
      SortedCons(Entry(key, value), es[1..]);
    } else if Less(key, es[0].key) {
      forall i | 0 <= i < |es| ensures Less(key, es[i].key) {
        if i > 0 {
          LessTransitive(key, es[0].key, es[i].key);
        }
      }
      SortedCons(Entry(key, value), es);
    } else {
      SortedTail(es);
      var tail := Set(es[1..], key, value);
      SetKeepsSorted(es[1..], key, value);
      LessTotal(key, es[0].key);
      forall i | 0 <= i < |tail| ensures Less(es[0].key, tail[i].key) && (tail[i] == Entry(key, value) || tail[i] in es) {
        if tail[i] != Entry(key, value) {
          var m :| 0 <= m < |es[1..]| && es[1..][m] == tail[i];
          assert es[m + 1] == tail[i];
        }
      }
      SortedCons(es[0], tail);
      assert r == [es[0]] + tail;
    }
  }

  /** The engine's delete: drops the key's entry; a missing key is not an error. */
  function Remove(es: seq<Entry>, key: Bytes): (r: seq<Entry>)
    ensures AsMap(r) == AsMap(es) - {key}
  {
    if es == [] then []
    else if es[0].key == key then Remove(es[1..], key)
    else
      var tail := Remove(es[1..], key);
      assert ([es[0]] + tail)[1..] == tail;
      [es[0]] + tail
  }

  /** `Remove` keeps only old entries, none under the removed key, in their order. */
  lemma {:induction false} RemoveKeepsSorted(es: seq<Entry>, key: Bytes)
    requires Sorted(es)
    ensures forall i :: 0 <= i < |Remove(es, key)| ==> Remove(es, key)[i] in es && Remove(es, key)[i].key != key
    ensures Sorted(Remove(es, key))
  {
    if es != [] {
      SortedTail(es);
      var tail := Remove(es[1..], key);
      RemoveKeepsSorted(es[1..], key);
      forall i | 0 <= i < |tail| ensures tail[i] in es && Less(es[0].key, tail[i].key) {
        var m :| 0 <= m < |es[1..]| && es[1..][m] == tail[i];
        assert es[m + 1] == tail[i];
      }
      if es[0].key != key {
        SortedCons(es[0], tail);
      }
    }
  }

  /**
   * The iterator's seek: the index of the first entry whose key is not before
   * `target`, or the length when there is none.
   */
  function Seek(es: seq<Entry>, target: Bytes): (i: nat)
    ensures i <= |es|
  {
    SeekFrom(es, target, 0)
  }

  /** The seek, continued from index `i`: steps forward while the key is before the target. */
  function SeekFrom(es: seq<Entry>, target: Bytes, i: nat): (r: nat)
    requires i <= |es|
    ensures i <= r <= |es|
    decreases |es| - i
  {
    if i == |es| || !Less(es[i].key, target) then i
    else SeekFrom(es, target, i + 1)
  }

  /** Every key before the seek position is before the target, and the key at it is not. */
  lemma SeekSplits(es: seq<Entry>, target: Bytes)
    ensures forall j :: 0 <= j < Seek(es, target) ==> Less(es[j].key, target)
    ensures Seek(es, target) < |es| ==> !Less(es[Seek(es, target)].key, target)
  {
    SeekFromSplits(es, target, 0);
  }

  lemma {:induction false} SeekFromSplits(es: seq<Entry>, target: Bytes, i: nat)
    requires i <= |es|
    ensures forall j :: i <= j < SeekFrom(es, target, i) ==> Less(es[j].key, target)
    ensures SeekFrom(es, target, i) < |es| ==> !Less(es[SeekFrom(es, target, i)].key, target)
    decreases |es| - i
  {
    if i < |es| && Less(es[i].key, target) {
      SeekFromSplits(es, target, i + 1);
    }
  }

  /** In a sorted list, every entry from the seek position on is at or after the target. */
  lemma SeekLowerBound(es: seq<Entry>, target: Bytes, j: nat)
    requires Sorted(es) && Seek(es, target) <= j < |es|
    ensures !Less(es[j].key, target)
  {
    var i := Seek(es, target);
    SeekSplits(es, target);
    if i < j && Less(es[j].key, target) {
      LessTransitive(es[i].key, es[j].key, target);
    }
  }
}
