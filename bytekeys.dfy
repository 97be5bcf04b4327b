/**
 * Keys as the engine stores them: byte strings, ordered the way `bytes.Compare`
 * orders them (lexicographically, a proper prefix first), and the
 * `bytes.HasPrefix` test the fast query path applies.
 */
module ByteKeys {

  newtype byte = b: int | 0 <= b < 256

  type Bytes = seq<byte>

  /** Strict lexicographic order on byte strings. */
  predicate Less(a: Bytes, b: Bytes)
    decreases |a|
  {
    |b| > 0 && (|a| == 0 || a[0] < b[0] || (a[0] == b[0] && Less(a[1..], b[1..])))
  }

  /** `bytes.HasPrefix(s, p)`. */
  predicate HasPrefix(s: Bytes, p: Bytes)
  {
    |p| <= |s| && s[..|p|] == p
  }

  lemma {:induction false} LessIrreflexive(a: Bytes)
    ensures !Less(a, a)
  {
    if |a| > 0 {
      LessIrreflexive(a[1..]);
    }
  }

  lemma {:induction false} LessAsymmetric(a: Bytes, b: Bytes)
    requires Less(a, b)
    ensures !Less(b, a)
  {
    if |a| > 0 && a[0] == b[0] {
      LessAsymmetric(a[1..], b[1..]);
    }
  }

  lemma {:induction false} LessTransitive(a: Bytes, b: Bytes, c: Bytes)
    requires Less(a, b) && Less(b, c)
    ensures Less(a, c)
  {
    if |a| > 0 && a[0] == b[0] && b[0] == c[0] {
      LessTransitive(a[1..], b[1..], c[1..]);
    }
  }

  /** Any two different keys are ordered one way or the other. */
  lemma {:induction false} LessTotal(a: Bytes, b: Bytes)
    requires a != b
    ensures Less(a, b) || Less(b, a)
  {
    if |a| > 0 && |b| > 0 && a[0] == b[0] {
      assert a == [a[0]] + a[1..] && b == [b[0]] + b[1..];
      LessTotal(a[1..], b[1..]);
    }
  }

  /** A key that starts with `p` never sorts before `p`: seeking to `p` cannot skip it. */
  lemma {:induction false} PrefixedNotBefore(s: Bytes, p: Bytes)
    requires HasPrefix(s, p)
    ensures !Less(s, p)
  {
    if |p| > 0 {
      assert s[1..][..|p| - 1] == s[..|p|][1..];
      PrefixedNotBefore(s[1..], p[1..]);
    }
  }

  /**
   * The keys starting with `p` form one contiguous block of the key order:
   * a key at or after `p` that does not start with `p` sorts after every key
   * that does.
   */
  lemma {:induction false} PrefixBlockEndsAt(q: Bytes, k: Bytes, p: Bytes)
    requires HasPrefix(q, p) && !HasPrefix(k, p) && !Less(k, p)
    ensures Less(q, k)
  {
    assert |p| > 0 by {
      assert k[..0] == [];
    }
    assert q[0] == p[0];
    if k[0] == p[0] {
      assert q[1..][..|p| - 1] == q[..|p|][1..];
      PrefixOfTail(k, p);
      PrefixBlockEndsAt(q[1..], k[1..], p[1..]);
    }
  }

  /** With equal first bytes, `k` starts with `p` exactly when its tail starts with the tail of `p`. */
  lemma PrefixOfTail(k: Bytes, p: Bytes)
    requires |k| > 0 && |p| > 0 && k[0] == p[0]
    ensures HasPrefix(k, p) <==> HasPrefix(k[1..], p[1..])
  {
    if |p| <= |k| {
      assert k[..|p|] == [k[0]] + k[1..][..|p| - 1];
      assert p == [p[0]] + p[1..];
    }
  }

  /** A proper prefix sorts first. */
  lemma {:induction false} ProperPrefixLess(a: Bytes, b: Bytes)
    requires HasPrefix(b, a) && |a| < |b|
    ensures Less(a, b)
  {
    if |a| > 0 {
      assert b[1..][..|a| - 1] == b[..|a|][1..];
      ProperPrefixLess(a[1..], b[1..]);
    }
  }

  /** Two keys that agree up to `i` and differ at `i` are ordered by that byte. */
  lemma {:induction false} FirstDifferenceLess(a: Bytes, b: Bytes, i: nat)
    requires i < |a| && i < |b| && a[..i] == b[..i] && a[i] < b[i]
    ensures Less(a, b)
  {
    if i > 0 {
      assert a[0] == a[..i][0] == b[..i][0] == b[0];
      assert a[1..][..i - 1] == a[..i][1..];
      assert b[1..][..i - 1] == b[..i][1..];
      FirstDifferenceLess(a[1..], b[1..], i - 1);
    }
  }
}
