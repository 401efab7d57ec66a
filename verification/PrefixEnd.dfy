/** The key interval that a prefix denotes (client/util.go). */
module PrefixRange {
  import opened ByteStrings

  const NO_PREFIX_END: Bytes := [0]

  /** The bytes of `p` that can still be incremented. */
  predicate HasSuccessor(p: Bytes) {
    exists i :: 0 <= i < |p| && p[i] < 0xff
  }

  /** `e` cuts off exactly the keys with prefix `p`: it is `p` up to its last byte below 0xff, incremented there. */
  predicate CutsAt(p: Bytes, e: Bytes, i: nat)
    requires i < |p|
  {
    && p[i] < 0xff
    && (forall j :: i < j < |p| ==> p[j] == 0xff)
    && e == p[..i] + [p[i] + 1]
  }

  /** Copies the slice, then walks down from its last byte and increments the first byte it can. */
  method PrefixEnd(prefix: array<Byte>) returns (end: Bytes)
    ensures HasSuccessor(prefix[..]) ==> exists i: nat :: i < prefix.Length && CutsAt(prefix[..], end, i)
    ensures !HasSuccessor(prefix[..]) ==> end == [0]
  {
    var buf := new Byte[prefix.Length](i requires 0 <= i < prefix.Length reads prefix => prefix[i]);
    assert buf[..] == prefix[..];
    var i := buf.Length - 1;
    while i >= 0
      invariant -1 <= i < buf.Length
      invariant buf[..] == prefix[..]
      invariant forall j :: i < j < prefix.Length ==> prefix[j] == 0xff
    {
      if buf[i] < 0xff {
        buf[i] := buf[i] + 1;
        assert CutsAt(prefix[..], buf[..i + 1], i);
        return buf[..i + 1];
      }
      i := i - 1;
    }
    return NO_PREFIX_END;
  }

  /** A key has the prefix exactly when it lies in the half-open interval from the prefix to its end. */
  lemma {:induction false} PrefixIffInterval(p: Bytes, e: Bytes, i: nat, k: Bytes)
    requires i < |p| && CutsAt(p, e, i)
    ensures p <= k <==> Le(p, k) && Lt(k, e)
    decreases |p|
  {
    if i == 0 {
      if p <= k {
        PrefixIsLower(p, k);
      } else if k != [] && Le(p, k) && Lt(k, e) {
        BelowOneByte(k, p[0] + 1);
        AllMaxIsTop(p[1..], k[1..]);
      }
    } else {
      assert CutsAt(p[1..], e[1..], i - 1);
      if k != [] && k[0] == p[0] {
        PrefixIffInterval(p[1..], e[1..], i - 1, k[1..]);
        assert p == [p[0]] + p[1..] && k == [k[0]] + k[1..] && e == [e[0]] + e[1..];
      }
    }
  }

  lemma BelowOneByte(k: Bytes, x: Byte)
    requires Le(k, [x]) && k != []
    ensures k[0] < x || k == [x]
  {
    assert [x][1..] == [] && k == [k[0]] + k[1..];
  }

  lemma {:induction false} PrefixIsLower(p: Bytes, k: Bytes)
    requires p <= k
    ensures Le(p, k)
  {
    if p != [] {
      PrefixIsLower(p[1..], k[1..]);
    }
  }

  /** Nothing but its own extensions lies above a run of 0xff. */
  lemma {:induction false} AllMaxIsTop(f: Bytes, k: Bytes)
    requires forall j :: 0 <= j < |f| ==> f[j] == 0xff
    requires Le(f, k)
    ensures f <= k
  {
    if f != [] {
      AllMaxIsTop(f[1..], k[1..]);
      assert f == [f[0]] + f[1..] && k == [k[0]] + k[1..];
    }
  }

  /** Every key with prefix `p` lies below the bound. */
  ghost predicate BoundsPrefix(bound: Bytes, p: Bytes) {
    forall k: Bytes | p <= k :: Lt(k, bound)
  }

  /** No smaller bound lies above every key with the prefix. */
  lemma EndIsLeastBound(p: Bytes, e: Bytes, i: nat, bound: Bytes)
    requires i < |p| && CutsAt(p, e, i)
    requires BoundsPrefix(bound, p)
    ensures Le(e, bound)
  {
    assert !Lt(bound, bound);  // so bound itself does not have the prefix
    assert Lt(p, bound);
    PrefixIffInterval(p, e, i, bound);
    LtIffNotLe(bound, e);
  }

  predicate AllMax(f: Bytes) {
    forall i :: 0 <= i < |f| ==> f[i] == 0xff
  }

  lemma {:induction false} TopIsAbove(b: Bytes, f: Bytes)
    requires AllMax(f) && |b| <= |f|
    ensures Le(b, f)
  {
    if b != [] {
      TopIsAbove(b[1..], f[1..]);
    }
  }

  /** Exactly the prefixes with an incrementable byte have an end at all: for any other, each bound is reached by a key
      with the prefix. */
  lemma EndExistsIff(p: Bytes)
    ensures HasSuccessor(p) <==> exists bound :: BoundsPrefix(bound, p)
  {
    if HasSuccessor(p) {
      var i := LastBelowMax(p);
      var e := p[..i] + [p[i] + 1];
      forall k: Bytes | p <= k ensures Lt(k, e) {
        PrefixIffInterval(p, e, i, k);
      }
      assert BoundsPrefix(e, p);
    } else {
      forall bound ensures !BoundsPrefix(bound, p) {
        var f: Bytes := p + seq(|bound|, _ => 0xff);
        TopIsAbove(bound, f);
        LtIffNotLe(f, bound);
        assert p <= f && !Lt(f, bound);
      }
    }
  }

  lemma {:induction false} LastBelowMax(p: Bytes) returns (i: nat)
    requires HasSuccessor(p)
    ensures i < |p| && p[i] < 0xff && forall j :: i < j < |p| ==> p[j] == 0xff
  {
    var last := |p| - 1;
    if p[last] < 0xff {
      i := last;
    } else {
      var j :| 0 <= j < |p| && p[j] < 0xff;
      assert p[..last][j] < 0xff;
      i := LastBelowMax(p[..last]);
    }
  }
}
