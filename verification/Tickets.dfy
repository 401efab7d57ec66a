/** The shared round-robin counter of the picker: an int64 that wraps, and Go's remainder
    (client/balancer/picker/rw_separated.go). */
module Tickets {
  import opened MachineInts

  /** The index for the `t`-th read, counted from zero: the counter after the atomic increment, less one. */
  function TicketIndex(t: nat, l: nat): int
    requires l > 0
  {
    GoRem(Wrap64(Wrap64(t + 1) - 1), l)
  }

  /** The index is in range exactly when the wrapped ticket is not negative or is a multiple of the list's length; so
      always for the first 2^63 tickets, where it is the ticket modulo the length. */
  lemma IndexInRangeIff(t: nat, l: nat)
    requires l > 0
    ensures 0 <= TicketIndex(t, l) < l <==> Wrap64(t) >= 0 || (-Wrap64(t)) % l == 0
    ensures t < TWO_63 ==> TicketIndex(t, l) == t % l
  {
    assert Wrap64(Wrap64(t + 1) - 1) == Wrap64(t) by {
      WrapUndone(t);
    }
  }

  /** The 2^63rd read, counted from zero, with three readers: the index is negative. */
  lemma IndexGoesNegative()
    ensures TicketIndex(TWO_63, 3) == -2
  {
  }

  /** How many of the `k` tickets from `a` on fall to reader `r`. */
  function Hits(a: nat, k: nat, l: nat, r: nat): nat
    requires l > 0
  {
    if k == 0 then 0 else Hits(a, k - 1, l, r) + if (a + k - 1) % l == r then 1 else 0
  }

  /** Tickets below `n` that fall to reader `r`, in closed form. */
  function Below(n: nat, l: nat, r: nat): int
    requires r < l
  {
    (n + l - 1 - r) / l
  }

  lemma BelowStep(n: nat, l: nat, r: nat)
    requires r < l
    ensures Below(n + 1, l, r) == Below(n, l, r) + if n % l == r then 1 else 0
  {
    var q, m := n / l, n % l;
    Distribute(q, 1, l);
    Quotient(n + l - 1 - r, l, if m > r then q + 1 else q, if m > r then m - 1 - r else m + l - 1 - r);
    Quotient(n + l - r, l, if m >= r then q + 1 else q, if m >= r then m - r else m + l - r);
  }

  lemma Distribute(q: int, p: int, l: int)
    ensures (q + p) * l == q * l + p * l
  {
  }

  /** Quotient and remainder are unique. */
  lemma Quotient(x: int, l: nat, q: int, m: int)
    requires 0 <= m < l && x == q * l + m
    ensures x / l == q
  {
    Distribute(x / l - q, q, l);
    SmallMultiple(x / l - q, l);
  }

  lemma MultipleAtLeast(d: int, l: int)
    requires d > 0 && l > 0
    ensures d * l >= l
  {
    assert (d - 1) * l >= 0;
    Distribute(d - 1, 1, l);
  }

  lemma SmallMultiple(d: int, l: int)
    requires l > 0 && -l < d * l < l
    ensures d == 0
  {
    if d > 0 {
      MultipleAtLeast(d, l);
    } else if d < 0 {
      Distribute(d, -d, l);
      MultipleAtLeast(-d, l);
    }
  }

  lemma {:induction false} HitsClosedForm(a: nat, k: nat, l: nat, r: nat)
    requires r < l
    ensures Hits(a, k, l, r) == Below(a + k, l, r) - Below(a, l, r)
  {
    if k > 0 {
      HitsClosedForm(a, k - 1, l, r);
      BelowStep(a + k - 1, l, r);
    }
  }

  /** A sum's quotient is the sum of the quotients, or one more. */
  lemma QuotientOfSum(x: nat, k: nat, l: nat)
    requires l > 0
    ensures x / l + k / l <= (x + k) / l <= x / l + (k + l - 1) / l
  {
    var q, m, p, o := x / l, x % l, k / l, k % l;
    Distribute(q, p, l);
    Distribute(q + p, 1, l);
    Distribute(p, 1, l);
    if m + o < l {
      Quotient(x + k, l, q + p, m + o);
    } else {
      Quotient(x + k, l, q + p + 1, m + o - l);
    }
    if o == 0 {
      Quotient(k + l - 1, l, p, l - 1);
    } else {
      Quotient(k + l - 1, l, p + 1, o - 1);
    }
  }

  /** Of `k` consecutive tickets each reader gets k/l, rounded down or up. */
  lemma RoundRobinIsFair(a: nat, k: nat, l: nat, r: nat)
    requires r < l
    ensures k / l <= Hits(a, k, l, r) <= (k + l - 1) / l
  {
    HitsClosedForm(a, k, l, r);
    QuotientOfSum(a + l - 1 - r, k, l);
  }
}
