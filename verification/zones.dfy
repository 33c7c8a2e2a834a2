/**
  Zone rotation. The provisioning loop draws its zone from a round-robin
  cycler over a fixed, ordered zone list (Python's `itertools.cycle`); the
  zone of attempt `k` (counting from 1) is then given by a closed formula.
 */
module Zones {

  /** The zone targeted by attempt `k` (1-indexed): the list repeated in order. */
  function ZoneAt(zones: seq<string>, k: nat): (z: string)
    requires |zones| > 0 && k >= 1
    ensures z in zones
  {
    zones[(k - 1) % |zones|]
  }

  /** The first pass over the list visits the zones in list order, from the first. */
  lemma ZoneAtFirstPass(zones: seq<string>, k: nat)
    requires 1 <= k <= |zones|
    ensures ZoneAt(zones, k) == zones[k - 1]
  {
  }

  /** The rotation repeats with period `|zones|`. */
  lemma ZoneAtPeriodic(zones: seq<string>, k: nat)
    requires |zones| > 0 && k >= 1
    ensures ZoneAt(zones, k + |zones|) == ZoneAt(zones, k)
  {
    var n := |zones|;
    ModUnique(k + n - 1, n, (k - 1) / n + 1, (k - 1) % n);
  }

  /** Quotient and remainder are the only pair that rebuilds `a`. */
  lemma ModUnique(a: int, n: int, q: int, r: int)
    requires n > 0 && 0 <= r < n && a == q * n + r
    ensures a % n == r && a / n == q
  {
    var q', r' := a / n, a % n;
    assert q' * n + r' == q * n + r;
    if q' > q {
      assert (q' - q) * n == q' * n - q * n;
      MultipleAtLeast(q' - q, n);
    } else if q' < q {
      assert (q - q') * n == q * n - q' * n;
      MultipleAtLeast(q - q', n);
    }
  }

  lemma MultipleAtLeast(d: int, n: int)
    requires d >= 1 && n > 0
    ensures d * n >= n
  {
    assert d * n == n + (d - 1) * n;
  }

  /** An endless cycler over `items`; `pos` is the index of the next item to hand out. */
  datatype Cycler = Cycler(items: seq<string>, pos: nat)
  {
    ghost predicate Valid() {
      pos < |items|
    }
  }

  /** A fresh cycler, as `cycle(zones)` builds it. */
  function Start(items: seq<string>): (c: Cycler)
    requires |items| > 0
    ensures c.Valid() && c.items == items
  {
    Cycler(items, 0)
  }

  /** One `next(cycler)`: the current item, and the cycler moved on by one, wrapping at the end. */
  function Next(c: Cycler): (r: (string, Cycler))
    requires c.Valid()
    ensures r.1.Valid() && r.1.items == c.items
    ensures r.0 in c.items
  {
    (c.items[c.pos], Cycler(c.items, if c.pos + 1 == |c.items| then 0 else c.pos + 1))
  }

  /** The cycler after `k` draws from a fresh one. */
  function Drawn(items: seq<string>, k: nat): (c: Cycler)
    requires |items| > 0
    ensures c.Valid() && c.items == items
  {
    if k == 0 then Start(items) else Next(Drawn(items, k - 1)).1
  }

  /** After `k` draws the cycler points at index `k mod |items|`. */
  lemma {:induction false} DrawnPosition(items: seq<string>, k: nat)
    requires |items| > 0
    ensures Drawn(items, k).pos == k % |items|
  {
    if k > 0 {
      DrawnPosition(items, k - 1);
      ModSuccessor(k - 1, |items|);
    }
  }

  /** Counting one further moves the remainder on by one, wrapping to 0 at `n`. */
  lemma ModSuccessor(a: nat, n: nat)
    requires n > 0
    ensures (a + 1) % n == if a % n + 1 == n then 0 else a % n + 1
  {
    var q, p := a / n, a % n;
    if p + 1 == n {
      ModUnique(a + 1, n, q + 1, 0);
    } else {
      ModUnique(a + 1, n, q, p + 1);
    }
  }

  /** The `k`-th draw (1-indexed) from a fresh cycler yields `ZoneAt(items, k)`. */
  lemma CyclerMatchesZoneAt(items: seq<string>, k: nat)
    requires |items| > 0 && k >= 1
    ensures Next(Drawn(items, k - 1)).0 == ZoneAt(items, k)
  {
    DrawnPosition(items, k - 1);
  }
}
