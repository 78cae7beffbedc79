/**
 * How evenly a programmed service spreads its traffic.  The compiler gives backend `i` of `n` the
 * probability 1/(n-i) (src/kube_proxy.rs:181-201), printed with five decimals.
 */
module KubeBalance {
  import opened Options
  import opened KubeProxy
  import opened KubeNat
  import opened KubeTraffic

  // ---- exact probabilities ----

  predicate Exact(prob: nat -> real, n: nat) {
    forall d :: 2 <= d <= n ==> prob(d) == 1.0 / d as real
  }

  function Count(addrs: seq<Address>, a: Address): nat {
    if addrs == [] then 0 else (if addrs[0] == a then 1 else 0) + Count(addrs[1..], a)
  }

  lemma SameFactor(x: real, y: real, d: real)
    requires d > 0.0 && x * d == y * d
    ensures x == y
  {
    assert (x - y) * d == 0.0;
  }

  lemma Telescope(hit: real, c: real, d: real)
    requires d >= 2.0
    ensures 1.0 / d * hit + (1.0 - 1.0 / d) * (c / (d - 1.0)) == (hit + c) / d
  {
    var inv, q := 1.0 / d, c / (d - 1.0);
    assert inv * d == 1.0;
    assert q * (d - 1.0) == c;
    assert (inv * hit) * d == hit;
    assert ((1.0 - inv) * q) * d == (d - 1.0) * q;
    SameFactor(inv * hit + (1.0 - inv) * q, (hit + c) / d, d);
  }

  /** With exact probabilities every backend is picked as often as it is listed, over `n`. */
  lemma {:induction false} ExactPick(prob: nat -> real, addrs: seq<Address>, i: nat, a: Address)
    requires i < |addrs| && Exact(prob, |addrs|)
    ensures Pick(prob, addrs, i, a) == Count(addrs[i..], a) as real / (|addrs| - i) as real
    decreases |addrs| - i
  {
    var d := |addrs| - i;
    assert addrs[i..][1..] == addrs[i + 1..];
    if d == 1 {
      assert Count(addrs[i + 1..], a) == 0;
    } else {
      ExactPick(prob, addrs, i + 1, a);
      var hit, c := Indicator(a == addrs[i]), Count(addrs[i + 1..], a) as real;
      Telescope(hit, c, d as real);
      assert (|addrs| - (i + 1)) as real == d as real - 1.0;
      assert Count(addrs[i..], a) as real == hit + c;
    }
  }

  // ---- printed probabilities ----

  /** The chance that the first `i` draws all miss. */
  function Reach(prob: nat -> real, n: nat, i: nat): real
    requires i < n
  {
    if i == 0 then 1.0 else Reach(prob, n, i - 1) * (1.0 - prob(n - (i - 1)))
  }

  /** The chance of the draw for backend `i`; the last rule has no condition. */
  function Draw(prob: nat -> real, n: nat, i: nat): real
    requires i < n
  {
    if i == n - 1 then 1.0 else prob(n - i)
  }

  function Share(prob: nat -> real, n: nat, i: nat): real
    requires i < n
  {
    Reach(prob, n, i) * Draw(prob, n, i)
  }

  predicate Distinct(addrs: seq<Address>) {
    forall i, j :: 0 <= i < j < |addrs| ==> addrs[i] != addrs[j]
  }

  lemma {:induction false} PickAbsent(prob: nat -> real, addrs: seq<Address>, i: nat, a: Address)
    requires i < |addrs| && forall j :: i <= j < |addrs| ==> addrs[j] != a
    ensures Pick(prob, addrs, i, a) == 0.0
    decreases |addrs| - i
  {
    if i < |addrs| - 1 {
      PickAbsent(prob, addrs, i + 1, a);
    }
  }

  lemma {:induction false} PickIsShare(prob: nat -> real, addrs: seq<Address>, i: nat, j: nat)
    requires i <= j < |addrs| && Distinct(addrs)
    ensures Reach(prob, |addrs|, i) * Pick(prob, addrs, i, addrs[j]) == Share(prob, |addrs|, j)
    decreases j - i
  {
    hide Pick, Reach, Draw;
    if i == j {
      PickHit(prob, addrs, j);
    } else {
      hide Share;
      PickIsShare(prob, addrs, i + 1, j);
      PassOn(prob, addrs, i, addrs[j]);
    }
  }

  /** A backend that is not picked passes its reach on. */
  lemma PassOn(prob: nat -> real, addrs: seq<Address>, i: nat, a: Address)
    requires i < |addrs| - 1 && a != addrs[i]
    ensures Reach(prob, |addrs|, i) * Pick(prob, addrs, i, a) == Reach(prob, |addrs|, i + 1) * Pick(prob, addrs, i + 1, a)
  {
    hide Pick, Reach;
    var miss := 1.0 - prob(|addrs| - i);
    PickMiss(prob, addrs, i, a, miss);
    ReachStep(prob, |addrs|, i, miss);
    Assoc(Reach(prob, |addrs|, i), miss, Pick(prob, addrs, i + 1, a));
  }

  lemma {:induction false} PickHit(prob: nat -> real, addrs: seq<Address>, j: nat)
    requires j < |addrs| && Distinct(addrs)
    ensures Pick(prob, addrs, j, addrs[j]) == Draw(prob, |addrs|, j)
  {
    if j < |addrs| - 1 {
      PickAbsent(prob, addrs, j + 1, addrs[j]);
    }
  }

  lemma PickMiss(prob: nat -> real, addrs: seq<Address>, i: nat, a: Address, miss: real)
    requires i < |addrs| - 1 && a != addrs[i] && miss == 1.0 - prob(|addrs| - i)
    ensures Pick(prob, addrs, i, a) == miss * Pick(prob, addrs, i + 1, a)
  {
  }

  lemma ReachStep(prob: nat -> real, n: nat, i: nat, miss: real)
    requires i + 1 < n && miss == 1.0 - prob(n - i)
    ensures Reach(prob, n, i + 1) == Reach(prob, n, i) * miss
  {
  }

  lemma Assoc(x: real, y: real, z: real)
    ensures x * (y * z) == (x * y) * z
  {
  }

  /** Every printed value is a probability and is off by at most `e`. */
  predicate Within(prob: nat -> real, n: nat, e: real) {
    forall d :: 2 <= d <= n ==>
      0.0 <= prob(d) <= 1.0 && 1.0 / d as real - e <= prob(d) <= 1.0 / d as real + e
  }

  /** Scaling down a non-negative number keeps it within its bound. */
  lemma Scaled(y: real, p: real, b: real, w: real)
    requires 0.0 <= y <= b && 0.0 <= p <= 1.0 && w == y * p
    ensures 0.0 <= w <= b
  {
    Product(y, p);
  }

  lemma Opposite(x: real, p: real, y: real)
    requires y == 0.0 - x
    ensures x * p == 0.0 - y * p
  {
  }

  lemma Shrink(x: real, p: real, b: real, w: real)
    requires -b <= x <= b && 0.0 <= p <= 1.0 && w == x * p
    ensures -b <= w <= b
  {
    if x >= 0.0 {
      Scaled(x, p, b, w);
    } else {
      var y := 0.0 - x;
      Opposite(x, p, y);
      Scaled(y, p, b, y * p);
    }
  }

  /** One step of the error: the exact reach `r` is multiplied by `x`, the printed one `c` by `p`. */
  lemma DriftStep(c: real, r: real, p: real, x: real, b: real, e: real, cp: real, rx: real)
    requires -b <= c - r <= b && 0.0 <= r <= 1.0 && 0.0 <= p <= 1.0 && -e <= p - x <= e
    requires cp == c * p && rx == r * x
    ensures -(b + e) <= cp - rx <= b + e
  {
    DriftSplits(c, r, p, x);
    Shrink(c - r, p, b, cp - r * p);
    Shrink(p - x, r, e, r * p - rx);
  }

  lemma DriftSplits(c: real, r: real, p: real, x: real)
    ensures (c - r) * p == c * p - r * p
    ensures (p - x) * r == r * p - r * x
  {
  }

  /** `i` printing errors. */
  function Errors(i: nat, e: real): real {
    if i == 0 then 0.0 else Errors(i - 1, e) + e
  }

  lemma {:induction false} ErrorsAre(i: nat, e: real)
    ensures Errors(i, e) == i as real * e
  {
    if i > 0 {
      ErrorsAre(i - 1, e);
      assert (i - 1) as real == i as real - 1.0;
    }
  }

  function Fraction(d: nat, n: nat): real
    requires n > 0
  {
    d as real / n as real
  }

  lemma ExactStep(n: nat, d: nat, rest: real)
    requires 1 <= d <= n && rest == 1.0 - Fraction(1, d)
    ensures 0.0 <= Fraction(d, n) <= 1.0
    ensures Fraction(d, n) * Fraction(1, d) == Fraction(1, n)
    ensures Fraction(d, n) * rest == Fraction(d - 1, n)
  {
    var x, y := d as real, n as real;
    var u, v, w := x / y, 1.0 / x, 1.0 / y;
    assert u * y == x && v * x == 1.0 && w * y == 1.0;
    assert (u * v) * y == v * (u * y);
    SameFactor(u * v, w, y);
    assert (d - 1) as real == x - 1.0;
    assert (x - 1.0) / y == x / y - 1.0 / y;
    assert u * rest == u - u * v;
  }

  /** What the bound needs of one printed value. */
  lemma OneValue(prob: nat -> real, n: nat, e: real, d: nat)
    requires Within(prob, n, e) && 2 <= d <= n
    ensures 0.0 <= prob(d) <= 1.0 && -e <= prob(d) - Fraction(1, d) <= e
  {
  }

  lemma {:induction false} ReachStart(prob: nat -> real, n: nat)
    requires n > 0
    ensures Reach(prob, n, 0) == Fraction(n, n)
  {
  }

  lemma DriftOne(prob: nat -> real, n: nat, i: nat, e: real, b: real)
    requires i + 1 < n && Within(prob, n, e)
    requires -b <= Reach(prob, n, i) - Fraction(n - i, n) <= b
    ensures -(b + e) <= Reach(prob, n, i + 1) - Fraction(n - (i + 1), n) <= b + e
  {
    hide Reach, Within, Fraction;
    var d := n - i;
    var miss, rest := 1.0 - prob(d), 1.0 - Fraction(1, d);
    ReachStep(prob, n, i, miss);
    ExactStep(n, d, rest);
    OneValue(prob, n, e, d);
    DriftStep(Reach(prob, n, i), Fraction(d, n), miss, rest, b, e, Reach(prob, n, i + 1), Fraction(d - 1, n));
  }

  /** The printed reach of backend `i` is off from (n-i)/n by at most `i` printing errors. */
  lemma {:induction false} ReachBound(prob: nat -> real, n: nat, i: nat, e: real)
    requires i < n && Within(prob, n, e)
    ensures -Errors(i, e) <= Reach(prob, n, i) - Fraction(n - i, n) <= Errors(i, e)
  {
    hide Reach, Within, Fraction;
    if i == 0 {
      ReachStart(prob, n);
    } else {
      ReachBound(prob, n, i - 1, e);
      DriftOne(prob, n, i - 1, e, Errors(i - 1, e));
    }
  }

  lemma DrawWithin(prob: nat -> real, n: nat, i: nat, e: real)
    requires i < n && e >= 0.0 && Within(prob, n, e)
    ensures 0.0 <= Draw(prob, n, i) <= 1.0 && -e <= Draw(prob, n, i) - Fraction(1, n - i) <= e
  {
  }

  /** The balancing bound: backend `i` is off from 1/n by at most (i+1) printing errors. */
  lemma {:induction false} ShareBound(prob: nat -> real, n: nat, i: nat, e: real)
    requires i < n && e >= 0.0 && Within(prob, n, e)
    ensures -Errors(i + 1, e) <= Share(prob, n, i) - Fraction(1, n) <= Errors(i + 1, e)
  {
    hide Reach, Within, Draw, Fraction;
    ReachBound(prob, n, i, e);
    ExactStep(n, n - i, 1.0 - Fraction(1, n - i));
    DrawWithin(prob, n, i, e);
    DriftStep(Reach(prob, n, i), Fraction(n - i, n), Draw(prob, n, i), Fraction(1, n - i), Errors(i, e), e,
              Share(prob, n, i), Fraction(1, n));
  }

  // ---- five decimals ----

  /** `prob(d)` is a multiple of 1/100000 within half a unit of 1/d: 1/d printed with five decimals. */
  ghost predicate FiveDecimals(prob: nat -> real) {
    forall d :: d >= 2 ==>
      && prob(d) * 100000.0 == (prob(d) * 100000.0).Floor as real
      && 1.0 / d as real - 0.000005 <= prob(d) <= 1.0 / d as real + 0.000005
  }

  lemma Reciprocal(d: nat)
    requires d >= 2
    ensures 0.0 < 1.0 / d as real <= 0.5
    ensures d < 200000 ==> 1.0 / d as real > 0.000005
    ensures d > 200000 ==> 1.0 / d as real < 0.000005
  {
    var x := 1.0 / d as real;
    assert x * d as real == 1.0;
  }

  /** A printed probability is below one always, positive below 200000 and zero above. */
  lemma PrintedRange(prob: nat -> real, d: nat)
    requires FiveDecimals(prob) && d >= 2
    ensures 0.0 <= prob(d) < 1.0
    ensures d < 200000 ==> prob(d) > 0.0
    ensures d > 200000 ==> prob(d) == 0.0
  {
    Reciprocal(d);
    var k := (prob(d) * 100000.0).Floor;
    assert prob(d) * 100000.0 > -1.0;
    assert k >= 0;
    if d > 200000 {
      assert prob(d) * 100000.0 < 1.0;
      assert k == 0;
    }
  }

  /** Every backend of the list can be picked. */
  predicate AllReachable(prob: nat -> real, addrs: seq<Address>)
    requires addrs != []
  {
    forall a :: a in addrs ==> Pick(prob, addrs, 0, a) > 0.0
  }

  /**
   * Five decimals are not enough for every list: the exact condition under which all of `n`
   * different backends can be picked.  Past 200000 the first share prints as 0.00000.
   */
  lemma ReachableIff(prob: nat -> real, addrs: seq<Address>)
    requires addrs != [] && Distinct(addrs) && FiveDecimals(prob)
    ensures AllReachable(prob, addrs)
            <==> |addrs| < 200000 || (|addrs| == 200000 && prob(200000) > 0.0)
  {
    var n := |addrs|;
    if n < 200000 || (n == 200000 && prob(200000) > 0.0) {
      forall d | 2 <= d <= n
        ensures 0.0 < prob(d) < 1.0
      {
        PrintedRange(prob, d);
      }
      forall a | a in addrs
        ensures Pick(prob, addrs, 0, a) > 0.0
      {
        PickSupport(prob, addrs, 0, a);
        assert addrs[0..] == addrs;
      }
    } else {
      PrintedRange(prob, n);
      PickAbsent(prob, addrs, 1, addrs[0]);
      assert Pick(prob, addrs, 0, addrs[0]) == 0.0;
      assert addrs[0] in addrs;
    }
  }

  // ---- on the table ----

  /** On the programmed table with exact probabilities: each listing of a backend gets 1/n. */
  lemma {:induction false} ExactBalance(t0: Table, f: Format, services: seq<Service>, endpoints: seq<Endpoints>,
                     pkt: Packet, m: bool, a: Address, depth: nat)
    requires KUBE_SERVICES in t0 && Marking(t0) && CollisionFree(f, services, endpoints) && depth >= 3
    requires pkt.tcp && Owner(services, endpoints, pkt).Some?
    requires Exact(f.prob, |Backends(Owner(services, endpoints, pkt).value.name, endpoints)|)
    ensures Apply(t0, Plan(f, services, endpoints)).Some?
    ensures var t := Apply(t0, Plan(f, services, endpoints)).value;
            var addrs := Backends(Owner(services, endpoints, pkt).value.name, endpoints);
            KUBE_SERVICES in t && addrs != []
            && Odds(t, t[KUBE_SERVICES], pkt, m, Rewritten(a, true), depth)
               == Count(addrs, a) as real / |addrs| as real
  {
    hide Odds, Apply, Plan, CollisionFree;
    PlanPreservesMeaning(t0, f, services, endpoints, pkt, m, Rewritten(a, true), depth);
    var addrs := Backends(Owner(services, endpoints, pkt).value.name, endpoints);
    ExactPick(f.prob, addrs, 0, a);
    assert addrs[0..] == addrs;
  }

  /** With five printed decimals: backend `i` of `n` different ones gets 1/n up to (i+1)/200000. */
  lemma {:induction false} PrintedBalance(t0: Table, f: Format, services: seq<Service>, endpoints: seq<Endpoints>,
                       pkt: Packet, m: bool, i: nat, depth: nat)
    requires KUBE_SERVICES in t0 && Marking(t0) && CollisionFree(f, services, endpoints) && depth >= 3
    requires pkt.tcp && Owner(services, endpoints, pkt).Some? && FiveDecimals(f.prob)
    requires var addrs := Backends(Owner(services, endpoints, pkt).value.name, endpoints);
             Distinct(addrs) && i < |addrs|
    ensures Apply(t0, Plan(f, services, endpoints)).Some?
    ensures var t := Apply(t0, Plan(f, services, endpoints)).value;
            var addrs := Backends(Owner(services, endpoints, pkt).value.name, endpoints);
            KUBE_SERVICES in t
            && -((i + 1) as real * 0.000005)
               <= Odds(t, t[KUBE_SERVICES], pkt, m, Rewritten(addrs[i], true), depth) - 1.0 / |addrs| as real
               <= (i + 1) as real * 0.000005
  {
    hide Odds, Apply, Plan, CollisionFree;
    var addrs := Backends(Owner(services, endpoints, pkt).value.name, endpoints);
    PlanPreservesMeaning(t0, f, services, endpoints, pkt, m, Rewritten(addrs[i], true), depth);
    forall d | 2 <= d <= |addrs|
      ensures 0.0 <= f.prob(d) < 1.0
    {
      PrintedRange(f.prob, d);
    }
    PickIsShare(f.prob, addrs, 0, i);
    ShareBound(f.prob, |addrs|, i, 0.000005);
    ErrorsAre(i + 1, 0.000005);
  }
}
