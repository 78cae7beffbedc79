/**
 * The host-local address allocator of one /24 (src/ipam.rs): a cursor, the released addresses and
 * the allocated ones, refining a plain set of used hosts.
 */
module Ipam {
  import opened Options

  /** The last octet of an address. */
  type Host = h: nat | h < 256

  const FIRST_HOST: nat := 2
  const BROADCAST_HOST: nat := 255

  datatype Prefix = Prefix(a: Host, b: Host, c: Host)
  datatype Address = Address(prefix: Prefix, host: Host)

  /** The state of an allocator; its prefix never changes. */
  datatype Pool = Pool(next: nat, released: set<Host>, inUse: set<Host>)

  const FRESH: Pool := Pool(FIRST_HOST, {}, {})

  predicate Usable(h: Host) {
    FIRST_HOST <= h < BROADCAST_HOST
  }

  /** The 253 addresses a /24 has to give. */
  ghost function AllHosts(): set<Host> {
    set h: Host | Usable(h)
  }

  ghost predicate Valid(p: Pool) {
    && FIRST_HOST <= p.next <= BROADCAST_HOST
    && p.released !! p.inUse
    && (forall h :: h in p.released || h in p.inUse ==> Usable(h))
    && (forall h: Host :: FIRST_HOST <= h < p.next ==> h in p.released || h in p.inUse)
  }

  // ---- what each operation does ----

  /** The smallest released host if there is one, else the first unallocated host from the cursor on. */
  ghost predicate Hands(p: Pool, q: Pool, h: Host) {
    && q.inUse == p.inUse + {h} && q.released == p.released - {h}
    && if p.released != {} then
         h in p.released && (forall g :: g in p.released ==> h <= g) && q.next == p.next
       else
         && p.next <= h < BROADCAST_HOST && h !in p.inUse && q.next == h + 1
         && (forall g: Host :: p.next <= g < h ==> g in p.inUse)
  }

  ghost predicate Allocates(p: Pool, q: Pool, r: Option<Host>) {
    if r.Some? then Hands(p, q, r.value)
    else
      && q == p.(next := BROADCAST_HOST) && p.released == {}
      && forall g: Host :: p.next <= g < BROADCAST_HOST ==> g in p.inUse
  }

  function Reserved(p: Pool, h: Host): Pool {
    if Usable(h) then p.(released := p.released - {h}, inUse := p.inUse + {h}) else p
  }

  function Freed(p: Pool, h: Host): Pool {
    if Usable(h) && h in p.inUse then p.(released := p.released + {h}, inUse := p.inUse - {h}) else p
  }

  // ---- the allocator as an object ----

  class IpAllocator {
    const prefix: Prefix
    var next: nat
    var released: set<Host>
    var inUse: set<Host>

    ghost function State(): Pool
      reads this
    {
      Pool(next, released, inUse)
    }

    constructor (p: Prefix)
      ensures prefix == p && State() == FRESH
    {
      prefix, next, released, inUse := p, FIRST_HOST, {}, {};
    }

    method Allocate() returns (r: Option<Address>)
      requires Valid(State())
      modifies this
      ensures r.Some? ==> r.value.prefix == prefix
      ensures Allocates(old(State()), State(), if r.Some? then Some(r.value.host) else None)
    {
      if released != {} {
        var host := Smallest(released);
        released := released - {host};
        inUse := inUse + {host};
        return Some(Address(prefix, host));
      }
      while next < BROADCAST_HOST
        invariant old(next) <= next <= BROADCAST_HOST && released == {} && inUse == old(inUse)
        invariant forall g: Host :: old(next) <= g < next ==> g in inUse
      {
        var host: Host := next;
        next := next + 1;
        if host !in inUse {
          inUse := inUse + {host};
          return Some(Address(prefix, host));
        }
      }
      return None;
    }

    /** Recovery: claim an address that a surviving pod already has.  True unless it is out of range. */
    method Reserve(ip: Address) returns (ok: bool)
      modifies this
      ensures ok <==> ip.prefix == prefix && ip.host != 0 && ip.host != 1 && ip.host != 255
      ensures State() == if ok then Reserved(old(State()), ip.host) else old(State())
    {
      var host := HostInRange(ip);
      if host.None? {
        return false;
      }
      released := released - {host.value};
      inUse := inUse + {host.value};
      return true;
    }

    method Release(ip: Address)
      modifies this
      ensures State() == if ip.prefix == prefix then Freed(old(State()), ip.host) else old(State())
    {
      var host := HostInRange(ip);
      if host.Some? && host.value in inUse {
        inUse := inUse - {host.value};
        released := released + {host.value};
      }
    }

    method HostInRange(ip: Address) returns (r: Option<Host>)
      ensures r == if ip.prefix == prefix && Usable(ip.host) then Some(ip.host) else None
    {
      if ip.prefix != prefix {
        return None;
      }
      if ip.host == 0 || ip.host == 1 || ip.host == 255 {
        return None;
      }
      return Some(ip.host);
    }
  }

  /** The first element of an ordered set. */
  method Smallest(s: set<Host>) returns (m: Host)
    requires s != {}
    ensures m in s && forall g :: g in s ==> m <= g
  {
    m :| m in s;
    var rest := s - {m};
    while rest != {}
      invariant rest <= s && m in s
      invariant forall g :: g in s && g !in rest ==> m <= g
      decreases rest
    {
      var x :| x in rest;
      rest := rest - {x};
      if x < m {
        m := x;
      }
    }
  }

  // ---- refinement of a set of used hosts ----

  /** Every operation keeps the pool valid and acts on the set of used hosts as its name says. */
  lemma AllocateRefines(p: Pool, q: Pool, r: Option<Host>)
    requires Valid(p) && Allocates(p, q, r)
    ensures Valid(q)
    ensures r.Some? ==> r.value in AllHosts() && r.value !in p.inUse && q.inUse == p.inUse + {r.value}
    ensures r.Some? && p.released == {} ==> forall g: Host :: Usable(g) && g < r.value ==> g in p.inUse
    ensures r.Some? && p.released != {} ==>
      r.value in p.released && q.released == p.released - {r.value} && q.next == p.next && forall g :: g in p.released ==> r.value <= g
    ensures r.None? ==> q.inUse == p.inUse
  {
  }

  /** Allocation fails exactly when every address of the /24 is in use. */
  lemma FailsOnlyWhenFull(p: Pool, q: Pool, r: Option<Host>)
    requires Valid(p) && Allocates(p, q, r)
    ensures r.None? <==> p.inUse == AllHosts()
  {
    if r.None? {
      forall h: Host
        ensures h in p.inUse <==> Usable(h)
      {
      }
    }
  }

  predicate Between(lo: nat, h: Host, hi: nat) {
    lo <= h < hi
  }

  lemma {:induction false} RangeSize(lo: nat, hi: nat)
    requires lo <= hi <= 256
    ensures |set h: Host | Between(lo, h, hi)| == hi - lo
    decreases hi
  {
    if lo < hi {
      var last: Host := hi - 1;
      RangeSize(lo, last);
      assert (set h: Host | Between(lo, h, hi)) == (set h: Host | Between(lo, h, last)) + {last};
    }
  }

  /** A full pool is 253 hosts in use, and no valid pool has more. */
  lemma Capacity(p: Pool)
    requires Valid(p)
    ensures |AllHosts()| == 253 && |p.inUse| <= 253
    ensures |p.inUse| == 253 <==> p.inUse == AllHosts()
  {
    RangeSize(FIRST_HOST, BROADCAST_HOST);
    assert AllHosts() == set h: Host | Between(FIRST_HOST, h, BROADCAST_HOST);
    assert p.inUse <= AllHosts();
    SubsetSize(p.inUse, AllHosts());
  }

  lemma {:induction false} SubsetSize(a: set<Host>, b: set<Host>)
    requires a <= b
    ensures |a| <= |b| && (|a| == |b| ==> a == b)
  {
    if a != {} {
      var x :| x in a;
      SubsetSize(a - {x}, b - {x});
    }
  }

  lemma ReserveRefines(p: Pool, h: Host)
    requires Valid(p)
    ensures Valid(Reserved(p, h))
    ensures Usable(h) ==> Reserved(p, h).inUse == p.inUse + {h}
  {
  }

  lemma ReleaseRefines(p: Pool, h: Host)
    requires Valid(p)
    ensures Valid(Freed(p, h)) && Freed(p, h).inUse == p.inUse - {h} && Freed(p, h).next == p.next
    ensures Freed(p, h).released == if h in p.inUse then p.released + {h} else p.released
  {
  }

  // ---- runs ----

  datatype Op = Allocate(result: Option<Host>) | Reserve(host: Host) | Release(host: Host)

  ghost predicate Step(p: Pool, op: Op, q: Pool) {
    match op
    case Allocate(r) => Allocates(p, q, r)
    case Reserve(h) => q == Reserved(p, h)
    case Release(h) => q == Freed(p, h)
  }

  ghost predicate IsRun(pools: seq<Pool>, ops: seq<Op>) {
    && |pools| == |ops| + 1 && pools[0] == FRESH
    && forall k :: 0 <= k < |ops| ==> Step(pools[k], ops[k], pools[k + 1])
  }

  lemma {:induction false} RunValid(pools: seq<Pool>, ops: seq<Op>, k: nat)
    requires IsRun(pools, ops) && k < |pools|
    ensures Valid(pools[k])
  {
    if k > 0 {
      RunValid(pools, ops, k - 1);
      var p, q := pools[k - 1], pools[k];
      assert Step(p, ops[k - 1], q);
      match ops[k - 1]
      case Allocate(r) => AllocateRefines(p, q, r);
      case Reserve(h) => ReserveRefines(p, h);
      case Release(h) => ReleaseRefines(p, h);
    }
  }

  /** The operation puts host `h` to use. */
  predicate Claims(op: Op, h: Host) {
    op == Allocate(Some(h)) || (op == Reserve(h) && Usable(h))
  }

  lemma {:induction false} StaysInUse(pools: seq<Pool>, ops: seq<Op>, i: nat, j: nat, h: Host)
    requires IsRun(pools, ops) && i < j < |pools| && Claims(ops[i], h)
    requires forall m :: i < m < j ==> ops[m] != Release(h)
    ensures h in pools[j].inUse
    decreases j
  {
    assert Step(pools[j - 1], ops[j - 1], pools[j]);
    RunValid(pools, ops, j - 1);
    if i + 1 < j {
      StaysInUse(pools, ops, i, j - 1, h);
      if ops[j - 1].Release? {
        ReleaseRefines(pools[j - 1], ops[j - 1].host);
      }
    }
  }

  /** An address handed out or recovered is never handed out again before it is released. */
  lemma NeverHandedTwice(pools: seq<Pool>, ops: seq<Op>, i: nat, j: nat, h: Host)
    requires IsRun(pools, ops) && i < j < |ops| && Claims(ops[i], h) && ops[j] == Allocate(Some(h))
    ensures exists m :: i < m < j && ops[m] == Release(h)
  {
    if forall m :: i < m < j ==> ops[m] != Release(h) {
      StaysInUse(pools, ops, i, j, h);
      RunValid(pools, ops, j);
      assert Step(pools[j], ops[j], pools[j + 1]);
      AllocateRefines(pools[j], pools[j + 1], Some(h));
      assert false;
    }
  }

  /** The network, the gateway and the broadcast address are never handed out. */
  lemma NeverReserved(pools: seq<Pool>, ops: seq<Op>, k: nat, h: Host)
    requires IsRun(pools, ops) && k < |ops| && ops[k] == Allocate(Some(h))
    ensures h != 0 && h != 1 && h != 255
  {
    RunValid(pools, ops, k);
    assert Step(pools[k], ops[k], pools[k + 1]);
    AllocateRefines(pools[k], pools[k + 1], Some(h));
  }

  /** In use are the hosts below the cursor and no others. */
  predicate UsesBelowCursor(p: Pool) {
    forall h: Host :: h in p.inUse <==> 2 <= h < p.next
  }

  /** A fresh pool that only allocates hands out .2, .3, .4 and so on up to .254, and then fails. */
  lemma {:induction false} CountsUp(pools: seq<Pool>, ops: seq<Op>, k: nat)
    requires IsRun(pools, ops) && k < |ops| && forall i :: 0 <= i < |ops| ==> ops[i].Allocate?
    ensures ops[k] == Allocate(if k < 253 then Some(k + 2) else None)
    ensures pools[k + 1].next == (if k < 253 then k + 3 else 255) && pools[k + 1].released == {}
    ensures UsesBelowCursor(pools[k + 1])
  {
    if k > 0 {
      CountsUp(pools, ops, k - 1);
    }
    assert Step(pools[k], ops[k], pools[k + 1]);
    var p, r := pools[k], ops[k].result;
    if p.next < 255 {
      var g: Host := p.next;
      assert g !in p.inUse;
      assert r.Some?;
    }
  }

  /** Recovery claims an address whoever else holds it, except those three. */
  lemma ReservedClaims(p: Pool, h: Host)
    ensures h == 0 || h == 1 || h == 255 ==> Reserved(p, h) == p
    ensures h != 0 && h != 1 && h != 255 ==> h in Reserved(p, h).inUse && h !in Reserved(p, h).released && Reserved(p, h).next == p.next
    ensures forall g :: g != h ==> (g in Reserved(p, h).inUse <==> g in p.inUse) && (g in Reserved(p, h).released <==> g in p.released)
  {
  }
}
