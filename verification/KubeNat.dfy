/**
 * What the planned commands do: an interpreter of the nat table that stops at the first command
 * that fails (src/kube_proxy.rs, apply_rules), and the table every plan leaves behind.
 */
module KubeNat {
  import opened Options
  import opened KubeProxy

  type Table = map<Chain, seq<Rule>>

  /**
   * One command.  `-N` is tolerated when the chain exists, `-F` and `-A` need their chain, and a
   * jump needs its target.
   */
  function Run(t: Table, c: Command): Option<Table> {
    match c
    case Create(chain) => Some(if chain in t then t else t[chain := []])
    case Flush(chain) => if chain in t then Some(t[chain := []]) else None
    case Append(chain, rule) =>
      if chain in t && (rule.target.Jump? ==> rule.target.chain in t) then Some(t[chain := t[chain] + [rule]])
      else None
  }

  /** A command fails exactly if its chain is missing, unless it is to create it, or if the target of its jump is. */
  lemma FailsIff(t: Table, c: Command)
    ensures Run(t, c).None? <==>
      match c
      case Create(_) => false
      case Flush(chain) => chain !in t
      case Append(chain, rule) => chain !in t || (rule.target.Jump? && rule.target.chain !in t)
  {
  }

  function Apply(t: Table, cmds: seq<Command>): Option<Table>
    decreases |cmds|
  {
    if cmds == [] then Some(t)
    else
      var r := Run(t, cmds[0]);
      if r.None? then None else Apply(r.value, cmds[1..])
  }

  /** The loop over the planned commands. */
  method ApplyRules(t: Table, cmds: seq<Command>) returns (r: Option<Table>)
    ensures r == Apply(t, cmds)
  {
    var cur := t;
    for i := 0 to |cmds|
      invariant Apply(t, cmds) == Apply(cur, cmds[i..])
    {
      assert cmds[i..][1..] == cmds[i + 1..];
      var next := Run(cur, cmds[i]);
      if next.None? {
        return None;
      }
      cur := next.value;
    }
    return Some(cur);
  }

  lemma {:induction false} ApplyConcat(t: Table, a: seq<Command>, b: seq<Command>)
    requires Apply(t, a).Some?
    ensures Apply(t, a + b) == Apply(Apply(t, a).value, b)
    decreases |a|
  {
    if a == [] {
      assert a + b == b;
    } else {
      assert (a + b)[0] == a[0] && (a + b)[1..] == a[1..] + b;
      ApplyConcat(Run(t, a[0]).value, a[1..], b);
    }
  }

  // ---- the table after a plan ----

  /** The spread rules for the first `k` backends. */
  function Spread(f: Format, service: string, addrs: seq<Address>, k: nat): (r: seq<Rule>)
    requires k <= |addrs|
    ensures |r| == k && forall i :: 0 <= i < k ==> r[i] == SpreadRule(f, service, addrs, i)
  {
    if k == 0 then [] else Spread(f, service, addrs, k - 1) + [SpreadRule(f, service, addrs, k - 1)]
  }

  /** The table after the service chain was emptied and `k` backends were programmed. */
  function WithBackends(t: Table, f: Format, service: string, addrs: seq<Address>, k: nat): Table
    requires k <= |addrs|
  {
    if k == 0 then t[SvcChain(f, service) := []]
    else
      WithBackends(t, f, service, addrs, k - 1)
      [SepChain(f, service, addrs[k - 1]) := SepRules(addrs[k - 1])]
      [SvcChain(f, service) := Spread(f, service, addrs, k)]
  }

  lemma BackendRuns(t: Table, f: Format, service: string, addrs: seq<Address>, i: nat)
    requires i < |addrs|
    requires SvcChain(f, service) in t && t[SvcChain(f, service)] == Spread(f, service, addrs, i)
    requires KUBE_MARK_MASQ in t
    ensures Apply(t, PlanBackend(f, service, addrs, i))
            == Some(t[SepChain(f, service, addrs[i]) := SepRules(addrs[i])]
                     [SvcChain(f, service) := Spread(f, service, addrs, i + 1)])
  {
    var a, svc, sep := addrs[i], SvcChain(f, service), SepChain(f, service, addrs[i]);
    NamesApart(f, service, service, a);
    var cmds := PlanBackend(f, service, addrs, i);
    var t1 := Run(t, cmds[0]).value;
    var t2 := t1[sep := []];
    assert Run(t1, cmds[1]) == Some(t2);
    var t3 := t2[sep := [SepRules(a)[0]]];
    assert Run(t2, cmds[2]) == Some(t3) by { assert [] + [SepRules(a)[0]] == [SepRules(a)[0]]; }
    var t4 := t3[sep := SepRules(a)];
    assert Run(t3, cmds[3]) == Some(t4) by { assert [SepRules(a)[0]] + [SepRules(a)[1]] == SepRules(a); }
    var t5 := t4[svc := Spread(f, service, addrs, i + 1)];
    assert Run(t4, cmds[4]) == Some(t5);
    assert t5 == t[sep := SepRules(a)][svc := Spread(f, service, addrs, i + 1)];
    ApplyFive(t, t1, t2, t3, t4, t5, cmds);
  }

  lemma {:induction false} ApplyFive(t: Table, t1: Table, t2: Table, t3: Table, t4: Table, t5: Table, cmds: seq<Command>)
    requires |cmds| == 5 && Run(t, cmds[0]) == Some(t1) && Run(t1, cmds[1]) == Some(t2)
    requires Run(t2, cmds[2]) == Some(t3) && Run(t3, cmds[3]) == Some(t4) && Run(t4, cmds[4]) == Some(t5)
    ensures Apply(t, cmds) == Some(t5)
  {
    hide Run;
    assert cmds[1..][0] == cmds[1] && cmds[1..][1..] == cmds[2..];
    assert cmds[2..][0] == cmds[2] && cmds[2..][1..] == cmds[3..];
    assert cmds[3..][0] == cmds[3] && cmds[3..][1..] == cmds[4..];
    assert cmds[4..][0] == cmds[4] && cmds[4..][1..] == [];
    assert Apply(t5, []) == Some(t5);
    assert Apply(t4, cmds[4..]) == Some(t5);
    assert Apply(t3, cmds[3..]) == Some(t5);
    assert Apply(t2, cmds[2..]) == Some(t5);
    assert Apply(t1, cmds[1..]) == Some(t5);
  }

  /** No two backends of the service share a chain. */
  predicate SepsApart(f: Format, service: string, addrs: seq<Address>) {
    forall a, b :: a in addrs && b in addrs && SepChain(f, service, a) == SepChain(f, service, b) ==> a == b
  }

  lemma {:induction false} BackendsRun(t: Table, f: Format, service: string, addrs: seq<Address>, k: nat)
    requires k <= |addrs| && KUBE_MARK_MASQ in t
    ensures Apply(t[SvcChain(f, service) := []], PlanBackends(f, service, addrs, k))
            == Some(WithBackends(t, f, service, addrs, k))
    ensures KUBE_MARK_MASQ in WithBackends(t, f, service, addrs, k)
    ensures SvcChain(f, service) in WithBackends(t, f, service, addrs, k)
    ensures WithBackends(t, f, service, addrs, k)[SvcChain(f, service)] == Spread(f, service, addrs, k)
  {
    if k > 0 {
      BackendsRun(t, f, service, addrs, k - 1);
      var mid := WithBackends(t, f, service, addrs, k - 1);
      BackendRuns(mid, f, service, addrs, k - 1);
      ApplyConcat(t[SvcChain(f, service) := []], PlanBackends(f, service, addrs, k - 1),
                  PlanBackend(f, service, addrs, k - 1));
    }
  }

  lemma {:induction false} BackendsLeave(t: Table, f: Format, service: string, addrs: seq<Address>, k: nat)
    requires k <= |addrs| && SepsApart(f, service, addrs)
    ensures forall i :: 0 <= i < k ==>
      var sep := SepChain(f, service, addrs[i]);
      var after := WithBackends(t, f, service, addrs, k);
      sep in after && after[sep] == SepRules(addrs[i])
  {
    if k > 0 {
      BackendsLeave(t, f, service, addrs, k - 1);
      forall i | 0 <= i < k
        ensures var sep := SepChain(f, service, addrs[i]);
                var after := WithBackends(t, f, service, addrs, k);
                sep in after && after[sep] == SepRules(addrs[i])
      {
        NamesApart(f, service, service, addrs[i]);
      }
    }
  }

  lemma {:induction false} BackendsFrame(t: Table, f: Format, service: string, addrs: seq<Address>, k: nat, c: Chain)
    requires k <= |addrs| && c in t && c != SvcChain(f, service)
    requires forall a :: a in addrs ==> c != SepChain(f, service, a)
    ensures c in WithBackends(t, f, service, addrs, k) && WithBackends(t, f, service, addrs, k)[c] == t[c]
  {
    if k > 0 {
      BackendsFrame(t, f, service, addrs, k - 1, c);
    }
  }

  /** The table after one live service was programmed. */
  function WithService(t: Table, f: Format, s: Service, endpoints: seq<Endpoints>): Table
    requires KUBE_SERVICES in t
  {
    if !Live(s, endpoints) then t
    else
      var addrs := Backends(s.name, endpoints);
      WithBackends(t, f, s.name, addrs, |addrs|)[KUBE_SERVICES := t[KUBE_SERVICES] + [Entry(f, s)]]
  }

  lemma {:induction false} ServiceRuns(t: Table, f: Format, s: Service, endpoints: seq<Endpoints>)
    requires KUBE_MARK_MASQ in t && KUBE_SERVICES in t
    ensures Apply(t, PlanService(f, s, endpoints)) == Some(WithService(t, f, s, endpoints))
  {
    if Live(s, endpoints) {
      var addrs, svc := Backends(s.name, endpoints), SvcChain(f, s.name);
      var head, tail := [Create(svc), Flush(svc)], [Append(KUBE_SERVICES, Entry(f, s))];
      var body := PlanBackends(f, s.name, addrs, |addrs|);
      NamesApart(f, s.name, s.name, addrs[0]);
      HeadRuns(t, svc);
      BackendsRun(t, f, s.name, addrs, |addrs|);
      ApplyConcat(t, head, body);
      forall a | a in addrs
        ensures KUBE_SERVICES != SepChain(f, s.name, a)
      {
        NamesApart(f, s.name, s.name, a);
      }
      BackendsFrame(t, f, s.name, addrs, |addrs|, KUBE_SERVICES);
      ApplyConcat(t, head + body, tail);
      TailRuns(WithBackends(t, f, s.name, addrs, |addrs|), f, s);
    }
  }

  lemma {:induction false} HeadRuns(t: Table, svc: Chain)
    ensures Apply(t, [Create(svc), Flush(svc)]) == Some(t[svc := []])
  {
    var t1 := if svc in t then t else t[svc := []];
    assert Run(t, Create(svc)) == Some(t1);
    assert t1[svc := []] == t[svc := []];
    assert [Create(svc), Flush(svc)][1..] == [Flush(svc)] && [Flush(svc)][1..] == [];
    assert Apply(t1, [Flush(svc)]) == Apply(t1[svc := []], []);
  }

  lemma {:induction false} TailRuns(t: Table, f: Format, s: Service)
    requires s.clusterIp.Some? && KUBE_SERVICES in t && SvcChain(f, s.name) in t
    ensures Apply(t, [Append(KUBE_SERVICES, Entry(f, s))])
            == Some(t[KUBE_SERVICES := t[KUBE_SERVICES] + [Entry(f, s)]])
  {
    assert [Append(KUBE_SERVICES, Entry(f, s))][1..] == [];
  }

  // ---- what holds of the table after the whole plan ----

  /** The dispatch rules: one per live service, in listing order. */
  function Entries(f: Format, services: seq<Service>, endpoints: seq<Endpoints>): seq<Rule> {
    if services == [] then []
    else
      var k := |services| - 1;
      Entries(f, services[..k], endpoints)
      + (if Live(services[k], endpoints) then [Entry(f, services[k])] else [])
  }

  /** The service's own chain spreads over its backends and every backend chain rewrites to it. */
  predicate ServiceReady(t: Table, f: Format, s: Service, endpoints: seq<Endpoints>) {
    var addrs := Backends(s.name, endpoints);
    && SvcChain(f, s.name) in t
    && t[SvcChain(f, s.name)] == Spread(f, s.name, addrs, |addrs|)
    && forall a :: a in addrs ==> SepChain(f, s.name, a) in t && t[SepChain(f, s.name, a)] == SepRules(a)
  }

  /** `t` is the table left by programming `services` from the prior table `t0`. */
  predicate Programmed(t0: Table, t: Table, f: Format, services: seq<Service>, endpoints: seq<Endpoints>) {
    && KUBE_SERVICES in t && t[KUBE_SERVICES] == Entries(f, services, endpoints)
    && (forall s :: s in services && Live(s, endpoints) ==> ServiceReady(t, f, s, endpoints))
    && (forall c :: c in t0 && !Owned(c) ==> c in t && t[c] == t0[c])
  }

  lemma {:induction false} OneReady(t: Table, f: Format, s: Service, endpoints: seq<Endpoints>)
    requires KUBE_SERVICES in t && KUBE_MARK_MASQ in t
    requires Live(s, endpoints) && SepsApart(f, s.name, Backends(s.name, endpoints))
    ensures ServiceReady(WithService(t, f, s, endpoints), f, s, endpoints)
  {
    var addrs, after := Backends(s.name, endpoints), WithService(t, f, s, endpoints);
    BackendsRun(t, f, s.name, addrs, |addrs|);
    BackendsLeave(t, f, s.name, addrs, |addrs|);
    NamesApart(f, s.name, s.name, addrs[0]);
    forall a | a in addrs
      ensures SepChain(f, s.name, a) in after && after[SepChain(f, s.name, a)] == SepRules(a)
    {
      NamesApart(f, s.name, s.name, a);
      var i :| 0 <= i < |addrs| && addrs[i] == a;
    }
  }

  /** Programming `s` touches no chain of another service `o`. */
  lemma {:induction false} OthersStay(t: Table, f: Format, s: Service, o: Service, endpoints: seq<Endpoints>)
    requires KUBE_SERVICES in t && ServiceReady(t, f, o, endpoints)
    requires SvcChain(f, s.name) != SvcChain(f, o.name)
    requires forall a, b :: a in Backends(s.name, endpoints) && b in Backends(o.name, endpoints)
               ==> SepChain(f, s.name, a) != SepChain(f, o.name, b)
    ensures ServiceReady(WithService(t, f, s, endpoints), f, o, endpoints)
  {
    if Live(s, endpoints) {
      var addrs := Backends(s.name, endpoints);
      forall a | a in addrs
        ensures SepChain(f, s.name, a) != SvcChain(f, o.name)
      {
        NamesApart(f, o.name, s.name, a);
      }
      NamesApart(f, o.name, o.name, addrs[0]);
      BackendsFrame(t, f, s.name, addrs, |addrs|, SvcChain(f, o.name));
      forall b | b in Backends(o.name, endpoints)
        ensures SepChain(f, o.name, b) in WithService(t, f, s, endpoints)
        ensures WithService(t, f, s, endpoints)[SepChain(f, o.name, b)] == SepRules(b)
      {
        NamesApart(f, s.name, o.name, b);
        NamesApart(f, o.name, o.name, b);
        BackendsFrame(t, f, s.name, addrs, |addrs|, SepChain(f, o.name, b));
      }
    }
  }

  lemma UnownedStays(t: Table, f: Format, s: Service, endpoints: seq<Endpoints>, c: Chain)
    requires KUBE_SERVICES in t && c in t && !Owned(c)
    ensures c in WithService(t, f, s, endpoints) && WithService(t, f, s, endpoints)[c] == t[c]
  {
    if Live(s, endpoints) {
      var addrs := Backends(s.name, endpoints);
      NamesApart(f, s.name, s.name, addrs[0]);
      forall a | a in addrs
        ensures c != SepChain(f, s.name, a)
      {
        NamesApart(f, s.name, s.name, a);
      }
      BackendsFrame(t, f, s.name, addrs, |addrs|, c);
    }
  }

  lemma StepProgrammed(t0: Table, t: Table, f: Format, services: seq<Service>, endpoints: seq<Endpoints>)
    requires services != [] && CollisionFree(f, services, endpoints)
    requires KUBE_MARK_MASQ in t0 && Programmed(t0, t, f, services[..|services| - 1], endpoints)
    ensures Programmed(t0, WithService(t, f, services[|services| - 1], endpoints), f, services, endpoints)
  {
    hide ServiceReady;
    var k := |services| - 1;
    var s := services[k];
    var after := WithService(t, f, s, endpoints);
    NamesApart(f, s.name, s.name, Address("", 0));
    forall o | o in services && Live(o, endpoints)
      ensures ServiceReady(after, f, o, endpoints)
    {
      var i :| 0 <= i < |services| && services[i] == o;
      if i == k {
        OneReady(t, f, s, endpoints);
      } else {
        assert o == services[..k][i];
        OthersStay(t, f, s, o, endpoints);
      }
    }
    forall c | c in t0 && !Owned(c)
      ensures c in after && after[c] == t0[c]
    {
      UnownedStays(t, f, s, endpoints, c);
    }
    ServicesChain(t, f, s, endpoints);
  }

  lemma ServicesChain(t: Table, f: Format, s: Service, endpoints: seq<Endpoints>)
    requires KUBE_SERVICES in t
    ensures var after := WithService(t, f, s, endpoints);
            KUBE_SERVICES in after
            && after[KUBE_SERVICES] == t[KUBE_SERVICES] + (if Live(s, endpoints) then [Entry(f, s)] else [])
  {
  }

  lemma {:induction false} ServicesRun(t0: Table, t: Table, f: Format, services: seq<Service>, endpoints: seq<Endpoints>)
    requires CollisionFree(f, services, endpoints)
    requires KUBE_MARK_MASQ in t0 && Programmed(t0, t, f, [], endpoints)
    ensures Apply(t, PlanServices(f, services, endpoints)).Some?
    ensures Programmed(t0, Apply(t, PlanServices(f, services, endpoints)).value, f, services, endpoints)
  {
    if services != [] {
      hide Programmed, Apply;
      var k := |services| - 1;
      FewerCollide(f, services, endpoints);
      ServicesRun(t0, t, f, services[..k], endpoints);
      var mid := Apply(t, PlanServices(f, services[..k], endpoints)).value;
      BaseChains(t0, mid, f, services[..k], endpoints);
      ServiceRuns(mid, f, services[k], endpoints);
      ApplyConcat(t, PlanServices(f, services[..k], endpoints), PlanService(f, services[k], endpoints));
      StepProgrammed(t0, mid, f, services, endpoints);
    }
  }

  lemma BaseChains(t0: Table, t: Table, f: Format, services: seq<Service>, endpoints: seq<Endpoints>)
    requires KUBE_MARK_MASQ in t0 && Programmed(t0, t, f, services, endpoints)
    ensures KUBE_SERVICES in t && KUBE_MARK_MASQ in t && t[KUBE_MARK_MASQ] == t0[KUBE_MARK_MASQ]
  {
    NamesApart(f, "", "", Address("", 0));
  }

  lemma FewerCollide(f: Format, services: seq<Service>, endpoints: seq<Endpoints>)
    requires services != [] && CollisionFree(f, services, endpoints)
    ensures CollisionFree(f, services[..|services| - 1], endpoints)
  {
  }

  /**
   * From any prior table that has the two base chains no planned command fails, and what is left
   * is exactly the programmed services; every chain that is not the proxy's own is untouched.
   */
  lemma {:induction false} PlanSucceeds(t0: Table, f: Format, services: seq<Service>, endpoints: seq<Endpoints>)
    requires KUBE_SERVICES in t0 && KUBE_MARK_MASQ in t0
    requires CollisionFree(f, services, endpoints)
    ensures Apply(t0, Plan(f, services, endpoints)).Some?
    ensures Programmed(t0, Apply(t0, Plan(f, services, endpoints)).value, f, services, endpoints)
  {
    var t := t0[KUBE_SERVICES := []];
    assert Programmed(t0, t, f, [], endpoints);
    assert [Flush(KUBE_SERVICES)][1..] == [];
    assert Apply(t0, [Flush(KUBE_SERVICES)]) == Some(t) by {
      assert Run(t0, Flush(KUBE_SERVICES)) == Some(t);
    }
    ApplyConcat(t0, [Flush(KUBE_SERVICES)], PlanServices(f, services, endpoints));
    ServicesRun(t0, t, f, services, endpoints);
  }
}
