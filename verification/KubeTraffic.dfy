/**
 * What a programmed table means for a packet.  Traversal is first match: a jump returns to its
 * caller when the chain it entered ends without a verdict, MARK goes on, DNAT ends the traversal.
 * `Odds` is the probability of each verdict; the compiler's promises are about these odds.
 */
module KubeTraffic {
  import opened Options
  import opened KubeProxy
  import opened KubeNat

  datatype Packet = Packet(tcp: bool, dst: string, dport: nat)

  /** Rewritten to a backend, or back from the chain with no rewrite; either with or without the mark. */
  datatype Verdict = Rewritten(to: Address, marked: bool) | Through(marked: bool)

  function Indicator(b: bool): real {
    if b then 1.0 else 0.0
  }

  /** The probability that a condition matches. */
  function Hit(cond: Match, pkt: Packet): real {
    match cond
    case Any => 1.0
    case Tcp => Indicator(pkt.tcp)
    case Vip(dst, dport) => Indicator(pkt.tcp && pkt.dst == dst && pkt.dport == dport)
    case Random(p) => p
  }

  /** The probability that `rules` end in `v`, for a packet that enters with mark `m`. */
  function Odds(t: Table, rules: seq<Rule>, pkt: Packet, m: bool, v: Verdict, depth: nat): real
    decreases depth, |rules|, 1
  {
    if rules == [] then Indicator(v == Through(m))
    else
      Hit(rules[0].cond, pkt) * Taken(t, rules, pkt, m, v, depth)
      + (1.0 - Hit(rules[0].cond, pkt)) * Odds(t, rules[1..], pkt, m, v, depth)
  }

  /** The same, given that the first rule matched; `depth` bounds the nesting of jumps. */
  function Taken(t: Table, rules: seq<Rule>, pkt: Packet, m: bool, v: Verdict, depth: nat): real
    requires rules != []
    decreases depth, |rules|, 0
  {
    match rules[0].target
    case Mark => Odds(t, rules[1..], pkt, true, v, depth)
    case Dnat(to) => Indicator(v == Rewritten(to, m))
    case Jump(c) =>
      if depth == 0 || c !in t then 0.0
      else
        (if v.Rewritten? then Odds(t, t[c], pkt, m, v, depth - 1) else 0.0)
        + Odds(t, t[c], pkt, m, Through(false), depth - 1) * Odds(t, rules[1..], pkt, false, v, depth)
        + Odds(t, t[c], pkt, m, Through(true), depth - 1) * Odds(t, rules[1..], pkt, true, v, depth)
  }

  // ---- chain by chain ----

  /** The helper chain as the base setup fills it: MARK rules and nothing else. */
  predicate MarksOnly(rules: seq<Rule>) {
    forall i :: 0 <= i < |rules| ==> rules[i] == Rule(Any, Mark)
  }

  lemma {:induction false} MasqOdds(t: Table, rules: seq<Rule>, pkt: Packet, m: bool, v: Verdict, depth: nat)
    requires MarksOnly(rules)
    ensures Odds(t, rules, pkt, m, v, depth) == Indicator(v == Through(m || rules != []))
    decreases |rules|
  {
    if rules != [] {
      MasqOdds(t, rules[1..], pkt, true, v, depth);
      assert rules[0] == Rule(Any, Mark);
    }
  }

  /** A table whose helper chain marks. */
  predicate Marking(t: Table) {
    KUBE_MARK_MASQ in t && t[KUBE_MARK_MASQ] != [] && MarksOnly(t[KUBE_MARK_MASQ])
  }

  /** The base setup: the top-level chain, the helper chain, and one more MARK rule in it each time. */
  function BaseSetup(): seq<Command> {
    [Create(KUBE_SERVICES), Create(KUBE_MARK_MASQ), Append(KUBE_MARK_MASQ, Rule(Any, Mark))]
  }

  /** Set up once or again, by this proxy only, the helper chain marks and everything else is as it was. */
  lemma {:induction false} SetupMarks(t: Table)
    requires KUBE_MARK_MASQ in t ==> MarksOnly(t[KUBE_MARK_MASQ])
    ensures Apply(t, BaseSetup()).Some?
    ensures var u := Apply(t, BaseSetup()).value;
      && KUBE_SERVICES in u && Marking(u)
      && (KUBE_SERVICES in t ==> u[KUBE_SERVICES] == t[KUBE_SERVICES])
      && (KUBE_SERVICES !in t ==> u[KUBE_SERVICES] == [])
      && forall c :: c != KUBE_SERVICES && c != KUBE_MARK_MASQ ==> (c in u <==> c in t) && (c in t ==> u[c] == t[c])
  {
    assert KUBE_SERVICES[5] == 'S' && KUBE_MARK_MASQ[5] == 'M';
    var cmds := BaseSetup();
    assert cmds[1..][0] == cmds[1] && cmds[1..][1..] == cmds[2..];
    assert cmds[2..][0] == cmds[2] && cmds[2..][1..] == [];
    var t1 := Run(t, cmds[0]).value;
    var t2 := Run(t1, cmds[1]).value;
    var t3 := Run(t2, cmds[2]).value;
    assert Apply(t3, []) == Some(t3);
    assert Apply(t2, cmds[2..]) == Some(t3);
    assert Apply(t1, cmds[1..]) == Some(t3);
  }

  /** A backend's chain marks a TCP packet and rewrites it, always. */
  lemma {:induction false} SepOdds(t: Table, a: Address, pkt: Packet, m: bool, v: Verdict, depth: nat)
    requires Marking(t) && pkt.tcp && depth >= 1
    ensures Odds(t, SepRules(a), pkt, m, v, depth) == Indicator(v == Rewritten(a, true))
  {
    var rules := SepRules(a);
    var rest := [Rule(Tcp, Dnat(a))];
    assert rules[1..] == rest;
    MasqOdds(t, t[KUBE_MARK_MASQ], pkt, m, v, depth - 1);
    MasqOdds(t, t[KUBE_MARK_MASQ], pkt, m, Through(false), depth - 1);
    MasqOdds(t, t[KUBE_MARK_MASQ], pkt, m, Through(true), depth - 1);
    assert Odds(t, rest, pkt, true, v, depth) == Indicator(v == Rewritten(a, true)) by {
      assert rest[1..] == [];
      assert Taken(t, rest, pkt, true, v, depth) == Indicator(v == Rewritten(a, true));
    }
    assert Taken(t, rules, pkt, m, v, depth) == Odds(t, rest, pkt, true, v, depth);
    assert Hit(rules[0].cond, pkt) == 1.0;
  }

  /** The chance that the spread over `addrs`, entered at backend `i`, picks address `a`. */
  function Pick(prob: nat -> real, addrs: seq<Address>, i: nat, a: Address): real
    requires i < |addrs|
    decreases |addrs| - i
  {
    if i == |addrs| - 1 then Indicator(a == addrs[i])
    else
      prob(|addrs| - i) * Indicator(a == addrs[i]) + (1.0 - prob(|addrs| - i)) * Pick(prob, addrs, i + 1, a)
  }

  /** The odds that a service with these backends gives a verdict. */
  function Balanced(prob: nat -> real, addrs: seq<Address>, i: nat, v: Verdict): real
    requires i < |addrs|
  {
    if v.Rewritten? && v.marked then Pick(prob, addrs, i, v.to) else 0.0
  }

  /** A rule that jumps to a chain which never returns: what the chain gives, or else the rest. */
  lemma JumpOdds(t: Table, rules: seq<Rule>, pkt: Packet, m: bool, v: Verdict, depth: nat, x: real)
    requires rules != [] && rules[0].target.Jump? && depth >= 1 && rules[0].target.chain in t
    requires Odds(t, t[rules[0].target.chain], pkt, m, Through(false), depth - 1) == 0.0
    requires Odds(t, t[rules[0].target.chain], pkt, m, Through(true), depth - 1) == 0.0
    requires x == if v.Rewritten? then Odds(t, t[rules[0].target.chain], pkt, m, v, depth - 1) else 0.0
    ensures Odds(t, rules, pkt, m, v, depth)
            == Hit(rules[0].cond, pkt) * x + (1.0 - Hit(rules[0].cond, pkt)) * Odds(t, rules[1..], pkt, m, v, depth)
  {
    hide Odds, Taken, Hit;
    JumpTaken(t, rules, pkt, m, v, depth, x);
    OddsStep(t, rules, pkt, m, v, depth);
  }

  lemma {:induction false} OddsStep(t: Table, rules: seq<Rule>, pkt: Packet, m: bool, v: Verdict, depth: nat)
    requires rules != []
    ensures Odds(t, rules, pkt, m, v, depth)
            == Hit(rules[0].cond, pkt) * Taken(t, rules, pkt, m, v, depth)
               + (1.0 - Hit(rules[0].cond, pkt)) * Odds(t, rules[1..], pkt, m, v, depth)
  {
    hide Taken, Hit;
  }

  lemma {:induction false} JumpTaken(t: Table, rules: seq<Rule>, pkt: Packet, m: bool, v: Verdict, depth: nat, x: real)
    requires rules != [] && rules[0].target.Jump? && depth >= 1 && rules[0].target.chain in t
    requires Odds(t, t[rules[0].target.chain], pkt, m, Through(false), depth - 1) == 0.0
    requires Odds(t, t[rules[0].target.chain], pkt, m, Through(true), depth - 1) == 0.0
    requires x == if v.Rewritten? then Odds(t, t[rules[0].target.chain], pkt, m, v, depth - 1) else 0.0
    ensures Taken(t, rules, pkt, m, v, depth) == x
  {
    hide Odds;
  }

  lemma {:induction false} SpreadOdds(t: Table, f: Format, service: string, addrs: seq<Address>, i: nat,
                                      pkt: Packet, m: bool, v: Verdict, depth: nat)
    requires Marking(t) && pkt.tcp && depth >= 2 && i < |addrs|
    requires forall a :: a in addrs ==> SepChain(f, service, a) in t && t[SepChain(f, service, a)] == SepRules(a)
    ensures Odds(t, Spread(f, service, addrs, |addrs|)[i..], pkt, m, v, depth) == Balanced(f.prob, addrs, i, v)
    decreases |addrs| - i
  {
    hide Odds, SepRules, SepChain, Marking;
    var all := Spread(f, service, addrs, |addrs|);
    hide Spread;
    var rules := all[i..];
    assert rules[0] == SpreadRule(f, service, addrs, i) && rules[1..] == all[i + 1..];
    assert addrs[i] in addrs;
    SepOdds(t, addrs[i], pkt, m, v, depth - 1);
    SepOdds(t, addrs[i], pkt, m, Through(false), depth - 1);
    SepOdds(t, addrs[i], pkt, m, Through(true), depth - 1);
    JumpOdds(t, rules, pkt, m, v, depth, Indicator(v == Rewritten(addrs[i], true)));
    if i < |addrs| - 1 {
      SpreadOdds(t, f, service, addrs, i + 1, pkt, m, v, depth);
    }
  }

  // ---- the whole table ----

  /** The service that owns `dst:dport`: the first one listed that is live and has that address. */
  function Owner(services: seq<Service>, endpoints: seq<Endpoints>, pkt: Packet): (r: Option<Service>)
    ensures r.Some? ==> r.value in services && Live(r.value, endpoints)
                        && r.value.clusterIp.value == pkt.dst && r.value.port == pkt.dport
  {
    if services == [] then None
    else
      var earlier := Owner(services[..|services| - 1], endpoints, pkt);
      var s := services[|services| - 1];
      if earlier.Some? then earlier
      else if Live(s, endpoints) && s.clusterIp.value == pkt.dst && s.port == pkt.dport then Some(s)
      else None
  }

  /** `Owner` is the least index with a matching live service. */
  lemma {:induction false} OwnerIsFirst(services: seq<Service>, endpoints: seq<Endpoints>, pkt: Packet, i: nat)
    requires i < |services|
    requires Live(services[i], endpoints) && services[i].clusterIp.value == pkt.dst && services[i].port == pkt.dport
    requires forall j :: 0 <= j < i && Live(services[j], endpoints) && services[j].clusterIp.value == pkt.dst
               ==> services[j].port != pkt.dport
    ensures Owner(services, endpoints, pkt) == Some(services[i])
  {
    var k := |services| - 1;
    if i < k {
      OwnerIsFirst(services[..k], endpoints, pkt, i);
    }
  }

  /** What the list of services asks for, without any chain: the specification of the compiler. */
  function Intended(prob: nat -> real, services: seq<Service>, endpoints: seq<Endpoints>,
                    pkt: Packet, m: bool, v: Verdict): real
  {
    var owner := Owner(services, endpoints, pkt);
    if !pkt.tcp || owner.None? then Indicator(v == Through(m))
    else Balanced(prob, Backends(owner.value.name, endpoints), 0, v)
  }

  lemma {:induction false} ServiceOdds(t: Table, f: Format, s: Service, endpoints: seq<Endpoints>,
                    pkt: Packet, m: bool, v: Verdict, depth: nat)
    requires Marking(t) && pkt.tcp && depth >= 2 && Live(s, endpoints) && ServiceReady(t, f, s, endpoints)
    ensures Odds(t, t[SvcChain(f, s.name)], pkt, m, v, depth)
            == Balanced(f.prob, Backends(s.name, endpoints), 0, v)
  {
    var addrs := Backends(s.name, endpoints);
    SpreadOdds(t, f, s.name, addrs, 0, pkt, m, v, depth);
    assert Spread(f, s.name, addrs, |addrs|)[0..] == Spread(f, s.name, addrs, |addrs|);
  }

  /** A dispatch rule in front of `rest` decides its own packets and leaves the others to `rest`. */
  lemma {:induction false} EntryOdds(t: Table, f: Format, s: Service, endpoints: seq<Endpoints>, rest: seq<Rule>,
                  pkt: Packet, m: bool, v: Verdict, depth: nat)
    requires Marking(t) && depth >= 3 && Live(s, endpoints) && ServiceReady(t, f, s, endpoints)
    ensures Odds(t, [Entry(f, s)] + rest, pkt, m, v, depth)
            == if pkt.tcp && s.clusterIp.value == pkt.dst && s.port == pkt.dport
               then Balanced(f.prob, Backends(s.name, endpoints), 0, v)
               else Odds(t, rest, pkt, m, v, depth)
  {
    var rules := [Entry(f, s)] + rest;
    assert rules[1..] == rest;
    if pkt.tcp {
      ServiceOdds(t, f, s, endpoints, pkt, m, v, depth - 1);
      ServiceOdds(t, f, s, endpoints, pkt, m, Through(false), depth - 1);
      ServiceOdds(t, f, s, endpoints, pkt, m, Through(true), depth - 1);
      assert rules[0] == Entry(f, s);
      JumpOdds(t, rules, pkt, m, v, depth, Balanced(f.prob, Backends(s.name, endpoints), 0, v));
    } else {
      assert Hit(rules[0].cond, pkt) == 0.0;
    }
  }

  /** Odds of the dispatch rules of `services` followed by `rest`. */
  lemma {:induction false} DispatchOdds(t: Table, f: Format, services: seq<Service>, endpoints: seq<Endpoints>,
                                        rest: seq<Rule>, pkt: Packet, m: bool, v: Verdict, depth: nat)
    requires Marking(t) && depth >= 3
    requires forall s :: s in services && Live(s, endpoints) ==> ServiceReady(t, f, s, endpoints)
    ensures Odds(t, Entries(f, services, endpoints) + rest, pkt, m, v, depth)
            == if pkt.tcp && Owner(services, endpoints, pkt).Some?
               then Balanced(f.prob, Backends(Owner(services, endpoints, pkt).value.name, endpoints), 0, v)
               else Odds(t, rest, pkt, m, v, depth)
    decreases |services|
  {
    hide Odds, ServiceReady, Balanced;
    if services == [] {
      assert Entries(f, services, endpoints) + rest == rest;
    } else {
      var k := |services| - 1;
      var s := services[k];
      if Live(s, endpoints) {
        assert Entries(f, services, endpoints) + rest
            == Entries(f, services[..k], endpoints) + ([Entry(f, s)] + rest);
        DispatchOdds(t, f, services[..k], endpoints, [Entry(f, s)] + rest, pkt, m, v, depth);
        EntryOdds(t, f, s, endpoints, rest, pkt, m, v, depth);
      } else {
        assert Entries(f, services, endpoints) == Entries(f, services[..k], endpoints);
        DispatchOdds(t, f, services[..k], endpoints, rest, pkt, m, v, depth);
      }
    }
  }

  /**
   * The compiler preserves meaning.  From every prior table with the base chains, for every packet,
   * verdict and nesting limit of at least three: the plan applies without a failure and the table it
   * leaves gives exactly the odds the list of services asks for.  Stale chains and stale rules of
   * the prior table have no influence.
   */
  lemma {:induction false} PlanPreservesMeaning(t0: Table, f: Format, services: seq<Service>, endpoints: seq<Endpoints>,
                             pkt: Packet, m: bool, v: Verdict, depth: nat)
    requires KUBE_SERVICES in t0 && Marking(t0) && CollisionFree(f, services, endpoints) && depth >= 3
    ensures Apply(t0, Plan(f, services, endpoints)).Some?
    ensures var t := Apply(t0, Plan(f, services, endpoints)).value;
            KUBE_SERVICES in t
            && Odds(t, t[KUBE_SERVICES], pkt, m, v, depth) == Intended(f.prob, services, endpoints, pkt, m, v)
  {
    hide Odds, Apply, Plan, Balanced, CollisionFree;
    PlanSucceeds(t0, f, services, endpoints);
    var t := Apply(t0, Plan(f, services, endpoints)).value;
    BaseChains(t0, t, f, services, endpoints);
    DispatchOdds(t, f, services, endpoints, [], pkt, m, v, depth);
    assert Entries(f, services, endpoints) + [] == Entries(f, services, endpoints);
    EmptyOdds(t, pkt, m, v, depth);
  }

  lemma {:induction false} EmptyOdds(t: Table, pkt: Packet, m: bool, v: Verdict, depth: nat)
    ensures Odds(t, [], pkt, m, v, depth) == Indicator(v == Through(m))
  {
  }

  // ---- which backends can be reached ----

  /** Every printed probability leaves both outcomes of the draw possible. */
  predicate Proper(prob: nat -> real, n: nat) {
    forall d :: 2 <= d <= n ==> 0.0 < prob(d) < 1.0
  }

  lemma Product(p: real, x: real)
    requires 0.0 <= p && 0.0 <= x <= 1.0
    ensures 0.0 <= p * x <= p
    ensures p > 0.0 && x > 0.0 ==> p * x > 0.0
  {
    assert p - p * x == p * (1.0 - x);
  }

  /** A chance `x` weighted with `p`. */
  lemma Weighted(p: real, x: real, u: real)
    requires 0.0 <= p && 0.0 <= x <= 1.0 && u == p * x
    ensures 0.0 <= u <= p
    ensures p > 0.0 && x > 0.0 <==> u > 0.0
  {
    Product(p, x);
  }

  /** A mixture of two chances from its two weighted parts. */
  lemma Mix(p: real, q: real, u: real, w: real)
    requires p + q == 1.0 && 0.0 <= u <= p && 0.0 <= w <= q
    ensures 0.0 <= u + w <= 1.0
    ensures u + w > 0.0 <==> u > 0.0 || w > 0.0
  {
  }

  lemma {:induction false} PickSupport(prob: nat -> real, addrs: seq<Address>, i: nat, a: Address)
    requires i < |addrs| && Proper(prob, |addrs|)
    ensures 0.0 <= Pick(prob, addrs, i, a) <= 1.0
    ensures Pick(prob, addrs, i, a) > 0.0 <==> a in addrs[i..]
    decreases |addrs| - i
  {
    hide Pick, Proper;
    SuffixHas(addrs, i, a);
    if i < |addrs| - 1 {
      PickSupport(prob, addrs, i + 1, a);
      ProperAt(prob, |addrs|, |addrs| - i);
      var p, q, x, y := prob(|addrs| - i), 1.0 - prob(|addrs| - i), Indicator(a == addrs[i]), Pick(prob, addrs, i + 1, a);
      PickStep(prob, addrs, i, a, q);
      Weighted(p, x, p * x);
      Weighted(q, y, q * y);
      Mix(p, q, p * x, q * y);
    } else {
      PickLast(prob, addrs, a);
    }
  }

  lemma SuffixHas(addrs: seq<Address>, i: nat, a: Address)
    requires i < |addrs|
    ensures a in addrs[i..] <==> a == addrs[i] || a in addrs[i + 1..]
  {
    assert addrs[i..] == [addrs[i]] + addrs[i + 1..];
  }

  lemma ProperAt(prob: nat -> real, n: nat, d: nat)
    requires Proper(prob, n) && 2 <= d <= n
    ensures 0.0 < prob(d) < 1.0
  {
  }

  lemma PickStep(prob: nat -> real, addrs: seq<Address>, i: nat, a: Address, q: real)
    requires i < |addrs| - 1 && q == 1.0 - prob(|addrs| - i)
    ensures Pick(prob, addrs, i, a) == prob(|addrs| - i) * Indicator(a == addrs[i]) + q * Pick(prob, addrs, i + 1, a)
  {
  }

  lemma PickLast(prob: nat -> real, addrs: seq<Address>, a: Address)
    requires addrs != []
    ensures Pick(prob, addrs, |addrs| - 1, a) == Indicator(a == addrs[|addrs| - 1])
  {
  }

  /**
   * A TCP packet to a virtual address can be rewritten to exactly the backends of the first live
   * service listed with that address and port, and then it carries the masquerade mark; if there
   * is no such service, or the packet is not TCP, it is never rewritten.
   */
  lemma {:induction false} ReachableBackends(t0: Table, f: Format, services: seq<Service>, endpoints: seq<Endpoints>,
                          pkt: Packet, m: bool, a: Address, marked: bool, depth: nat)
    requires KUBE_SERVICES in t0 && Marking(t0) && CollisionFree(f, services, endpoints) && depth >= 3
    requires var owner := Owner(services, endpoints, pkt);
             owner.Some? ==> Proper(f.prob, |Backends(owner.value.name, endpoints)|)
    ensures Apply(t0, Plan(f, services, endpoints)).Some?
    ensures var t := Apply(t0, Plan(f, services, endpoints)).value;
            var owner := Owner(services, endpoints, pkt);
            KUBE_SERVICES in t
            && (Odds(t, t[KUBE_SERVICES], pkt, m, Rewritten(a, marked), depth) > 0.0
                <==> pkt.tcp && owner.Some? && a in Backends(owner.value.name, endpoints) && marked)
  {
    hide Odds, Apply, Plan, CollisionFree;
    PlanPreservesMeaning(t0, f, services, endpoints, pkt, m, Rewritten(a, marked), depth);
    var owner := Owner(services, endpoints, pkt);
    if pkt.tcp && owner.Some? {
      var addrs := Backends(owner.value.name, endpoints);
      PickSupport(f.prob, addrs, 0, a);
      assert addrs[0..] == addrs;
    }
  }

  // ---- the same, said of the two lists alone ----

  /** Entry `e` of the endpoints is the first one with the name. */
  predicate FirstNamed(endpoints: seq<Endpoints>, name: string, e: nat) {
    e < |endpoints| && endpoints[e].name == name && forall j :: 0 <= j < e ==> endpoints[j].name != name
  }

  /** Service `i` has the packet's address and port, and the first endpoints of its name, `e`, list someone. */
  predicate Answers(services: seq<Service>, endpoints: seq<Endpoints>, pkt: Packet, i: nat, e: nat) {
    && i < |services| && services[i].clusterIp == Some(pkt.dst) && services[i].port == pkt.dport
    && FirstNamed(endpoints, services[i].name, e) && endpoints[e].addresses != []
  }

  predicate FirstToAnswer(services: seq<Service>, endpoints: seq<Endpoints>, pkt: Packet, i: nat, e: nat) {
    Answers(services, endpoints, pkt, i, e) && forall j, d :: 0 <= j < i && 0 <= d < |endpoints| ==> !Answers(services, endpoints, pkt, j, d)
  }

  lemma {:induction false} NotNamed(endpoints: seq<Endpoints>, name: string)
    requires forall j :: 0 <= j < |endpoints| ==> endpoints[j].name != name
    ensures Backends(name, endpoints) == []
  {
    BackendsAreFirst(name, endpoints, |endpoints|);
  }

  lemma {:induction false} SomeFirst(endpoints: seq<Endpoints>, name: string) returns (e: nat)
    ensures e <= |endpoints| && forall j :: 0 <= j < e ==> endpoints[j].name != name
    ensures e < |endpoints| ==> endpoints[e].name == name
  {
    e := 0;
    while e < |endpoints| && endpoints[e].name != name
      invariant e <= |endpoints| && forall j :: 0 <= j < e ==> endpoints[j].name != name
    {
      e := e + 1;
    }
  }

  /** A service is programmed for a packet's address exactly if it answers there. */
  lemma {:induction false} LiveIfAnswers(services: seq<Service>, endpoints: seq<Endpoints>, pkt: Packet, i: nat)
    requires i < |services|
    ensures Live(services[i], endpoints) && services[i].clusterIp == Some(pkt.dst) && services[i].port == pkt.dport
            <==> exists e :: 0 <= e < |endpoints| && Answers(services, endpoints, pkt, i, e)
    ensures forall e :: 0 <= e < |endpoints| && Answers(services, endpoints, pkt, i, e)
              ==> Backends(services[i].name, endpoints) == endpoints[e].addresses
  {
    var name := services[i].name;
    forall e | 0 <= e < |endpoints| && FirstNamed(endpoints, name, e)
      ensures Backends(name, endpoints) == endpoints[e].addresses
    {
      BackendsAreFirst(name, endpoints, e);
    }
    var e := SomeFirst(endpoints, name);
    if e == |endpoints| {
      NotNamed(endpoints, name);
    } else {
      assert FirstNamed(endpoints, name, e);
      assert services[i].clusterIp == Some(pkt.dst) && services[i].port == pkt.dport && endpoints[e].addresses != []
        ==> Answers(services, endpoints, pkt, i, e);
    }
  }

  /** The owner is the first service to answer, and nobody if none does. */
  lemma {:induction false} OwnerAnswers(services: seq<Service>, endpoints: seq<Endpoints>, pkt: Packet)
    ensures forall i: nat, e: nat :: FirstToAnswer(services, endpoints, pkt, i, e)
              ==> Owner(services, endpoints, pkt) == Some(services[i]) && Backends(services[i].name, endpoints) == endpoints[e].addresses
    ensures (forall i: nat, e: nat :: !Answers(services, endpoints, pkt, i, e)) ==> Owner(services, endpoints, pkt) == None
  {
    hide Backends;
    forall i: nat | i < |services|
      ensures Live(services[i], endpoints) && services[i].clusterIp == Some(pkt.dst) && services[i].port == pkt.dport
              <==> exists e :: 0 <= e < |endpoints| && Answers(services, endpoints, pkt, i, e)
      ensures forall e :: 0 <= e < |endpoints| && Answers(services, endpoints, pkt, i, e)
                ==> Backends(services[i].name, endpoints) == endpoints[e].addresses
    {
      LiveIfAnswers(services, endpoints, pkt, i);
    }
    hide Owner;
    forall i: nat, e: nat | FirstToAnswer(services, endpoints, pkt, i, e)
      ensures Owner(services, endpoints, pkt) == Some(services[i]) && Backends(services[i].name, endpoints) == endpoints[e].addresses
    {
      assert Answers(services, endpoints, pkt, i, e);
      OwnerIsFirst(services, endpoints, pkt, i);
    }
    if Owner(services, endpoints, pkt).Some? {
      var s := Owner(services, endpoints, pkt).value;
      var i :| 0 <= i < |services| && services[i] == s;
      assert exists e :: 0 <= e < |endpoints| && Answers(services, endpoints, pkt, i, e);
    }
  }

  /**
   * On the applied table a TCP packet can be rewritten to exactly the addresses of the first
   * service to answer, and then it is marked.
   */
  lemma {:induction false} ReachesListed(t0: Table, f: Format, services: seq<Service>, endpoints: seq<Endpoints>,
                      pkt: Packet, m: bool, a: Address, marked: bool, depth: nat, i: nat, e: nat)
    requires KUBE_SERVICES in t0 && Marking(t0) && CollisionFree(f, services, endpoints) && depth >= 3
    requires pkt.tcp && FirstToAnswer(services, endpoints, pkt, i, e) && Proper(f.prob, |endpoints[e].addresses|)
    ensures Apply(t0, Plan(f, services, endpoints)).Some?
    ensures var t := Apply(t0, Plan(f, services, endpoints)).value;
      KUBE_SERVICES in t
      && (Odds(t, t[KUBE_SERVICES], pkt, m, Rewritten(a, marked), depth) > 0.0 <==> a in endpoints[e].addresses && marked)
  {
    hide Odds, Apply, Plan, CollisionFree, Proper, Owner, FirstToAnswer, Marking;
    OwnerAnswers(services, endpoints, pkt);
    ReachableBackends(t0, f, services, endpoints, pkt, m, a, marked, depth);
  }

  /** A packet that is not TCP or that no service answers goes through as it came. */
  lemma {:induction false} PassesThrough(t0: Table, f: Format, services: seq<Service>, endpoints: seq<Endpoints>,
                      pkt: Packet, m: bool, v: Verdict, depth: nat)
    requires KUBE_SERVICES in t0 && Marking(t0) && CollisionFree(f, services, endpoints) && depth >= 3
    requires !pkt.tcp || forall i: nat, e: nat :: !Answers(services, endpoints, pkt, i, e)
    ensures Apply(t0, Plan(f, services, endpoints)).Some?
    ensures var t := Apply(t0, Plan(f, services, endpoints)).value;
      KUBE_SERVICES in t && Odds(t, t[KUBE_SERVICES], pkt, m, v, depth) == if v == Through(m) then 1.0 else 0.0
  {
    hide Odds, Apply, Plan, CollisionFree, Answers, Owner, Marking;
    OwnerAnswers(services, endpoints, pkt);
    PlanPreservesMeaning(t0, f, services, endpoints, pkt, m, v, depth);
  }
}
