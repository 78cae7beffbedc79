/**
 * The kube-proxy rule compiler (src/kube_proxy.rs): Services and Endpoints are compiled into a
 * list of iptables commands for the nat table.  The hash of the chain names and the printing of
 * probabilities are parameters, so everything here holds for every hash and every printer.
 */
module KubeProxy {
  import opened Options

  datatype Address = Address(ip: string, port: nat)
  datatype Service = Service(name: string, clusterIp: Option<string>, port: nat)
  datatype Endpoints = Endpoints(name: string, addresses: seq<Address>)

  /** `hash` is the short hash of a chain name; `prob(d)` is the value printed for 1/d. */
  datatype Format = Format(hash: string -> string, prob: nat -> real)

  type Chain = string

  datatype Match = Any | Tcp | Vip(dst: string, dport: nat) | Random(p: real)
  datatype Target = Jump(chain: Chain) | Mark | Dnat(to: Address)
  datatype Rule = Rule(cond: Match, target: Target)

  /** `-F chain`, `-N chain` and `-A chain rule`. */
  datatype Command = Flush(chain: Chain) | Create(chain: Chain) | Append(chain: Chain, rule: Rule)

  const KUBE_SERVICES: Chain := "KUBE-SERVICES"
  const KUBE_MARK_MASQ: Chain := "KUBE-MARK-MASQ"
  const SVC_PREFIX: string := "KUBE-SVC-"
  const SEP_PREFIX: string := "KUBE-SEP-"

  // ---- chain names ----

  function Digits(n: nat): string {
    if n < 10 then ['0' + n as char] else Digits(n / 10) + ['0' + (n % 10) as char]
  }

  function SepKey(service: string, a: Address): string {
    service + "/" + (a.ip + ":" + Digits(a.port))
  }

  function SvcChain(f: Format, service: string): Chain {
    SVC_PREFIX + f.hash(service)
  }

  function SepChain(f: Format, service: string, a: Address): Chain {
    SEP_PREFIX + f.hash(SepKey(service, a))
  }

  /** The chains a plan may write: no other chain of the nat table is the proxy's. */
  predicate Owned(c: Chain) {
    c == KUBE_SERVICES || SVC_PREFIX <= c || SEP_PREFIX <= c
  }

  /** Chain names as iptables shows them; with a hash of 16 characters they stay below its limit of 28. */
  lemma ChainNames(f: Format, service: string, a: Address)
    ensures SvcChain(f, service) == "KUBE-SVC-" + f.hash(service)
    ensures SepChain(f, service, a) == "KUBE-SEP-" + f.hash(service + "/" + (a.ip + ":" + Digits(a.port)))
    ensures |f.hash(service)| == 16 ==> |SvcChain(f, service)| <= 28
    ensures |f.hash(SepKey(service, a))| == 16 ==> |SepChain(f, service, a)| <= 28
  {
  }

  lemma NamesApart(f: Format, service: string, name: string, a: Address)
    ensures SvcChain(f, service) != SepChain(f, name, a)
    ensures SvcChain(f, service) != KUBE_SERVICES && SvcChain(f, service) != KUBE_MARK_MASQ
    ensures SepChain(f, service, a) != KUBE_SERVICES && SepChain(f, service, a) != KUBE_MARK_MASQ
    ensures Owned(SvcChain(f, service)) && Owned(SepChain(f, service, a))
    ensures !Owned(KUBE_MARK_MASQ)
  {
    assert SvcChain(f, service)[6] == 'V' && SepChain(f, name, a)[6] == 'E';
    assert SepChain(f, service, a)[7] == 'P' && KUBE_SERVICES[6] == 'E' && KUBE_SERVICES[7] == 'R';
    assert SvcChain(f, service)[5] == 'S' && SepChain(f, service, a)[5] == 'S' && KUBE_MARK_MASQ[5] == 'M';
    assert SVC_PREFIX[5] == 'S' && SEP_PREFIX[5] == 'S';
  }

  // ---- the plan ----

  /** The backends of a service: the addresses of the first Endpoints object with its name. */
  function Backends(service: string, endpoints: seq<Endpoints>): (r: seq<Address>) {
    if endpoints == [] then []
    else if endpoints[0].name == service then endpoints[0].addresses
    else Backends(service, endpoints[1..])
  }

  /** Only the first Endpoints object with the name counts; with none there are no backends. */
  lemma {:induction false} BackendsAreFirst(service: string, endpoints: seq<Endpoints>, i: nat)
    requires i <= |endpoints| && forall j :: 0 <= j < i ==> endpoints[j].name != service
    requires i < |endpoints| ==> endpoints[i].name == service
    ensures Backends(service, endpoints) == if i < |endpoints| then endpoints[i].addresses else []
  {
    if i > 0 {
      BackendsAreFirst(service, endpoints[1..], i - 1);
    }
  }

  /** Rules of one backend's chain: mark for masquerade, then rewrite the destination. */
  function SepRules(a: Address): seq<Rule> {
    [Rule(Any, Jump(KUBE_MARK_MASQ)), Rule(Tcp, Dnat(a))]
  }

  /** The rule that sends a share of the service's traffic to backend `i` of `n`. */
  function SpreadRule(f: Format, service: string, addrs: seq<Address>, i: nat): Rule
    requires i < |addrs|
  {
    Rule(if i < |addrs| - 1 then Random(f.prob(|addrs| - i)) else Any, Jump(SepChain(f, service, addrs[i])))
  }

  function PlanBackend(f: Format, service: string, addrs: seq<Address>, i: nat): seq<Command>
    requires i < |addrs|
  {
    var sep := SepChain(f, service, addrs[i]);
    [Create(sep), Flush(sep), Append(sep, SepRules(addrs[i])[0]), Append(sep, SepRules(addrs[i])[1]),
     Append(SvcChain(f, service), SpreadRule(f, service, addrs, i))]
  }

  function PlanBackends(f: Format, service: string, addrs: seq<Address>, k: nat): seq<Command>
    requires k <= |addrs|
  {
    if k == 0 then [] else PlanBackends(f, service, addrs, k - 1) + PlanBackend(f, service, addrs, k - 1)
  }

  /** A service is programmed when it has a virtual address and at least one backend. */
  predicate Live(s: Service, endpoints: seq<Endpoints>) {
    s.clusterIp.Some? && Backends(s.name, endpoints) != []
  }

  function Entry(f: Format, s: Service): Rule
    requires s.clusterIp.Some?
  {
    Rule(Vip(s.clusterIp.value, s.port), Jump(SvcChain(f, s.name)))
  }

  function PlanService(f: Format, s: Service, endpoints: seq<Endpoints>): seq<Command> {
    if !Live(s, endpoints) then []
    else
      var addrs := Backends(s.name, endpoints);
      var svc := SvcChain(f, s.name);
      [Create(svc), Flush(svc)] + PlanBackends(f, s.name, addrs, |addrs|) + [Append(KUBE_SERVICES, Entry(f, s))]
  }

  function PlanServices(f: Format, services: seq<Service>, endpoints: seq<Endpoints>): seq<Command> {
    if services == [] then []
    else
      var k := |services| - 1;
      PlanServices(f, services[..k], endpoints) + PlanService(f, services[k], endpoints)
  }

  function Plan(f: Format, services: seq<Service>, endpoints: seq<Endpoints>): seq<Command> {
    [Flush(KUBE_SERVICES)] + PlanServices(f, services, endpoints)
  }

  /** The search for a service's endpoints. */
  method FindBackends(service: string, endpoints: seq<Endpoints>) returns (addrs: seq<Address>)
    ensures addrs == Backends(service, endpoints)
  {
    for i := 0 to |endpoints|
      invariant Backends(service, endpoints) == Backends(service, endpoints[i..])
    {
      assert endpoints[i..][1..] == endpoints[i + 1..];
      if endpoints[i].name == service {
        return endpoints[i].addresses;
      }
    }
    return [];
  }

  /** The inner loop: one backend after the other is pushed onto the list. */
  method PushBackends(f: Format, service: string, addrs: seq<Address>, rules: seq<Command>)
    returns (more: seq<Command>)
    ensures more == rules + PlanBackends(f, service, addrs, |addrs|)
  {
    more := rules;
    var n, svc := |addrs|, SvcChain(f, service);
    for i := 0 to n
      invariant more == rules + PlanBackends(f, service, addrs, i)
    {
      var sep := SepChain(f, service, addrs[i]);
      var pushed := [Create(sep), Flush(sep)];
      pushed := pushed + [Append(sep, Rule(Any, Jump(KUBE_MARK_MASQ)))];
      pushed := pushed + [Append(sep, Rule(Tcp, Dnat(addrs[i])))];
      if i < n - 1 {
        pushed := pushed + [Append(svc, Rule(Random(f.prob(n - i)), Jump(sep)))];
      } else {
        pushed := pushed + [Append(svc, Rule(Any, Jump(sep)))];
      }
      assert pushed == PlanBackend(f, service, addrs, i);
      more := more + pushed;
    }
  }

  lemma PlanStep(f: Format, services: seq<Service>, endpoints: seq<Endpoints>, j: nat)
    requires j < |services|
    ensures Plan(f, services[..j + 1], endpoints)
            == Plan(f, services[..j], endpoints) + PlanService(f, services[j], endpoints)
  {
    assert services[..j + 1][..j] == services[..j];
  }

  lemma Regroup(a: seq<Command>, b: seq<Command>, c: seq<Command>, d: seq<Command>)
    ensures a + b + c + d == a + (b + c + d)
  {
  }

  /** The compiler itself: the list of commands grows service by service. */
  method PlanRules(f: Format, services: seq<Service>, endpoints: seq<Endpoints>) returns (rules: seq<Command>)
    ensures rules == Plan(f, services, endpoints)
  {
    rules := [Flush(KUBE_SERVICES)];
    for j := 0 to |services|
      invariant rules == Plan(f, services[..j], endpoints)
    {
      hide Plan;
      PlanStep(f, services, endpoints, j);
      var s := services[j];
      if s.clusterIp.None? {
        continue;
      }
      var addrs := FindBackends(s.name, endpoints);
      if addrs == [] {
        continue;
      }
      var head := [Create(SvcChain(f, s.name)), Flush(SvcChain(f, s.name))];
      var entry := [Append(KUBE_SERVICES, Entry(f, s))];
      Regroup(rules, head, PlanBackends(f, s.name, addrs, |addrs|), entry);
      rules := PushBackends(f, s.name, addrs, rules + head);
      rules := rules + entry;
    }
    assert services[..|services|] == services;
  }

  // ---- when names do not collide ----

  /** Distinct service names, and no two names or backends in use share a chain. */
  predicate CollisionFree(f: Format, services: seq<Service>, endpoints: seq<Endpoints>) {
    && (forall i, j :: 0 <= i < j < |services| ==> services[i].name != services[j].name)
    && (forall i, j :: 0 <= i < j < |services| ==> SvcChain(f, services[i].name) != SvcChain(f, services[j].name))
    && (forall i, j, a, b ::
          0 <= i < |services| && 0 <= j < |services|
          && a in Backends(services[i].name, endpoints) && b in Backends(services[j].name, endpoints)
          && SepChain(f, services[i].name, a) == SepChain(f, services[j].name, b)
          ==> i == j && a == b)
  }

  /** The strings whose hashes a plan depends on. */
  ghost predicate Hashed(x: string, services: seq<Service>, endpoints: seq<Endpoints>) {
    || (exists s :: s in services && x == s.name)
    || (exists s, a :: s in services && a in Backends(s.name, endpoints) && x == SepKey(s.name, a))
  }

  lemma {:induction false} DigitsAreDigits(n: nat)
    ensures |Digits(n)| > 0 && forall c :: c in Digits(n) ==> '0' <= c <= '9'
  {
    if n >= 10 {
      DigitsAreDigits(n / 10);
    }
  }

  lemma {:induction false} DigitsInjective(m: nat, n: nat)
    requires Digits(m) == Digits(n)
    ensures m == n
    decreases m + n
  {
    DigitsAreDigits(m / 10);
    DigitsAreDigits(n / 10);
    var last := Digits(m)[|Digits(m)| - 1];
    assert last == '0' + (m % 10) as char && last == '0' + (n % 10) as char;
    if m >= 10 && n >= 10 {
      assert Digits(m)[..|Digits(m)| - 1] == Digits(m / 10) && Digits(n)[..|Digits(n)| - 1] == Digits(n / 10);
      DigitsInjective(m / 10, n / 10);
    }
  }

  lemma SplitAtFirst(s: string, t: string, c: char, x: string, y: string)
    requires s + [c] + x == t + [c] + y && c !in s && c !in t
    ensures s == t && x == y
  {
    var whole := s + [c] + x;
    assert whole[|s|] == c && whole[|t|] == c;
    assert |s| == |t|;
    assert whole[..|s|] == s && whole[..|t|] == t;
    assert whole[|s| + 1..] == x && whole[|t| + 1..] == y;
  }

  lemma SplitAtLast(s: string, t: string, c: char, x: string, y: string)
    requires s + [c] + x == t + [c] + y && c !in x && c !in y
    ensures s == t && x == y
  {
    var whole := s + [c] + x;
    assert whole[|s|] == c && whole[|t|] == c;
    assert |s| == |t|;
    assert whole[..|s|] == s && whole[..|t|] == t;
    assert whole[|s| + 1..] == x && whole[|t| + 1..] == y;
  }

  /** The text hashed for a backend determines service, address and port, if names hold no slash. */
  lemma SepKeyInjective(s: string, a: Address, t: string, b: Address)
    requires '/' !in s && '/' !in t && SepKey(s, a) == SepKey(t, b)
    ensures s == t && a == b
  {
    var x, y := a.ip + ":" + Digits(a.port), b.ip + ":" + Digits(b.port);
    assert SepKey(s, a) == s + ['/'] + x && SepKey(t, b) == t + ['/'] + y;
    SplitAtFirst(s, t, '/', x, y);
    DigitsAreDigits(a.port);
    DigitsAreDigits(b.port);
    SplitAtLast(a.ip, b.ip, ':', Digits(a.port), Digits(b.port));
    DigitsInjective(a.port, b.port);
  }

  /**
   * The only thing the compiler needs of its hash: no two of the strings it hashes collide.
   * With slash-free, distinct service names that makes all chain names collision free.
   */
  lemma HashSuffices(f: Format, services: seq<Service>, endpoints: seq<Endpoints>)
    requires forall i, j :: 0 <= i < j < |services| ==> services[i].name != services[j].name
    requires forall s :: s in services ==> '/' !in s.name
    requires forall x, y :: (Hashed(x, services, endpoints) && Hashed(y, services, endpoints)
                             && f.hash(x) == f.hash(y)) ==> x == y
    ensures CollisionFree(f, services, endpoints)
  {
    forall i, j | 0 <= i < j < |services|
      ensures SvcChain(f, services[i].name) != SvcChain(f, services[j].name)
    {
      assert services[i] in services && services[j] in services;
      assert Hashed(services[i].name, services, endpoints) && Hashed(services[j].name, services, endpoints);
      assert SvcChain(f, services[i].name)[9..] == f.hash(services[i].name);
      assert SvcChain(f, services[j].name)[9..] == f.hash(services[j].name);
    }
    forall i, j, a, b | 0 <= i < |services| && 0 <= j < |services|
      && a in Backends(services[i].name, endpoints) && b in Backends(services[j].name, endpoints)
      && SepChain(f, services[i].name, a) == SepChain(f, services[j].name, b)
      ensures i == j && a == b
    {
      var s, t := services[i], services[j];
      assert s in services && t in services;
      assert Hashed(SepKey(s.name, a), services, endpoints) && Hashed(SepKey(t.name, b), services, endpoints);
      assert SepChain(f, s.name, a)[9..] == f.hash(SepKey(s.name, a));
      assert SepChain(f, t.name, b)[9..] == f.hash(SepKey(t.name, b));
      SepKeyInjective(s.name, a, t.name, b);
    }
  }
}
