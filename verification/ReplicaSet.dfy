/**
 * The ReplicaSet controller (src/controller/replicaset.rs) running against the object store: one
 * reconcile pass gathers and adopts pods, creates or deletes to reach the wanted number, and
 * records the status.  Random name suffixes, uids and the clock are parameters.
 */
module ReplicaSets {
  import opened Options
  import opened Texts
  import opened ObjectStore
  import opened StoreHistory

  // ---- pure tests ----

  const CONTROLLER_KIND: string := "ReplicaSet"

  predicate MatchesSelector(labels: map<string, string>, selector: map<string, string>) {
    forall k :: k in selector ==> k in labels && labels[k] == selector[k]
  }

  predicate IsOwnedBy(pod: Object, rs: string) {
    exists o :: o in pod.meta.owners && o.kind == CONTROLLER_KIND && o.controller && o.name == rs
  }

  predicate HasController(pod: Object) {
    exists o :: o in pod.meta.owners && o.controller
  }

  predicate CanAdopt(pod: Object, rs: Object)
    requires rs.spec.ReplicaSetSpec?
  {
    !HasController(pod) && MatchesSelector(pod.meta.labels, rs.spec.selector)
  }

  predicate IsReady(pod: Object) {
    pod.status.Some? && pod.status.value.PodStatus? && pod.status.value.running
    && pod.status.value.containersReady != [] && forall r :: r in pod.status.value.containersReady ==> r
  }

  function OwnerOf(rs: Object): OwnerRef {
    OwnerRef(CONTROLLER_KIND, rs.meta.name, if rs.meta.uid.Some? then rs.meta.uid.value else "", true)
  }

  function WithOwner(pod: Object, rs: Object): Object {
    pod.(meta := pod.meta.(owners := pod.meta.owners + [OwnerOf(rs)]))
  }

  function PodName(rs: Object, suffix: string): string {
    rs.meta.name + "-" + suffix
  }

  function PodFromTemplate(rs: Object, suffix: string): Object
    requires rs.spec.ReplicaSetSpec?
  {
    Object(Meta(PodName(rs, suffix), None, None, None, None, rs.spec.templateLabels, [OwnerOf(rs)]),
           Opaque(rs.spec.template), None)
  }

  /** A pod stamped out from the template: its labels, its spec, this controller and no status. */
  predicate FromTemplate(pod: Object, rs: Object)
    requires rs.spec.ReplicaSetSpec?
  {
    && pod.meta.owners == [OwnerOf(rs)] && pod.meta.labels == rs.spec.templateLabels
    && pod.spec == Opaque(rs.spec.template) && pod.status == None
  }

  /** What the API server adds to a fresh object before it is stored. */
  function StampForCreate(o: Object, uid: string, now: string): Object {
    Object(o.meta.(uid := Some(uid), generation := Some(1), created := Some(now), version := None), o.spec, None)
  }

  // ---- the pods and the rest of the store ----

  function PodsOf(s: Store): map<string, Object> {
    View(s, Pods)
  }

  /** Everything that is not a pod. */
  function Rest(s: Store): map<Key, Object> {
    map k | k in s.objects && k.kind != Pods :: s.objects[k]
  }

  /** Every object is stored under its own name and has a version. */
  ghost predicate Tidy(s: Store) {
    NamesMatch(s) && forall k :: k in s.objects ==> s.objects[k].meta.version.Some?
  }

  lemma RestOfWrite(s: Store, t: Store, name: string)
    requires OnlyAt(s, t, Key(Pods, name))
    ensures Rest(t) == Rest(s)
  {
    forall k: Key
      ensures k in Rest(t) <==> k in Rest(s)
      ensures k in Rest(s) ==> Rest(t)[k] == Rest(s)[k]
    {
    }
  }

  lemma TidyWrite(s: Store, w: Written, k: Key)
    requires Tidy(s) && WriteShape(s, k, w) && w.event.Some? && w.event.value.obj.meta.name == k.name
    ensures Tidy(w.store)
  {
  }

  lemma PodWrite(s: Store, w: Written, name: string)
    requires Tidy(s) && WriteShape(s, Key(Pods, name), w) && w.event.Some? && w.event.value.obj.meta.name == name
    ensures Rest(w.store) == Rest(s) && Tidy(w.store)
    ensures w.event.value.change.Deleted? ==> PodsOf(w.store) == PodsOf(s) - {name}
    ensures !w.event.value.change.Deleted? ==> PodsOf(w.store) == PodsOf(s)[name := w.outcome.obj]
  {
    hide View, Rest, Tidy, OnlyAt;
    RestOfWrite(s, w.store, name);
    TidyWrite(s, w, Key(Pods, name));
    ViewOfWrite(s, w.store, Key(Pods, name), Pods);
  }

  /** `now` is `was` with one more owner, the next generation and another version, and no other change. */
  predicate IsAdoption(was: Object, now: Object, rs: Object) {
    var generation := if was.meta.generation.Some? then was.meta.generation.value else 0;
    now == was.(meta := was.meta.(owners := was.meta.owners + [OwnerOf(rs)], generation := Some(generation + 1),
                                  version := now.meta.version))
  }

  lemma AdoptionOwns(was: Object, now: Object, rs: Object)
    requires IsAdoption(was, now, rs) && rs.spec.ReplicaSetSpec?
    ensures IsOwnedBy(now, rs.meta.name) && !CanAdopt(now, rs)
  {
    assert OwnerOf(rs) in now.meta.owners;
  }

  // ---- single calls ----

  method ListPods(db: Database) returns (items: seq<Object>)
    requires Tidy(db.State())
    ensures Enumerates(items, db.State(), Pods)
  {
    var listed, _ := db.List(Pods);
    items := listed;
    ScannedEnumerates(items, db.State(), Pods);
  }


  method Adopt(db: Database, pod: Object, rs: Object) returns (updated: Object)
    requires Tidy(db.State()) && pod.meta.name in PodsOf(db.State()) && PodsOf(db.State())[pod.meta.name] == pod
    modifies db
    ensures Tidy(db.State()) && Rest(db.State()) == old(Rest(db.State()))
    ensures PodsOf(db.State()) == old(PodsOf(db.State()))[pod.meta.name := updated]
    ensures IsAdoption(pod, updated, rs) && updated.meta.version == Some(db.counter)
  {
    ghost var s := db.State();
    var adopted := WithOwner(pod, rs);
    InView(s, Pods, pod.meta.name);
    ReplaceSpecShape(s, Pods, pod.meta.name, adopted);
    var r := db.ReplaceSpecOf(Pods, pod.meta.name, adopted);
    PodWrite(s, ReplaceSpec(s, Pods, pod.meta.name, adopted), pod.meta.name);
    updated := r.obj;
  }

  /** A create of a name that is taken is refused and changes nothing. */
  method CreatePod(db: Database, pod: Object, uid: string, now: string) returns (created: Option<Object>)
    requires Tidy(db.State())
    modifies db
    ensures Tidy(db.State()) && Rest(db.State()) == old(Rest(db.State()))
    ensures created.None? <==> pod.meta.name in old(PodsOf(db.State()))
    ensures created.None? ==> db.State() == old(db.State()) && db.sent == old(db.sent)
    ensures created.Some? ==> var o := created.value;
      && PodsOf(db.State()) == old(PodsOf(db.State()))[pod.meta.name := o]
      && o.meta.name == pod.meta.name && o.spec == pod.spec && o.status == None
      && o.meta.owners == pod.meta.owners && o.meta.labels == pod.meta.labels
      && o.meta.uid == Some(uid) && o.meta.created == Some(now)
      && o.meta.generation == Some(1) && o.meta.version == Some(db.counter)
  {
    ghost var s := db.State();
    var stamped := StampForCreate(pod, uid, now);
    InView(s, Pods, pod.meta.name);
    CreateShape(s, Pods, stamped);
    var r := db.CreatePrestamped(Pods, stamped);
    if r.Ok? {
      PodWrite(s, Create(s, Pods, stamped), pod.meta.name);
      return Some(r.obj);
    }
    return None;
  }

  method DeletePod(db: Database, pod: Object)
    requires Tidy(db.State()) && pod.meta.name in PodsOf(db.State()) && PodsOf(db.State())[pod.meta.name] == pod
    modifies db
    ensures Tidy(db.State()) && Rest(db.State()) == old(Rest(db.State()))
    ensures PodsOf(db.State()) == old(PodsOf(db.State())) - {pod.meta.name}
  {
    ghost var s := db.State();
    InView(s, Pods, pod.meta.name);
    if pod.meta.version.Some? {
      DeleteShape(s, Pods, pod.meta.name, pod.meta.version.value);
      var r := db.Remove(Pods, pod.meta.name, pod.meta.version.value);
      PodWrite(s, Delete(s, Pods, pod.meta.name, pod.meta.version.value), pod.meta.name);
    }
  }

  // ---- gathering ----

  predicate DistinctNames(s: seq<Object>) {
    forall i, j :: 0 <= i < j < |s| ==> s[i].meta.name != s[j].meta.name
  }

  /** Every element is in the map under its own name. */
  predicate Current(s: seq<Object>, pods: map<string, Object>) {
    forall i :: 0 <= i < |s| ==> s[i].meta.name in pods && pods[s[i].meta.name] == s[i]
  }

  /** `owned` lists exactly the pods the ReplicaSet controls, each once, as they are now. */
  predicate ListsOwned(owned: seq<Object>, pods: map<string, Object>, rs: string) {
    && DistinctNames(owned) && Current(owned, pods)
    && (forall i :: 0 <= i < |owned| ==> IsOwnedBy(owned[i], rs))
    && (forall n :: n in pods && IsOwnedBy(pods[n], rs) ==> pods[n] in owned)
  }

  /** An adoptable pod was adopted, any other left alone. */
  predicate Handled(was: Object, now: Object, rs: Object)
    requires rs.spec.ReplicaSetSpec?
  {
    if CanAdopt(was, rs) then IsAdoption(was, now, rs) else now == was
  }

  /** Adoptable pods were adopted and no other pod changed. */
  predicate Gathered(before: map<string, Object>, after: map<string, Object>, rs: Object)
    requires rs.spec.ReplicaSetSpec?
  {
    after.Keys == before.Keys && forall n :: n in before ==> Handled(before[n], after[n], rs)
  }

  /** The first `i` listed pods have been gone through. */
  ghost predicate Progress(items: seq<Object>, i: nat, pods: map<string, Object>, owned: seq<Object>, rs: Object)
    requires rs.spec.ReplicaSetSpec?
  {
    && i <= |items| && DistinctNames(items)
    && (forall j :: 0 <= j < |items| ==> items[j].meta.name in pods)
    && (forall j :: i <= j < |items| ==> pods[items[j].meta.name] == items[j])
    && (forall j :: 0 <= j < i ==> Handled(items[j], pods[items[j].meta.name], rs))
    && DistinctNames(owned) && Current(owned, pods)
    && (forall m :: 0 <= m < |owned| ==> IsOwnedBy(owned[m], rs.meta.name))
    && (forall m, j :: 0 <= m < |owned| && i <= j < |items| ==> owned[m].meta.name != items[j].meta.name)
    && (forall j :: 0 <= j < i && IsOwnedBy(pods[items[j].meta.name], rs.meta.name)
          ==> pods[items[j].meta.name] in owned)
  }

  lemma PassOver(items: seq<Object>, i: nat, pods: map<string, Object>, owned: seq<Object>, rs: Object)
    requires rs.spec.ReplicaSetSpec? && i < |items| && Progress(items, i, pods, owned, rs)
    requires !IsOwnedBy(items[i], rs.meta.name) && !CanAdopt(items[i], rs)
    ensures Progress(items, i + 1, pods, owned, rs)
  {
    hide IsOwnedBy, CanAdopt, IsAdoption;
  }

  /** Pod `i` is, or has just become, a pod of the ReplicaSet. */
  lemma TakeIn(items: seq<Object>, i: nat, pods: map<string, Object>, owned: seq<Object>, rs: Object, now: Object)
    requires rs.spec.ReplicaSetSpec? && i < |items| && Progress(items, i, pods, owned, rs)
    requires IsOwnedBy(now, rs.meta.name) && Handled(items[i], now, rs) && now.meta.name == items[i].meta.name
    ensures Progress(items, i + 1, pods[now.meta.name := now], owned + [now], rs)
  {
    hide IsOwnedBy, Handled;
    var p, o := pods[now.meta.name := now], owned + [now];
    assert o[|owned|] == now;
    forall j | 0 <= j < i && IsOwnedBy(p[items[j].meta.name], rs.meta.name)
      ensures p[items[j].meta.name] in o
    {
      assert p[items[j].meta.name] in owned;
    }
  }

  lemma AllHandled(items: seq<Object>, s: Store, pods: map<string, Object>, owned: seq<Object>, rs: Object)
    requires rs.spec.ReplicaSetSpec? && Enumerates(items, s, Pods) && pods.Keys == PodsOf(s).Keys && NamesMatch(s)
    requires Progress(items, |items|, pods, owned, rs)
    ensures Gathered(PodsOf(s), pods, rs) && ListsOwned(owned, pods, rs.meta.name)
  {
    hide IsOwnedBy, CanAdopt, IsAdoption;
    forall n | n in pods
      ensures exists j :: 0 <= j < |items| && items[j].meta.name == n && items[j] == PodsOf(s)[n]
    {
      var j :| 0 <= j < |items| && items[j] == PodsOf(s)[n];
      InView(s, Pods, n);
    }
  }

  /** Nothing to adopt among the first `i` pods. */
  predicate NoneAdoptable(items: seq<Object>, i: nat, rs: Object)
    requires rs.spec.ReplicaSetSpec? && i <= |items|
  {
    forall j :: 0 <= j < i ==> !CanAdopt(items[j], rs)
  }

  lemma Start(items: seq<Object>, s: Store, rs: Object)
    requires rs.spec.ReplicaSetSpec? && Enumerates(items, s, Pods)
    ensures Progress(items, 0, PodsOf(s), [], rs) && NoneAdoptable(items, 0, rs)
  {
  }

  lemma OwnedIsHandled(pod: Object, rs: Object)
    requires rs.spec.ReplicaSetSpec? && IsOwnedBy(pod, rs.meta.name)
    ensures Handled(pod, pod, rs) && !CanAdopt(pod, rs)
  {
  }

  lemma AdoptedIsHandled(was: Object, now: Object, rs: Object)
    requires rs.spec.ReplicaSetSpec? && CanAdopt(was, rs) && IsAdoption(was, now, rs)
    ensures Handled(was, now, rs) && IsOwnedBy(now, rs.meta.name) && now.meta.name == was.meta.name
  {
    AdoptionOwns(was, now, rs);
  }

  lemma NoneAdoptableStep(items: seq<Object>, i: nat, rs: Object)
    requires rs.spec.ReplicaSetSpec? && i < |items|
    ensures NoneAdoptable(items, i + 1, rs) <==> NoneAdoptable(items, i, rs) && !CanAdopt(items[i], rs)
  {
  }

  /** One round of the loop over the listed pods. */
  method Visit(db: Database, ghost items: seq<Object>, ghost i: nat, pod: Object, owned: seq<Object>, rs: Object)
    returns (more: seq<Object>)
    requires rs.spec.ReplicaSetSpec? && i < |items| && items[i] == pod
    requires Tidy(db.State()) && Progress(items, i, PodsOf(db.State()), owned, rs)
    modifies db
    ensures Tidy(db.State()) && Rest(db.State()) == old(Rest(db.State()))
    ensures PodsOf(db.State()).Keys == old(PodsOf(db.State()).Keys)
    ensures Progress(items, i + 1, PodsOf(db.State()), more, rs)
    ensures !CanAdopt(pod, rs) ==> db.State() == old(db.State()) && db.sent == old(db.sent)
  {
    hide PodsOf, View, Rest, IsOwnedBy, CanAdopt, IsAdoption, Handled, Progress, Tidy;
    ghost var pods := PodsOf(db.State());
    Next(items, i, pods, owned, rs);
    more := owned;
    if IsOwnedBy(pod, rs.meta.name) {
      OwnedIsHandled(pod, rs);
      TakeIn(items, i, pods, owned, rs, pod);
      assert pods[pod.meta.name := pod] == pods;
      more := more + [pod];
    } else if CanAdopt(pod, rs) {
      var updated := Adopt(db, pod, rs);
      AdoptedIsHandled(pod, updated, rs);
      TakeIn(items, i, pods, owned, rs, updated);
      more := more + [updated];
    } else {
      PassOver(items, i, pods, owned, rs);
    }
  }

  method Gather(db: Database, rs: Object) returns (owned: seq<Object>)
    requires Tidy(db.State()) && rs.spec.ReplicaSetSpec?
    modifies db
    ensures Tidy(db.State()) && Rest(db.State()) == old(Rest(db.State()))
    ensures Gathered(old(PodsOf(db.State())), PodsOf(db.State()), rs)
    ensures ListsOwned(owned, PodsOf(db.State()), rs.meta.name)
    ensures SettledPods(old(PodsOf(db.State())), rs) ==> db.State() == old(db.State()) && db.sent == old(db.sent)
  {
    hide PodsOf, View, Rest, CanAdopt, Gathered, ListsOwned, Progress, Enumerates, NoneAdoptable, Tidy, SettledPods, NamesMatch;
    hide Scanned, InNameOrder, DistinctNames, Current, Handled, IsOwnedBy, IsAdoption, MatchesSelector, HasController;
    ghost var s := db.State();
    TidyNames(s);
    var items := ListPods(db);
    owned := [];
    Start(items, s, rs);
    for i := 0 to |items|
      invariant Tidy(db.State()) && Rest(db.State()) == Rest(s) && PodsOf(db.State()).Keys == PodsOf(s).Keys
      invariant Progress(items, i, PodsOf(db.State()), owned, rs)
      invariant NoneAdoptable(items, i, rs) ==> db.State() == s && db.sent == old(db.sent)
    {
      NoneAdoptableStep(items, i, rs);
      owned := Visit(db, items, i, items[i], owned, rs);
    }
    AllHandled(items, s, PodsOf(db.State()), owned, rs);
    ItemsArePods(items, s, rs);
  }

  lemma TidyNames(s: Store)
    requires Tidy(s)
    ensures NamesMatch(s)
  {
  }

  /** No pod is left to adopt. */
  predicate SettledPods(pods: map<string, Object>, rs: Object)
    requires rs.spec.ReplicaSetSpec?
  {
    forall n :: n in pods ==> !CanAdopt(pods[n], rs)
  }

  lemma Next(items: seq<Object>, i: nat, pods: map<string, Object>, owned: seq<Object>, rs: Object)
    requires rs.spec.ReplicaSetSpec? && i < |items| && Progress(items, i, pods, owned, rs)
    ensures items[i].meta.name in pods && pods[items[i].meta.name] == items[i]
  {
  }

  lemma ItemsArePods(items: seq<Object>, s: Store, rs: Object)
    requires Enumerates(items, s, Pods) && rs.spec.ReplicaSetSpec?
    ensures SettledPods(PodsOf(s), rs) ==> NoneAdoptable(items, |items|, rs)
  {
  }

  // ---- counting ----

  /** Pods that count for a status figure: all pods of the ReplicaSet, or only the ready ones. */
  predicate Counts(pod: Object, rs: string, readyOnly: bool) {
    IsOwnedBy(pod, rs) && (readyOnly ==> IsReady(pod))
  }

  function Names(pods: map<string, Object>, rs: string, readyOnly: bool): set<string> {
    set n | n in pods && Counts(pods[n], rs, readyOnly)
  }

  function NameSet(s: seq<Object>): set<string> {
    set i | 0 <= i < |s| :: s[i].meta.name
  }

  lemma {:induction false} NameSetSize(s: seq<Object>)
    requires DistinctNames(s)
    ensures |NameSet(s)| == |s|
  {
    if s != [] {
      var k := |s| - 1;
      NameSetSize(s[..k]);
      NameSetStep(s, k);
      assert s[..|s|] == s;
    }
  }

  lemma NameSetStep(s: seq<Object>, k: nat)
    requires k < |s|
    ensures NameSet(s[..k + 1]) == NameSet(s[..k]) + {s[k].meta.name}
  {
    var longer, shorter := s[..k + 1], s[..k];
    assert longer == shorter + [s[k]];
    forall n: string
      ensures n in NameSet(longer) <==> n in NameSet(shorter) || n == s[k].meta.name
    {
      if n in NameSet(shorter) {
        var i :| 0 <= i < |shorter| && shorter[i].meta.name == n;
        assert longer[i].meta.name == n;
      }
      if n == s[k].meta.name {
        assert longer[k].meta.name == n;
      }
    }
  }

  lemma NameSetHas(s: seq<Object>)
    ensures forall i :: 0 <= i < |s| ==> s[i].meta.name in NameSet(s)
  {
  }

  lemma OwnedAreNames(owned: seq<Object>, pods: map<string, Object>, rs: string)
    requires ListsOwned(owned, pods, rs) && forall n :: n in pods ==> pods[n].meta.name == n
    ensures Names(pods, rs, false) == NameSet(owned) && |Names(pods, rs, false)| == |owned|
  {
    hide IsOwnedBy;
    NameSetSize(owned);
    forall n | n in Names(pods, rs, false)
      ensures n in NameSet(owned)
    {
      var i :| 0 <= i < |owned| && owned[i] == pods[n];
      assert owned[i].meta.name == n;
    }
  }

  lemma TidyPods(s: Store)
    requires Tidy(s)
    ensures forall n :: n in PodsOf(s) ==> PodsOf(s)[n].meta.name == n && PodsOf(s)[n].meta.version.Some?
  {
  }

  // ---- scaling up ----

  function NewNames(before: map<string, Object>, after: map<string, Object>): set<string> {
    set n | n in after && n !in before
  }

  /** Every pod of before is as it was, and every other pod is a fresh one of the ReplicaSet. */
  predicate Extends(before: map<string, Object>, after: map<string, Object>, rs: Object)
    requires rs.spec.ReplicaSetSpec?
  {
    && (forall n :: n in before ==> n in after && after[n] == before[n])
    && (forall n :: n in after && n !in before ==> FromTemplate(after[n], rs))
  }

  /** The names the first `k` random suffixes give. */
  function Drawn(rs: Object, suffix: nat -> string, k: nat): set<string> {
    set i | 0 <= i < k :: PodName(rs, suffix(i))
  }

  /** The pods added are those whose drawn names were free; a taken name adds nothing. */
  ghost predicate Grown(before: map<string, Object>, after: map<string, Object>, rs: Object, drawn: set<string>)
    requires rs.spec.ReplicaSetSpec?
  {
    Extends(before, after, rs) && NewNames(before, after) == drawn - before.Keys
  }

  lemma ExtendOne(before: map<string, Object>, mid: map<string, Object>, rs: Object, n: string, pod: Object)
    requires rs.spec.ReplicaSetSpec? && Extends(before, mid, rs) && n !in mid && FromTemplate(pod, rs)
    ensures Extends(before, mid[n := pod], rs) && n !in before
  {
    hide FromTemplate;
  }

  lemma NewNamesStep(before: map<string, Object>, mid: map<string, Object>, n: string, pod: Object)
    requires n !in mid && n !in before
    ensures NewNames(before, mid[n := pod]) == NewNames(before, mid) + {n}
  {
  }

  lemma DrawnStep(rs: Object, suffix: nat -> string, k: nat)
    ensures Drawn(rs, suffix, k + 1) == Drawn(rs, suffix, k) + {PodName(rs, suffix(k))}
  {
    hide PodName;
    forall n: string
      ensures n in Drawn(rs, suffix, k + 1) <==> n in Drawn(rs, suffix, k) || n == PodName(rs, suffix(k))
    {
    }
  }

  lemma GrowOne(before: map<string, Object>, mid: map<string, Object>, rs: Object, drawn: set<string>, n: string, pod: Object)
    requires rs.spec.ReplicaSetSpec? && Grown(before, mid, rs, drawn) && n !in mid && FromTemplate(pod, rs)
    ensures Grown(before, mid[n := pod], rs, drawn + {n})
  {
    ExtendOne(before, mid, rs, n, pod);
    NewNamesStep(before, mid, n, pod);
    hide Extends, NewNames, FromTemplate;
  }

  /** A taken name is a pod of before or one added already. */
  lemma GrowNone(before: map<string, Object>, mid: map<string, Object>, rs: Object, drawn: set<string>, n: string)
    requires rs.spec.ReplicaSetSpec? && Grown(before, mid, rs, drawn) && n in mid
    ensures Grown(before, mid, rs, drawn + {n})
  {
    hide Extends;
    assert n in before || n in NewNames(before, mid);
  }

  lemma GrownStart(pods: map<string, Object>, rs: Object, suffix: nat -> string)
    requires rs.spec.ReplicaSetSpec?
    ensures Grown(pods, pods, rs, Drawn(rs, suffix, 0))
  {
    assert NewNames(pods, pods) == {};
    assert Drawn(rs, suffix, 0) == {};
  }

  method ScaleUp(db: Database, rs: Object, k: nat, suffix: nat -> string, uid: nat -> string, now: string)
    requires Tidy(db.State()) && rs.spec.ReplicaSetSpec?
    modifies db
    ensures Tidy(db.State()) && Rest(db.State()) == old(Rest(db.State()))
    ensures Grown(old(PodsOf(db.State())), PodsOf(db.State()), rs, Drawn(rs, suffix, k))
    ensures k == 0 ==> db.State() == old(db.State()) && db.sent == old(db.sent)
  {
    hide PodsOf, Rest, Tidy, Grown, Drawn, View, OwnerOf;
    ghost var before := PodsOf(db.State());
    GrownStart(before, rs, suffix);
    for i := 0 to k
      invariant Tidy(db.State()) && Rest(db.State()) == old(Rest(db.State()))
      invariant Grown(before, PodsOf(db.State()), rs, Drawn(rs, suffix, i))
      invariant i == 0 ==> db.State() == old(db.State()) && db.sent == old(db.sent)
    {
      DrawnStep(rs, suffix, i);
      CreateOne(db, before, rs, Drawn(rs, suffix, i), suffix(i), uid(i), now);
    }
  }

  /** One round of the creating loop. */
  method CreateOne(db: Database, ghost before: map<string, Object>, rs: Object, ghost drawn: set<string>,
                   suffix: string, uid: string, now: string)
    requires Tidy(db.State()) && rs.spec.ReplicaSetSpec? && Grown(before, PodsOf(db.State()), rs, drawn)
    modifies db
    ensures Tidy(db.State()) && Rest(db.State()) == old(Rest(db.State()))
    ensures Grown(before, PodsOf(db.State()), rs, drawn + {PodName(rs, suffix)})
  {
    hide PodsOf, Rest, Tidy, Grown, View, OwnerOf;
    ghost var mid := PodsOf(db.State());
    var pod := PodFromTemplate(rs, suffix);
    var created := CreatePod(db, pod, uid, now);
    if created.Some? {
      GrowOne(before, mid, rs, drawn, pod.meta.name, created.value);
    } else {
      GrowNone(before, mid, rs, drawn, pod.meta.name);
    }
  }

  /** The first `k` draws are all different and all free. */
  ghost predicate FreshDraws(pods: map<string, Object>, rs: Object, suffix: nat -> string, k: nat) {
    && (forall i, j :: 0 <= i < j < k ==> suffix(i) != suffix(j))
    && (forall i :: 0 <= i < k ==> PodName(rs, suffix(i)) !in pods)
  }

  lemma NamesDiffer(rs: Object, a: string, b: string)
    ensures PodName(rs, a) == PodName(rs, b) ==> a == b
  {
    assert PodName(rs, a)[|rs.meta.name| + 1..] == a && PodName(rs, b)[|rs.meta.name| + 1..] == b;
  }

  lemma FreshStep(pods: map<string, Object>, rs: Object, suffix: nat -> string, k: nat)
    ensures FreshDraws(pods, rs, suffix, k + 1)
            <==> FreshDraws(pods, rs, suffix, k) && PodName(rs, suffix(k)) !in pods && PodName(rs, suffix(k)) !in Drawn(rs, suffix, k)
  {
    hide PodName;
    forall i | 0 <= i < k
      ensures suffix(i) == suffix(k) <==> PodName(rs, suffix(i)) == PodName(rs, suffix(k))
    {
      NamesDiffer(rs, suffix(i), suffix(k));
    }
    if FreshDraws(pods, rs, suffix, k + 1) {
      assert forall i :: 0 <= i < k ==> suffix(i) != suffix(k);
    }
  }

  lemma OneMore(few: set<string>, n: string, keys: set<string>)
    ensures |(few + {n}) - keys| == |few - keys| + (if n in few || n in keys then 0 else 1)
  {
    if n in few || n in keys {
      assert (few + {n}) - keys == few - keys;
    } else {
      assert (few + {n}) - keys == (few - keys) + {n};
    }
  }

  /** How many of the first `k` draws give a free name of its own. */
  function FreeDraws(pods: map<string, Object>, rs: Object, suffix: nat -> string, k: nat): nat {
    |Drawn(rs, suffix, k) - pods.Keys|
  }

  lemma FreeStep(pods: map<string, Object>, rs: Object, suffix: nat -> string, k: nat)
    ensures var n := PodName(rs, suffix(k));
      FreeDraws(pods, rs, suffix, k + 1)
      == FreeDraws(pods, rs, suffix, k) + (if n in Drawn(rs, suffix, k) || n in pods then 0 else 1)
  {
    hide Drawn, PodName;
    DrawnStep(rs, suffix, k);
    OneMore(Drawn(rs, suffix, k), PodName(rs, suffix(k)), pods.Keys);
  }

  /** As many pods are added as are drawn exactly when all draws are different and free. */
  lemma {:induction false} DrawsCount(pods: map<string, Object>, rs: Object, suffix: nat -> string, k: nat)
    ensures FreeDraws(pods, rs, suffix, k) <= k
    ensures FreeDraws(pods, rs, suffix, k) == k <==> FreshDraws(pods, rs, suffix, k)
  {
    hide Drawn, FreshDraws, PodName, FreeDraws;
    if k == 0 {
      NoneFree(rs, suffix, pods);
    } else {
      DrawsCount(pods, rs, suffix, k - 1);
      FreeStep(pods, rs, suffix, k - 1);
      FreshStep(pods, rs, suffix, k - 1);
    }
  }

  lemma NoneFree(rs: Object, suffix: nat -> string, pods: map<string, Object>)
    ensures FreeDraws(pods, rs, suffix, 0) == 0 && FreshDraws(pods, rs, suffix, 0)
  {
    NoneDrawn(rs, suffix, pods);
  }

  lemma NoneDrawn(rs: Object, suffix: nat -> string, pods: map<string, Object>)
    ensures Drawn(rs, suffix, 0) - pods.Keys == {} && FreshDraws(pods, rs, suffix, 0)
  {
    assert Drawn(rs, suffix, 0) == {};
  }

  // ---- scaling down ----

  /** No creation time sorts before any. */
  predicate NotYounger(a: Object, b: Object) {
    a.meta.created.None? || (b.meta.created.Some? && TextLe(a.meta.created.value, b.meta.created.value))
  }

  lemma AgesTotal(a: Object, b: Object)
    ensures NotYounger(a, b) || NotYounger(b, a)
    ensures a.meta.created.None? ==> NotYounger(a, b) && (b.meta.created.Some? ==> !NotYounger(b, a))
    ensures a.meta.created == b.meta.created ==> NotYounger(a, b)
  {
    if a.meta.created.Some? && b.meta.created.Some? {
      TextTotal(a.meta.created.value, b.meta.created.value);
      TextRefl(a.meta.created.value);
    }
  }

  lemma AgesTransitive(a: Object, b: Object, c: Object)
    requires NotYounger(a, b) && NotYounger(b, c)
    ensures NotYounger(a, c)
  {
    if a.meta.created.Some? {
      TextTrans(a.meta.created.value, b.meta.created.value, c.meta.created.value);
    }
  }

  lemma LastIsOldest(s: seq<Object>, x: Object)
    requires ByAge(s) && s != [] && NotYounger(s[|s| - 1], x)
    ensures ByAge(s + [x])
  {
    forall i | 0 <= i < |s|
      ensures NotYounger(s[i], x)
    {
      if i < |s| - 1 {
        AgesTransitive(s[i], s[|s| - 1], x);
      }
    }
  }

  predicate ByAge(s: seq<Object>) {
    forall i, j :: 0 <= i < j < |s| ==> NotYounger(s[i], s[j])
  }

  /** The pods of one creation time, in their order. */
  function OfAge(s: seq<Object>, t: Option<string>): seq<Object> {
    if s == [] then []
    else
      var k := |s| - 1;
      OfAge(s[..k], t) + (if s[k].meta.created == t then [s[k]] else [])
  }

  /** A stable insertion: behind every pod that is not younger. */
  function InsertByAge(s: seq<Object>, x: Object): (r: seq<Object>)
    requires ByAge(s)
    ensures ByAge(r) && |r| == |s| + 1 && multiset(r) == multiset(s) + multiset{x}
    ensures forall y :: y in r <==> y in s || y == x
  {
    if s == [] then [x]
    else
      var last := s[|s| - 1];
      assert s == s[..|s| - 1] + [last];
      if NotYounger(last, x) then LastIsOldest(s, x); s + [x]
      else
        AgesTotal(x, last);
        var front := InsertByAge(s[..|s| - 1], x);
        assert forall y :: y in s <==> y in s[..|s| - 1] || y == last;
        assert forall y :: y in s[..|s| - 1] ==> NotYounger(y, last);
        assert forall i :: 0 <= i < |front| ==> front[i] in front;
        front + [last]
  }

  function SortByAge(s: seq<Object>): (r: seq<Object>)
    ensures ByAge(r) && |r| == |s| && multiset(r) == multiset(s)
    ensures forall y :: y in r <==> y in s
  {
    if s == [] then []
    else
      assert s == s[..|s| - 1] + [s[|s| - 1]];
      assert forall y :: y in s <==> y in s[..|s| - 1] || y == s[|s| - 1];
      InsertByAge(SortByAge(s[..|s| - 1]), s[|s| - 1])
  }

  lemma {:induction false} OfAgeStep(s: seq<Object>, x: Object, t: Option<string>)
    ensures OfAge(s + [x], t) == OfAge(s, t) + (if x.meta.created == t then [x] else [])
  {
    assert (s + [x])[..|s|] == s;
  }

  lemma {:induction false} InsertIsStable(s: seq<Object>, x: Object, t: Option<string>)
    requires ByAge(s)
    ensures OfAge(InsertByAge(s, x), t) == OfAge(s + [x], t)
  {
    hide OfAge, ByAge;
    if s == [] {
      assert [] + [x] == [x];
    } else {
      var front, last := s[..|s| - 1], s[|s| - 1];
      FrontByAge(s);
      if !NotYounger(last, x) {
        hide NotYounger;
        InsertIsStable(front, x, t);
        InsertBefore(front, last, x, t);
        assert s == front + [last];
      }
    }
  }

  lemma FrontByAge(s: seq<Object>)
    requires ByAge(s) && s != []
    ensures ByAge(s[..|s| - 1])
  {
  }

  /** A strictly younger last pod and the inserted one are of different ages, so they may pass each other. */
  lemma {:induction false} InsertBefore(front: seq<Object>, last: Object, x: Object, t: Option<string>)
    requires ByAge(front) && !NotYounger(last, x) && OfAge(InsertByAge(front, x), t) == OfAge(front + [x], t)
    ensures OfAge(InsertByAge(front, x) + [last], t) == OfAge((front + [last]) + [x], t)
  {
    hide OfAge, ByAge, InsertByAge, NotYounger;
    AgesTotal(last, x);
    OfAgeStep(InsertByAge(front, x), last, t);
    OfAgeStep(front, x, t);
    OfAgeStep(front, last, t);
    OfAgeStep(front + [last], x, t);
  }

  /** Sorting is stable: pods of one creation time keep their order. */
  lemma {:induction false} SortIsStable(s: seq<Object>, t: Option<string>)
    ensures OfAge(SortByAge(s), t) == OfAge(s, t)
  {
    hide OfAge, ByAge, InsertByAge;
    if s != [] {
      var front, last := s[..|s| - 1], s[|s| - 1];
      SortIsStable(front, t);
      InsertIsStable(SortByAge(front), last, t);
      OfAgeStep(SortByAge(front), last, t);
      OfAgeStep(front, last, t);
      assert s == front + [last];
    }
  }

  /** A list of `n` elements with the same `n` distinct names has no name twice. */
  lemma SortedNames(owned: seq<Object>, sorted: seq<Object>)
    requires DistinctNames(owned) && |sorted| == |owned| && forall y :: y in sorted <==> y in owned
    ensures DistinctNames(sorted) && NameSet(sorted) == NameSet(owned)
  {
    NameSetSize(owned);
    forall n | n in NameSet(owned)
      ensures n in NameSet(sorted)
    {
      var i :| 0 <= i < |owned| && owned[i].meta.name == n;
      assert owned[i] in sorted;
    }
    forall n | n in NameSet(sorted)
      ensures n in NameSet(owned)
    {
      var i :| 0 <= i < |sorted| && sorted[i].meta.name == n;
      assert sorted[i] in owned;
    }
    assert NameSet(sorted) == NameSet(owned);
    AsManyNames(sorted);
  }

  lemma {:induction false} FewerNames(s: seq<Object>)
    ensures |NameSet(s)| <= |s|
    ensures |NameSet(s)| == |s| ==> DistinctNames(s)
  {
    if s != [] {
      var k := |s| - 1;
      FewerNames(s[..k]);
      NameSetStep(s, k);
      NameSetHas(s[..k]);
      assert s[..|s|] == s;
      hide NameSet;
      assert forall i :: 0 <= i < k ==> s[..k][i] == s[i];
    }
  }

  lemma AsManyNames(s: seq<Object>)
    requires |NameSet(s)| == |s|
    ensures DistinctNames(s)
  {
    FewerNames(s);
  }

  /** Deletes the first `k` of the listed pods, one after the other. */
  method DeleteFirst(db: Database, pods: seq<Object>, k: nat)
    requires Tidy(db.State()) && k <= |pods| && DistinctNames(pods) && Current(pods, PodsOf(db.State()))
    modifies db
    ensures Tidy(db.State()) && Rest(db.State()) == old(Rest(db.State()))
    ensures PodsOf(db.State()) == old(PodsOf(db.State())) - NameSet(pods[..k])
    ensures k == 0 ==> db.State() == old(db.State()) && db.sent == old(db.sent)
  {
    ghost var before := PodsOf(db.State());
    hide PodsOf, View, Rest, Tidy;
    assert before - NameSet(pods[..0]) == before;
    for i := 0 to k
      invariant Tidy(db.State()) && Rest(db.State()) == old(Rest(db.State()))
      invariant PodsOf(db.State()) == before - NameSet(pods[..i])
      invariant i == 0 ==> db.State() == old(db.State()) && db.sent == old(db.sent)
    {
      StillThere(before, pods, i);
      DeletePod(db, pods[i]);
    }
  }

  lemma StillThere(before: map<string, Object>, pods: seq<Object>, i: nat)
    requires i < |pods| && DistinctNames(pods) && Current(pods, before)
    ensures var mid := before - NameSet(pods[..i]);
            && pods[i].meta.name in mid && mid[pods[i].meta.name] == pods[i]
            && mid - {pods[i].meta.name} == before - NameSet(pods[..i + 1])
  {
    NameSetStep(pods, i);
  }

  // ---- the pods of one pass ----

  /** A pod this ReplicaSet controls or may take over. */
  predicate Candidate(pod: Object, rs: Object)
    requires rs.spec.ReplicaSetSpec?
  {
    IsOwnedBy(pod, rs.meta.name) || CanAdopt(pod, rs)
  }

  /** Pods that belong to another controller, or match no selector, are untouched. */
  predicate Spared(before: map<string, Object>, after: map<string, Object>, rs: Object)
    requires rs.spec.ReplicaSetSpec?
  {
    forall n :: n in before && !Candidate(before[n], rs) ==> n in after && after[n] == before[n]
  }

  /** Among the candidates, none that went is younger than one that stayed. */
  predicate OldestFirst(before: map<string, Object>, after: map<string, Object>, rs: Object)
    requires rs.spec.ReplicaSetSpec?
  {
    forall m, n :: (m in before && n in before && Candidate(before[m], rs) && Candidate(before[n], rs)
                    && m !in after && n in after) ==> NotYounger(before[m], before[n])
  }

  /** No owner controls the pod. */
  predicate Orphan(pod: Object) {
    forall o :: o in pod.meta.owners ==> !o.controller
  }

  predicate HasLabels(pod: Object, wanted: map<string, string>) {
    wanted.Items <= pod.meta.labels.Items
  }

  function Controller(rs: Object): OwnerRef {
    OwnerRef("ReplicaSet", rs.meta.name, if rs.meta.uid.Some? then rs.meta.uid.value else "", true)
  }

  /** A pod that stays is adopted if it matches and has no controller, and is as it was if not. */
  predicate StaysPlainly(was: Object, now: Object, rs: Object)
    requires rs.spec.ReplicaSetSpec?
  {
    if Orphan(was) && HasLabels(was, rs.spec.selector) then
      && now.meta.owners == was.meta.owners + [Controller(rs)] && now.meta.name == was.meta.name && now.meta.labels == was.meta.labels
      && now.meta.uid == was.meta.uid && now.meta.created == was.meta.created
      && now.spec == was.spec && now.status == was.status
      && now.meta.generation == Some((if was.meta.generation.Some? then was.meta.generation.value else 0) + 1)
    else now == was
  }

  /** A pod that goes was this ReplicaSet's, or has just been adopted. */
  predicate GoesPlainly(was: Object, rs: Object)
    requires rs.spec.ReplicaSetSpec?
  {
    || (exists o :: o in was.meta.owners && o.controller && o.kind == "ReplicaSet" && o.name == rs.meta.name)
    || (Orphan(was) && HasLabels(was, rs.spec.selector))
  }

  /** A pod that is new comes from the template. */
  predicate NewPlainly(name: string, now: Object, rs: Object)
    requires rs.spec.ReplicaSetSpec?
  {
    && rs.meta.name + "-" <= name && now.meta.labels == rs.spec.templateLabels
    && now.spec == Opaque(rs.spec.template) && now.status == None && now.meta.owners == [Controller(rs)]
  }

  /** What a pass may do to the pods, said of their owners and labels alone. */
  ghost predicate Plainly(before: map<string, Object>, after: map<string, Object>, rs: Object)
    requires rs.spec.ReplicaSetSpec?
  {
    && (forall n :: n in before && n in after ==> StaysPlainly(before[n], after[n], rs))
    && (forall n :: n in before && n !in after ==> GoesPlainly(before[n], rs))
    && (forall n :: n in after && n !in before ==> NewPlainly(n, after[n], rs))
  }

  lemma AdoptsPlainly(was: Object, rs: Object)
    requires rs.spec.ReplicaSetSpec?
    ensures CanAdopt(was, rs) <==> Orphan(was) && HasLabels(was, rs.spec.selector)
  {
    if MatchesSelector(was.meta.labels, rs.spec.selector) {
      forall x | x in rs.spec.selector.Items
        ensures x in was.meta.labels.Items
      {
        assert rs.spec.selector[x.0] == x.1;
      }
    }
    if HasLabels(was, rs.spec.selector) {
      forall l | l in rs.spec.selector
        ensures l in was.meta.labels && was.meta.labels[l] == rs.spec.selector[l]
      {
        assert (l, rs.spec.selector[l]) in rs.spec.selector.Items;
      }
    }
  }

  lemma HandledPlainly(was: Object, now: Object, rs: Object)
    requires rs.spec.ReplicaSetSpec? && Handled(was, now, rs)
    ensures StaysPlainly(was, now, rs)
    ensures IsOwnedBy(now, rs.meta.name) ==> GoesPlainly(was, rs)
  {
    AdoptsPlainly(was, rs);
    hide Orphan, HasLabels, CanAdopt;
  }

  lemma PlainlyGrown(before: map<string, Object>, mid: map<string, Object>, after: map<string, Object>, rs: Object,
                     suffix: nat -> string, k: nat)
    requires rs.spec.ReplicaSetSpec? && Gathered(before, mid, rs) && Grown(mid, after, rs, Drawn(rs, suffix, k))
    ensures Plainly(before, after, rs)
  {
    hide StaysPlainly, Handled, FromTemplate, IsOwnedBy, GoesPlainly;
    forall n | n in before
      ensures StaysPlainly(before[n], after[n], rs)
    {
      HandledPlainly(before[n], mid[n], rs);
    }
    forall n | n in after && n !in before
      ensures NewPlainly(n, after[n], rs)
    {
      assert n in NewNames(mid, after);
      TemplatePlainly(n, after[n], rs, suffix, k);
    }
  }

  lemma TemplatePlainly(n: string, now: Object, rs: Object, suffix: nat -> string, k: nat)
    requires rs.spec.ReplicaSetSpec? && n in Drawn(rs, suffix, k) && FromTemplate(now, rs)
    ensures NewPlainly(n, now, rs)
  {
  }

  lemma PlainlyShrunk(before: map<string, Object>, mid: map<string, Object>, gone: set<string>, rs: Object)
    requires rs.spec.ReplicaSetSpec? && Gathered(before, mid, rs) && gone <= Names(mid, rs.meta.name, false)
    ensures Plainly(before, mid - gone, rs)
  {
    hide StaysPlainly, Handled, GoesPlainly, NewPlainly, IsOwnedBy, IsReady;
    forall n | n in before
      ensures StaysPlainly(before[n], mid[n], rs)
      ensures n in gone ==> GoesPlainly(before[n], rs)
    {
      HandledPlainly(before[n], mid[n], rs);
    }
  }

  /** Whose pod a pod is and when it is ready, said of its owners and status alone. */
  lemma CountedPlainly(pods: map<string, Object>, rs: string, n: string)
    ensures n in Names(pods, rs, false) <==>
      n in pods && exists o :: o in pods[n].meta.owners && o.controller && o.kind == "ReplicaSet" && o.name == rs
    ensures n in Names(pods, rs, true) <==>
      && n in Names(pods, rs, false) && pods[n].status.Some?
      && match pods[n].status.value
         case PodStatus(running, ready) => running && |ready| > 0 && false !in ready
         case _ => false
  {
  }

  lemma GatheredSettles(before: map<string, Object>, mid: map<string, Object>, rs: Object)
    requires rs.spec.ReplicaSetSpec? && Gathered(before, mid, rs)
    ensures SettledPods(mid, rs)
    ensures forall n :: n in mid ==> (IsOwnedBy(mid[n], rs.meta.name) <==> Candidate(before[n], rs))
    ensures forall n :: n in mid ==> mid[n].meta.created == before[n].meta.created
    ensures Spared(before, mid, rs)
  {
    hide MatchesSelector;
    forall n | n in mid
      ensures !CanAdopt(mid[n], rs) && (IsOwnedBy(mid[n], rs.meta.name) <==> Candidate(before[n], rs))
      ensures mid[n].meta.created == before[n].meta.created
    {
      if CanAdopt(before[n], rs) {
        AdoptionOwns(before[n], mid[n], rs);
      }
    }
  }

  lemma GrownKeeps(before: map<string, Object>, mid: map<string, Object>, after: map<string, Object>, rs: Object)
    requires rs.spec.ReplicaSetSpec? && Gathered(before, mid, rs) && Extends(mid, after, rs)
    ensures forall n :: n in after && n !in mid ==> IsOwnedBy(after[n], rs.meta.name)
    ensures SettledPods(after, rs) && Spared(before, after, rs) && OldestFirst(before, after, rs)
  {
    GatheredSettles(before, mid, rs);
    forall n | n in after && n !in mid
      ensures IsOwnedBy(after[n], rs.meta.name) && !CanAdopt(after[n], rs)
    {
      assert OwnerOf(rs) in after[n].meta.owners;
    }
    hide CanAdopt, Candidate, IsOwnedBy, IsAdoption;
  }

  lemma GrownCounts(mid: map<string, Object>, after: map<string, Object>, rs: Object, drawn: set<string>)
    requires rs.spec.ReplicaSetSpec? && Grown(mid, after, rs, drawn)
    requires forall n :: n in after && n !in mid ==> IsOwnedBy(after[n], rs.meta.name)
    ensures |Names(after, rs.meta.name, false)| == |Names(mid, rs.meta.name, false)| + |drawn - mid.Keys|
  {
    hide IsOwnedBy, OwnerOf, IsReady, FromTemplate;
    assert Names(after, rs.meta.name, false) == Names(mid, rs.meta.name, false) + NewNames(mid, after);
  }

  /** The pods the ReplicaSet controls or may take over. */
  function Candidates(pods: map<string, Object>, rs: Object): set<string>
    requires rs.spec.ReplicaSetSpec?
  {
    set n | n in pods && Candidate(pods[n], rs)
  }

  lemma GatheredCandidates(before: map<string, Object>, mid: map<string, Object>, rs: Object)
    requires rs.spec.ReplicaSetSpec? && Gathered(before, mid, rs)
    ensures Names(mid, rs.meta.name, false) == Candidates(before, rs) && mid.Keys == before.Keys
  {
    GatheredSettles(before, mid, rs);
    hide CanAdopt, Candidate, IsOwnedBy, IsReady, IsAdoption;
  }

  /** How many pods are missing before the pass. */
  function Deficit(pods: map<string, Object>, rs: Object): nat
    requires rs.spec.ReplicaSetSpec?
  {
    if |Candidates(pods, rs)| < rs.spec.replicas then rs.spec.replicas - |Candidates(pods, rs)| else 0
  }

  /** How many pods the ReplicaSet controls after the pass: all it wants, less the names that were taken. */
  function Reached(pods: map<string, Object>, rs: Object, suffix: nat -> string): int
    requires rs.spec.ReplicaSetSpec?
  {
    rs.spec.replicas - Deficit(pods, rs) + FreeDraws(pods, rs, suffix, Deficit(pods, rs))
  }

  lemma PrefixNames(sorted: seq<Object>, k: nat)
    requires k <= |sorted| && DistinctNames(sorted)
    ensures NameSet(sorted[..k]) <= NameSet(sorted) && |NameSet(sorted[..k])| == k
    ensures forall i :: 0 <= i < |sorted| ==> (sorted[i].meta.name in NameSet(sorted[..k]) <==> i < k)
  {
    NameSetSize(sorted[..k]);
    assert forall i :: 0 <= i < k ==> sorted[..k][i] == sorted[i];
  }

  lemma ShrunkKeeps(before: map<string, Object>, mid: map<string, Object>, gone: set<string>, rs: Object)
    requires rs.spec.ReplicaSetSpec? && Gathered(before, mid, rs)
    requires gone <= Names(mid, rs.meta.name, false)
    ensures SettledPods(mid - gone, rs) && Spared(before, mid - gone, rs)
  {
    GatheredSettles(before, mid, rs);
    hide CanAdopt, Candidate, IsOwnedBy, IsReady, IsAdoption;
  }

  lemma ShrunkOldest(before: map<string, Object>, mid: map<string, Object>, gone: set<string>, rs: Object)
    requires rs.spec.ReplicaSetSpec? && Gathered(before, mid, rs)
    requires forall m, n :: (m in mid && n in mid && IsOwnedBy(mid[m], rs.meta.name) && IsOwnedBy(mid[n], rs.meta.name)
               && m in gone && n !in gone) ==> NotYounger(mid[m], mid[n])
    ensures OldestFirst(before, mid - gone, rs)
  {
    GatheredSettles(before, mid, rs);
    hide CanAdopt, Candidate, IsOwnedBy, IsAdoption;
    forall m, n | m in before && n in before && Candidate(before[m], rs) && Candidate(before[n], rs)
      && m !in mid - gone && n in mid - gone
      ensures NotYounger(before[m], before[n])
    {
      assert NotYounger(mid[m], mid[n]);
    }
  }

  /** Deleting the first `k` of the sorted list. */
  lemma {:induction false} ShrunkCounts(before: map<string, Object>, mid: map<string, Object>,
                     owned: seq<Object>, sorted: seq<Object>, rs: Object, k: nat)
    requires rs.spec.ReplicaSetSpec? && Gathered(before, mid, rs) && ListsOwned(owned, mid, rs.meta.name)
    requires forall n :: n in mid ==> mid[n].meta.name == n
    requires sorted == SortByAge(owned) && k <= |sorted|
    ensures var after := mid - NameSet(sorted[..k]);
      && |Names(after, rs.meta.name, false)| == |owned| - k
      && SettledPods(after, rs) && Spared(before, after, rs) && OldestFirst(before, after, rs) && Plainly(before, after, rs)
  {
    OldestGo(mid, owned, sorted, rs, k);
    OwnedAreNames(owned, mid, rs.meta.name);
    SortedNames(owned, sorted);
    PrefixNames(sorted, k);
    hide Gathered, ListsOwned, SortByAge, NameSet, IsOwnedBy, Names, SettledPods, Spared, OldestFirst, DistinctNames, Plainly;
    var gone := NameSet(sorted[..k]);
    PlainlyShrunk(before, mid, gone, rs);
    ShrunkKeeps(before, mid, gone, rs);
    ShrunkOldest(before, mid, gone, rs);
    NamesShrink(mid, mid - gone, gone, rs.meta.name);
  }

  lemma NamesShrink(mid: map<string, Object>, after: map<string, Object>, gone: set<string>, rs: string)
    requires after == mid - gone && gone <= Names(mid, rs, false)
    ensures |Names(after, rs, false)| == |Names(mid, rs, false)| - |gone|
  {
    hide IsOwnedBy;
    assert Names(after, rs, false) == Names(mid, rs, false) - gone;
  }

  lemma {:induction false} OldestGo(mid: map<string, Object>, owned: seq<Object>, sorted: seq<Object>, rs: Object, k: nat)
    requires ListsOwned(owned, mid, rs.meta.name) && sorted == SortByAge(owned) && k <= |sorted|
    requires forall n :: n in mid ==> mid[n].meta.name == n
    ensures forall m, n :: (m in mid && n in mid && IsOwnedBy(mid[m], rs.meta.name) && IsOwnedBy(mid[n], rs.meta.name)
              && m in NameSet(sorted[..k]) && n !in NameSet(sorted[..k])) ==> NotYounger(mid[m], mid[n])
  {
    SortedNames(owned, sorted);
    PrefixNames(sorted, k);
    hide IsOwnedBy, NotYounger;
    forall m, n | m in mid && n in mid && IsOwnedBy(mid[m], rs.meta.name) && IsOwnedBy(mid[n], rs.meta.name)
      && m in NameSet(sorted[..k]) && n !in NameSet(sorted[..k])
      ensures NotYounger(mid[m], mid[n])
    {
      var i :| 0 <= i < |sorted| && sorted[i] == mid[m];
      var j :| 0 <= j < |sorted| && sorted[j] == mid[n];
      assert i < k <= j;
    }
  }

  /** Gathering and scaling: what a pass does to the pods. */
  method Scale(db: Database, rs: Object, suffix: nat -> string, uid: nat -> string, now: string)
    requires Tidy(db.State()) && rs.spec.ReplicaSetSpec?
    modifies db
    ensures Tidy(db.State()) && Rest(db.State()) == old(Rest(db.State()))
    ensures |Names(PodsOf(db.State()), rs.meta.name, false)| == Reached(old(PodsOf(db.State())), rs, suffix)
    ensures SettledPods(PodsOf(db.State()), rs)
    ensures Spared(old(PodsOf(db.State())), PodsOf(db.State()), rs)
    ensures OldestFirst(old(PodsOf(db.State())), PodsOf(db.State()), rs)
    ensures Plainly(old(PodsOf(db.State())), PodsOf(db.State()), rs)
    ensures SettledPods(old(PodsOf(db.State())), rs)
            && |Names(old(PodsOf(db.State())), rs.meta.name, false)| == rs.spec.replicas
            ==> db.State() == old(db.State()) && db.sent == old(db.sent)
  {
    hide PodsOf, View, Rest, Tidy, Gathered, ListsOwned, SettledPods, Spared, OldestFirst, Plainly, Names, Reached;
    ghost var before := PodsOf(db.State());
    var owned := Gather(db, rs);
    TidyPods(db.State());
    OwnedAreNames(owned, PodsOf(db.State()), rs.meta.name);
    if |owned| <= rs.spec.replicas {
      Fill(db, before, rs, owned, suffix, uid, now);
    } else {
      Drain(db, before, rs, owned, suffix);
    }
  }

  lemma ReachedUp(pods: map<string, Object>, rs: Object, suffix: nat -> string, n: nat)
    requires rs.spec.ReplicaSetSpec? && n == |Candidates(pods, rs)| <= rs.spec.replicas
    ensures Reached(pods, rs, suffix) == n + |Drawn(rs, suffix, rs.spec.replicas - n) - pods.Keys|
  {
    hide Candidates, Drawn;
  }

  lemma ReachedDown(pods: map<string, Object>, rs: Object, suffix: nat -> string)
    requires rs.spec.ReplicaSetSpec? && |Candidates(pods, rs)| >= rs.spec.replicas
    ensures Reached(pods, rs, suffix) == rs.spec.replicas
  {
    hide Candidates, Drawn;
    NoneDrawn(rs, suffix, pods);
  }

  /** Creating what is missing, after gathering. */
  method Fill(db: Database, ghost before: map<string, Object>, rs: Object, owned: seq<Object>,
              suffix: nat -> string, uid: nat -> string, now: string)
    requires Tidy(db.State()) && rs.spec.ReplicaSetSpec? && |owned| <= rs.spec.replicas
    requires Gathered(before, PodsOf(db.State()), rs) && ListsOwned(owned, PodsOf(db.State()), rs.meta.name)
    modifies db
    ensures Tidy(db.State()) && Rest(db.State()) == old(Rest(db.State()))
    ensures |Names(PodsOf(db.State()), rs.meta.name, false)| == Reached(before, rs, suffix)
    ensures SettledPods(PodsOf(db.State()), rs) && Spared(before, PodsOf(db.State()), rs)
    ensures OldestFirst(before, PodsOf(db.State()), rs) && Plainly(before, PodsOf(db.State()), rs)
    ensures |owned| == rs.spec.replicas ==> db.State() == old(db.State()) && db.sent == old(db.sent)
  {
    hide PodsOf, View, Rest, Tidy, Gathered, ListsOwned, Grown, SettledPods, Spared, OldestFirst, Plainly, Names, Candidates, Drawn, Reached;
    ghost var mid := PodsOf(db.State());
    var k := rs.spec.replicas - |owned|;
    TidyPods(db.State());
    ScaleUp(db, rs, k, suffix, uid, now);
    Filled(before, mid, PodsOf(db.State()), rs, owned, suffix);
  }

  /** What creating the missing pods comes to. */
  lemma Filled(before: map<string, Object>, mid: map<string, Object>, after: map<string, Object>, rs: Object,
               owned: seq<Object>, suffix: nat -> string)
    requires rs.spec.ReplicaSetSpec? && |owned| <= rs.spec.replicas && Gathered(before, mid, rs) && ListsOwned(owned, mid, rs.meta.name)
    requires forall n :: n in mid ==> mid[n].meta.name == n
    requires Grown(mid, after, rs, Drawn(rs, suffix, rs.spec.replicas - |owned|))
    ensures |Names(after, rs.meta.name, false)| == Reached(before, rs, suffix)
    ensures SettledPods(after, rs) && Spared(before, after, rs) && OldestFirst(before, after, rs) && Plainly(before, after, rs)
  {
    hide Gathered, ListsOwned, Grown, Extends, SettledPods, Spared, OldestFirst, Plainly, Names, Candidates, Drawn, Reached;
    hide FromTemplate, IsOwnedBy, Counts, Candidate, CanAdopt;
    var k := rs.spec.replicas - |owned|;
    OwnedAreNames(owned, mid, rs.meta.name);
    GatheredCandidates(before, mid, rs);
    ReachedUp(before, rs, suffix, |owned|);
    PlainlyGrown(before, mid, after, rs, suffix, k);
    GrownExtends(mid, after, rs, Drawn(rs, suffix, k));
    GrownKeeps(before, mid, after, rs);
    GrownCounts(mid, after, rs, Drawn(rs, suffix, k));
  }

  /** Deleting the surplus, oldest first, after gathering. */
  method Drain(db: Database, ghost before: map<string, Object>, rs: Object, owned: seq<Object>, ghost suffix: nat -> string)
    requires Tidy(db.State()) && rs.spec.ReplicaSetSpec? && |owned| > rs.spec.replicas
    requires Gathered(before, PodsOf(db.State()), rs) && ListsOwned(owned, PodsOf(db.State()), rs.meta.name)
    modifies db
    ensures Tidy(db.State()) && Rest(db.State()) == old(Rest(db.State()))
    ensures |Names(PodsOf(db.State()), rs.meta.name, false)| == Reached(before, rs, suffix)
    ensures SettledPods(PodsOf(db.State()), rs) && Spared(before, PodsOf(db.State()), rs)
    ensures OldestFirst(before, PodsOf(db.State()), rs) && Plainly(before, PodsOf(db.State()), rs)
  {
    hide PodsOf, View, Rest, Tidy, Gathered, ListsOwned, SettledPods, Spared, OldestFirst, Plainly, Names, NameSet, SortByAge, Candidates, Reached;
    ghost var mid := PodsOf(db.State());
    TidyPods(db.State());
    OwnedAreNames(owned, mid, rs.meta.name);
    GatheredCandidates(before, mid, rs);
    ReachedDown(before, rs, suffix);
    var sorted := SortByAge(owned);
    var surplus := |owned| - rs.spec.replicas;
    SortedCurrent(owned, sorted, mid, rs.meta.name);
    DeleteFirst(db, sorted, surplus);
    ShrunkCounts(before, mid, owned, sorted, rs, surplus);
  }

  lemma GrownExtends(mid: map<string, Object>, after: map<string, Object>, rs: Object, drawn: set<string>)
    requires rs.spec.ReplicaSetSpec? && Grown(mid, after, rs, drawn)
    ensures Extends(mid, after, rs)
  {
  }

  lemma {:induction false} SortedCurrent(owned: seq<Object>, sorted: seq<Object>, mid: map<string, Object>, rs: string)
    requires ListsOwned(owned, mid, rs) && sorted == SortByAge(owned)
    ensures DistinctNames(sorted) && Current(sorted, mid) && |sorted| == |owned|
  {
    SortedNames(owned, sorted);
    forall i | 0 <= i < |sorted|
      ensures sorted[i].meta.name in mid && mid[sorted[i].meta.name] == sorted[i]
    {
      assert sorted[i] in owned;
    }
  }

  // ---- status ----

  function StatusOf(pods: map<string, Object>, rs: Object): Payload {
    ReplicaSetStatus(|Names(pods, rs.meta.name, false)|, |Names(pods, rs.meta.name, true)|,
                     if rs.meta.generation.Some? then rs.meta.generation.value else 0)
  }

  /** Counts the listed pods of the ReplicaSet, or only the ready ones. */
  method CountPods(items: seq<Object>, ghost s: Store, rs: string, readyOnly: bool) returns (n: nat)
    requires Enumerates(items, s, Pods) && NamesMatch(s)
    ensures n == |Names(PodsOf(s), rs, readyOnly)|
  {
    ItemsCurrent(items, s);
    hide Counts, PodsOf, Names, Enumerates, NamesMatch, CountedAmong;
    n := 0;
    NoneCounted(items, rs, readyOnly);
    for i := 0 to |items|
      invariant n == |CountedAmong(items, i, rs, readyOnly)|
    {
      CountedStep(items, i, rs, readyOnly);
      if Counts(items[i], rs, readyOnly) {
        n := n + 1;
      }
    }
    CountedAll(items, s, rs, readyOnly);
  }

  /** The names that count among the first `i` listed. */
  function CountedAmong(items: seq<Object>, i: nat, rs: string, readyOnly: bool): set<string>
    requires i <= |items|
  {
    set j | 0 <= j < i && Counts(items[j], rs, readyOnly) :: items[j].meta.name
  }

  lemma NoneCounted(items: seq<Object>, rs: string, readyOnly: bool)
    ensures |CountedAmong(items, 0, rs, readyOnly)| == 0
  {
    assert CountedAmong(items, 0, rs, readyOnly) == {};
  }

  lemma CountedStep(items: seq<Object>, i: nat, rs: string, readyOnly: bool)
    requires i < |items| && DistinctNames(items)
    ensures |CountedAmong(items, i + 1, rs, readyOnly)|
            == |CountedAmong(items, i, rs, readyOnly)| + (if Counts(items[i], rs, readyOnly) then 1 else 0)
  {
    hide Counts;
    var few, more := CountedAmong(items, i, rs, readyOnly), CountedAmong(items, i + 1, rs, readyOnly);
    assert items[i].meta.name !in few;
    if Counts(items[i], rs, readyOnly) {
      assert more == few + {items[i].meta.name};
    } else {
      assert more == few;
    }
  }

  lemma CountedAll(items: seq<Object>, s: Store, rs: string, readyOnly: bool)
    requires Enumerates(items, s, Pods) && NamesMatch(s)
    ensures CountedAmong(items, |items|, rs, readyOnly) == Names(PodsOf(s), rs, readyOnly)
  {
    hide Counts;
    var seen := CountedAmong(items, |items|, rs, readyOnly);
    forall x | x in Names(PodsOf(s), rs, readyOnly)
      ensures x in seen
    {
      var j :| 0 <= j < |items| && items[j] == PodsOf(s)[x];
      InView(s, Pods, x);
      assert items[j].meta.name == x;
    }
    forall x | x in seen
      ensures x in Names(PodsOf(s), rs, readyOnly)
    {
      var j :| 0 <= j < |items| && Counts(items[j], rs, readyOnly) && items[j].meta.name == x;
    }
  }

  /** The figures of a status: all pods, the ready ones, and the generation they were counted for. */
  lemma StatusPlainly(pods: map<string, Object>, rs: Object)
    ensures var s := StatusOf(pods, rs);
      && s.ReplicaSetStatus? && s.total == |Names(pods, rs.meta.name, false)| && s.ready == |Names(pods, rs.meta.name, true)|
      && s.observed == (if rs.meta.generation.Some? then rs.meta.generation.value else 0)
      && s.ready <= s.total
  {
    hide Counts;
    ReadyAreOwned(pods, rs.meta.name);
    FewerOf(Names(pods, rs.meta.name, true), Names(pods, rs.meta.name, false));
  }

  lemma ReadyAreOwned(pods: map<string, Object>, rs: string)
    ensures Names(pods, rs, true) <= Names(pods, rs, false)
  {
  }

  lemma {:induction false} FewerOf(a: set<string>, b: set<string>)
    requires a <= b
    ensures |a| <= |b|
  {
    if a != {} {
      var x :| x in a;
      FewerOf(a - {x}, b - {x});
    }
  }

  predicate OnlyStatus(was: Object, now: Object, status: Payload) {
    now.status == Some(status) && now.spec == was.spec && now.meta == was.meta.(version := now.meta.version)
  }

  method UpdateStatus(db: Database, rs: Object)
    requires Tidy(db.State()) && Key(ReplicaSets, rs.meta.name) in db.objects
    requires db.objects[Key(ReplicaSets, rs.meta.name)] == rs
    modifies db
    ensures Tidy(db.State()) && PodsOf(db.State()) == old(PodsOf(db.State()))
    ensures OnlyAt(old(db.State()), db.State(), Key(ReplicaSets, rs.meta.name))
    ensures Key(ReplicaSets, rs.meta.name) in db.objects
    ensures OnlyStatus(rs, db.objects[Key(ReplicaSets, rs.meta.name)], StatusOf(PodsOf(db.State()), rs))
    ensures rs.status == Some(StatusOf(old(PodsOf(db.State())), rs)) ==> db.State() == old(db.State()) && db.sent == old(db.sent)
  {
    hide Enumerates, View, Names;
    ghost var s := db.State();
    var items := ListPods(db);
    var total := CountPods(items, s, rs.meta.name, false);
    var ready := CountPods(items, s, rs.meta.name, true);
    var status := ReplicaSetStatus(total, ready, if rs.meta.generation.Some? then rs.meta.generation.value else 0);
    if rs.status != Some(status) && rs.meta.version.Some? {
      ReplaceStatusShape(s, ReplicaSets, rs.meta.name, rs.meta.version.value, Some(status));
      var r := db.ReplaceStatusOf(ReplicaSets, rs.meta.name, rs.meta.version.value, Some(status));
      var w := ReplaceStatus(s, ReplicaSets, rs.meta.name, rs.meta.version.value, Some(status));
      ViewOfWrite(s, w.store, Key(ReplicaSets, rs.meta.name), Pods);
      TidyWrite(s, w, Key(ReplicaSets, rs.meta.name));
    }
  }

  // ---- the whole pass ----

  /** Stored ReplicaSets have the spec of their kind. */
  predicate Typed(s: Store) {
    forall k :: k in s.objects && k.kind == ReplicaSets ==> s.objects[k].spec.ReplicaSetSpec?
  }

  /** Nothing is left to do for the ReplicaSet. */
  predicate Settled(s: Store, name: string) {
    var key := Key(ReplicaSets, name);
    && key in s.objects && s.objects[key].spec.ReplicaSetSpec?
    && |Names(PodsOf(s), name, false)| == s.objects[key].spec.replicas
    && SettledPods(PodsOf(s), s.objects[key])
    && s.objects[key].status == Some(StatusOf(PodsOf(s), s.objects[key]))
  }

  /** A reconcile pass has nothing to do: the ReplicaSet is settled, or it is gone and so are its pods. */
  predicate Quiet(s: Store, name: string) {
    if Key(ReplicaSets, name) in s.objects then Settled(s, name) else Names(PodsOf(s), name, false) == {}
  }

  /** The ReplicaSet is gone: only its pods went. */
  ghost predicate Cascaded(before: Store, after: Store, name: string) {
    && Rest(after) == Rest(before)
    && (forall n :: n in PodsOf(before) ==>
          if IsOwnedBy(PodsOf(before)[n], name) then n !in PodsOf(after)
          else n in PodsOf(after) && PodsOf(after)[n] == PodsOf(before)[n])
    && (forall n :: n in PodsOf(after) ==> n in PodsOf(before))
  }

  /** The missing pods get names that are all different and free. */
  ghost predicate EnoughDraws(s: Store, name: string, suffix: nat -> string)
    requires Typed(s) && Key(ReplicaSets, name) in s.objects
  {
    var rs := s.objects[Key(ReplicaSets, name)];
    FreshDraws(PodsOf(s), rs, suffix, Deficit(PodsOf(s), rs))
  }

  /**
   * The ReplicaSet exists: it controls as many pods as it could get, its status says so, nothing is
   * left to adopt, nothing else was touched, and it is settled unless a drawn name was taken.
   */
  ghost predicate Reconciled(before: Store, after: Store, name: string, suffix: nat -> string)
    requires Typed(before)
  {
    var key := Key(ReplicaSets, name);
    && key in before.objects && key in after.objects
    && |Names(PodsOf(after), name, false)| == Reached(PodsOf(before), before.objects[key], suffix)
    && SettledPods(PodsOf(after), before.objects[key])
    && (Settled(after, name) <==> EnoughDraws(before, name, suffix))
    && OnlyStatus(before.objects[key], after.objects[key], StatusOf(PodsOf(after), before.objects[key]))
    && (forall k :: k != key && k.kind != Pods ==> (k in before.objects <==> k in after.objects))
    && (forall k :: k != key && k.kind != Pods && k in before.objects ==> after.objects[k] == before.objects[k])
    && Spared(PodsOf(before), PodsOf(after), before.objects[key])
    && OldestFirst(PodsOf(before), PodsOf(after), before.objects[key])
    && Plainly(PodsOf(before), PodsOf(after), before.objects[key])
  }

  /** The names of the controlled pods among the first `i` listed. */
  function OwnedAmong(items: seq<Object>, i: nat, name: string): set<string>
    requires i <= |items|
  {
    set j | 0 <= j < i && IsOwnedBy(items[j], name) :: items[j].meta.name
  }

  lemma OwnedAmongStep(items: seq<Object>, i: nat, name: string)
    requires i < |items|
    ensures OwnedAmong(items, i + 1, name)
            == OwnedAmong(items, i, name) + (if IsOwnedBy(items[i], name) then {items[i].meta.name} else {})
  {
    hide IsOwnedBy;
    forall n: string
      ensures n in OwnedAmong(items, i + 1, name)
              <==> n in OwnedAmong(items, i, name) || (IsOwnedBy(items[i], name) && n == items[i].meta.name)
    {
    }
  }

  lemma NotAmong(items: seq<Object>, i: nat, name: string)
    requires i < |items| && DistinctNames(items)
    ensures items[i].meta.name !in OwnedAmong(items, i, name)
  {
    hide IsOwnedBy;
  }

  method CascadeDelete(db: Database, name: string)
    requires Tidy(db.State())
    modifies db
    ensures Tidy(db.State()) && Cascaded(old(db.State()), db.State(), name)
    ensures old(Names(PodsOf(db.State()), name, false)) == {} ==> db.State() == old(db.State()) && db.sent == old(db.sent)
  {
    ghost var s := db.State();
    TidyNames(s);
    hide PodsOf, View, Rest, Tidy, NamesMatch, Enumerates, IsOwnedBy, OwnedAmong, Cascaded, Names;
    var items := ListPods(db);
    ItemsCurrent(items, s);
    NoneAmong(items, name, PodsOf(s));
    for i := 0 to |items|
      invariant Tidy(db.State()) && Rest(db.State()) == Rest(s)
      invariant PodsOf(db.State()) == PodsOf(s) - OwnedAmong(items, i, name)
      invariant Names(PodsOf(s), name, false) == {} ==> db.State() == s && db.sent == old(db.sent)
    {
      CascadeStep(items, i, name, PodsOf(s));
      if IsOwnedBy(items[i], name) {
        OwnedIsNamed(items, i, name, PodsOf(s));
        DeletePod(db, items[i]);
      }
    }
    CascadeDone(items, s, db.State(), name);
  }

  lemma CascadeStep(items: seq<Object>, i: nat, name: string, pods: map<string, Object>)
    requires i < |items| && DistinctNames(items) && Current(items, pods)
    ensures var left := pods - OwnedAmong(items, i, name);
      && items[i].meta.name in left && left[items[i].meta.name] == items[i]
      && (if IsOwnedBy(items[i], name) then left - {items[i].meta.name} else left) == pods - OwnedAmong(items, i + 1, name)
  {
    NotAmong(items, i, name);
    OwnedAmongStep(items, i, name);
    hide IsOwnedBy, OwnedAmong;
  }

  lemma OwnedIsNamed(items: seq<Object>, i: nat, name: string, pods: map<string, Object>)
    requires i < |items| && Current(items, pods) && IsOwnedBy(items[i], name)
    ensures Names(pods, name, false) != {}
  {
    hide IsOwnedBy;
    assert items[i].meta.name in Names(pods, name, false);
  }

  lemma ItemsCurrent(items: seq<Object>, s: Store)
    requires Enumerates(items, s, Pods)
    ensures DistinctNames(items) && Current(items, PodsOf(s))
  {
  }

  lemma NoneAmong(items: seq<Object>, name: string, pods: map<string, Object>)
    ensures OwnedAmong(items, 0, name) == {} && pods - OwnedAmong(items, 0, name) == pods
  {
  }

  lemma CascadeDone(items: seq<Object>, s: Store, t: Store, name: string)
    requires Enumerates(items, s, Pods) && NamesMatch(s) && Rest(t) == Rest(s)
    requires PodsOf(t) == PodsOf(s) - OwnedAmong(items, |items|, name)
    ensures Cascaded(s, t, name)
  {
    hide IsOwnedBy, Rest;
    forall n | n in PodsOf(s)
      ensures n in OwnedAmong(items, |items|, name) <==> IsOwnedBy(PodsOf(s)[n], name)
    {
      InView(s, Pods, n);
      var j :| 0 <= j < |items| && items[j] == PodsOf(s)[n];
      assert items[j].meta.name == n;
    }
  }

  /**
   * One reconcile pass.  It settles the ReplicaSet in one go unless a random name was taken, spares
   * every pod of another controller, deletes the oldest pods first, and writes nothing at all if
   * there was nothing to do.
   */
  method Reconcile(db: Database, name: string, suffix: nat -> string, uid: nat -> string, now: string)
    requires Tidy(db.State()) && Typed(db.State())
    modifies db
    ensures Tidy(db.State()) && Typed(db.State())
    ensures Key(ReplicaSets, name) in db.objects <==> Key(ReplicaSets, name) in old(db.objects)
    ensures Key(ReplicaSets, name) !in old(db.objects) ==> Cascaded(old(db.State()), db.State(), name) && Quiet(db.State(), name)
    ensures Key(ReplicaSets, name) in old(db.objects) ==> Reconciled(old(db.State()), db.State(), name, suffix)
    ensures old(Quiet(db.State(), name)) ==> db.State() == old(db.State()) && db.sent == old(db.sent)
  {
    var key := Key(ReplicaSets, name);
    ghost var s := db.State();
    if key !in db.objects {
      hide PodsOf, View, Rest, Tidy, Typed, Cascaded, Names;
      CascadeDelete(db, name);
      CascadeQuiet(s, db.State(), name);
      return;
    }
    var rs := db.objects[key];
    KeyNames(s, key);
    hide PodsOf, View, Rest, Tidy, SettledPods, Spared, OldestFirst, Plainly, Names, Reached, Reconciled, OnlyAt;
    Scale(db, rs, suffix, uid, now);
    SameRest(s, db.State(), key);
    ghost var mid := db.State();
    UpdateStatus(db, rs);
    PassDone(s, mid, db.State(), name, suffix);
    PassTyped(s, mid, db.State(), key);
  }

  /**
   * Two passes.  If the first one found free names, or had nothing to create, or the ReplicaSet is
   * gone, then the second one, with whatever it draws, writes nothing.
   */
  method ReconcileTwice(db: Database, name: string, suffix: nat -> string, again: nat -> string, uid: nat -> string, now: string)
    returns (ghost between: Store, ghost sentBetween: seq<Event>)
    requires Tidy(db.State()) && Typed(db.State())
    requires Key(ReplicaSets, name) in db.objects ==> EnoughDraws(db.State(), name, suffix)
    modifies db
    ensures Quiet(between, name) && db.State() == between && db.sent == sentBetween
    ensures Key(ReplicaSets, name) in old(db.objects) ==> Reconciled(old(db.State()), between, name, suffix)
    ensures Key(ReplicaSets, name) !in old(db.objects) ==> Cascaded(old(db.State()), between, name)
  {
    hide PodsOf, Tidy, Typed, Cascaded, EnoughDraws, Settled;
    Reconcile(db, name, suffix, uid, now);
    between, sentBetween := db.State(), db.sent;
    Reconcile(db, name, again, uid, now);
  }

  lemma KeyNames(s: Store, key: Key)
    requires Tidy(s) && key in s.objects
    ensures s.objects[key].meta.name == key.name
  {
  }

  lemma CascadeQuiet(s: Store, t: Store, name: string)
    requires Typed(s) && Cascaded(s, t, name) && Key(ReplicaSets, name) !in s.objects
    ensures Typed(t) && Quiet(t, name) && Key(ReplicaSets, name) !in t.objects
  {
    hide PodsOf, Rest, IsOwnedBy, Settled;
    forall k: Key | k.kind != Pods
      ensures k in s.objects <==> k in t.objects
      ensures k in s.objects ==> s.objects[k] == t.objects[k]
    {
      SameRest(s, t, k);
    }
    assert Names(PodsOf(t), name, false) == {};
  }

  lemma SameRest(s: Store, t: Store, key: Key)
    requires Rest(s) == Rest(t) && key.kind != Pods
    ensures key in s.objects <==> key in t.objects
    ensures key in s.objects ==> s.objects[key] == t.objects[key]
  {
    assert key in Rest(s) <==> key in s.objects;
    assert key in Rest(t) <==> key in t.objects;
    if key in s.objects {
      assert Rest(s)[key] == s.objects[key] && Rest(t)[key] == t.objects[key];
    }
  }

  lemma PassTyped(s: Store, mid: Store, t: Store, key: Key)
    requires Typed(s) && key in s.objects && key.kind == ReplicaSets && Rest(s) == Rest(mid)
    requires OnlyAt(mid, t, key) && key in t.objects && t.objects[key].spec == s.objects[key].spec
    ensures Typed(t)
  {
    hide Rest;
    forall k: Key | k in t.objects && k.kind == ReplicaSets
      ensures t.objects[k].spec.ReplicaSetSpec?
    {
      SameRest(s, mid, k);
    }
  }

  /** The pass is settled exactly if it reached the wanted number, that is, if all draws were fresh. */
  lemma SettledIff(t: Store, name: string, rs: Object, reached: int)
    requires Key(ReplicaSets, name) in t.objects && rs.spec.ReplicaSetSpec? && rs.meta.name == name
    requires OnlyStatus(rs, t.objects[Key(ReplicaSets, name)], StatusOf(PodsOf(t), rs))
    requires |Names(PodsOf(t), name, false)| == reached && SettledPods(PodsOf(t), rs)
    ensures Settled(t, name) <==> reached == rs.spec.replicas
  {
    SettledSameSpec(PodsOf(t), rs, t.objects[Key(ReplicaSets, name)]);
    hide PodsOf, SettledPods, Names;
  }

  lemma ReachedIff(pods: map<string, Object>, rs: Object, suffix: nat -> string)
    requires rs.spec.ReplicaSetSpec?
    ensures Reached(pods, rs, suffix) == rs.spec.replicas <==> FreshDraws(pods, rs, suffix, Deficit(pods, rs))
  {
    hide FreshDraws, FreeDraws, Deficit;
    DrawsCount(pods, rs, suffix, Deficit(pods, rs));
  }

  lemma PassDone(s: Store, mid: Store, t: Store, name: string, suffix: nat -> string)
    requires Typed(s) && Key(ReplicaSets, name) in s.objects && Rest(s) == Rest(mid)
    requires s.objects[Key(ReplicaSets, name)].meta.name == name
    requires OnlyAt(mid, t, Key(ReplicaSets, name)) && PodsOf(t) == PodsOf(mid) && Key(ReplicaSets, name) in t.objects
    requires var rs := s.objects[Key(ReplicaSets, name)];
      && OnlyStatus(rs, t.objects[Key(ReplicaSets, name)], StatusOf(PodsOf(t), rs))
      && |Names(PodsOf(mid), name, false)| == Reached(PodsOf(s), rs, suffix) && SettledPods(PodsOf(mid), rs)
      && Spared(PodsOf(s), PodsOf(mid), rs) && OldestFirst(PodsOf(s), PodsOf(mid), rs) && Plainly(PodsOf(s), PodsOf(mid), rs)
    ensures Reconciled(s, t, name, suffix)
  {
    hide PodsOf, SettledPods, Spared, OldestFirst, Plainly, Names, Reached, StatusOf, OnlyStatus, Settled, FreshDraws, Rest;
    var key := Key(ReplicaSets, name);
    var rs := s.objects[key];
    SettledIff(t, name, rs, Reached(PodsOf(s), rs, suffix));
    ReachedIff(PodsOf(s), rs, suffix);
    forall k: Key | k != key && k.kind != Pods
      ensures k in s.objects <==> k in t.objects
      ensures k in s.objects ==> t.objects[k] == s.objects[k]
    {
      SameRest(s, mid, k);
    }
  }

  lemma SettledSameSpec(pods: map<string, Object>, a: Object, b: Object)
    requires a.spec.ReplicaSetSpec? && a.spec == b.spec && SettledPods(pods, a)
    ensures SettledPods(pods, b)
  {
  }
}
