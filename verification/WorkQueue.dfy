/**
 * The controllers' deduplicating work queue (src/controller/workqueue.rs): each operation holds
 * the lock for its whole body, so a run is any sequence of operations by any callers.
 */
module WorkQueues {
  import opened Options

  type Key = string

  /** `dirty` needs processing; `processing` is checked out by a worker. */
  datatype Queue = Queue(ready: seq<Key>, dirty: set<Key>, processing: set<Key>)

  datatype Op = Add(key: Key) | TryGet | Done(key: Key)

  // ---- the operations on values ----

  function AddTo(q: Queue, key: Key): Queue {
    if key in q.dirty then q
    else if key in q.processing then q.(dirty := q.dirty + {key})
    else q.(dirty := q.dirty + {key}, ready := q.ready + [key])
  }

  function TakeFrom(q: Queue): Queue {
    if q.ready == [] then q
    else Queue(q.ready[1..], q.dirty - {q.ready[0]}, q.processing + {q.ready[0]})
  }

  /** The key a `try_get` hands out. */
  function Handed(q: Queue): Option<Key> {
    if q.ready == [] then None else Some(q.ready[0])
  }

  function FinishIn(q: Queue, key: Key): Queue {
    Queue(if key in q.dirty then q.ready + [key] else q.ready, q.dirty, q.processing - {key})
  }

  function After(q: Queue, op: Op): Queue {
    match op
    case Add(key) => AddTo(q, key)
    case TryGet => TakeFrom(q)
    case Done(key) => FinishIn(q, key)
  }

  // ---- the queue as an object ----

  class WorkQueue {
    var ready: seq<Key>
    var dirty: set<Key>
    var processing: set<Key>

    ghost function State(): Queue
      reads this
    {
      Queue(ready, dirty, processing)
    }

    constructor ()
      ensures State() == Queue([], {}, {})
    {
      ready, dirty, processing := [], {}, {};
    }

    method Enqueue(key: Key)
      modifies this
      ensures State() == AddTo(old(State()), key)
    {
      if key in dirty {
        return;
      }
      dirty := dirty + {key};
      if key in processing {
        return;
      }
      ready := ready + [key];
    }

    method TryDequeue() returns (key: Option<Key>)
      modifies this
      ensures State() == TakeFrom(old(State())) && key == Handed(old(State()))
    {
      if ready == [] {
        return None;
      }
      var k := ready[0];
      ready := ready[1..];
      dirty := dirty - {k};
      processing := processing + {k};
      return Some(k);
    }

    method Finish(key: Key)
      modifies this
      ensures State() == FinishIn(old(State()), key)
    {
      processing := processing - {key};
      if key in dirty {
        ready := ready + [key];
      }
    }
  }

  // ---- the invariant ----

  predicate NoDuplicates(s: seq<Key>) {
    forall i, j :: 0 <= i < j < |s| ==> s[i] != s[j]
  }

  /** The ready queue holds each key that needs processing and is not checked out, once. */
  ghost predicate Valid(q: Queue) {
    && NoDuplicates(q.ready)
    && (forall k :: k in q.ready <==> k in q.dirty && k !in q.processing)
  }

  /** A caller only finishes keys it has checked out. */
  predicate Allowed(q: Queue, op: Op) {
    op.Done? ==> op.key in q.processing
  }

  lemma StepKeepsValid(q: Queue, op: Op)
    requires Valid(q) && Allowed(q, op)
    ensures Valid(After(q, op))
    ensures op.TryGet? && Handed(q).Some? ==> Handed(q).value !in q.processing
  {
    if op.TryGet? && q.ready != [] {
      assert q.ready[0] in q.ready;
      assert forall k :: k in q.ready[1..] <==> k in q.ready && k != q.ready[0];
    } else if op.Done? || op.Add? {
      assert forall k, x :: k in q.ready + [x] <==> k in q.ready || k == x;
    }
  }

  /** Exactly when finishing keeps the queue sound: the key is checked out, or it is not dirty. */
  lemma FinishNeedsCheckout(q: Queue, key: Key)
    requires Valid(q)
    ensures Valid(FinishIn(q, key)) <==> key in q.processing || key !in q.dirty
  {
    if key in q.processing {
      StepKeepsValid(q, Done(key));
    } else if key in q.dirty {
      var i :| 0 <= i < |q.ready| && q.ready[i] == key;
      assert FinishIn(q, key).ready[i] == FinishIn(q, key).ready[|q.ready|];
    }
  }

  // ---- runs ----

  function StateAt(q: Queue, ops: seq<Op>, i: nat): Queue
    requires i <= |ops|
  {
    if i == 0 then q else After(StateAt(q, ops, i - 1), ops[i - 1])
  }

  ghost predicate IsRun(q: Queue, ops: seq<Op>) {
    Valid(q) && forall i :: 0 <= i < |ops| ==> Allowed(StateAt(q, ops, i), ops[i])
  }

  lemma {:induction false} RunValid(q: Queue, ops: seq<Op>, i: nat)
    requires IsRun(q, ops) && i <= |ops|
    ensures Valid(StateAt(q, ops, i))
  {
    if i > 0 {
      RunValid(q, ops, i - 1);
      StepKeepsValid(StateAt(q, ops, i - 1), ops[i - 1]);
    }
  }

  /** In every run no key is handed to a second worker before the first one finished it. */
  lemma {:induction false} NeverTwiceAtOnce(q: Queue, ops: seq<Op>, i: nat, j: nat, key: Key)
    requires IsRun(q, ops) && i < j < |ops|
    requires ops[i].TryGet? && Handed(StateAt(q, ops, i)) == Some(key)
    requires forall m :: i < m < j ==> ops[m] != Done(key)
    ensures key in StateAt(q, ops, j).processing
    ensures ops[j].TryGet? ==> Handed(StateAt(q, ops, j)) != Some(key)
    decreases j
  {
    hide StateAt, After, Valid, Handed, IsRun;
    NextState(q, ops, j);
    ProcessingStep(StateAt(q, ops, j - 1), ops[j - 1], key);
    if i + 1 < j {
      NeverTwiceAtOnce(q, ops, i, j - 1, key);
    }
    RunValid(q, ops, j);
    AllowedAt(q, ops, j);
    StepKeepsValid(StateAt(q, ops, j), ops[j]);
  }

  lemma {:induction false} AllowedAt(q: Queue, ops: seq<Op>, j: nat)
    requires IsRun(q, ops) && j < |ops|
    ensures Allowed(StateAt(q, ops, j), ops[j])
  {
  }

  lemma ProcessingStep(q: Queue, op: Op, key: Key)
    ensures op.TryGet? && Handed(q) == Some(key) ==> key in After(q, op).processing
    ensures op != Done(key) && key in q.processing ==> key in After(q, op).processing
  {
  }

  // ---- fairness ----

  function Gets(ops: seq<Op>, i: nat, j: nat): nat
    requires i <= j <= |ops|
  {
    if i == j then 0 else Gets(ops, i, j - 1) + (if ops[j - 1].TryGet? then 1 else 0)
  }

  lemma AdvanceStep(q: Queue, op: Op, p: nat)
    requires p < |q.ready| && (op.TryGet? ==> p > 0)
    ensures var r := After(q, op).ready; var at := if op.TryGet? then p - 1 else p;
            at < |r| && r[at] == q.ready[p]
  {
  }

  lemma NextState(q: Queue, ops: seq<Op>, j: nat)
    requires 0 < j <= |ops|
    ensures StateAt(q, ops, j) == After(StateAt(q, ops, j - 1), ops[j - 1])
  {
  }

  /** A ready key moves one place forward with each `try_get`, whatever else happens. */
  lemma {:induction false} Advances(q: Queue, ops: seq<Op>, i: nat, j: nat, p: nat)
    requires i <= j <= |ops| && p < |StateAt(q, ops, i).ready| && Gets(ops, i, j) <= p
    ensures var now := StateAt(q, ops, j).ready;
            p - Gets(ops, i, j) < |now| && now[p - Gets(ops, i, j)] == StateAt(q, ops, i).ready[p]
    decreases j
  {
    hide StateAt, After;
    if i < j {
      Advances(q, ops, i, j - 1, p);
      NextState(q, ops, j);
      AdvanceStep(StateAt(q, ops, j - 1), ops[j - 1], p - Gets(ops, i, j - 1));
    }
  }

  /** First in, first out: the key at position `p` is handed out by the (p+1)-th later `try_get`. */
  lemma {:induction false} HandedInOrder(q: Queue, ops: seq<Op>, i: nat, j: nat, p: nat)
    requires i <= j < |ops| && p < |StateAt(q, ops, i).ready|
    requires ops[j].TryGet? && Gets(ops, i, j) == p
    ensures Handed(StateAt(q, ops, j)) == Some(StateAt(q, ops, i).ready[p])
  {
    hide StateAt;
    Advances(q, ops, i, j, p);
  }

  // ---- nothing is lost ----

  /** Step `m` hands `key` to a worker. */
  predicate Serves(q: Queue, ops: seq<Op>, m: nat, key: Key)
    requires m < |ops|
  {
    ops[m].TryGet? && Handed(StateAt(q, ops, m)) == Some(key)
  }

  lemma DirtyStep(q: Queue, op: Op, key: Key)
    ensures op == Add(key) ==> key in After(q, op).dirty
    ensures key in q.dirty && key !in After(q, op).dirty ==> op.TryGet? && Handed(q) == Some(key)
  {
  }

  /** A dirty key stays dirty until it is handed out. */
  lemma {:induction false} DirtyUntilHanded(q: Queue, ops: seq<Op>, i: nat, j: nat, key: Key)
    requires i <= j <= |ops| && key in StateAt(q, ops, i).dirty
    ensures key in StateAt(q, ops, j).dirty || exists m :: i <= m < j && Serves(q, ops, m, key)
    decreases j
  {
    hide StateAt, After, Handed;
    if i < j {
      DirtyUntilHanded(q, ops, i, j - 1, key);
      NextState(q, ops, j);
      DirtyStep(StateAt(q, ops, j - 1), ops[j - 1], key);
      assert key in StateAt(q, ops, j - 1).dirty && key !in StateAt(q, ops, j).dirty ==> Serves(q, ops, j - 1, key);
    }
  }

  // ---- the three parts, told by the history alone ----

  const EMPTY: Queue := Queue([], {}, {})

  /** Some worker was handed the key before step `j` and has not finished it since. */
  ghost predicate CheckedOut(ops: seq<Op>, j: nat, key: Key)
    requires j <= |ops|
  {
    exists m :: 0 <= m < j && Serves(EMPTY, ops, m, key) && forall n :: m < n < j ==> ops[n] != Done(key)
  }

  /** The key was added before step `j` and has not been handed out since. */
  ghost predicate Wanted(ops: seq<Op>, j: nat, key: Key)
    requires j <= |ops|
  {
    exists m :: 0 <= m < j && ops[m] == Add(key) && forall n :: m < n < j ==> !Serves(EMPTY, ops, n, key)
  }

  /** What one operation does to the two sets, whatever the queue looks like. */
  lemma SetsStep(q: Queue, op: Op, key: Key)
    requires Valid(q)
    ensures key in After(q, op).processing
            <==> op != Done(key) && (key in q.processing || (op.TryGet? && Handed(q) == Some(key)))
    ensures key in After(q, op).dirty
            <==> op == Add(key) || (key in q.dirty && !(op.TryGet? && Handed(q) == Some(key)))
  {
  }

  lemma CheckedOutStep(ops: seq<Op>, j: nat, key: Key)
    requires 0 < j <= |ops|
    ensures CheckedOut(ops, j, key) <==> ops[j - 1] != Done(key) && (CheckedOut(ops, j - 1, key) || Serves(EMPTY, ops, j - 1, key))
  {
    hide Serves;
    if CheckedOut(ops, j, key) {
      var m :| 0 <= m < j && Serves(EMPTY, ops, m, key) && forall n :: m < n < j ==> ops[n] != Done(key);
      if m < j - 1 {
        assert forall n :: m < n < j - 1 ==> ops[n] != Done(key);
        assert ops[j - 1] != Done(key);
      } else {
        NotDone(ops, m, key);
      }
    }
    if ops[j - 1] != Done(key) && CheckedOut(ops, j - 1, key) {
      var m :| 0 <= m < j - 1 && Serves(EMPTY, ops, m, key) && forall n :: m < n < j - 1 ==> ops[n] != Done(key);
      assert forall n :: m < n < j ==> ops[n] != Done(key);
    }
  }

  lemma NotDone(ops: seq<Op>, m: nat, key: Key)
    requires m < |ops| && Serves(EMPTY, ops, m, key)
    ensures ops[m].TryGet?
  {
  }

  lemma WantedStep(ops: seq<Op>, j: nat, key: Key)
    requires 0 < j <= |ops|
    ensures Wanted(ops, j, key) <==> ops[j - 1] == Add(key) || (Wanted(ops, j - 1, key) && !Serves(EMPTY, ops, j - 1, key))
  {
    hide Serves;
    if Wanted(ops, j, key) && ops[j - 1] != Add(key) {
      var m :| 0 <= m < j && ops[m] == Add(key) && forall n :: m < n < j ==> !Serves(EMPTY, ops, n, key);
      assert m < j - 1;
      assert !Serves(EMPTY, ops, j - 1, key);
      assert forall n :: m < n < j - 1 ==> !Serves(EMPTY, ops, n, key);
    }
    if Wanted(ops, j - 1, key) && !Serves(EMPTY, ops, j - 1, key) {
      var m :| 0 <= m < j - 1 && ops[m] == Add(key) && forall n :: m < n < j - 1 ==> !Serves(EMPTY, ops, n, key);
      assert forall n :: m < n < j ==> !Serves(EMPTY, ops, n, key);
    }
  }

  /**
   * Over every run from the empty queue: a key is checked out exactly if some `try_get` handed it out
   * and no `done` of it came since, it needs processing exactly if it was added and not handed out
   * since, and it is ready exactly if it needs processing and is not checked out.
   */
  lemma {:induction false} FieldsTellHistory(ops: seq<Op>, j: nat, key: Key)
    requires IsRun(EMPTY, ops) && j <= |ops|
    ensures key in StateAt(EMPTY, ops, j).processing <==> CheckedOut(ops, j, key)
    ensures key in StateAt(EMPTY, ops, j).dirty <==> Wanted(ops, j, key)
    ensures key in StateAt(EMPTY, ops, j).ready <==> Wanted(ops, j, key) && !CheckedOut(ops, j, key)
  {
    hide *;
    RunValid(EMPTY, ops, j);
    if j == 0 {
      AtStart(ops, key);
    } else {
      FieldsTellHistory(ops, j - 1, key);
      RunValid(EMPTY, ops, j - 1);
      NextState(EMPTY, ops, j);
      SetsStep(StateAt(EMPTY, ops, j - 1), ops[j - 1], key);
      ServesIs(EMPTY, ops, j - 1, key);
      CheckedOutStep(ops, j, key);
      WantedStep(ops, j, key);
      ReadyIs(StateAt(EMPTY, ops, j), key);
    }
  }

  lemma {:induction false} AtStart(ops: seq<Op>, key: Key)
    ensures StateAt(EMPTY, ops, 0) == Queue([], {}, {}) && !CheckedOut(ops, 0, key) && !Wanted(ops, 0, key)
  {
  }

  lemma {:induction false} ServesIs(q: Queue, ops: seq<Op>, m: nat, key: Key)
    requires m < |ops|
    ensures Serves(q, ops, m, key) <==> ops[m].TryGet? && Handed(StateAt(q, ops, m)) == Some(key)
  {
    hide StateAt, Handed;
  }

  lemma ReadyIs(q: Queue, key: Key)
    requires Valid(q)
    ensures key in q.ready <==> key in q.dirty && key !in q.processing
  {
  }

  /** `try_get` comes back empty-handed exactly when every key that needs processing is checked out. */
  lemma {:induction false} EmptyHandedIff(ops: seq<Op>, j: nat)
    requires IsRun(EMPTY, ops) && j < |ops| && ops[j].TryGet?
    ensures (forall key: Key :: !Serves(EMPTY, ops, j, key)) <==> forall key: Key :: Wanted(ops, j, key) ==> CheckedOut(ops, j, key)
  {
    hide StateAt, IsRun, Wanted, CheckedOut;
    var ready := StateAt(EMPTY, ops, j).ready;
    if ready != [] {
      assert Serves(EMPTY, ops, j, ready[0]);
      FieldsTellHistory(ops, j, ready[0]);
    }
    forall key: Key | Wanted(ops, j, key) && ready == []
      ensures CheckedOut(ops, j, key)
    {
      FieldsTellHistory(ops, j, key);
    }
  }

  /** Every key handed out in the run was finished afterwards. */
  ghost predicate AllFinished(ops: seq<Op>) {
    forall m, key :: 0 <= m < |ops| && Serves(EMPTY, ops, m, key) ==> exists n :: m < n < |ops| && ops[n] == Done(key)
  }

  lemma NoneOut(ops: seq<Op>, key: Key)
    requires AllFinished(ops)
    ensures !CheckedOut(ops, |ops|, key)
  {
    hide Serves;
  }

  /**
   * No add is lost: if workers finished every key they were handed and a `try_get` would now come back
   * empty-handed, then every add of the run was followed by a checkout of its key, also adds made
   * while the key was being processed.
   */
  lemma {:induction false} EveryAddWasServed(ops: seq<Op>, i: nat, key: Key)
    requires IsRun(EMPTY, ops) && i < |ops| && ops[i] == Add(key)
    requires AllFinished(ops) && Handed(StateAt(EMPTY, ops, |ops|)) == None
    ensures exists m :: i < m < |ops| && Serves(EMPTY, ops, m, key)
  {
    hide *;
    NothingReady(StateAt(EMPTY, ops, |ops|));
    NextState(EMPTY, ops, i + 1);
    DirtyStep(StateAt(EMPTY, ops, i), ops[i], key);
    DirtyUntilHanded(EMPTY, ops, i + 1, |ops|, key);
    FieldsTellHistory(ops, |ops|, key);
    NoneOut(ops, key);
  }

  lemma NothingReady(q: Queue)
    requires Handed(q) == None
    ensures q.ready == []
  {
  }

  /** The worker loop can go on: a key that was finished and is added again is handed out again. */
  lemma ServedAgain(key: Key)
    ensures var ops := [Add(key), TryGet, Done(key), Add(key), TryGet];
      IsRun(EMPTY, ops) && Serves(EMPTY, ops, 1, key) && Serves(EMPTY, ops, 4, key)
  {
    var ops := [Add(key), TryGet, Done(key), Add(key), TryGet];
    var ready, out := Queue([key], {key}, {}), Queue([], {}, {key});
    assert StateAt(EMPTY, ops, 0) == EMPTY;
    assert StateAt(EMPTY, ops, 1) == ready;
    assert StateAt(EMPTY, ops, 2) == out;
    assert StateAt(EMPTY, ops, 3) == EMPTY;
    assert StateAt(EMPTY, ops, 4) == ready;
    hide StateAt;
  }
}
