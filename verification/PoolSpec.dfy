/** What a pool with queues threaded through it means: a free list and two FIFO
    queues over the slots 0..num-1 (a pool with one queue leaves `done` empty). A
    slot on none of these lists is held by whoever allocated or dequeued it. The
    class in PoolQueue.dfy refines these operations; the RPC protocol in
    RpcProtocol.dfy is built on them. */
module PoolSpec {

  datatype QueueId = Todo | Done

  datatype View = View(free: seq<nat>, todo: seq<nat>, done: seq<nat>) {
    function Queue(q: QueueId): seq<nat> {
      if q.Todo? then todo else done
    }

    function WithQueue(q: QueueId, s: seq<nat>): View {
      if q.Todo? then this.(todo := s) else this.(done := s)
    }
  }

  predicate Distinct(s: seq<nat>) {
    forall i, j :: 0 <= i < j < |s| ==> s[i] != s[j]
  }

  /** Every slot is in at most one place. */
  ghost predicate Wf(v: View, num: nat) {
    && Distinct(v.free) && Distinct(v.todo) && Distinct(v.done)
    && (forall x :: x in v.free ==> x < num && x !in v.todo && x !in v.done)
    && (forall x :: x in v.todo ==> x < num && x !in v.done)
    && (forall x :: x in v.done ==> x < num)
  }

  /** Allocated and on no queue: the overlay byte reads UVISOR_POOL_SLOT_IS_DEQUEUED. */
  predicate Held(v: View, slot: nat) {
    slot !in v.free && slot !in v.todo && slot !in v.done
  }

  function Without(s: seq<nat>, x: nat): seq<nat> {
    if s == [] then []
    else if s[0] == x then s[1..]
    else [s[0]] + Without(s[1..], x)
  }

  function Allocate(v: View): View
    requires v.free != []
  {
    v.(free := v.free[1..])
  }

  function Enqueue(v: View, q: QueueId, slot: nat): View {
    v.WithQueue(q, v.Queue(q) + [slot])
  }

  function Dequeue(v: View, q: QueueId, slot: nat): View {
    v.WithQueue(q, Without(v.Queue(q), slot))
  }

  function Free(v: View, slot: nat): View {
    v.(free := [slot] + v.free)
  }

  /** The state that initialisation leaves. */
  function Fresh(num: nat): View {
    View(seq(num, i => i), [], [])
  }

  lemma {:induction false} WithoutAt(s: seq<nat>, i: nat)
    requires i < |s| && Distinct(s)
    ensures Without(s, s[i]) == s[..i] + s[i + 1..]
  {
    if i > 0 {
      assert Distinct(s[1..]);
      WithoutAt(s[1..], i - 1);
      assert s[1..][..i - 1] == s[1..i];
      assert s[1..][i..] == s[i + 1..];
      assert s[..i] == [s[0]] + s[1..i];
    }
  }

  /** Removing one slot keeps exactly the others, in their order. */
  lemma WithoutMembers(s: seq<nat>, x: nat)
    requires Distinct(s) && x in s
    ensures Distinct(Without(s, x))
    ensures forall y :: y in Without(s, x) <==> y in s && y != x
    ensures |Without(s, x)| == |s| - 1
  {
    var i :| 0 <= i < |s| && s[i] == x;
    WithoutAt(s, i);
    var w := s[..i] + s[i + 1..];
    forall y
      ensures y in w <==> y in s && y != x
    {
      if y in s && y != x {
        var j :| 0 <= j < |s| && s[j] == y;
        assert if j < i then w[j] == y else w[j - 1] == y;
      }
    }
  }

  lemma AllocateKeeps(v: View, num: nat)
    requires Wf(v, num) && v.free != []
    ensures Wf(Allocate(v), num) && v.free[0] < num
    ensures Held(Allocate(v), v.free[0])
    ensures forall x :: x in Allocate(v).free <==> x in v.free && x != v.free[0]
  {
    assert v.free[0] in v.free;
    assert forall x :: x in v.free[1..] ==> x in v.free;
  }

  lemma EnqueueKeeps(v: View, num: nat, q: QueueId, slot: nat)
    requires Wf(v, num) && Held(v, slot) && slot < num
    ensures Wf(Enqueue(v, q, slot), num)
    ensures forall x :: x in Enqueue(v, q, slot).Queue(q) <==> x in v.Queue(q) || x == slot
  {
  }

  lemma DequeueKeeps(v: View, num: nat, q: QueueId, slot: nat)
    requires Wf(v, num) && slot in v.Queue(q)
    ensures Wf(Dequeue(v, q, slot), num) && Held(Dequeue(v, q, slot), slot) && slot < num
    ensures forall x :: x in Dequeue(v, q, slot).Queue(q) <==> x in v.Queue(q) && x != slot
  {
    WithoutMembers(v.Queue(q), slot);
  }

  lemma FreeKeeps(v: View, num: nat, slot: nat)
    requires Wf(v, num) && Held(v, slot) && slot < num
    ensures Wf(Free(v, slot), num)
    ensures forall x :: x in Free(v, slot).free <==> x in v.free || x == slot
  {
  }

  lemma FreshWf(num: nat)
    ensures Wf(Fresh(num), num)
    ensures forall x: nat :: x in Fresh(num).free <==> x < num
  {
    forall x: nat | x < num
      ensures x in Fresh(num).free
    {
      assert Fresh(num).free[x] == x;
    }
  }

  // ---- one pool per box -------------------------------------------------------

  /** The pool of a box that never used it is as initialised. */
  function At(pools: map<nat, View>, box: nat, num: nat): View {
    if box in pools then pools[box] else Fresh(num)
  }

  ghost predicate PoolsOk(pools: map<nat, View>, num: nat) {
    forall b: nat {:trigger PoolOk(pools, b, num)} :: PoolOk(pools, b, num)
  }

  ghost predicate PoolOk(pools: map<nat, View>, b: nat, num: nat) {
    Wf(At(pools, b, num), num)
  }

  lemma PoolsUpdate(pools: map<nat, View>, box: nat, num: nat, v: View)
    requires PoolsOk(pools, num) && Wf(v, num)
    ensures PoolsOk(pools[box := v], num)
  {
    var pools' := pools[box := v];
    forall b: nat ensures PoolOk(pools', b, num) { assert PoolOk(pools, b, num); }
  }

  lemma PoolsAllocate(pools: map<nat, View>, box: nat, num: nat)
    requires PoolsOk(pools, num) && At(pools, box, num).free != []
    ensures var v := At(pools, box, num);
            && PoolsOk(pools[box := Allocate(v)], num)
            && v.free[0] < num && v.free[0] in v.free && Held(Allocate(v), v.free[0])
            && forall x :: x in Allocate(v).free <==> x in v.free && x != v.free[0]
  {
    assert PoolOk(pools, box, num);
    AllocateKeeps(At(pools, box, num), num);
    PoolsUpdate(pools, box, num, Allocate(At(pools, box, num)));
  }

  lemma PoolsEnqueue(pools: map<nat, View>, box: nat, num: nat, q: QueueId, slot: nat)
    requires PoolsOk(pools, num) && Held(At(pools, box, num), slot) && slot < num
    ensures PoolsOk(pools[box := Enqueue(At(pools, box, num), q, slot)], num)
    ensures var v := At(pools, box, num);
            forall x :: x in Enqueue(v, q, slot).Queue(q) <==> x in v.Queue(q) || x == slot
  {
    assert PoolOk(pools, box, num);
    EnqueueKeeps(At(pools, box, num), num, q, slot);
    PoolsUpdate(pools, box, num, Enqueue(At(pools, box, num), q, slot));
  }

  lemma PoolsDequeue(pools: map<nat, View>, box: nat, num: nat, q: QueueId, slot: nat)
    requires PoolsOk(pools, num) && slot in At(pools, box, num).Queue(q)
    ensures var v := At(pools, box, num);
            && PoolsOk(pools[box := Dequeue(v, q, slot)], num)
            && slot < num && Held(Dequeue(v, q, slot), slot)
            && forall x :: x in Dequeue(v, q, slot).Queue(q) <==> x in v.Queue(q) && x != slot
  {
    assert PoolOk(pools, box, num);
    DequeueKeeps(At(pools, box, num), num, q, slot);
    PoolsUpdate(pools, box, num, Dequeue(At(pools, box, num), q, slot));
  }

  lemma PoolsFree(pools: map<nat, View>, box: nat, num: nat, slot: nat)
    requires PoolsOk(pools, num) && Held(At(pools, box, num), slot) && slot < num
    ensures PoolsOk(pools[box := Free(At(pools, box, num), slot)], num)
  {
    assert PoolOk(pools, box, num);
    FreeKeeps(At(pools, box, num), num, slot);
    PoolsUpdate(pools, box, num, Free(At(pools, box, num), slot));
  }
}
