/** core/system/src/pool_queue.c: a free list and two doubly linked queues threaded
    through one byte-indexed management array. The second byte of an entry is the
    link to the previous slot while the slot is queued and its state otherwise. */
module PoolQueue {
  import opened PoolSpec

  const INVALID: nat := 0xFF       // UVISOR_POOL_SLOT_INVALID
  const IS_DEQUEUED: nat := 0xFE   // UVISOR_POOL_SLOT_IS_DEQUEUED
  const IS_FREE: nat := 0xFD       // UVISOR_POOL_SLOT_IS_FREE
  const MAX_VALID: nat := 0xFC     // UVISOR_POOL_MAX_VALID

  datatype Entry = Entry(next: nat, second: nat)

  datatype Ends = Ends(head: nat, tail: nat)

  // ---- how a view is laid out in memory ----------------------------------------

  function NextOf(s: seq<nat>, i: nat): nat {
    if i + 1 < |s| then s[i + 1] else INVALID
  }

  function PrevOf(s: seq<nat>, i: nat): nat {
    if 0 < i <= |s| then s[i - 1] else INVALID
  }

  function EndsOf(s: seq<nat>): Ends {
    if s == [] then Ends(INVALID, INVALID) else Ends(s[0], s[|s| - 1])
  }

  predicate FreeAt(e: seq<Entry>, free: seq<nat>, i: nat) {
    i < |free| && free[i] < |e| && e[free[i]] == Entry(NextOf(free, i), IS_FREE)
  }

  predicate QueuedAt(e: seq<Entry>, q: seq<nat>, i: nat) {
    i < |q| && q[i] < |e| && e[q[i]] == Entry(NextOf(q, i), PrevOf(q, i))
  }

  ghost predicate FreeLinked(e: seq<Entry>, first: nat, free: seq<nat>) {
    && first == EndsOf(free).head
    && forall i: nat {:trigger FreeAt(e, free, i)} :: i < |free| ==> FreeAt(e, free, i)
  }

  ghost predicate QueueLinked(e: seq<Entry>, ends: Ends, q: seq<nat>) {
    && ends == EndsOf(q)
    && forall i: nat {:trigger QueuedAt(e, q, i)} :: i < |q| ==> QueuedAt(e, q, i)
  }

  ghost predicate HeldMarked(e: seq<Entry>, v: View) {
    forall x: nat :: x < |e| && Held(v, x) ==> e[x] == Entry(INVALID, IS_DEQUEUED)
  }

  /** The memory holds exactly this view. */
  ghost predicate Rep(e: seq<Entry>, first: nat, todo: Ends, done: Ends, v: View) {
    && |e| < MAX_VALID && Wf(v, |e|)
    && FreeLinked(e, first, v.free)
    && QueueLinked(e, todo, v.todo)
    && QueueLinked(e, done, v.done)
    && HeldMarked(e, v)
  }

  /** The overlay byte alone tells free, dequeued and queued apart, and every
      entry consists of two bytes. */
  lemma OverlayTellsApart(e: seq<Entry>, first: nat, todo: Ends, done: Ends, v: View, x: nat)
    requires Rep(e, first, todo, done, v) && x < |e|
    ensures e[x].second == IS_FREE <==> x in v.free
    ensures e[x].second == IS_DEQUEUED <==> Held(v, x)
    ensures e[x].second != IS_FREE && e[x].second != IS_DEQUEUED <==> x in v.todo || x in v.done
    ensures e[x].next < 256 && e[x].second < 256
  {
    if x in v.free {
      var i: nat :| i < |v.free| && v.free[i] == x;
      assert FreeAt(e, v.free, i);
      assert i + 1 < |v.free| ==> v.free[i + 1] in v.free;
    } else if x in v.todo {
      QueuedBytes(e, todo, v.todo, x);
    } else if x in v.done {
      QueuedBytes(e, done, v.done, x);
    }
  }

  lemma QueuedBytes(e: seq<Entry>, ends: Ends, q: seq<nat>, x: nat)
    requires QueueLinked(e, ends, q) && x in q && forall y :: y in q ==> y < MAX_VALID
    ensures x < |e| && e[x].next < 256 && e[x].second < 256
    ensures e[x].second != IS_FREE && e[x].second != IS_DEQUEUED
  {
    var i: nat :| i < |q| && q[i] == x;
    assert QueuedAt(e, q, i);
    assert i > 0 ==> q[i - 1] in q;
    assert i + 1 < |q| ==> q[i + 1] in q;
  }

  lemma QueueUntouched(e: seq<Entry>, e': seq<Entry>, ends: Ends, q: seq<nat>)
    requires QueueLinked(e, ends, q) && |e'| == |e| && forall x :: x in q && x < |e| ==> e'[x] == e[x]
    ensures QueueLinked(e', ends, q)
  {
    forall i: nat | i < |q| ensures QueuedAt(e', q, i) { assert QueuedAt(e, q, i) && q[i] in q; }
  }

  lemma FreeUntouched(e: seq<Entry>, e': seq<Entry>, first: nat, free: seq<nat>)
    requires FreeLinked(e, first, free) && |e'| == |e| && forall x :: x in free && x < |e| ==> e'[x] == e[x]
    ensures FreeLinked(e', first, free)
  {
    forall i: nat | i < |free| ensures FreeAt(e', free, i) { assert FreeAt(e, free, i) && free[i] in free; }
  }

  // ---- the effect of each operation on the memory ------------------------------

  lemma AllocateRep(e: seq<Entry>, first: nat, todo: Ends, done: Ends, v: View)
    requires Rep(e, first, todo, done, v) && first != INVALID
    ensures v.free != [] && first == v.free[0] < |e|
    ensures Rep(e[first := Entry(INVALID, IS_DEQUEUED)], e[first].next, todo, done, Allocate(v))
  {
    AllocateKeeps(v, |e|);
    assert FreeAt(e, v.free, 0) && v.free[0] in v.free;
    var e', w := e[first := Entry(INVALID, IS_DEQUEUED)], v.free[1..];
    forall i: nat | i < |w| ensures FreeAt(e', w, i) { assert FreeAt(e, v.free, i + 1); }
    QueueUntouched(e, e', todo, v.todo);
    QueueUntouched(e, e', done, v.done);
  }

  lemma FreeRep(e: seq<Entry>, first: nat, todo: Ends, done: Ends, v: View, slot: nat)
    requires Rep(e, first, todo, done, v) && Held(v, slot) && slot < |e|
    ensures Rep(e[slot := Entry(first, IS_FREE)], slot, todo, done, Free(v, slot))
  {
    FreeKeeps(v, |e|, slot);
    var e', w := e[slot := Entry(first, IS_FREE)], [slot] + v.free;
    forall i: nat | i < |w| ensures FreeAt(e', w, i) {
      if i > 0 {
        assert FreeAt(e, v.free, i - 1) && v.free[i - 1] in v.free;
      }
    }
    QueueUntouched(e, e', todo, v.todo);
    QueueUntouched(e, e', done, v.done);
  }

  /** What enqueue writes. */
  function Linked(e: seq<Entry>, ends: Ends, slot: nat): seq<Entry>
    requires slot < |e| && (ends.head == INVALID || ends.tail < |e|)
  {
    if ends.head == INVALID then e[slot := Entry(INVALID, INVALID)]
    else e[ends.tail := e[ends.tail].(next := slot)][slot := Entry(INVALID, ends.tail)]
  }

  lemma EnqueueLinked(e: seq<Entry>, ends: Ends, q: seq<nat>, slot: nat)
    requires QueueLinked(e, ends, q) && Distinct(q) && slot !in q && slot < |e|
    requires forall x :: x in q ==> x < MAX_VALID
    ensures ends.head == INVALID <==> q == []
    ensures q != [] ==> ends.tail < |e| && ends.tail in q
    ensures QueueLinked(Linked(e, ends, slot), EndsOf(q + [slot]), q + [slot])
    ensures forall x: nat :: x < |e| && x !in q && x != slot ==> Linked(e, ends, slot)[x] == e[x]
  {
    if q != [] {
      assert QueuedAt(e, q, |q| - 1) && q[0] in q && q[|q| - 1] in q;
    }
    var e', w := Linked(e, ends, slot), q + [slot];
    forall i: nat | i < |w| ensures QueuedAt(e', w, i) {
      if i < |q| { assert QueuedAt(e, q, i) && q[i] in q; }
    }
  }

  lemma EnqueueRep(e: seq<Entry>, first: nat, todo: Ends, done: Ends, v: View, q: QueueId, slot: nat)
    requires Rep(e, first, todo, done, v) && Held(v, slot) && slot < |e|
    requires (if q.Todo? then todo else done).head != INVALID ==> (if q.Todo? then todo else done).tail < |e|
    ensures var e', w := Linked(e, if q.Todo? then todo else done, slot), Enqueue(v, q, slot);
            Rep(e', first, EndsOf(w.todo), EndsOf(w.done), w)
  {
    EnqueueKeeps(v, |e|, q, slot);
    EnqueueLinked(e, if q.Todo? then todo else done, v.Queue(q), slot);
    var e', w := Linked(e, if q.Todo? then todo else done, slot), Enqueue(v, q, slot);
    FreeUntouched(e, e', first, v.free);
    if q.Todo? { QueueUntouched(e, e', done, v.done); } else { QueueUntouched(e, e', todo, v.todo); }
  }

  /** The two array cells that `dequeue` indexes through the slot's links exist. */
  predicate InBounds(e: seq<Entry>, ends: Ends, slot: nat) {
    && slot < |e|
    && (ends.head != ends.tail && ends.head == slot ==> e[slot].next < |e|)
    && (ends.head != ends.tail && ends.head != slot ==> e[slot].second < |e|)
    && (ends.head != ends.tail && ends.head != slot && ends.tail != slot ==> e[slot].next < |e|)
  }

  /** What dequeue writes: it looks at the queue's ends and at the slot's own links. */
  function Unlinked(e: seq<Entry>, ends: Ends, slot: nat): seq<Entry>
    requires InBounds(e, ends, slot)
  {
    var n, p := e[slot].next, e[slot].second;
    var w :=
      if ends.head == ends.tail then e
      else if ends.head == slot then e[n := e[n].(second := INVALID)]
      else if ends.tail == slot then e[p := e[p].(next := INVALID)]
      else
        var e1 := e[p := e[p].(next := n)];
        e1[n := e1[n].(second := p)];
    w[slot := Entry(INVALID, IS_DEQUEUED)]
  }

  function UnlinkedEnds(e: seq<Entry>, ends: Ends, slot: nat): Ends
    requires InBounds(e, ends, slot)
  {
    if ends.head == ends.tail then Ends(INVALID, INVALID)
    else if ends.head == slot then ends.(head := e[slot].next)
    else if ends.tail == slot then ends.(tail := e[slot].second)
    else ends
  }

  /** Dequeuing position `i` of the queue, whichever of the four cases that is. */
  lemma DequeueLinked(e: seq<Entry>, ends: Ends, q: seq<nat>, i: nat)
    requires QueueLinked(e, ends, q) && Distinct(q) && i < |q|
    requires forall x :: x in q ==> x < MAX_VALID
    ensures InBounds(e, ends, q[i])
    ensures var w := q[..i] + q[i + 1..];
            && UnlinkedEnds(e, ends, q[i]) == EndsOf(w)
            && QueueLinked(Unlinked(e, ends, q[i]), EndsOf(w), w)
    ensures forall x: nat :: x < |e| && x !in q ==> Unlinked(e, ends, q[i])[x] == e[x]
    ensures Unlinked(e, ends, q[i])[q[i]] == Entry(INVALID, IS_DEQUEUED)
  {
    assert QueuedAt(e, q, i);
    if i > 0 { assert QueuedAt(e, q, i - 1) && q[i - 1] in q; }
    if i + 1 < |q| { assert QueuedAt(e, q, i + 1) && q[i + 1] in q; }
    var e', w := Unlinked(e, ends, q[i]), q[..i] + q[i + 1..];
    forall j: nat | j < |w| ensures QueuedAt(e', w, j) {
      if j < i { assert QueuedAt(e, q, j); } else { assert QueuedAt(e, q, j + 1); }
    }
  }

  /** The interior of a queue is unlinked the same way when `dequeue` is handed the
      ends of some other queue, because it then follows only the slot's own links. */
  lemma DequeueForeign(e: seq<Entry>, ends: Ends, foreign: Ends, q: seq<nat>, i: nat)
    requires QueueLinked(e, ends, q) && Distinct(q) && 0 < i < |q| - 1
    requires forall x :: x in q ==> x < MAX_VALID
    requires foreign.head != foreign.tail && foreign.head !in q && foreign.tail !in q
    ensures InBounds(e, ends, q[i]) && InBounds(e, foreign, q[i])
    ensures Unlinked(e, foreign, q[i]) == Unlinked(e, ends, q[i])
    ensures UnlinkedEnds(e, foreign, q[i]) == foreign && UnlinkedEnds(e, ends, q[i]) == ends
  {
    DequeueLinked(e, ends, q, i);
    assert QueuedAt(e, q, i) && q[i] in q && q[i - 1] in q && q[i + 1] in q;
  }

  function Other(q: QueueId): QueueId {
    if q.Todo? then Done else Todo
  }

  function EndsFor(todo: Ends, done: Ends, q: QueueId): Ends {
    if q.Todo? then todo else done
  }

  /** `Rep` with the ends of one queue replaced. */
  ghost predicate RepWith(e: seq<Entry>, first: nat, todo: Ends, done: Ends, q: QueueId, ends: Ends, v: View) {
    Rep(e, first, if q.Todo? then ends else todo, if q.Todo? then done else ends, v)
  }

  lemma DequeueRep(e: seq<Entry>, first: nat, todo: Ends, done: Ends, v: View, q: QueueId, slot: nat)
    requires Rep(e, first, todo, done, v) && slot in v.Queue(q)
    ensures var ends := EndsFor(todo, done, q);
            && ends.head != INVALID && InBounds(e, ends, slot)
            && RepWith(Unlinked(e, ends, slot), first, todo, done, q, UnlinkedEnds(e, ends, slot),
                       PoolSpec.Dequeue(v, q, slot))
  {
    var ends, s := EndsFor(todo, done, q), v.Queue(q);
    DequeueQueue(e, ends, s, slot);
    DequeueKeeps(v, |e|, q, slot);
    var e' := Unlinked(e, ends, slot);
    FreeUntouched(e, e', first, v.free);
    if q.Todo? { QueueUntouched(e, e', done, v.done); } else { QueueUntouched(e, e', todo, v.todo); }
    HeldAfterDequeue(e, e', v, q, slot);
  }

  lemma DequeueQueue(e: seq<Entry>, ends: Ends, q: seq<nat>, slot: nat)
    requires QueueLinked(e, ends, q) && Distinct(q) && slot in q
    requires forall x :: x in q ==> x < MAX_VALID
    ensures ends.head != INVALID && InBounds(e, ends, slot)
    ensures QueueLinked(Unlinked(e, ends, slot), UnlinkedEnds(e, ends, slot), Without(q, slot))
    ensures forall x: nat :: x < |e| && x !in q ==> Unlinked(e, ends, slot)[x] == e[x]
    ensures Unlinked(e, ends, slot)[slot] == Entry(INVALID, IS_DEQUEUED)
  {
    var i: nat :| i < |q| && q[i] == slot;
    assert q[0] in q;
    DequeueLinked(e, ends, q, i);
    WithoutAt(q, i);
  }

  lemma HeldAfterDequeue(e: seq<Entry>, e': seq<Entry>, v: View, q: QueueId, slot: nat)
    requires Wf(v, |e|) && HeldMarked(e, v) && slot in v.Queue(q) && |e'| == |e|
    requires forall x: nat :: x < |e| && x !in v.Queue(q) ==> e'[x] == e[x]
    requires slot < |e| && e'[slot] == Entry(INVALID, IS_DEQUEUED)
    ensures HeldMarked(e', PoolSpec.Dequeue(v, q, slot))
  {
    WithoutMembers(v.Queue(q), slot);
  }

  // ---- dequeuing a slot that is on the other queue of the pool -------------------

  predicate Interior(s: seq<nat>, x: nat) {
    x in s && x != s[0] && x != s[|s| - 1]
  }

  /** The calls of dequeue(q, slot) that leave a pool behind. */
  predicate DequeueSafe(v: View, q: QueueId, slot: nat) {
    slot in v.Queue(Other(q)) && v.Queue(q) != [] ==> |v.Queue(q)| > 1 && Interior(v.Queue(Other(q)), slot)
  }

  /** The view after a safe call: a slot in the interior of the other queue is taken
      off that queue; with `q` empty nothing happens. */
  function DequeueAny(v: View, q: QueueId, slot: nat): View {
    if slot in v.Queue(q) then PoolSpec.Dequeue(v, q, slot)
    else if slot in v.Queue(Other(q)) && v.Queue(q) != [] then PoolSpec.Dequeue(v, Other(q), slot)
    else v
  }

  lemma DequeueOtherRep(e: seq<Entry>, first: nat, todo: Ends, done: Ends, v: View, q: QueueId, slot: nat)
    requires Rep(e, first, todo, done, v) && Interior(v.Queue(Other(q)), slot) && |v.Queue(q)| > 1
    ensures var ends := EndsFor(todo, done, q);
            && InBounds(e, ends, slot) && UnlinkedEnds(e, ends, slot) == ends
            && RepWith(Unlinked(e, ends, slot), first, todo, done, q, ends, PoolSpec.Dequeue(v, Other(q), slot))
  {
    var ends, s, f := EndsFor(todo, done, Other(q)), v.Queue(Other(q)), v.Queue(q);
    var i: nat :| i < |s| && s[i] == slot;
    assert f[0] in f && f[|f| - 1] in f;
    DequeueForeign(e, ends, EndsFor(todo, done, q), s, i);
    DequeueRep(e, first, todo, done, v, Other(q), slot);
  }

  lemma DequeueAnyRep(e: seq<Entry>, first: nat, todo: Ends, done: Ends, v: View, q: QueueId, slot: nat)
    requires Rep(e, first, todo, done, v) && DequeueSafe(v, q, slot)
    requires (slot in v.todo || slot in v.done) && v.Queue(q) != []
    ensures DequeueAny(v, q, slot).free == v.free
    ensures var ends := EndsFor(todo, done, q);
            && InBounds(e, ends, slot)
            && RepWith(Unlinked(e, ends, slot), first, todo, done, q, UnlinkedEnds(e, ends, slot),
                       DequeueAny(v, q, slot))
  {
    if slot in v.Queue(q) {
      DequeueRep(e, first, todo, done, v, q, slot);
    } else {
      DequeueOtherRep(e, first, todo, done, v, q, slot);
    }
  }

  /** No list owns the slot that was alone on its queue when that queue is emptied
      in place of the other one. */
  lemma WrongQueueBreaks(e: seq<Entry>, first: nat, todo: Ends, done: Ends, v: View, q: QueueId, slot: nat, w: View)
    requires Rep(e, first, todo, done, v) && slot in v.Queue(Other(q)) && |v.Queue(q)| == 1
    requires InBounds(e, EndsFor(todo, done, q), slot)
    ensures var ends := EndsFor(todo, done, q);
            !RepWith(Unlinked(e, ends, slot), first, todo, done, q, UnlinkedEnds(e, ends, slot), w)
  {
    var ends, t := EndsFor(todo, done, q), v.Queue(q)[0];
    var e', ends' := Unlinked(e, ends, slot), UnlinkedEnds(e, ends, slot);
    var todo', done' := if q.Todo? then ends' else todo, if q.Todo? then done else ends';
    var other, s := EndsFor(todo, done, Other(q)), v.Queue(Other(q));
    assert QueuedAt(e, v.Queue(q), 0) && t in v.Queue(q) && s[0] in s;
    assert e'[t] == Entry(INVALID, INVALID) && other.head != t;
    if RepWith(e', first, todo, done, q, ends', w) {
      OverlayTellsApart(e', first, todo', done', w, t);
      if w.Queue(q) != [] { EndsAreSlots(w.Queue(q), |e'|); }
      var o := w.Queue(Other(q));
      assert forall k: nat :: k < |o| ==> o[k] in o;
      SoleMember(e', other, o, t);
    }
  }

  lemma EndsAreSlots(s: seq<nat>, num: nat)
    requires s != [] && forall x :: x in s ==> x < num
    ensures EndsOf(s).head < num
  {
    assert s[0] in s;
  }

  lemma SoleMember(e: seq<Entry>, ends: Ends, s: seq<nat>, t: nat)
    requires QueueLinked(e, ends, s) && t in s && forall k: nat :: k < |s| ==> s[k] < MAX_VALID
    requires t < |e| && e[t] == Entry(INVALID, INVALID)
    ensures ends == Ends(t, t)
  {
    var i: nat :| i < |s| && s[i] == t;
    assert QueuedAt(e, s, i);
  }

  /** For a slot on either queue, `dequeue` on a queue that is not empty stays within
      the array and leaves a pool behind if and only if the call is safe. */
  lemma DequeueExactly(e: seq<Entry>, first: nat, todo: Ends, done: Ends, v: View, q: QueueId, slot: nat)
    requires Rep(e, first, todo, done, v) && slot < |e| && !Held(v, slot) && slot !in v.free
    requires v.Queue(q) != []
    ensures DequeueSafe(v, q, slot) <==>
            && InBounds(e, EndsFor(todo, done, q), slot)
            && var ends := EndsFor(todo, done, q);
               exists w :: RepWith(Unlinked(e, ends, slot), first, todo, done, q, UnlinkedEnds(e, ends, slot), w)
  {
    var ends := EndsFor(todo, done, q);
    var o := v.Queue(Other(q));
    if slot in v.Queue(q) {
      DequeueRep(e, first, todo, done, v, q, slot);
    } else if |v.Queue(q)| == 1 {
      if InBounds(e, ends, slot) {
        var e', ends' := Unlinked(e, ends, slot), UnlinkedEnds(e, ends, slot);
        forall w ensures !RepWith(e', first, todo, done, q, ends', w) {
          WrongQueueBreaks(e, first, todo, done, v, q, slot, w);
        }
      }
    } else if Interior(o, slot) {
      DequeueOtherRep(e, first, todo, done, v, q, slot);
    } else {
      OutOfArray(e, ends, EndsFor(todo, done, Other(q)), v.Queue(q), o, slot);
    }
  }

  /** An end of the other queue: the link that is followed is UVISOR_POOL_SLOT_INVALID. */
  lemma OutOfArray(e: seq<Entry>, ends: Ends, other: Ends, q: seq<nat>, o: seq<nat>, slot: nat)
    requires |e| < MAX_VALID && QueueLinked(e, ends, q) && QueueLinked(e, other, o)
    requires Distinct(q) && |q| > 1 && slot !in q && slot in o && !Interior(o, slot) && Distinct(o)
    ensures !InBounds(e, ends, slot)
  {
    assert q[0] in q && q[|q| - 1] in q;
    assert QueuedAt(e, o, 0) && QueuedAt(e, o, |o| - 1);
  }

  // ---- freeing or enqueuing a slot that is not held ------------------------------

  /** Whoever points at a slot is acknowledged by that slot's overlay byte. */
  lemma LinksBack(e: seq<Entry>, first: nat, todo: Ends, done: Ends, v: View, x: nat)
    requires Rep(e, first, todo, done, v) && x < |e|
    ensures first == x ==> e[x].second == IS_FREE
    ensures todo.head == x ==> x in v.todo && e[x].second == INVALID
    ensures done.head == x ==> x in v.done && e[x].second == INVALID
    ensures todo.tail == x ==> x in v.todo
    ensures done.tail == x ==> x in v.done
  {
    assert first == x ==> FreeAt(e, v.free, 0);
    assert todo.head == x ==> QueuedAt(e, v.todo, 0);
    assert done.head == x ==> QueuedAt(e, v.done, 0);
  }

  lemma FollowBack(e: seq<Entry>, first: nat, todo: Ends, done: Ends, v: View, t: nat)
    requires Rep(e, first, todo, done, v) && t < |e| && e[t].next < |e|
    ensures e[t].second == IS_FREE ==> e[e[t].next].second == IS_FREE
    ensures e[t].second != IS_FREE ==> e[e[t].next].second == t
  {
    OverlayTellsApart(e, first, todo, done, v, t);
    if t in v.free {
      var i: nat :| i < |v.free| && v.free[i] == t;
      assert FreeAt(e, v.free, i) && FreeAt(e, v.free, i + 1);
    } else {
      var s := if t in v.todo then v.todo else v.done;
      assert t in s by { assert HeldMarked(e, v); }
      var i: nat :| i < |s| && s[i] == t;
      assert QueuedAt(e, s, i) && QueuedAt(e, s, i + 1);
    }
  }

  /** Where the slots stand that point at `x`. */
  lemma PointedAt(e: seq<Entry>, first: nat, todo: Ends, done: Ends, v: View, x: nat) returns (t: nat)
    requires Rep(e, first, todo, done, v) && x < |e| && !Held(v, x)
    ensures t < |e| ==> t != x && e[t].next == x && (x in v.free <==> e[t].second == IS_FREE)
    ensures t < |e| ==> (x in v.todo <==> t in v.todo) && (x in v.done <==> t in v.done)
    ensures t < |e| && t in v.todo ==> t != todo.tail
    ensures t < |e| && t in v.done ==> t != done.tail
    ensures t >= |e| && x in v.free ==> first == x
    ensures t >= |e| && x in v.todo ==> todo.head == x
    ensures t >= |e| && x in v.done ==> done.head == x
  {
    var s := if x in v.free then v.free else if x in v.todo then v.todo else v.done;
    var i: nat :| i < |s| && s[i] == x;
    t := if i == 0 then |e| else s[i - 1];
    if i > 0 {
      assert t in s;
      if x in v.free { assert FreeAt(e, s, i - 1); } else { assert QueuedAt(e, s, i - 1); }
      OverlayTellsApart(e, first, todo, done, v, t);
    }
  }

  /** Freeing an allocated slot leaves a pool behind if and only if it is on no queue. */
  lemma FreeExactly(e: seq<Entry>, first: nat, todo: Ends, done: Ends, v: View, slot: nat)
    requires Rep(e, first, todo, done, v) && slot < |e| && slot !in v.free
    ensures var e' := e[slot := Entry(first, IS_FREE)];
            Held(v, slot) <==> exists w :: Rep(e', slot, todo, done, w)
  {
    var e' := e[slot := Entry(first, IS_FREE)];
    if Held(v, slot) {
      FreeRep(e, first, todo, done, v, slot);
    } else {
      var t := PointedAt(e, first, todo, done, v, slot);
      forall w ensures !Rep(e', slot, todo, done, w) {
        if Rep(e', slot, todo, done, w) {
          if t < |e| { FollowBack(e', slot, todo, done, w, t); } else { LinksBack(e', slot, todo, done, w, slot); }
        }
      }
    }
  }

  /** The ends of a queue after enqueue. */
  function LinkedEnds(ends: Ends, slot: nat): Ends {
    if ends.head == INVALID then Ends(slot, slot) else ends.(tail := slot)
  }

  /** Enqueuing leaves a pool behind if and only if the slot is held. */
  lemma EnqueueExactly(e: seq<Entry>, first: nat, todo: Ends, done: Ends, v: View, q: QueueId, slot: nat)
    requires Rep(e, first, todo, done, v) && slot < |e|
    ensures var ends := EndsFor(todo, done, q);
            && (ends.head != INVALID ==> ends.tail < |e|)
            && (Held(v, slot) <==>
                exists w :: RepWith(Linked(e, ends, slot), first, todo, done, q, LinkedEnds(ends, slot), w))
  {
    var ends := EndsFor(todo, done, q);
    TailIsSlot(e, ends, v.Queue(q));
    var e', ends' := Linked(e, ends, slot), LinkedEnds(ends, slot);
    if Held(v, slot) {
      EnqueueRep(e, first, todo, done, v, q, slot);
      EnqueueLinked(e, ends, v.Queue(q), slot);
      assert RepWith(e', first, todo, done, q, ends', PoolSpec.Enqueue(v, q, slot));
    } else {
      var t := PointedAt(e, first, todo, done, v, slot);
      forall w ensures !RepWith(e', first, todo, done, q, ends', w) {
        if RepWith(e', first, todo, done, q, ends', w) {
          var todo', done' := if q.Todo? then ends' else todo, if q.Todo? then done else ends';
          if t < |e| {
            FollowBack(e', first, todo', done', w, t);
          } else {
            LinksBack(e', first, todo', done', w, slot);
          }
        }
      }
    }
  }

  lemma TailIsSlot(e: seq<Entry>, ends: Ends, q: seq<nat>)
    requires QueueLinked(e, ends, q) && forall x :: x in q ==> x < MAX_VALID
    ensures ends.head == INVALID <==> q == []
    ensures ends.head != INVALID ==> ends.tail < |e| && ends.tail in q
  {
    if q != [] { assert QueuedAt(e, q, |q| - 1) && q[0] in q; }
  }

  // ---- initialisation ----------------------------------------------------------

  function FreshEntry(num: nat, i: nat): Entry {
    Entry(if i + 1 == num then INVALID else i + 1, IS_FREE)
  }

  lemma FreshRep(e: seq<Entry>)
    requires 0 < |e| < MAX_VALID && forall i: nat :: i < |e| ==> e[i] == FreshEntry(|e|, i)
    ensures Rep(e, 0, Ends(INVALID, INVALID), Ends(INVALID, INVALID), Fresh(|e|))
  {
    FreshWf(|e|);
    forall i: nat | i < |e| ensures FreeAt(e, Fresh(|e|).free, i) {}
  }

  lemma {:induction false} ShortList(s: seq<nat>, num: nat)
    requires Distinct(s) && forall i: nat :: i < |s| ==> s[i] < num
    ensures |s| <= num
    decreases num
  {
    assert |s| > 0 ==> s[0] < num;
    if num > 0 {
      if num - 1 in s {
        var i: nat :| i < |s| && s[i] == num - 1;
        ShortList(s[..i] + s[i + 1..], num - 1);
      } else {
        assert forall i: nat :: i < |s| ==> s[i] in s;
        ShortList(s, num - 1);
      }
    }
  }

  /** A slot that is not free can be counted down. */
  lemma NotAllFree(v: View, num: nat, x: nat)
    requires Wf(v, num) && x < num && x !in v.free
    ensures |v.free| < num
  {
    assert forall i: nat :: i < |v.free| ==> v.free[i] in v.free;
    ShortList([x] + v.free, num);
  }

  // ---- the operations ------------------------------------------------------------

  /** A pool with the two queues that the incoming RPC messages thread through it. */
  class Pool {
    const entries: array<Entry>
    var num: nat
    var numAllocated: nat
    var firstFree: nat
    var todo: Ends
    var done: Ends
    ghost var view: View

    ghost predicate Valid()
      reads this, entries
    {
      && num == entries.Length
      && Rep(entries[..], firstFree, todo, done, view)
      && numAllocated + |view.free| == num
    }

    /** Statically allocated storage, not yet initialised. */
    constructor (capacity: nat)
      ensures entries.Length == capacity && fresh(entries)
    {
      entries := new Entry[capacity](_ => Entry(0, 0));
      num, numAllocated, firstFree := 0, 0, 0;
      todo, done := Ends(0, 0), Ends(0, 0);
      view := View([], [], []);
    }

    /** uvisor_pool_init. An empty pool is accepted, and the write after the loop then
        goes to the entry before the first: `stray` reports it in place of doing it. */
    method Init(n: nat) returns (r: int, stray: bool)
      requires n == entries.Length
      modifies this`num, this`numAllocated, this`firstFree, entries
      ensures r == if n < MAX_VALID then 0 else -1
      ensures r != 0 ==> unchanged(this) && unchanged(entries)
      ensures r == 0 ==> num == n && numAllocated == 0 && firstFree == 0
      ensures r == 0 ==> forall i: nat :: i < n ==> entries[i] == FreshEntry(n, i)
      ensures stray <==> n == 0
    {
      if n >= MAX_VALID {
        return -1, false;
      }
      num, numAllocated, firstFree := n, 0, 0;
      var i := 0;
      while i < n
        invariant 0 <= i <= n && num == n && numAllocated == 0 && firstFree == 0
        invariant forall j: nat :: j < i ==> entries[j] == Entry(j + 1, IS_FREE)
      {
        entries[i] := Entry(i + 1, IS_FREE);
        i := i + 1;
      }
      if n == 0 {
        return 0, true;
      }
      entries[n - 1] := entries[n - 1].(next := INVALID);
      return 0, false;
    }

    /** uvisor_pool_queue_init: reports success even when the pool was refused. */
    method QueueInit(q: QueueId, n: nat) returns (r: int, stray: bool)
      requires n == entries.Length
      modifies this, entries
      ensures r == 0 && (stray <==> n == 0)
      ensures EndsFor(todo, done, q) == Ends(INVALID, INVALID)
      ensures EndsFor(todo, done, Other(q)) == EndsFor(old(todo), old(done), Other(q))
      ensures n < MAX_VALID ==> num == n && numAllocated == 0 && firstFree == 0
      ensures n < MAX_VALID ==> forall i: nat :: i < n ==> entries[i] == FreshEntry(n, i)
      ensures 0 < n < MAX_VALID && EndsFor(todo, done, Other(q)) == Ends(INVALID, INVALID) ==>
                Valid() && view == Fresh(n)
      ensures n >= MAX_VALID ==> num == old(num) && view == old(view) && unchanged(entries)
    {
      var _, outside := Init(n);
      if q.Todo? { todo := Ends(INVALID, INVALID); } else { done := Ends(INVALID, INVALID); }
      if 0 < n < MAX_VALID {
        FreshRep(entries[..]);
        view := Fresh(n);
      }
      return 0, outside;
    }

    /** The double initialisation of the incoming pool, whatever was there before. */
    method InitBoth(n: nat) returns (r: int, stray: bool)
      requires n == entries.Length
      modifies this, entries
      ensures r == 0 && (stray <==> n == 0)
      ensures 0 < n < MAX_VALID ==> Valid() && view == Fresh(n) && numAllocated == 0
      ensures n >= MAX_VALID ==> num == old(num) && unchanged(entries)
    {
      r, stray := QueueInit(Todo, n);
      if r == 0 {
        r, stray := QueueInit(Done, n);
      }
    }

    /** uvisor_pool_allocate. */
    method Allocate() returns (slot: nat)
      requires Valid()
      modifies this`numAllocated, this`firstFree, this`view, entries
      ensures Valid()
      ensures slot == INVALID <==> old(view).free == []
      ensures slot == INVALID ==> view == old(view)
      ensures slot != INVALID ==> slot == old(view).free[0] && view == PoolSpec.Allocate(old(view)) && Held(view, slot)
    {
      slot := firstFree;
      if firstFree != INVALID {
        AllocateRep(entries[..], firstFree, todo, done, view);
        AllocateKeeps(view, num);
        firstFree := entries[firstFree].next;
        entries[slot] := Entry(INVALID, IS_DEQUEUED);
        numAllocated := numAllocated + 1;
        view := PoolSpec.Allocate(view);
      } else if view.free != [] {
        EndsAreSlots(view.free, num);
      }
    }

    /** No view is laid out in the memory. */
    ghost predicate Broken()
      reads this, entries
    {
      forall w :: !Rep(entries[..], firstFree, todo, done, w)
    }

    /** uvisor_pool_queue_enqueue of any slot. The source does not look at the slot: one
        outside the pool is written outside the array, which `stray` reports in place of
        doing it, and one that is not held breaks the pool. */
    method Enqueue(q: QueueId, slot: nat) returns (stray: bool)
      requires Valid()
      modifies this`todo, this`done, this`view, entries
      ensures stray <==> slot != INVALID && slot >= num
      ensures slot == INVALID || stray ==> Valid() && view == old(view)
      ensures slot < num && Held(old(view), slot) ==> Valid() && view == PoolSpec.Enqueue(old(view), q, slot)
      ensures slot < num && !Held(old(view), slot) ==> Broken()
    {
      if slot == INVALID || slot >= num {
        return slot != INVALID;
      }
      var ends := EndsFor(todo, done, q);
      ghost var e := entries[..];
      EnqueueExactly(e, firstFree, todo, done, view, q, slot);
      ghost var w := PoolSpec.Enqueue(view, q, slot);
      if Held(view, slot) {
        EnqueueLinked(e, ends, view.Queue(q), slot);
        EnqueueRep(e, firstFree, todo, done, view, q, slot);
      }
      ghost var todo0, done0 := todo, done;
      Link(q, slot);
      forall x | !Held(view, slot) ensures !Rep(entries[..], firstFree, todo, done, x) {
        assert !RepWith(entries[..], firstFree, todo0, done0, q, EndsFor(todo, done, q), x);
      }
      if Held(view, slot) { view := w; }
      return false;
    }

    /** enqueue: the link writes. */
    method Link(q: QueueId, slot: nat)
      requires slot < entries.Length
      requires EndsFor(todo, done, q).head == INVALID || EndsFor(todo, done, q).tail < entries.Length
      modifies this`todo, this`done, entries
      ensures entries[..] == Linked(old(entries[..]), EndsFor(old(todo), old(done), q), slot)
      ensures EndsFor(todo, done, q) == LinkedEnds(EndsFor(old(todo), old(done), q), slot)
      ensures EndsFor(todo, done, Other(q)) == EndsFor(old(todo), old(done), Other(q))
    {
      var ends := EndsFor(todo, done, q);
      if ends.head == INVALID {
        ends := ends.(head := slot);
        entries[slot] := entries[slot].(second := INVALID);
      } else {
        entries[ends.tail] := entries[ends.tail].(next := slot);
        entries[slot] := entries[slot].(second := ends.tail);
      }
      entries[slot] := entries[slot].(next := INVALID);
      ends := ends.(tail := slot);
      if q.Todo? { todo := ends; } else { done := ends; }
    }

    /** uvisor_pool_free of any slot. The overlay byte keeps a slot from being freed twice,
        but freeing one that is still queued breaks the pool. */
    method Free(slot: nat) returns (r: nat)
      requires Valid()
      modifies this`numAllocated, this`firstFree, this`view, entries
      ensures r == if slot >= num then INVALID else if slot in old(view).free then IS_FREE else slot
      ensures slot >= num || slot in old(view).free ==> Valid() && view == old(view)
      ensures slot < num && Held(old(view), slot) ==> Valid() && view == PoolSpec.Free(old(view), slot)
      ensures slot in old(view).todo || slot in old(view).done ==> Broken()
    {
      if slot >= num {
        return INVALID;
      }
      OverlayTellsApart(entries[..], firstFree, todo, done, view, slot);
      var state := entries[slot].second;
      if state == IS_FREE {
        return state;
      }
      FreeExactly(entries[..], firstFree, todo, done, view, slot);
      if Held(view, slot) { FreeRep(entries[..], firstFree, todo, done, view, slot); }
      NotAllFree(view, num, slot);
      entries[slot] := Entry(firstFree, IS_FREE);
      firstFree := slot;
      numAllocated := numAllocated - 1;
      if Held(view, slot) { view := PoolSpec.Free(view, slot); }
      return slot;
    }

    /** dequeue: the four cases, on the array. */
    method Unlink(q: QueueId, slot: nat)
      requires InBounds(entries[..], EndsFor(todo, done, q), slot)
      modifies this`todo, this`done, entries
      ensures entries[..] == Unlinked(old(entries[..]), EndsFor(old(todo), old(done), q), slot)
      ensures EndsFor(todo, done, q) == UnlinkedEnds(old(entries[..]), EndsFor(old(todo), old(done), q), slot)
      ensures EndsFor(todo, done, Other(q)) == EndsFor(old(todo), old(done), Other(q))
    {
      var ends := EndsFor(todo, done, q);
      if ends.head == ends.tail {
        ends := Ends(INVALID, INVALID);
      } else if ends.head == slot {
        var next := entries[slot].next;
        entries[next] := entries[next].(second := INVALID);
        ends := ends.(head := entries[slot].next);
      } else if ends.tail == slot {
        var prev := entries[slot].second;
        entries[prev] := entries[prev].(next := INVALID);
        ends := ends.(tail := entries[slot].second);
      } else {
        var next, prev := entries[slot].next, entries[slot].second;
        entries[prev] := entries[prev].(next := next);
        entries[next] := entries[next].(second := prev);
      }
      entries[slot] := Entry(INVALID, IS_DEQUEUED);
      if q.Todo? { todo := ends; } else { done := ends; }
    }

    /** uvisor_pool_queue_dequeue of any slot, wherever it stands. A call that is not safe
        follows a link out of the array, which `stray` reports, or breaks the pool. */
    method Dequeue(q: QueueId, slot: nat) returns (r: nat, stray: bool)
      requires Valid()
      modifies this`todo, this`done, this`view, entries
      ensures r == if slot >= num then INVALID
                   else if slot in old(view).free then IS_FREE
                   else if Held(old(view), slot) then IS_DEQUEUED
                   else slot
      ensures DequeueSafe(old(view), q, slot) ==> !stray && Valid() && view == DequeueAny(old(view), q, slot)
      ensures !DequeueSafe(old(view), q, slot) ==> stray || Broken()
    {
      if slot >= num {
        return INVALID, false;
      }
      ghost var e := entries[..];
      OverlayTellsApart(e, firstFree, todo, done, view, slot);
      var state := entries[slot].second;
      if state == IS_FREE || state == IS_DEQUEUED {
        return state, false;
      }
      var ends := EndsFor(todo, done, q);
      TailIsSlot(e, ends, view.Queue(q));
      if ends.head == INVALID {
        return slot, false;
      }
      DequeueExactly(e, firstFree, todo, done, view, q, slot);
      if !Within(ends, slot) {
        return slot, true;
      }
      if DequeueSafe(view, q, slot) { DequeueAnyRep(e, firstFree, todo, done, view, q, slot); }
      ghost var todo0, done0 := todo, done;
      Unlink(q, slot);
      forall x | !DequeueSafe(view, q, slot) ensures !Rep(entries[..], firstFree, todo, done, x) {
        assert !RepWith(entries[..], firstFree, todo0, done0, q, EndsFor(todo, done, q), x);
      }
      if DequeueSafe(view, q, slot) { view := DequeueAny(view, q, slot); }
      return slot, false;
    }

    /** The cells that dequeue indexes exist. */
    predicate Within(ends: Ends, slot: nat)
      reads this, entries
      ensures Within(ends, slot) <==> InBounds(entries[..], ends, slot)
    {
      && slot < entries.Length
      && (ends.head != ends.tail && ends.head == slot ==> entries[slot].next < entries.Length)
      && (ends.head != ends.tail && ends.head != slot ==> entries[slot].second < entries.Length)
      && (ends.head != ends.tail && ends.head != slot && ends.tail != slot ==> entries[slot].next < entries.Length)
    }

    /** uvisor_pool_queue_dequeue_first. */
    method DequeueFirst(q: QueueId) returns (slot: nat)
      requires Valid()
      modifies this`todo, this`done, this`view, entries
      ensures Valid()
      ensures slot == INVALID <==> old(view).Queue(q) == []
      ensures slot == INVALID ==> view == old(view)
      ensures slot != INVALID ==>
                && slot == old(view).Queue(q)[0] && Held(view, slot)
                && view == old(view).WithQueue(q, old(view).Queue(q)[1..])
    {
      var ends := EndsFor(todo, done, q);
      slot := ends.head;
      if view.Queue(q) != [] {
        EndsAreSlots(view.Queue(q), num);
      }
      if ends.head != INVALID {
        DequeueRep(entries[..], firstFree, todo, done, view, q, slot);
        DequeueKeeps(view, num, q, slot);
        Unlink(q, slot);
        view := PoolSpec.Dequeue(view, q, slot);
      }
    }

    /** find_first: the earliest match in queue order, or UVISOR_POOL_SLOT_INVALID. */
    method FindFirst(q: QueueId, query: nat -> bool) returns (slot: nat)
      requires Valid()
      ensures slot == INVALID ==> forall i: nat :: i < |view.Queue(q)| ==> !query(view.Queue(q)[i])
      ensures slot != INVALID ==>
                exists i: nat :: i < |view.Queue(q)| && view.Queue(q)[i] == slot && query(slot)
                  && forall j: nat :: j < i ==> !query(view.Queue(q)[j])
    {
      ghost var s, i := view.Queue(q), 0;
      assert forall k: nat :: k < |s| ==> s[k] in s;
      slot := EndsFor(todo, done, q).head;
      while slot != INVALID
        invariant 0 <= i <= |s|
        invariant slot == if i < |s| then s[i] else INVALID
        invariant forall j: nat :: j < i ==> !query(s[j])
        decreases |s| - i
      {
        assert QueuedAt(entries[..], s, i);
        if query(slot) {
          return slot;
        }
        slot := entries[slot].next;
        i := i + 1;
      }
    }
  }
}
