/** The callee's library code in one thread (api/src/rpc.c): registering a function group
    on first use, and rpc_fncall_waitfor. Both run on the pool of PoolQueue.dfy. */
module FnGroups {
  import opened PoolSpec
  import opened PoolQueue

  const GROUP_SLOTS: nat := 8      // UVISOR_RPC_FN_GROUP_SLOTS
  const INCOMING_SLOTS: nat := 8   // UVISOR_RPC_INCOMING_MESSAGE_SLOTS

  const OUT_OF_STRUCTURES: int := -7   // UVISOR_ERROR_OUT_OF_STRUCTURES
  const NONE: nat := GROUP_SLOTS       // a null group

  /** A function group: the address of its array (0 is null) and the functions in it. */
  datatype Group = Group(address: nat, targets: seq<int>)

  /** An incoming message: the target of its gateway, whether its magic is known, and the box
      that called. */
  datatype Message = Message(target: int, known: bool, caller: int)

  /** One group per registered array, on exactly the allocated slots. */
  ghost predicate GroupsOk(groups: seq<Group>, v: View) {
    && |groups| == GROUP_SLOTS && Wf(v, GROUP_SLOTS) && v.done == []
    && (forall i: nat :: i < GROUP_SLOTS ==> (groups[i].address != 0 <==> i in v.todo))
    && (forall i: nat :: i < GROUP_SLOTS ==> (groups[i].address == 0 <==> i in v.free))
    && (forall i: nat, j: nat :: i < GROUP_SLOTS && j < GROUP_SLOTS && groups[i].address == groups[j].address != 0 ==>
          i == j)
  }

  ghost predicate Registered(groups: seq<Group>, a: nat) {
    exists i: nat :: i < |groups| && groups[i].address == a
  }

  lemma RegisterOk(groups: seq<Group>, v: View, a: nat, targets: seq<int>)
    requires GroupsOk(groups, v) && v.free != [] && a != 0 && !Registered(groups, a)
    ensures v.free[0] < GROUP_SLOTS && Held(Allocate(v), v.free[0])
    ensures GroupsOk(groups[v.free[0] := Group(a, targets)], PoolSpec.Enqueue(Allocate(v), Todo, v.free[0]))
  {
    AllocateKeeps(v, GROUP_SLOTS);
    EnqueueKeeps(Allocate(v), GROUP_SLOTS, Todo, v.free[0]);
  }

  lemma FullExactly(groups: seq<Group>, v: View)
    requires GroupsOk(groups, v)
    ensures v.free == [] <==> forall i: nat :: i < GROUP_SLOTS ==> groups[i].address != 0
  {
    if v.free != [] { assert v.free[0] in v.free; }
  }

  predicate CanHandle(messages: seq<Message>, slot: nat, targets: seq<int>) {
    slot < |messages| && messages[slot].target in targets
  }

  /** The position of the earliest queued message for one of the targets, or the length. */
  function Earliest(messages: seq<Message>, queue: seq<nat>, targets: seq<int>): (i: nat)
    ensures i <= |queue|
    ensures i < |queue| ==> CanHandle(messages, queue[i], targets)
    ensures forall h: nat :: h < i ==> !CanHandle(messages, queue[h], targets)
  {
    if queue == [] || CanHandle(messages, queue[0], targets) then 0
    else 1 + Earliest(messages, queue[1..], targets)
  }

  /** The pool after handling: the earliest match moves to the done queue, or is dropped
      when its gateway is not valid. */
  function Handled(messages: seq<Message>, v: View, targets: seq<int>): View {
    var i := Earliest(messages, v.todo, targets);
    if i == |v.todo| then v
    else
      var slot := v.todo[i];
      var w := PoolSpec.Dequeue(v, Todo, slot);
      if slot < |messages| && messages[slot].known then PoolSpec.Enqueue(w, Done, slot) else w
  }

  /** The slots that handling dispatches: one or none. */
  function Dispatches(messages: seq<Message>, v: View, targets: seq<int>): seq<nat> {
    var i := Earliest(messages, v.todo, targets);
    if i < |v.todo| && v.todo[i] < |messages| && messages[v.todo[i]].known then [v.todo[i]] else []
  }

  predicate AllTaken(groups: seq<Group>) {
    forall g :: g in groups ==> g.address != 0
  }

  /** Group `g` is the one of the array: it was there, or it is new and the others are as before. */
  ghost predicate WaitedAs(groups: seq<Group>, a: nat, targets: seq<int>, groups': seq<Group>, g: nat) {
    && g < |groups'| == |groups| && groups'[g].address == a
    && groups' == if Registered(groups, a) then groups else groups[g := Group(a, targets)]
  }

  // ---- what a wait does ---------------------------------------------------------------------

  /** The earliest queued message for one of the targets is at position `i`. */
  predicate EarliestAt(messages: seq<Message>, queue: seq<nat>, targets: seq<int>, i: nat) {
    && i < |queue| && queue[i] < |messages| && messages[queue[i]].target in targets
    && forall h: nat :: h < i && queue[h] < |messages| ==> messages[queue[h]].target !in targets
  }

  /** ... and its gateway has a known magic, so that it can be run. */
  predicate ReadyAt(messages: seq<Message>, queue: seq<nat>, targets: seq<int>, i: nat) {
    EarliestAt(messages, queue, targets, i) && messages[queue[i]].known
  }

  ghost predicate Ready(messages: seq<Message>, queue: seq<nat>, targets: seq<int>) {
    exists i: nat :: ReadyAt(messages, queue, targets, i)
  }

  /** The earliest queued match was run: it is on the done queue, and `caller` made the call. */
  ghost predicate Ran(messages: seq<Message>, v: View, targets: seq<int>, v': View, ran: seq<nat>, caller: int) {
    exists i: nat :: && ReadyAt(messages, v.todo, targets, i) && ran == [v.todo[i]]
                     && v' == View(v.free, v.todo[..i] + v.todo[i + 1..], v.done + [v.todo[i]])
                     && caller == messages[v.todo[i]].caller
  }

  /** No queued match can be run. The earliest match, if any, has an unknown magic: it comes
      off the queue and its slot is not freed. */
  ghost predicate Skipped(messages: seq<Message>, v: View, targets: seq<int>, v': View) {
    && !Ready(messages, v.todo, targets)
    && (|| (v' == v && forall i: nat :: !EarliestAt(messages, v.todo, targets, i))
        || exists i: nat :: EarliestAt(messages, v.todo, targets, i) && v' == v.(todo := v.todo[..i] + v.todo[i + 1..]))
  }

  /** As many messages as there are free slots were delivered, in order. */
  ghost predicate Arrived(messages: seq<Message>, v: View, arrivals: seq<Message>, messages': seq<Message>, v': View) {
    var k := if |arrivals| < |v.free| then |arrivals| else |v.free|;
    && v' == View(v.free[k..], v.todo + v.free[..k], v.done) && |messages'| == |messages|
    && (forall i: nat :: i < k ==> v.free[i] < |messages'| && messages'[v.free[i]] == arrivals[i])
    && (forall x: nat :: x < |messages| && x !in v.free[..k] ==> messages'[x] == messages[x])
  }

  /** What rpc_fncall_waitfor does once the group is known. */
  ghost predicate Waited(messages: seq<Message>, v: View, targets: seq<int>, isNew: bool, arrivals: seq<Message>,
                         status: int, r: int, messages': seq<Message>, v': View, ran: seq<nat>, caller: int)
  {
    if isNew && Ready(messages, v.todo, targets) then
      r == 0 && messages' == messages && Ran(messages, v, targets, v', ran, caller)
    else
      exists v1, v2 ::
        && (if isNew then Skipped(messages, v, targets, v1) else v1 == v)
        && Arrived(messages, v1, arrivals, messages', v2)
        && Woken(messages', v2, targets, status, r, v', ran, caller)
  }

  /** What it does when waiting on the semaphore has ended with `status`. */
  ghost predicate Woken(messages: seq<Message>, v: View, targets: seq<int>, status: int,
                        r: int, v': View, ran: seq<nat>, caller: int)
  {
    if status != 0 then r == status && ran == [] && v' == v
    else if Ready(messages, v.todo, targets) then r == 0 && Ran(messages, v, targets, v', ran, caller)
    else r == -1 && ran == [] && Skipped(messages, v, targets, v')
  }

  class Callee {
    const groupPool: Pool
    const groups: array<Group>
    const incoming: Pool
    const messages: array<Message>
    var dispatched: seq<nat>   // the slots whose target was run, in order

    ghost predicate Valid()
      reads this, groupPool, groupPool.entries, groups, incoming, incoming.entries, messages
    {
      && groupPool != incoming && groupPool.entries != incoming.entries
      && groupPool.Valid() && incoming.Valid()
      && groupPool.num == GROUP_SLOTS && incoming.num == INCOMING_SLOTS == messages.Length
      && GroupsOk(groups[..], groupPool.view)
    }

    constructor ()
      ensures Valid() && dispatched == []
      ensures groupPool.view == Fresh(GROUP_SLOTS) && incoming.view == Fresh(INCOMING_SLOTS)
      ensures fresh(groupPool) && fresh(groupPool.entries) && fresh(groups)
      ensures fresh(incoming) && fresh(incoming.entries) && fresh(messages)
    {
      var g := new Pool(GROUP_SLOTS);
      var _, _ := g.InitBoth(GROUP_SLOTS);
      var m := new Pool(INCOMING_SLOTS);
      var _, _ := m.InitBoth(INCOMING_SLOTS);
      groupPool, incoming := g, m;
      groups := new Group[GROUP_SLOTS](_ => Group(0, []));
      messages := new Message[INCOMING_SLOTS](_ => Message(0, false, 0));
      dispatched := [];
      FreshWf(GROUP_SLOTS);
    }

    /** get_function_group: linear search by the address of the array. */
    method Find(a: nat) returns (slot: nat)
      requires Valid()
      ensures slot <= NONE
      ensures slot < NONE ==> groups[slot].address == a
      ensures slot < NONE <==> Registered(groups[..], a)
    {
      slot := 0;
      while slot < GROUP_SLOTS
        invariant slot <= GROUP_SLOTS
        invariant forall i: nat :: i < slot ==> groups[..][i].address != a
      {
        if groups[slot].address == a {
          assert groups[..][slot].address == a;
          return slot;
        }
        slot := slot + 1;
      }
    }

    /** allocate_function_group, for an array that has no group. */
    method Register(a: nat, targets: seq<int>) returns (slot: nat)
      requires Valid() && a != 0 && !Registered(groups[..], a)
      modifies groupPool, groupPool.entries, groups
      ensures Valid() && slot <= NONE
      ensures slot == NONE <==> forall i: nat :: i < GROUP_SLOTS ==> old(groups[..])[i].address != 0
      ensures groups[..] == if slot == NONE then old(groups[..]) else old(groups[..])[slot := Group(a, targets)]
    {
      FullExactly(groups[..], groupPool.view);
      ghost var v := groupPool.view;
      slot := groupPool.Allocate();
      if slot >= groupPool.num {
        return NONE;
      }
      RegisterOk(groups[..], v, a, targets);
      groups[slot] := Group(a, targets);
      var _ := groupPool.Enqueue(Todo, slot);
    }

    /** The group of a non-null array: the one it has, or a new one. */
    method GroupFor(a: nat, targets: seq<int>) returns (slot: nat, isNew: bool)
      requires Valid() && a != 0
      modifies groupPool, groupPool.entries, groups
      ensures Valid() && slot <= NONE
      ensures isNew <==> !old(Registered(groups[..], a))
      ensures slot == NONE <==> isNew && forall i: nat :: i < GROUP_SLOTS ==> old(groups[..])[i].address != 0
      ensures slot < NONE ==> groups[slot].address == a
      ensures groups[..] == if isNew && slot < NONE then old(groups[..])[slot := Group(a, targets)] else old(groups[..])
    {
      slot := Find(a);
      isNew := slot == NONE;
      if isNew {
        slot := Register(a, targets);
      }
    }

    /** uvisor_pool_queue_find_first with query_for_fn_group. */
    method FindMessage(targets: seq<int>) returns (slot: nat)
      requires Valid()
      ensures var v := incoming.view;
              var e := Earliest(messages[..], v.todo, targets);
              if slot == INVALID then e == |v.todo|
              else e < |v.todo| && v.todo[e] == slot && slot in v.todo && slot !in v.done && slot < INCOMING_SLOTS
    {
      var now := messages[..];
      var query := (x: nat) => CanHandle(now, x, targets);
      slot := incoming.FindFirst(Todo, query);
      assert incoming.view.Queue(Todo) == incoming.view.todo;
      FoundIs(now, incoming.view, targets, query, slot);
    }

    /** handle_incoming_rpc with nothing else running between finding and dequeuing. */
    method Handle(targets: seq<int>) returns (handled: bool, caller: int)
      requires Valid()
      modifies this`dispatched, incoming, incoming.entries
      ensures Valid()
      ensures incoming.view == Handled(messages[..], old(incoming.view), targets)
      ensures dispatched == old(dispatched) + Dispatches(messages[..], old(incoming.view), targets)
      ensures var ran := Dispatches(messages[..], old(incoming.view), targets);
              && (handled <==> ran != [])
              && (handled ==> ran[0] < messages.Length && caller == messages[ran[0]].caller)
    {
      ghost var v := incoming.view;
      caller := 0;
      var slot := FindMessage(targets);
      if slot >= incoming.num {
        return false, caller;
      }
      DequeueKeeps(v, INCOMING_SLOTS, Todo, slot);
      var stray;
      slot, stray := incoming.Dequeue(Todo, slot);
      if !messages[slot].known {
        return false, caller;
      }
      caller := messages[slot].caller;
      dispatched := dispatched + [slot];
      var _ := incoming.Enqueue(Done, slot);
      return true, caller;
    }

    /** uVisor delivers a message, if there is room. */
    method Deliver(m: Message)
      requires Valid()
      modifies incoming, incoming.entries, messages
      ensures Valid()
      ensures var v := old(incoming.view);
              if v.free == [] then incoming.view == v && messages[..] == old(messages[..])
              else && incoming.view == PoolSpec.Enqueue(PoolSpec.Allocate(v), Todo, v.free[0])
                   && v.free[0] < messages.Length && messages[..] == old(messages[..])[v.free[0] := m]
    {
      ghost var v := incoming.view;
      if v.free != [] { AllocateKeeps(v, INCOMING_SLOTS); }
      var slot := incoming.Allocate();
      if slot < incoming.num {
        messages[slot] := m;
        var _ := incoming.Enqueue(Todo, slot);
      }
    }

    method DeliverAll(arrivals: seq<Message>)
      requires Valid()
      modifies incoming, incoming.entries, messages
      ensures Valid()
      ensures Arrived(old(messages[..]), old(incoming.view), arrivals, messages[..], incoming.view)
      decreases |arrivals|
    {
      ghost var m, v := messages[..], incoming.view;
      if arrivals == [] {
        ArrivedNone(m, v);
        return;
      }
      var last := |arrivals| - 1;
      DeliverAll(arrivals[..last]);
      ghost var m1, v1 := messages[..], incoming.view;
      Deliver(arrivals[last]);
      ArrivedOne(m, v, arrivals, last, m1, v1, messages[..], incoming.view);
    }

    /** The end of rpc_fncall_waitfor: the thread waits, and looks again if it was woken. */
    method WaitOnce(targets: seq<int>, arrivals: seq<Message>, status: int)
      returns (r: int, caller: int, ghost ran: seq<nat>, ghost v: View)
      requires Valid()
      modifies this`dispatched, incoming, incoming.entries, messages
      ensures Valid() && dispatched == old(dispatched) + ran && (r == 0 || r == -1 || r == status)
      ensures Arrived(old(messages[..]), old(incoming.view), arrivals, messages[..], v)
      ensures Woken(messages[..], v, targets, status, r, incoming.view, ran, caller)
    {
      caller := 0;
      DeliverAll(arrivals);
      v := incoming.view;
      if status != 0 {
        return status, caller, [], v;
      }
      WokenWell(messages[..], v, targets);
      var handled;
      handled, caller := Handle(targets);
      return if handled then 0 else -1, caller, Dispatches(messages[..], v, targets), v;
    }

    /** The start: a new group looks for messages at once. */
    method LookFirst(targets: seq<int>, isNew: bool) returns (handled: bool, caller: int, ghost ran: seq<nat>)
      requires Valid()
      modifies this`dispatched, incoming, incoming.entries
      ensures Valid() && dispatched == old(dispatched) + ran
      ensures handled <==> isNew && Ready(messages[..], old(incoming.view.todo), targets)
      ensures handled ==> Ran(messages[..], old(incoming.view), targets, incoming.view, ran, caller)
      ensures !handled ==>
                && ran == []
                && if isNew then Skipped(messages[..], old(incoming.view), targets, incoming.view)
                            else incoming.view == old(incoming.view)
    {
      handled, caller, ran := false, 0, [];
      if isNew {
        HandledIs(messages[..], incoming.view, targets);
        ran := Dispatches(messages[..], incoming.view, targets);
        handled, caller := Handle(targets);
      }
    }

    /** The part of rpc_fncall_waitfor after the group is known. */
    method WaitInGroup(targets: seq<int>, isNew: bool, arrivals: seq<Message>, status: int)
      returns (r: int, caller: int, ghost ran: seq<nat>)
      requires Valid()
      modifies this`dispatched, incoming, incoming.entries, messages
      ensures Valid() && dispatched == old(dispatched) + ran && (r == 0 || r == -1 || r == status)
      ensures Waited(old(messages[..]), old(incoming.view), targets, isNew, arrivals, status,
                     r, messages[..], incoming.view, ran, caller)
    {
      var handled;
      handled, caller, ran := LookFirst(targets, isNew);
      if handled {
        return 0, caller, ran;
      }
      ghost var v;
      r, caller, ran, v := WaitOnce(targets, arrivals, status);
    }

    /** rpc_fncall_waitfor. `arrivals` are delivered while the thread waits and `status`
        is what waiting on the group's semaphore returns. */
    method WaitFor(a: nat, targets: seq<int>, arrivals: seq<Message>, status: int)
      returns (r: int, caller: int, ghost ran: seq<nat>)
      requires Valid() && a != 0 && status != OUT_OF_STRUCTURES
      modifies this, groupPool, groupPool.entries, groups, incoming, incoming.entries, messages
      ensures Valid() && dispatched == old(dispatched) + ran
      ensures r == OUT_OF_STRUCTURES <==> !old(Registered(groups[..], a)) && old(AllTaken(groups[..]))
      ensures r == OUT_OF_STRUCTURES ==>
                && groups[..] == old(groups[..]) && ran == []
                && messages[..] == old(messages[..]) && incoming.view == old(incoming.view)
      ensures r != OUT_OF_STRUCTURES ==>
                exists g: nat ::
                  && WaitedAs(old(groups[..]), a, targets, groups[..], g)
                  && Waited(old(messages[..]), old(incoming.view), groups[g].targets, !old(Registered(groups[..], a)),
                            arrivals, status, r, messages[..], incoming.view, ran, caller)
    {
      var group, isNew := GroupFor(a, targets);
      if group == NONE {
        return OUT_OF_STRUCTURES, 0, [];
      }
      assert groups[..][group].address == a;
      r, caller, ran := WaitInGroup(groups[group].targets, isNew, arrivals, status);
    }
  }

  /** The two ways to say what handling does. */
  lemma HandledIs(messages: seq<Message>, v: View, targets: seq<int>)
    requires Wf(v, |messages|)
    ensures Ready(messages, v.todo, targets) <==> Dispatches(messages, v, targets) != []
    ensures if Dispatches(messages, v, targets) != []
            then var slot := Dispatches(messages, v, targets)[0];
                 && slot < |messages|
                 && Ran(messages, v, targets, Handled(messages, v, targets), [slot], messages[slot].caller)
            else Skipped(messages, v, targets, Handled(messages, v, targets))
  {
    var e := Earliest(messages, v.todo, targets);
    if e < |v.todo| {
      assert v.todo[e] in v.todo;
      WithoutAt(v.todo, e);
      assert EarliestAt(messages, v.todo, targets, e);
    }
    forall i: nat | EarliestAt(messages, v.todo, targets, i) ensures i == e {
      assert CanHandle(messages, v.todo[i], targets);
    }
    if e < |v.todo| && messages[v.todo[e]].known {
      assert ReadyAt(messages, v.todo, targets, e);
    }
  }

  lemma WokenWell(m: seq<Message>, v: View, targets: seq<int>)
    requires Wf(v, |m|)
    ensures var ran := Dispatches(m, v, targets);
            if ran != [] then ran[0] < |m| && Woken(m, v, targets, 0, 0, Handled(m, v, targets), ran, m[ran[0]].caller)
            else forall caller :: Woken(m, v, targets, 0, -1, Handled(m, v, targets), ran, caller)
  {
    HandledIs(m, v, targets);
  }

  lemma ArrivedNone(messages: seq<Message>, v: View)
    ensures Arrived(messages, v, [], messages, v)
  {
  }

  /** One more delivery. */
  lemma ArrivedOne(m: seq<Message>, v: View, arrivals: seq<Message>, i: nat, m1: seq<Message>, v1: View,
                   m2: seq<Message>, v2: View)
    requires i + 1 == |arrivals| && Distinct(v.free) && Arrived(m, v, arrivals[..i], m1, v1)
    requires if v1.free == [] then v2 == v1 && m2 == m1
             else && v2 == PoolSpec.Enqueue(PoolSpec.Allocate(v1), Todo, v1.free[0])
                  && v1.free[0] < |m1| && m2 == m1[v1.free[0] := arrivals[i]]
    ensures Arrived(m, v, arrivals, m2, v2)
  {
    if i < |v.free| {
      ArrivedView(v, v1, v2, i);
      ArrivedMessages(m, v, arrivals, i, m1, m2);
    } else {
      assert forall j: nat :: j < |v.free| ==> arrivals[j] == arrivals[..i][j];
    }
  }

  lemma ArrivedView(v: View, v1: View, v2: View, i: nat)
    requires i < |v.free| && v1 == View(v.free[i..], v.todo + v.free[..i], v.done)
    requires v2 == PoolSpec.Enqueue(PoolSpec.Allocate(v1), Todo, v1.free[0])
    ensures v1.free[0] == v.free[i] && v2 == View(v.free[i + 1..], v.todo + v.free[..i + 1], v.done)
  {
    assert v.free[..i + 1] == v.free[..i] + [v.free[i]];
  }

  lemma ArrivedMessages(m: seq<Message>, v: View, arrivals: seq<Message>, i: nat, m1: seq<Message>, m2: seq<Message>)
    requires i < |arrivals| && i < |v.free| && Distinct(v.free) && |m1| == |m|
    requires forall j: nat :: j < i ==> v.free[j] < |m| && m1[v.free[j]] == arrivals[j]
    requires forall x: nat :: x < |m| && x !in v.free[..i] ==> m1[x] == m[x]
    requires v.free[i] < |m| && m2 == m1[v.free[i] := arrivals[i]]
    ensures forall j: nat :: j < i + 1 ==> v.free[j] < |m| && m2[v.free[j]] == arrivals[j]
    ensures forall x: nat :: x < |m| && x !in v.free[..i + 1] ==> m2[x] == m[x]
  {
    assert v.free[..i + 1] == v.free[..i] + [v.free[i]];
  }

  lemma FoundIs(messages: seq<Message>, v: View, targets: seq<int>, query: nat -> bool, slot: nat)
    requires Wf(v, INCOMING_SLOTS)
    requires forall x: nat :: query(x) <==> CanHandle(messages, x, targets)
    requires slot == INVALID ==> forall i: nat :: i < |v.todo| ==> !query(v.todo[i])
    requires slot != INVALID ==>
               exists i: nat :: i < |v.todo| && v.todo[i] == slot && query(slot)
                 && forall j: nat :: j < i ==> !query(v.todo[j])
    ensures var e := Earliest(messages, v.todo, targets);
            if slot == INVALID then e == |v.todo|
            else e < |v.todo| && v.todo[e] == slot && slot in v.todo && slot !in v.done && slot < INCOMING_SLOTS
  {
    var e := Earliest(messages, v.todo, targets);
    if slot != INVALID {
      var i: nat :| i < |v.todo| && v.todo[i] == slot && query(slot) && forall j: nat :: j < i ==> !query(v.todo[j]);
      assert e == i;
    }
  }
}
