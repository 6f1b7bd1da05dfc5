/** The inter-box RPC protocol as a step machine: library code running in any
    number of activities per box (api/src/rpc.c) and the two uVisor drains that
    carry messages and results between boxes (core/system/src/rpc.c).

    An activity is one call of rpc_fncall_sync, rpc_fncall_async, rpc_fncall_wait
    or handle_incoming_rpc; a nested call made by an RPC target is an activity of
    its own. Every pool operation, atomic instruction, semaphore operation and
    drain iteration is one action, so a run is an arbitrary interleaving.

    History fields (`outAux`, `inAux`, `stamps`, `finished` and the stamps carried
    by a token or activity) record what happened. No guard reads them. */
module RpcProtocol {
  import opened Cookies
  import opened PoolSpec
  import PoolQueue

  const OUT_SLOTS: nat := 8   // UVISOR_RPC_OUTGOING_MESSAGE_SLOTS
  const IN_SLOTS: nat := 8    // UVISOR_RPC_INCOMING_MESSAGE_SLOTS

  datatype Args = Args(p0: u32, p1: u32, p2: u32, p3: u32)

  datatype Magic = SyncMagic | AsyncMagic | OtherMagic

  /** `inFlash` stands for the address and opcode checks of is_valid_rpc_gateway. */
  datatype Gateway = Gateway(magic: Magic, inFlash: bool, box: int, target: int)

  datatype MsgState = Invalid | Idle | ReadyToSend | Sent | Completed

  datatype Key = Key(box: nat, slot: nat)

  datatype OutMsg = OutMsg(args: Args, gateway: Gateway, otherBox: int, semaphore: nat,
                           waitCookie: Cookie, matchCookie: Cookie, state: MsgState, result: u32)

  datatype InMsg = InMsg(args: Args, gateway: Gateway, otherBox: int,
                         matchCookie: Cookie, state: MsgState, result: u32)

  /** The program points of an activity. `asked` is the stamp of the send whose
      result the activity is after. A handler that found a message remembers its slot;
      that it was send `stamp` from slot `k` is history. */
  datatype Activity =
    | Claimed(k: Key, sync: bool, args: Args, gateway: Gateway)
    | Filled(k: Key, sync: bool, asked: nat)
    | Posted(k: Key, sync: bool, asked: nat)
    | SyncWaiting(k: Key, asked: nat)
    | AsyncWaiting(k: Key, asked: nat)
    | Woken(k: Key, asked: nat)
    | Found(j: Key, group: set<int>, k: Key, stamp: nat)
    | Serving(j: Key)
    | Served(j: Key)

  /** A cookie that rpc_fncall_async returned and a box still remembers. */
  datatype Token = Token(box: nat, cookie: Cookie, stamp: nat)

  /** One execution of an RPC target function. */
  datatype Execution = Execution(caller: int, callee: int, target: int, args: Args, value: u32)

  /** What became of one send, the `stamp`-th of its box: how often a wait claimed
      it, which executions it had and which results its callers were given. */
  datatype Send = Send(args: Args, gateway: Gateway, stamp: nat, cookie: Cookie,
                       claims: nat, executions: seq<Execution>, returned: seq<u32>)

  /** A call that returned successfully from slot `k`, having asked for send `asked`. */
  datatype Finish = Finish(k: Key, asked: nat, h: Send)

  datatype OutPhase =
    | OutFree
    | OutClaimed(f: nat)
    | OutQueued
    | OutLost
    | OutInFlight(j: Key)
    | OutReturned
    | OutConsumed(f: nat)

  datatype Waiter = NoWaiter | Sender(f: nat) | OpenCookie | CookieHolder(f: nat) | Abandoned

  /** `h` is the latest send that filled the slot. */
  datatype OutAux = OutAux(phase: OutPhase, waiter: Waiter, h: Send)

  datatype InPhase = InFree | InTodo | InServing(f: nat) | InServed(f: nat) | InDone

  /** The ways in which the code stops or corrupts a pool. A build without assertions
      goes on after the two assertions. */
  datatype Fault =
    | NotDequeued     // the halt in free_outgoing_msg
    | ResultAssert    // a failed assertion of drain_result_queue
    | GatewayAssert   // the failed assertion of drain_message_queue on a bad gateway
    | UnknownMagic    // the gateway check of handle_incoming_rpc
    | WrongQueue      // a dequeue through the wrong queue that leaves no pool behind
    | NotHeld         // enqueuing a slot that is free or queued

  /** A message, pool, counter or history entry that was never written is absent
      from its map and reads as its initial value. */
  datatype State = State(
    boxes: nat,
    gateways: set<Gateway>,   // those that the callers of this system use
    out: map<Key, OutMsg>,
    outPool: map<nat, View>,
    inc: map<Key, InMsg>,
    inPool: map<nat, View>,
    counter: map<nat, u32>,
    activities: map<nat, Activity>,
    issued: set<Token>,
    faults: set<Fault>,
    outAux: map<Key, OutAux>,
    inAux: map<Key, InPhase>,
    stamps: map<nat, nat>,
    finished: seq<Finish>)

  datatype Action =
    | Claim(f: nat, box: nat, sync: bool, args: Args, gateway: Gateway)
    | Fill(f: nat)
    | Post(f: nat)
    | TakeCookie(f: nat)
    | Swap(f: nat, t: Token)
    | Pend(f: nat, ok: bool)
    | Release(f: nat)
    | Deliver(box: nat)
    | PutBack(box: nat)
    | DropBad(box: nat)
    | GiveBack(box: nat)
    | Find(f: nat, box: nat, group: set<int>)
    | TakeFound(f: nat)
    | Dispatch(f: nat, value: u32)
    | Report(f: nat)

  predicate OutKey(k: Key) {
    k.slot < OUT_SLOTS
  }

  predicate InKey(j: Key) {
    j.slot < IN_SLOTS
  }

  // ---- reading the state ------------------------------------------------------

  const NoArgs := Args(0, 0, 0, 0)
  const NoGateway := Gateway(OtherMagic, false, 0, 0)
  const NoSend := Send(NoArgs, NoGateway, 0, Cookie(0, 0), 0, [], [])

  function Out(s: State, k: Key): OutMsg {
    if k in s.out then s.out[k] else OutMsg(NoArgs, NoGateway, 0, 0, Cookie(0, 0), Cookie(0, 0), Invalid, 0)
  }

  function Inc(s: State, j: Key): InMsg {
    if j in s.inc then s.inc[j] else InMsg(NoArgs, NoGateway, 0, Cookie(0, 0), Invalid, 0)
  }

  function OutPool(s: State, box: nat): View {
    At(s.outPool, box, OUT_SLOTS)
  }

  function InPool(s: State, box: nat): View {
    At(s.inPool, box, IN_SLOTS)
  }

  function Counter(s: State, box: nat): u32 {
    if box in s.counter then s.counter[box] else 0
  }

  function Stamps(s: State, box: nat): nat {
    if box in s.stamps then s.stamps[box] else 0
  }

  function Aux(s: State, k: Key): OutAux {
    if k in s.outAux then s.outAux[k] else OutAux(OutFree, NoWaiter, NoSend)
  }

  function InAux(s: State, j: Key): InPhase {
    if j in s.inAux then s.inAux[j] else InFree
  }

  /** __uvisor_initialize_rpc_queues in every box, on zeroed memory. */
  function InitState(boxes: nat, gateways: set<Gateway>): State {
    State(boxes, gateways, map[], map[], map[], map[], map[], map[], {}, {}, map[], map[], map[], [])
  }

  function Fail(s: State, why: Fault): State {
    s.(faults := s.faults + {why})
  }

  /** is_valid_rpc_gateway and callee_box_id: box 0 is never a callee. */
  predicate GatewayOk(boxes: nat, g: Gateway) {
    (g.magic == SyncMagic || g.magic == AsyncMagic) && g.inFlash && 1 <= g.box < boxes
  }

  /** The index of the first message in queue order whose target is in the group,
      or the queue's length: uvisor_pool_queue_find_first with query_for_fn_group. */
  function FirstMatch(s: State, box: nat, queue: seq<nat>, group: set<int>): (i: nat)
    ensures i <= |queue|
    ensures i < |queue| ==> Inc(s, Key(box, queue[i])).gateway.target in group
    ensures forall h :: 0 <= h < i ==> Inc(s, Key(box, queue[h])).gateway.target !in group
  {
    if queue == [] || Inc(s, Key(box, queue[0])).gateway.target in group then 0
    else 1 + FirstMatch(s, box, queue[1..], group)
  }

  // ---- the library side of a caller -------------------------------------------

  predicate CanClaim(s: State, f: nat, box: nat, gateway: Gateway) {
    f !in s.activities && box < s.boxes && gateway in s.gateways && OutPool(s, box).free != []
  }

  /** send_outgoing_rpc takes the first free slot; with none it returns -1. */
  function DoClaim(s: State, f: nat, box: nat, sync: bool, args: Args, gateway: Gateway): State
    requires CanClaim(s, f, box, gateway)
  {
    var k := Key(box, OutPool(s, box).free[0]);
    s.(outPool := s.outPool[box := Allocate(OutPool(s, box))],
       activities := s.activities[f := Claimed(k, sync, args, gateway)],
       outAux := s.outAux[k := OutAux(OutClaimed(f), NoWaiter, Aux(s, k).h)])
  }

  predicate CanFill(s: State, f: nat) {
    f in s.activities && s.activities[f].Claimed?
  }

  /** The atomic increment of result_counter and the population of the message,
      which nobody else looks at before it is queued. */
  function DoFill(s: State, f: nat): State
    requires CanFill(s, f)
  {
    var a := s.activities[f];
    var b := a.k.box;
    var c := (Counter(s, b) + COUNTER_STEP) % WORD;
    var cookie := Build(c, a.k.slot);
    s.(out := s.out[a.k := Out(s, a.k).(args := a.args, gateway := a.gateway, waitCookie := cookie,
                                        matchCookie := cookie, state := ReadyToSend)],
       counter := s.counter[b := c],
       activities := s.activities[f := Filled(a.k, a.sync, Stamps(s, b) + 1)],
       outAux := s.outAux[a.k := Aux(s, a.k).(h := Send(a.args, a.gateway, Stamps(s, b) + 1, cookie, 0, [], []))],
       stamps := s.stamps[b := Stamps(s, b) + 1])
  }

  predicate CanPost(s: State, f: nat) {
    f in s.activities && s.activities[f].Filled?
  }

  function DoPost(s: State, f: nat): State
    requires CanPost(s, f)
  {
    var a := s.activities[f];
    s.(outPool := s.outPool[a.k.box := Enqueue(OutPool(s, a.k.box), Todo, a.k.slot)],
       activities := s.activities[f := Posted(a.k, a.sync, a.asked)],
       outAux := s.outAux[a.k := OutAux(OutQueued, Sender(f), Aux(s, a.k).h)])
  }

  predicate CanTakeCookie(s: State, f: nat) {
    f in s.activities && s.activities[f].Posted?
  }

  /** Reading match_cookie back after the message was queued. A synchronous call
      goes on to wait on the slot in the cookie; an asynchronous one returns it. */
  function DoTakeCookie(s: State, f: nat): State
    requires CanTakeCookie(s, f)
  {
    if s.activities[f].sync then CookieAwaited(s, f) else CookieIssued(s, f)
  }

  function CookieAwaited(s: State, f: nat): State
    requires CanTakeCookie(s, f)
  {
    var a := s.activities[f];
    s.(activities := s.activities[f := SyncWaiting(Key(a.k.box, Out(s, a.k).matchCookie.slot), a.asked)])
  }

  function CookieIssued(s: State, f: nat): State
    requires CanTakeCookie(s, f)
  {
    var a := s.activities[f];
    s.(activities := s.activities - {f},
       issued := s.issued + {Token(a.k.box, Out(s, a.k).matchCookie, a.asked)},
       outAux := s.outAux[a.k := Aux(s, a.k).(waiter := OpenCookie)])
  }

  predicate CanSwap(s: State, f: nat, t: Token) {
    f !in s.activities && t in s.issued
  }

  /** The compare-and-swap that opens rpc_fncall_wait; a failed one returns -1. */
  function DoSwap(s: State, f: nat, t: Token): State
    requires CanSwap(s, f, t)
  {
    var k := Key(t.box, t.cookie.slot);
    if Out(s, k).waitCookie != t.cookie then s else Swapped(s, f, t, k)
  }

  function Swapped(s: State, f: nat, t: Token, k: Key): State {
    var h := Aux(s, k).h;
    s.(out := s.out[k := Out(s, k).(waitCookie := InvalidCookie(k.slot))],
       activities := s.activities[f := AsyncWaiting(k, t.stamp)],
       outAux := s.outAux[k := Aux(s, k).(waiter := CookieHolder(f), h := h.(claims := h.claims + 1))])
  }

  predicate CanPend(s: State, f: nat, ok: bool) {
    && f in s.activities && (s.activities[f].SyncWaiting? || s.activities[f].AsyncWaiting?)
    && (ok ==> Out(s, s.activities[f].k).semaphore > 0)
  }

  /** Pending on the slot's binary semaphore. A failed pend is retried by a
      synchronous call; rpc_fncall_wait returns and leaves its cookie invalid. */
  function DoPend(s: State, f: nat, ok: bool): State
    requires CanPend(s, f, ok)
  {
    var a := s.activities[f];
    if ok then
      s.(out := s.out[a.k := Out(s, a.k).(semaphore := Out(s, a.k).semaphore - 1)],
         activities := s.activities[f := Woken(a.k, a.asked)],
         outAux := s.outAux[a.k := OutAux(OutConsumed(f), NoWaiter, Aux(s, a.k).h)])
    else if a.SyncWaiting? then s
    else
      s.(activities := s.activities - {f},
         outAux := s.outAux[a.k := Aux(s, a.k).(waiter := Abandoned)])
  }

  predicate CanRelease(s: State, f: nat) {
    f in s.activities && s.activities[f].Woken?
  }

  /** Reading the result, free_outgoing_msg (which halts unless the slot is
      dequeued) and the return to the caller. */
  function DoRelease(s: State, f: nat): State
    requires CanRelease(s, f)
  {
    var k := s.activities[f].k;
    if !Held(OutPool(s, k.box), k.slot) then Fail(s, NotDequeued) else Released(s, f)
  }

  function Released(s: State, f: nat): State
    requires CanRelease(s, f)
  {
    var k := s.activities[f].k;
    var h := Aux(s, k).h.(returned := Aux(s, k).h.returned + [Out(s, k).result]);
    s.(outPool := s.outPool[k.box := Free(OutPool(s, k.box), k.slot)],
       activities := s.activities - {f},
       outAux := s.outAux[k := OutAux(OutFree, NoWaiter, h)],
       finished := s.finished + [Finish(k, s.activities[f].asked, h)])
  }

  // ---- uVisor -----------------------------------------------------------------

  /** The message at the head of a box's outgoing queue. */
  function HeadKey(s: State, box: nat): Key
    requires OutPool(s, box).todo != []
  {
    Key(box, OutPool(s, box).todo[0])
  }

  predicate CanDeliver(s: State, box: nat) {
    && OutPool(s, box).todo != []
    && var g := Out(s, HeadKey(s, box)).gateway;
    && GatewayOk(s.boxes, g) && InPool(s, g.box).free != []
  }

  /** One iteration of drain_message_queue that reaches the callee. */
  function DoDeliver(s: State, box: nat): State
    requires CanDeliver(s, box)
  {
    var k := HeadKey(s, box);
    var m := Out(s, k);
    var c := m.gateway.box;
    var j := Key(c, InPool(s, c).free[0]);
    s.(out := s.out[k := m.(otherBox := c, state := Sent)],
       outPool := s.outPool[box := PoolSpec.Dequeue(OutPool(s, box), Todo, k.slot)],
       inc := s.inc[j := InMsg(m.args, m.gateway, box, m.matchCookie, Sent, Inc(s, j).result)],
       inPool := s.inPool[c := Enqueue(Allocate(InPool(s, c)), Todo, j.slot)],
       outAux := s.outAux[k := Aux(s, k).(phase := OutInFlight(j))],
       inAux := s.inAux[j := InTodo])
  }

  predicate CanPutBack(s: State, box: nat) {
    OutPool(s, box).todo != []
  }

  /** The callee has no room or its pool is busy, or the slot was seen before. */
  function DoPutBack(s: State, box: nat): State
    requires CanPutBack(s, box)
  {
    var v := OutPool(s, box);
    s.(outPool := s.outPool[box := Enqueue(PoolSpec.Dequeue(v, Todo, v.todo[0]), Todo, v.todo[0])])
  }

  predicate CanDropBad(s: State, box: nat) {
    OutPool(s, box).todo != [] && !GatewayOk(s.boxes, Out(s, HeadKey(s, box)).gateway)
  }

  /** A message with a bad gateway is an assertion failure; a build without
      assertions dequeues it and never puts it back. */
  function DoDropBad(s: State, box: nat): State
    requires CanDropBad(s, box)
  {
    var k := HeadKey(s, box);
    s.(outPool := s.outPool[box := PoolSpec.Dequeue(OutPool(s, box), Todo, k.slot)],
       faults := s.faults + {GatewayAssert},
       outAux := s.outAux[k := Aux(s, k).(phase := OutLost)])
  }

  predicate CanGiveBack(s: State, box: nat) {
    InPool(s, box).done != []
  }

  /** One iteration of drain_result_queue. Its mismatch branches and a semaphore
      that is already posted are `assert(false)` in the source. */
  function DoGiveBack(s: State, box: nat): State
    requires CanGiveBack(s, box)
  {
    var j := Key(box, InPool(s, box).done[0]);
    var r := Inc(s, j);
    if r.otherBox < 0 || r.matchCookie.slot >= OUT_SLOTS then Fail(s, ResultAssert)
    else
      var k := Key(r.otherBox, r.matchCookie.slot);
      var m := Out(s, k);
      if m.otherBox != box || m.state != Sent || m.matchCookie != r.matchCookie || m.semaphore != 0
      then Fail(s, ResultAssert)
      else GivenBack(s, j, k)
  }

  function GivenBack(s: State, j: Key, k: Key): State {
    var r := Inc(s, j);
    s.(out := s.out[k := Out(s, k).(result := r.result, state := Completed, semaphore := 1)],
       inc := s.inc[j := r.(state := Idle)],
       inPool := s.inPool[j.box := Free(PoolSpec.Dequeue(InPool(s, j.box), PoolSpec.Done, j.slot), j.slot)],
       outAux := s.outAux[k := Aux(s, k).(phase := OutReturned)],
       inAux := s.inAux[j := InFree])
  }

  // ---- the library side of a callee -------------------------------------------

  predicate CanFind(s: State, f: nat, box: nat, group: set<int>) {
    && f !in s.activities
    && FirstMatch(s, box, InPool(s, box).todo, group) < |InPool(s, box).todo|
  }

  function DoFind(s: State, f: nat, box: nat, group: set<int>): State
    requires CanFind(s, f, box, group)
  {
    var q := InPool(s, box).todo;
    var j := Key(box, q[FirstMatch(s, box, q, group)]);
    var k := Origin(Inc(s, j));
    s.(activities := s.activities[f := Found(j, group, k, Aux(s, k).h.stamp)])
  }

  predicate CanTakeFound(s: State, f: nat) {
    f in s.activities && s.activities[f].Found?
  }

  /** uvisor_pool_queue_dequeue on the todo queue followed by the magic check.
      The dequeue looks only at the slot's overlay byte: a slot that meanwhile
      sits on the done queue passes for queued. Then PoolQueue.DequeueExactly
      says what happens: the slot stays where it is, or comes off the done
      queue, or no pool is left. */
  function DoTakeFound(s: State, f: nat): State
    requires CanTakeFound(s, f)
  {
    var j := s.activities[f].j;
    var v := InPool(s, j.box);
    if j.slot in v.todo then
      if Inc(s, j).gateway.magic == OtherMagic then Fail(s, UnknownMagic) else Taken(s, f)
    else if j.slot !in v.done then s.(activities := s.activities - {f})
    else if PoolQueue.DequeueSafe(v, Todo, j.slot) then TakenAgain(s, f)
    else Fail(s, WrongQueue)
  }

  function TakenAgain(s: State, f: nat): State
    requires CanTakeFound(s, f) && PoolQueue.DequeueSafe(InPool(s, s.activities[f].j.box), Todo, s.activities[f].j.slot)
  {
    var j := s.activities[f].j;
    s.(inPool := s.inPool[j.box := PoolQueue.DequeueAny(InPool(s, j.box), Todo, j.slot)],
       activities := s.activities[f := Serving(j)])
  }

  function Taken(s: State, f: nat): State
    requires CanTakeFound(s, f)
  {
    var j := s.activities[f].j;
    s.(inPool := s.inPool[j.box := PoolSpec.Dequeue(InPool(s, j.box), Todo, j.slot)],
       activities := s.activities[f := Serving(j)],
       inAux := s.inAux[j := InServing(f)])
  }

  predicate CanDispatch(s: State, f: nat) {
    f in s.activities && s.activities[f].Serving?
  }

  /** The outgoing slot that an incoming message names as its origin. */
  function Origin(m: InMsg): Key {
    Key(if m.otherBox < 0 then 0 else m.otherBox, m.matchCookie.slot)
  }

  /** Running the target on the delivered arguments. */
  function DoDispatch(s: State, f: nat, value: u32): State
    requires CanDispatch(s, f)
  {
    var j := s.activities[f].j;
    var m := Inc(s, j);
    var k := Origin(m);
    var h := Aux(s, k).h;
    var e := Execution(m.otherBox, j.box, m.gateway.target, m.args, value);
    s.(inc := s.inc[j := m.(result := value, state := Completed)],
       activities := s.activities[f := Served(j)],
       outAux := s.outAux[k := Aux(s, k).(h := h.(executions := h.executions + [e]))],
       inAux := s.inAux[j := InServed(f)])
  }

  predicate CanReport(s: State, f: nat) {
    f in s.activities && s.activities[f].Served?
  }

  function DoReport(s: State, f: nat): State
    requires CanReport(s, f)
  {
    var j := s.activities[f].j;
    var v := InPool(s, j.box);
    if !Held(v, j.slot) then Fail(s, NotHeld)
    else
      s.(inPool := s.inPool[j.box := Enqueue(v, PoolSpec.Done, j.slot)],
         activities := s.activities - {f},
         inAux := s.inAux[j := InDone])
  }

  // ---- steps ------------------------------------------------------------------

  predicate Enabled(s: State, a: Action) {
    match a
    case Claim(f, box, _, _, gateway) => CanClaim(s, f, box, gateway)
    case Fill(f) => CanFill(s, f)
    case Post(f) => CanPost(s, f)
    case TakeCookie(f) => CanTakeCookie(s, f)
    case Swap(f, t) => CanSwap(s, f, t)
    case Pend(f, ok) => CanPend(s, f, ok)
    case Release(f) => CanRelease(s, f)
    case Deliver(box) => CanDeliver(s, box)
    case PutBack(box) => CanPutBack(s, box)
    case DropBad(box) => CanDropBad(s, box)
    case GiveBack(box) => CanGiveBack(s, box)
    case Find(f, box, group) => CanFind(s, f, box, group)
    case TakeFound(f) => CanTakeFound(s, f)
    case Dispatch(f, _) => CanDispatch(s, f)
    case Report(f) => CanReport(s, f)
  }

  function Apply(s: State, a: Action): State
    requires Enabled(s, a)
  {
    match a
    case Claim(f, box, sync, args, gateway) => DoClaim(s, f, box, sync, args, gateway)
    case Fill(f) => DoFill(s, f)
    case Post(f) => DoPost(s, f)
    case TakeCookie(f) => DoTakeCookie(s, f)
    case Swap(f, t) => DoSwap(s, f, t)
    case Pend(f, ok) => DoPend(s, f, ok)
    case Release(f) => DoRelease(s, f)
    case Deliver(box) => DoDeliver(s, box)
    case PutBack(box) => DoPutBack(s, box)
    case DropBad(box) => DoDropBad(s, box)
    case GiveBack(box) => DoGiveBack(s, box)
    case Find(f, box, group) => DoFind(s, f, box, group)
    case TakeFound(f) => DoTakeFound(s, f)
    case Dispatch(f, value) => DoDispatch(s, f, value)
    case Report(f) => DoReport(s, f)
  }
}
