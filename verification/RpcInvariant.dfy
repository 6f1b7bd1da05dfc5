/** The inductive invariant of the RPC protocol and its preservation by every
    action. Each part speaks about one box, slot, activity, cookie or finished
    call, so a lemma only has to look at what its action touched. */
module RpcInvariant {
  import opened Cookies
  import opened PoolSpec
  import opened RpcProtocol

  /** The execution that a send from `box` must have had to produce `value`. */
  function Expected(box: nat, h: Send, value: u32): Execution {
    Execution(box, h.gateway.box, h.gateway.target, h.args, value)
  }

  predicate Live(p: OutPhase) {
    p.OutQueued? || p.OutLost? || p.OutInFlight? || p.OutReturned?
  }

  ghost predicate CountersOk(counter: map<nat, u32>, stamps: map<nat, nat>) {
    forall b: nat {:trigger CounterOk(counter, stamps, b)} :: CounterOk(counter, stamps, b)
  }

  predicate CounterOk(counter: map<nat, u32>, stamps: map<nat, nat>, b: nat) {
    (if b in counter then counter[b] else 0) == CounterAfter(if b in stamps then stamps[b] else 0)
  }

  /** An outgoing message and its slot agree with the phase of its call. */
  predicate SlotOk(k: Key, m: OutMsg, a: OutAux, free: bool, queued: bool, done: bool) {
    var h := a.h;
    && (free <==> a.phase.OutFree?)
    && (queued <==> a.phase.OutQueued?)
    && !done   // there is no second queue on this side
    && m.semaphore == (if a.phase.OutReturned? then 1 else 0)
    && h.claims <= 1
    && (h.stamp > 0 ==> m.waitCookie == h.cookie || m.waitCookie == InvalidCookie(k.slot))
    && (Live(a.phase) || a.phase.OutConsumed? ==>
          && h.stamp > 0 && h.returned == []
          && m.args == h.args && m.gateway == h.gateway && m.matchCookie == h.cookie)
    && (Live(a.phase) ==>
          && !a.waiter.NoWaiter?
          && h.claims == (if a.waiter.CookieHolder? || a.waiter.Abandoned? then 1 else 0)
          && m.waitCookie == (if h.claims == 1 then InvalidCookie(k.slot) else h.cookie))
    && (a.phase.OutQueued? || a.phase.OutLost? ==> m.state == ReadyToSend && h.executions == [])
    && (a.phase.OutReturned? || a.phase.OutConsumed? ==>
          m.state == Completed && h.executions == [Expected(k.box, h, m.result)])
  }

  predicate OutOk(s: State, k: Key) {
    var v := OutPool(s, k.box);
    SlotOk(k, Out(s, k), Aux(s, k), k.slot in v.free, k.slot in v.todo, k.slot in v.done)
  }

  /** The latest send of a slot carries the cookie of its stamp and a gateway of the system. */
  predicate StampOk(s: State, k: Key) {
    && Aux(s, k).h.stamp <= Stamps(s, k.box)
    && (Aux(s, k).h.stamp > 0 ==>
          Aux(s, k).h.cookie == CookieAt(Aux(s, k).h.stamp, k.slot) && Aux(s, k).h.gateway in s.gateways)
  }

  /** A delivered message is a copy of the outgoing message it came from. */
  predicate CopyOk(k: Key, m: OutMsg, a: OutAux, j: Key, i: InMsg, p: InPhase) {
    && a.phase == OutInFlight(j)
    && m.otherBox == j.box && m.state == Sent && m.matchCookie == i.matchCookie
    && m.args == i.args && m.gateway == i.gateway && m.gateway.box == j.box
    && m.gateway.magic != OtherMagic
    && a.h.executions == (if p.InServed? || p.InDone? then [Expected(k.box, a.h, i.result)] else [])
  }

  predicate InOk(s: State, j: Key) {
    var p, i := InAux(s, j), Inc(s, j);
    && (j.slot in InPool(s, j.box).free <==> p.InFree?)
    && (j.slot in InPool(s, j.box).todo <==> p.InTodo?)
    && (j.slot in InPool(s, j.box).done <==> p.InDone?)
    && (!p.InFree? ==>
          i.otherBox >= 0 && OutKey(Origin(i)) && CopyOk(Origin(i), Out(s, Origin(i)), Aux(s, Origin(i)), j, i, p))
  }

  predicate ActivityOk(s: State, f: nat)
    requires f in s.activities
  {
    match s.activities[f]
    case Claimed(k, _, _, gateway) => OutKey(k) && Aux(s, k).phase == OutClaimed(f) && gateway in s.gateways
    case Filled(k, _, asked) =>
      && OutKey(k) && Aux(s, k).phase == OutClaimed(f)
      && var m, h := Out(s, k), Aux(s, k).h;
      && h.stamp == asked > 0 && h.claims == 0 && h.executions == [] && h.returned == []
      && m.args == h.args && m.gateway == h.gateway && m.matchCookie == m.waitCookie == h.cookie
      && m.state == ReadyToSend
    case Posted(k, _, asked) => Waits(s, k, asked, Sender(f))
    case SyncWaiting(k, asked) => Waits(s, k, asked, Sender(f))
    case AsyncWaiting(k, asked) => Waits(s, k, asked, CookieHolder(f))
    case Woken(k, asked) => OutKey(k) && Aux(s, k).phase == OutConsumed(f) && Aux(s, k).h.stamp == asked
    case Found(j, group, k, stamp) => InKey(j) && OutKey(k) && FoundOk(Aux(s, k).h, group, stamp)
    case Serving(j) => InKey(j) && InAux(s, j) == InServing(f)
    case Served(j) => InKey(j) && InAux(s, j) == InServed(f)
  }

  /** A send that a handler found is the latest of its slot, with a target that the handler
      can run, or an earlier one. */
  predicate FoundOk(h: Send, group: set<int>, stamp: nat) {
    stamp <= h.stamp && (stamp == h.stamp ==> h.gateway.target in group)
  }

  predicate Waits(s: State, k: Key, asked: nat, w: Waiter) {
    OutKey(k) && Live(Aux(s, k).phase) && Aux(s, k).waiter == w && Aux(s, k).h.stamp == asked
  }

  /** Whoever a slot's phase names is really there. */
  predicate HolderOk(s: State, k: Key) {
    var a := Aux(s, k);
    && (a.phase.OutClaimed? ==>
          && a.phase.f in s.activities
          && var w := s.activities[a.phase.f];
          && (w.Claimed? || w.Filled?) && w.k == k)
    && (a.phase.OutConsumed? ==>
          a.phase.f in s.activities && s.activities[a.phase.f].Woken? && s.activities[a.phase.f].k == k)
    && (Live(a.phase) && a.waiter.Sender? ==>
          && a.waiter.f in s.activities
          && var w := s.activities[a.waiter.f];
          && (w.Posted? || w.SyncWaiting?) && w.k == k)
    && (Live(a.phase) && a.waiter.CookieHolder? ==>
          && a.waiter.f in s.activities
          && s.activities[a.waiter.f].AsyncWaiting? && s.activities[a.waiter.f].k == k)
    && (a.phase.OutInFlight? ==>
          InKey(a.phase.j) && !InAux(s, a.phase.j).InFree? && Origin(Inc(s, a.phase.j)) == k)
  }

  predicate ServerOk(s: State, j: Key) {
    var p := InAux(s, j);
    && (p.InServing? ==> p.f in s.activities && s.activities[p.f] == Serving(j))
    && (p.InServed? ==> p.f in s.activities && s.activities[p.f] == Served(j))
  }

  /** An issued cookie belongs to the slot's latest send or to an earlier one; in
      the first case it is still open or was already swapped for the invalid one. */
  predicate TokenOk(s: State, t: Token) {
    var k := Key(t.box, t.cookie.slot);
    && OutKey(k) && t.cookie == CookieAt(t.stamp, k.slot)
    && 0 < t.stamp <= Aux(s, k).h.stamp
    && (t.stamp == Aux(s, k).h.stamp ==>
          || Out(s, k).waitCookie == InvalidCookie(k.slot)
          || (Live(Aux(s, k).phase) && Aux(s, k).waiter == OpenCookie))
  }

  /** A finished call got the value that the one execution of its own send
      computed from the arguments of that send. */
  predicate FinishOk(r: Finish) {
    && r.asked == r.h.stamp && r.h.claims <= 1
    && |r.h.returned| == 1
    && r.h.executions == [Expected(r.k.box, r.h, r.h.returned[0])]
  }

  /** A finished call is over: the slot's latest send is later or has returned. */
  predicate PastOk(s: State, r: Finish) {
    && OutKey(r.k)
    && r.h.stamp <= Aux(s, r.k).h.stamp
    && (r.h.stamp == Aux(s, r.k).h.stamp ==> Aux(s, r.k).h.returned != [])
  }

  ghost predicate NoRepeats(finished: seq<Finish>) {
    forall x, y :: 0 <= x < y < |finished| && finished[x].k == finished[y].k
                   ==> finished[x].h.stamp != finished[y].h.stamp
  }

  /** Nothing failed but perhaps the assertion on bad gateways, and that only in a system
      that uses one. */
  predicate Sound(s: State) {
    s.faults <= {GatewayAssert} && (AllGood(s.boxes, s.gateways) ==> s.faults == {})
  }

  predicate AllGood(boxes: nat, gateways: set<Gateway>) {
    forall g :: g in gateways ==> GatewayOk(boxes, g)
  }

  ghost predicate Inv(s: State) {
    && Sound(s)
    && PoolsOk(s.outPool, OUT_SLOTS) && PoolsOk(s.inPool, IN_SLOTS)
    && CountersOk(s.counter, s.stamps)
    && (forall k {:trigger OutOk(s, k)} :: OutKey(k) ==> OutOk(s, k))
    && (forall k {:trigger StampOk(s, k)} :: OutKey(k) ==> StampOk(s, k))
    && (forall j {:trigger InOk(s, j)} :: InKey(j) ==> InOk(s, j))
    && (forall k {:trigger HolderOk(s, k)} :: OutKey(k) ==> HolderOk(s, k))
    && (forall j {:trigger ServerOk(s, j)} :: InKey(j) ==> ServerOk(s, j))
    && (forall f {:trigger ActivityOk(s, f)} :: f in s.activities ==> ActivityOk(s, f))
    && (forall t {:trigger TokenOk(s, t)} :: t in s.issued ==> TokenOk(s, t))
    && (forall r {:trigger FinishOk(r)} :: r in s.finished ==> FinishOk(r))
    && (forall r {:trigger PastOk(s, r)} :: r in s.finished ==> PastOk(s, r))
    && NoRepeats(s.finished)
  }

  /** A live slot whose waiter gave up. */
  predicate Forsaken(s: State, k: Key) {
    OutKey(k) && Live(Aux(s, k).phase) && Aux(s, k).waiter == Abandoned
  }

  ghost predicate Loyal(s: State, s': State) {
    && s'.boxes == s.boxes && s'.gateways == s.gateways
    && forall k {:trigger Forsaken(s', k)} :: Forsaken(s, k) ==> Forsaken(s', k)
  }

  /** No incoming message is touched, no send that is at a callee is replaced, and nobody
      new is looking for a message. */
  ghost predicate Quiet(s: State, s': State) {
    && s'.inc == s.inc && s'.inPool == s.inPool
    && (forall x {:trigger SameDelivered(s, s', x)} :: OutKey(x) ==> SameDelivered(s, s', x))
    && forall f :: f in s'.activities && s'.activities[f].Found? ==>
         f in s.activities && s'.activities[f] == s.activities[f]
  }

  predicate SameDelivered(s: State, s': State, x: Key) {
    Aux(s, x).phase.OutInFlight? ==> Aux(s', x).h.stamp == Aux(s, x).h.stamp
  }

  lemma InitInv(boxes: nat, gateways: set<Gateway>)
    ensures Inv(InitState(boxes, gateways))
  {
    FreshWf(OUT_SLOTS);
    FreshWf(IN_SLOTS);
    assert PoolsOk(map[], OUT_SLOTS) && PoolsOk(map[], IN_SLOTS);
  }

  // ---- what an action leaves alone --------------------------------------------

  predicate SameOut(s: State, s': State, k: Key) {
    && Out(s', k) == Out(s, k) && Aux(s', k) == Aux(s, k)
    && (k.slot in OutPool(s', k.box).free <==> k.slot in OutPool(s, k.box).free)
    && (k.slot in OutPool(s', k.box).todo <==> k.slot in OutPool(s, k.box).todo)
    && (k.slot in OutPool(s', k.box).done <==> k.slot in OutPool(s, k.box).done)
    && Stamps(s, k.box) <= Stamps(s', k.box) && s'.gateways == s.gateways
  }

  predicate SameIn(s: State, s': State, j: Key) {
    && Inc(s', j) == Inc(s, j) && InAux(s', j) == InAux(s, j)
    && (j.slot in InPool(s', j.box).free <==> j.slot in InPool(s, j.box).free)
    && (j.slot in InPool(s', j.box).todo <==> j.slot in InPool(s, j.box).todo)
    && (j.slot in InPool(s', j.box).done <==> j.slot in InPool(s, j.box).done)
  }

  predicate SameActivity(s: State, s': State, g: nat) {
    && (g in s'.activities <==> g in s.activities)
    && (g in s.activities ==> s'.activities[g] == s.activities[g])
  }

  /** Only outgoing slot `k`, incoming slot `j` and activity `f` are touched. */
  ghost predicate Local(s: State, s': State, k: Key, j: Key, f: int) {
    && s'.boxes == s.boxes && s'.gateways == s.gateways
    && (forall x {:trigger SameOut(s, s', x)} :: x != k ==> SameOut(s, s', x))
    && (forall x {:trigger SameIn(s, s', x)} :: x != j ==> SameIn(s, s', x))
    && (forall g: nat {:trigger SameActivity(s, s', g)} :: g != f ==> SameActivity(s, s', g))
  }

  /** The change to slot `k` breaks no promise to anybody but `f` and `j`. */
  predicate Smooth(k: Key, m: OutMsg, a: OutAux, m': OutMsg, a': OutAux, j: Key, f: int) {
    // a delivered copy other than j
    && (a.phase.OutInFlight? && a.phase.j != j ==>
          && a'.phase == a.phase && a'.h == a.h.(claims := a'.h.claims)
          && m' == m.(waitCookie := m'.waitCookie))
    // an activity other than f
    && (a.phase.OutClaimed? || a.phase.OutConsumed? ==> a.phase.f == f)
    && (Live(a.phase) && (a.waiter.Sender? || a.waiter.CookieHolder?) && a.waiter.f != f ==>
          Live(a'.phase) && a'.waiter == a.waiter && a'.h.stamp == a.h.stamp)
    && (Live(a.phase) && a.waiter == Abandoned ==> Live(a'.phase) && a'.waiter == Abandoned)
    // issued cookies, finished calls and sends that a handler found
    && a.h.stamp <= a'.h.stamp
    && (a.h.stamp == a'.h.stamp ==>
          && a'.h.gateway == a.h.gateway
          && (a.h.returned != [] ==> a'.h.returned != [])
          && (m.waitCookie == InvalidCookie(k.slot) ==> m'.waitCookie == InvalidCookie(k.slot))
          && (Live(a.phase) && a.waiter == OpenCookie ==>
                m'.waitCookie == InvalidCookie(k.slot) || (Live(a'.phase) && a'.waiter == OpenCookie)))
  }

  predicate Concerns(a: Activity, k: Key, j: Key) {
    match a
    case Found(_, _, _, _) => true
    case Serving(x) => x == j
    case Served(x) => x == j
    case _ => a.k == k
  }

  ghost predicate Step(s: State, s': State, k: Key, j: Key, f: int) {
    && Inv(s) && Local(s, s', k, j, f)
    && (OutKey(k) ==> Smooth(k, Out(s, k), Aux(s, k), Out(s', k), Aux(s', k), j, f))
    && (InKey(j) && (InAux(s, j).InServing? || InAux(s, j).InServed?) ==> InAux(s, j).f == f)
    && (f >= 0 && f in s.activities ==> Concerns(s.activities[f], k, j))
    && (InKey(j) && !InAux(s, j).InFree? ==>
          || Origin(Inc(s, j)) == k
          || (Origin(Inc(s', j)) == Origin(Inc(s, j)) && !InAux(s', j).InFree?))
  }

  lemma OutsKept(s: State, s': State, k: Key, j: Key, f: int)
    requires Step(s, s', k, j, f)
    ensures forall x {:trigger OutOk(s', x)} :: OutKey(x) && x != k ==> OutOk(s', x)
    ensures forall x {:trigger StampOk(s', x)} :: OutKey(x) && x != k ==> StampOk(s', x)
    ensures forall t {:trigger TokenOk(s', t)} :: t in s.issued ==> TokenOk(s', t)
    ensures forall r {:trigger PastOk(s', r)} :: r in s.finished ==> PastOk(s', r)
    ensures Loyal(s, s')
  {
    forall x | Forsaken(s, x) ensures Forsaken(s', x) { assert x != k ==> SameOut(s, s', x); }
    forall x | OutKey(x) && x != k ensures OutOk(s', x) && StampOk(s', x) {
      assert OutOk(s, x) && StampOk(s, x) && SameOut(s, s', x);
    }
    forall t | t in s.issued ensures TokenOk(s', t) {
      assert TokenOk(s, t) && (Key(t.box, t.cookie.slot) != k ==> SameOut(s, s', Key(t.box, t.cookie.slot)));
    }
    forall r | r in s.finished ensures PastOk(s', r) {
      assert PastOk(s, r) && (r.k != k ==> SameOut(s, s', r.k));
    }
  }

  lemma InsKept(s: State, s': State, k: Key, j: Key, f: int)
    requires Step(s, s', k, j, f)
    ensures forall x {:trigger InOk(s', x)} :: InKey(x) && x != j ==> InOk(s', x)
  {
    forall x | InKey(x) && x != j ensures InOk(s', x) {
      assert InOk(s, x) && SameIn(s, s', x);
      assert Origin(Inc(s, x)) != k ==> SameOut(s, s', Origin(Inc(s, x)));
    }
  }

  lemma ActivitiesKept(s: State, s': State, k: Key, j: Key, f: int)
    requires Step(s, s', k, j, f)
    ensures forall g: nat {:trigger ActivityOk(s', g)} :: g in s'.activities && g != f ==> ActivityOk(s', g)
  {
    forall g: nat | g in s'.activities && g != f ensures ActivityOk(s', g) {
      assert SameActivity(s, s', g) && ActivityOk(s, g);
      var a := s.activities[g];
      if a.Serving? || a.Served? {
        assert a.j != j ==> SameIn(s, s', a.j);
      } else {
        assert a.k != k ==> SameOut(s, s', a.k);
      }
    }
  }

  lemma HoldersKept(s: State, s': State, k: Key, j: Key, f: int)
    requires Step(s, s', k, j, f)
    ensures forall x {:trigger HolderOk(s', x)} :: OutKey(x) && x != k ==> HolderOk(s', x)
    ensures forall x {:trigger ServerOk(s', x)} :: InKey(x) && x != j ==> ServerOk(s', x)
  {
    forall x | OutKey(x) && x != k ensures HolderOk(s', x) {
      assert HolderOk(s, x) && SameOut(s, s', x);
      var a := Aux(s, x);
      if a.phase.OutClaimed? || a.phase.OutConsumed? {
        assert SameActivity(s, s', a.phase.f);
      } else if Live(a.phase) && (a.waiter.Sender? || a.waiter.CookieHolder?) {
        assert SameActivity(s, s', a.waiter.f);
      }
      if a.phase.OutInFlight? && a.phase.j != j {
        assert SameIn(s, s', a.phase.j);
      }
    }
    forall x | InKey(x) && x != j ensures ServerOk(s', x) {
      assert ServerOk(s, x) && SameIn(s, s', x);
      var p := InAux(s, x);
      if p.InServing? || p.InServed? {
        assert SameActivity(s, s', p.f);
      }
    }
  }

  const NOWHERE := Key(0, 256)

  predicate Later(finished: seq<Finish>, r: Finish) {
    forall x :: 0 <= x < |finished| && finished[x].k == r.k ==> finished[x].h.stamp != r.h.stamp
  }

  /** What is left to check once an action is known to be local and smooth. */
  lemma StepInv(s: State, s': State, k: Key, j: Key, f: int)
    requires Step(s, s', k, j, f) && Sound(s')
    requires PoolsOk(s'.outPool, OUT_SLOTS) && PoolsOk(s'.inPool, IN_SLOTS)
    requires CountersOk(s'.counter, s'.stamps)
    requires OutKey(k) ==> OutOk(s', k) && StampOk(s', k) && HolderOk(s', k)
    requires InKey(j) ==> InOk(s', j) && ServerOk(s', j)
    requires f >= 0 && f in s'.activities ==> ActivityOk(s', f)
    requires forall t {:trigger TokenOk(s', t)} :: t in s'.issued && t !in s.issued ==> TokenOk(s', t)
    requires s'.finished == s.finished
             || exists r :: s'.finished == s.finished + [r] && FinishOk(r) && PastOk(s', r) && Later(s.finished, r)
    ensures Inv(s') && Loyal(s, s')
  {
    OutsKept(s, s', k, j, f);
    InsKept(s, s', k, j, f);
    ActivitiesKept(s, s', k, j, f);
    HoldersKept(s, s', k, j, f);
  }

  /** On the caller's side, what an action writes: slot `k` and activity `f`. */
  ghost predicate CallerWrites(s: State, s': State, k: Key, f: nat) {
    && s'.boxes == s.boxes && s'.gateways == s.gateways
    && s'.inc == s.inc && s'.inPool == s.inPool && s'.inAux == s.inAux
    && (s'.out == s.out || s'.out == s.out[k := Out(s', k)])
    && s'.outAux == s.outAux[k := Aux(s', k)]
    && (s'.outPool == s.outPool || s'.outPool == s.outPool[k.box := OutPool(s', k.box)])
    && (forall x :: x != k.slot ==>
          && (x in OutPool(s', k.box).free <==> x in OutPool(s, k.box).free)
          && (x in OutPool(s', k.box).todo <==> x in OutPool(s, k.box).todo)
          && (x in OutPool(s', k.box).done <==> x in OutPool(s, k.box).done))
    && (forall b :: Stamps(s, b) <= Stamps(s', b))
    && (if f in s'.activities then s'.activities == s.activities[f := s'.activities[f]] && !s'.activities[f].Found?
                               else s'.activities == s.activities - {f})
  }

  lemma CallerLocal(s: State, s': State, k: Key, f: nat)
    requires CallerWrites(s, s', k, f)
    ensures Local(s, s', k, NOWHERE, f)
  {
    forall x | x != k ensures SameOut(s, s', x) {}
    forall x ensures SameIn(s, s', x) {}
    forall g: nat | g != f ensures SameActivity(s, s', g) {}
  }

  /** The same for an action that stays on the caller's side. */
  lemma CallerStepInv(s: State, s': State, k: Key, f: nat)
    requires Inv(s) && Sound(s') && CallerWrites(s, s', k, f)
    requires s'.finished == s.finished
             || exists r :: s'.finished == s.finished + [r] && FinishOk(r) && PastOk(s', r) && Later(s.finished, r)
    requires Smooth(k, Out(s, k), Aux(s, k), Out(s', k), Aux(s', k), NOWHERE, f)
    requires PoolsOk(s'.outPool, OUT_SLOTS) && CountersOk(s'.counter, s'.stamps)
    requires OutKey(k) && OutOk(s', k) && StampOk(s', k) && HolderOk(s', k)
    requires f in s.activities ==> Concerns(s.activities[f], k, NOWHERE)
    requires f in s'.activities ==> ActivityOk(s', f)
    requires forall t {:trigger TokenOk(s', t)} :: t in s'.issued && t !in s.issued ==> TokenOk(s', t)
    ensures Inv(s') && Loyal(s, s') && Quiet(s, s')
  {
    CallerLocal(s, s', k, f);
    StepInv(s, s', k, NOWHERE, f);
    forall x | OutKey(x) ensures SameDelivered(s, s', x) {
      assert HolderOk(s, x) && (x != k ==> SameOut(s, s', x));
    }
  }

  /** The same for an action that stays on the callee's side. */
  lemma CalleeStepInv(s: State, s': State, j: Key, f: int)
    requires Inv(s) && Sound(s') && s'.boxes == s.boxes && s'.gateways == s.gateways
    requires s'.out == s.out && s'.outPool == s.outPool && s'.outAux == s.outAux
    requires s'.finished == s.finished && s'.issued == s.issued
    requires s'.counter == s.counter && s'.stamps == s.stamps
    requires forall x {:trigger SameIn(s, s', x)} :: x != j ==> SameIn(s, s', x)
    requires forall g: nat {:trigger SameActivity(s, s', g)} :: g != f ==> SameActivity(s, s', g)
    requires PoolsOk(s'.inPool, IN_SLOTS)
    requires InKey(j) ==> InOk(s', j) && ServerOk(s', j)
    requires InKey(j) && (InAux(s, j).InServing? || InAux(s, j).InServed?) ==> InAux(s, j).f == f
    requires InKey(j) ==> Origin(Inc(s', j)) == Origin(Inc(s, j)) && !InAux(s', j).InFree?
    requires f >= 0 && f in s.activities ==> Concerns(s.activities[f], NOWHERE, j)
    requires f >= 0 && f in s'.activities ==> ActivityOk(s', f)
    ensures Inv(s') && Loyal(s, s')
  {
    forall x ensures SameOut(s, s', x) {}
    StepInv(s, s', NOWHERE, j, f);
  }

  // ---- one lemma per action ---------------------------------------------------

  lemma ClaimFacts(s: State, f: nat, box: nat, sync: bool, args: Args, gateway: Gateway)
    requires Inv(s) && CanClaim(s, f, box, gateway)
    ensures var s', k := DoClaim(s, f, box, sync, args, gateway), Key(box, OutPool(s, box).free[0]);
            && OutKey(k) && Aux(s, k).phase.OutFree? && PoolsOk(s'.outPool, OUT_SLOTS)
            && OutOk(s', k) && StampOk(s', k) && HolderOk(s', k) && ActivityOk(s', f)
            && (forall x :: x in OutPool(s', box).free <==> x in OutPool(s, box).free && x != k.slot)
  {
    var k := Key(box, OutPool(s, box).free[0]);
    PoolsAllocate(s.outPool, box, OUT_SLOTS);
    assert OutOk(s, k) && StampOk(s, k);
  }

  lemma ClaimInv(s: State, f: nat, box: nat, sync: bool, args: Args, gateway: Gateway)
    requires Inv(s) && CanClaim(s, f, box, gateway)
    ensures Inv(DoClaim(s, f, box, sync, args, gateway)) && Loyal(s, DoClaim(s, f, box, sync, args, gateway))
    ensures Quiet(s, DoClaim(s, f, box, sync, args, gateway))
  {
    var s', k := DoClaim(s, f, box, sync, args, gateway), Key(box, OutPool(s, box).free[0]);
    ClaimFacts(s, f, box, sync, args, gateway);
    CallerStepInv(s, s', k, f);
  }

  lemma FillStamps(s: State, f: nat)
    requires Inv(s) && CanFill(s, f)
    ensures var s', k := DoFill(s, f), s.activities[f].k;
            && CountersOk(s'.counter, s'.stamps)
            && Out(s', k).matchCookie == CookieAt(Stamps(s', k.box), k.slot)
  {
    var s', k := DoFill(s, f), s.activities[f].k;
    assert CounterOk(s.counter, s.stamps, k.box);
    StampedCookie(Stamps(s', k.box), k.slot);
    forall b: nat ensures CounterOk(s'.counter, s'.stamps, b) { assert CounterOk(s.counter, s.stamps, b); }
  }

  lemma FillOk(s: State, f: nat)
    requires Inv(s) && CanFill(s, f)
    requires var s', k := DoFill(s, f), s.activities[f].k;
             Out(s', k).matchCookie == CookieAt(Stamps(s', k.box), k.slot)
    ensures var s', k := DoFill(s, f), s.activities[f].k;
            && OutKey(k) && OutOk(s', k) && StampOk(s', k) && HolderOk(s', k) && ActivityOk(s', f)
            && Smooth(k, Out(s, k), Aux(s, k), Out(s', k), Aux(s', k), NOWHERE, f)
  {
    var k := s.activities[f].k;
    assert ActivityOk(s, f) && OutOk(s, k) && StampOk(s, k);
  }

  lemma FillInv(s: State, f: nat)
    requires Inv(s) && CanFill(s, f)
    ensures Inv(DoFill(s, f)) && Loyal(s, DoFill(s, f))
    ensures Quiet(s, DoFill(s, f))
  {
    FillStamps(s, f);
    FillOk(s, f);
    CallerStepInv(s, DoFill(s, f), s.activities[f].k, f);
  }

  lemma PostInv(s: State, f: nat)
    requires Inv(s) && CanPost(s, f)
    ensures Inv(DoPost(s, f)) && Loyal(s, DoPost(s, f))
    ensures Quiet(s, DoPost(s, f))
  {
    var s' := DoPost(s, f);
    var k := s.activities[f].k;
    assert ActivityOk(s, f) && OutOk(s, k) && StampOk(s, k);
    PoolsEnqueue(s.outPool, k.box, OUT_SLOTS, Todo, k.slot);
    CallerStepInv(s, s', k, f);
  }

  lemma TakeCookieSyncInv(s: State, f: nat)
    requires Inv(s) && CanTakeCookie(s, f) && s.activities[f].sync
    ensures Inv(DoTakeCookie(s, f)) && Loyal(s, DoTakeCookie(s, f))
    ensures Quiet(s, DoTakeCookie(s, f))
  {
    var s' := DoTakeCookie(s, f);
    var k := s.activities[f].k;
    assert ActivityOk(s, f) && OutOk(s, k) && StampOk(s, k) && HolderOk(s, k);
    forall x ensures SameOut(s, s', x) {}
    forall g: nat | g != f ensures SameActivity(s, s', g) {}
    CallerStepInv(s, s', k, f);
  }

  lemma TakeCookieAsyncInv(s: State, f: nat)
    requires Inv(s) && CanTakeCookie(s, f) && !s.activities[f].sync
    ensures Inv(DoTakeCookie(s, f)) && Loyal(s, DoTakeCookie(s, f))
    ensures Quiet(s, DoTakeCookie(s, f))
  {
    var s' := DoTakeCookie(s, f);
    var k := s.activities[f].k;
    assert ActivityOk(s, f) && OutOk(s, k) && StampOk(s, k) && HolderOk(s, k);
    CallerStepInv(s, s', k, f);
  }

  /** The cookie of an earlier send of the slot is mistaken for the latest one. */
  predicate Mixup(s: State, t: Token) {
    var k := Key(t.box, t.cookie.slot);
    Out(s, k).waitCookie == t.cookie && Aux(s, k).h.stamp != t.stamp
  }

  /** The wait comes before 2^21 further sends of the box have reused the cookie. */
  predicate Timely(s: State, t: Token) {
    Stamps(s, t.box) < t.stamp + PERIOD
  }

  /** Cookies are mixed up exactly when the slot was refilled a multiple of 2^21
      sends later and nobody has waited on that refill. */
  lemma MixupExactly(s: State, t: Token)
    requires Inv(s) && t in s.issued
    ensures var k := Key(t.box, t.cookie.slot);
            Mixup(s, t) <==> && t.stamp < Aux(s, k).h.stamp
                             && (Aux(s, k).h.stamp - t.stamp) % PERIOD == 0
                             && Out(s, k).waitCookie == Aux(s, k).h.cookie
    ensures Timely(s, t) ==> !Mixup(s, t)
  {
    var k := Key(t.box, t.cookie.slot);
    var n := Aux(s, k).h.stamp;
    assert TokenOk(s, t) && OutOk(s, k) && StampOk(s, k);
    CookieNeverInvalid(t.stamp, k.slot, k.slot);
    CookieCollision(t.stamp, k.slot, n, k.slot);
    SameResidue(t.stamp, n);
  }

  lemma SameResidue(i: nat, j: nat)
    requires i <= j
    ensures i % PERIOD == j % PERIOD <==> (j - i) % PERIOD == 0
    ensures i % PERIOD == j % PERIOD && j < i + PERIOD ==> i == j
  {
    assert j - i == PERIOD * (j / PERIOD - i / PERIOD) + (j % PERIOD - i % PERIOD);
  }

  lemma SwapInv(s: State, f: nat, t: Token)
    requires Inv(s) && CanSwap(s, f, t) && !Mixup(s, t)
    ensures Inv(DoSwap(s, f, t)) && Loyal(s, DoSwap(s, f, t))
    ensures Quiet(s, DoSwap(s, f, t))
  {
    if Out(s, Key(t.box, t.cookie.slot)).waitCookie == t.cookie {
      SwappedInv(s, f, t, Key(t.box, t.cookie.slot));
    }
  }

  lemma SwappedInv(s: State, f: nat, t: Token, k: Key)
    requires Inv(s) && CanSwap(s, f, t) && !Mixup(s, t) && k == Key(t.box, t.cookie.slot)
    requires Out(s, k).waitCookie == t.cookie
    ensures Inv(Swapped(s, f, t, k)) && Loyal(s, Swapped(s, f, t, k)) && Quiet(s, Swapped(s, f, t, k))
  {
    SwappedOk(s, f, t, k);
    CallerStepInv(s, Swapped(s, f, t, k), k, f);
  }

  lemma SwappedOk(s: State, f: nat, t: Token, k: Key)
    requires Inv(s) && CanSwap(s, f, t) && !Mixup(s, t) && k == Key(t.box, t.cookie.slot)
    requires Out(s, k).waitCookie == t.cookie
    ensures var s' := Swapped(s, f, t, k);
            && OutKey(k) && OutOk(s', k) && StampOk(s', k) && HolderOk(s', k) && ActivityOk(s', f)
            && Smooth(k, Out(s, k), Aux(s, k), Out(s', k), Aux(s', k), NOWHERE, f)
  {
    assert TokenOk(s, t) && OutOk(s, k) && StampOk(s, k) && HolderOk(s, k);
    CookieNeverInvalid(t.stamp, k.slot, k.slot);
  }

  lemma PendOk(s: State, f: nat, ok: bool)
    requires Inv(s) && CanPend(s, f, ok) && (ok || s.activities[f].AsyncWaiting?)
    ensures var s', k := DoPend(s, f, ok), s.activities[f].k;
            && OutKey(k) && OutOk(s', k) && StampOk(s', k) && HolderOk(s', k)
            && (ok ==> ActivityOk(s', f)) && (!ok ==> Forsaken(s', k))
            && Smooth(k, Out(s, k), Aux(s, k), Out(s', k), Aux(s', k), NOWHERE, f)
  {
    var k := s.activities[f].k;
    assert ActivityOk(s, f) && OutOk(s, k) && StampOk(s, k) && HolderOk(s, k);
  }

  lemma PendWrites(s: State, f: nat, ok: bool)
    requires CanPend(s, f, ok) && (ok || s.activities[f].AsyncWaiting?)
    ensures CallerWrites(s, DoPend(s, f, ok), s.activities[f].k, f)
  {
  }

  lemma WakeInv(s: State, f: nat)
    requires Inv(s) && CanPend(s, f, true)
    ensures Inv(DoPend(s, f, true)) && Loyal(s, DoPend(s, f, true))
    ensures Quiet(s, DoPend(s, f, true))
  {
    PendOk(s, f, true);
    PendWrites(s, f, true);
    CallerStepInv(s, DoPend(s, f, true), s.activities[f].k, f);
  }

  lemma TimeoutInv(s: State, f: nat)
    requires Inv(s) && CanPend(s, f, false)
    ensures Inv(DoPend(s, f, false)) && Loyal(s, DoPend(s, f, false))
    ensures s.activities[f].AsyncWaiting? ==> Forsaken(DoPend(s, f, false), s.activities[f].k)
    ensures Quiet(s, DoPend(s, f, false))
  {
    if s.activities[f].AsyncWaiting? {
      PendOk(s, f, false);
      PendWrites(s, f, false);
      CallerStepInv(s, DoPend(s, f, false), s.activities[f].k, f);
    }
  }

  /** The halt in free_outgoing_msg is not reached, and the call is recorded. */
  lemma ReleaseFacts(s: State, f: nat)
    requires Inv(s) && CanRelease(s, f)
    ensures var s', k := DoRelease(s, f), s.activities[f].k;
            && OutKey(k) && Held(OutPool(s, k.box), k.slot) && Sound(s')
            && PoolsOk(s'.outPool, OUT_SLOTS)
            && var r := Finish(k, s.activities[f].asked, Aux(s', k).h);
            && s'.finished == s.finished + [r] && FinishOk(r) && Later(s.finished, r)
  {
    var k := s.activities[f].k;
    assert ActivityOk(s, f) && OutOk(s, k);
    PoolsFree(s.outPool, k.box, OUT_SLOTS, k.slot);
    forall x | 0 <= x < |s.finished| && s.finished[x].k == k
      ensures s.finished[x].h.stamp != Aux(s, k).h.stamp
    {
      assert PastOk(s, s.finished[x]);
    }
  }

  lemma ReleaseOk(s: State, f: nat)
    requires Inv(s) && CanRelease(s, f) && Held(OutPool(s, s.activities[f].k.box), s.activities[f].k.slot)
    ensures var s', k := DoRelease(s, f), s.activities[f].k;
            && OutKey(k) && OutOk(s', k) && StampOk(s', k) && HolderOk(s', k)
            && Smooth(k, Out(s, k), Aux(s, k), Out(s', k), Aux(s', k), NOWHERE, f)
            && PastOk(s', Finish(k, s.activities[f].asked, Aux(s', k).h))
  {
    var k := s.activities[f].k;
    assert ActivityOk(s, f) && OutOk(s, k) && StampOk(s, k);
  }

  lemma ReleaseInv(s: State, f: nat)
    requires Inv(s) && CanRelease(s, f)
    ensures Inv(DoRelease(s, f)) && Loyal(s, DoRelease(s, f))
    ensures Quiet(s, DoRelease(s, f))
  {
    var s' := DoRelease(s, f);
    var k := s.activities[f].k;
    ReleaseFacts(s, f);
    ReleaseOk(s, f);
    CallerStepInv(s, s', k, f);
  }

  // ---- uVisor -----------------------------------------------------------------

  lemma DeliverPools(s: State, box: nat)
    requires Inv(s) && CanDeliver(s, box)
    ensures var s', k := DoDeliver(s, box), HeadKey(s, box);
            var c := Out(s, k).gateway.box;
            var j := Key(c, InPool(s, c).free[0]);
            && PoolsOk(s'.outPool, OUT_SLOTS) && PoolsOk(s'.inPool, IN_SLOTS)
            && OutKey(k) && k.slot in OutPool(s, box).todo && InKey(j) && j.slot in InPool(s, c).free
            && (forall x :: x in OutPool(s', box).todo <==> x in OutPool(s, box).todo && x != k.slot)
            && (forall x :: x in InPool(s', c).free <==> x in InPool(s, c).free && x != j.slot)
            && (forall x :: x in InPool(s', c).todo <==> x in InPool(s, c).todo || x == j.slot)
  {
    var k := HeadKey(s, box);
    var c := Out(s, k).gateway.box;
    assert k.slot in OutPool(s, box).todo;
    PoolsDequeue(s.outPool, box, OUT_SLOTS, Todo, k.slot);
    PoolsAllocate(s.inPool, c, IN_SLOTS);
    var mid := s.inPool[c := Allocate(InPool(s, c))];
    PoolsEnqueue(mid, c, IN_SLOTS, Todo, InPool(s, c).free[0]);
    assert s.inPool[c := Enqueue(mid[c], Todo, InPool(s, c).free[0])]
        == mid[c := Enqueue(mid[c], Todo, InPool(s, c).free[0])];
  }

  lemma DeliverStep(s: State, box: nat)
    requires Inv(s) && CanDeliver(s, box)
    ensures var k := HeadKey(s, box);
            var c := Out(s, k).gateway.box;
            Step(s, DoDeliver(s, box), k, Key(c, InPool(s, c).free[0]), -1)
  {
    var s', k := DoDeliver(s, box), HeadKey(s, box);
    var c := Out(s, k).gateway.box;
    var j := Key(c, InPool(s, c).free[0]);
    DeliverPools(s, box);
    DeliverLocal(s, s', k, j);
    assert OutOk(s, k) && InOk(s, j);
  }

  /** What a delivery touches, from what it writes. */
  lemma DeliverLocal(s: State, s': State, k: Key, j: Key)
    requires s'.boxes == s.boxes && s'.gateways == s.gateways && s'.activities == s.activities && s'.stamps == s.stamps
    requires s'.out == s.out[k := Out(s', k)] && s'.outAux == s.outAux[k := Aux(s', k)]
    requires s'.inc == s.inc[j := Inc(s', j)] && s'.inAux == s.inAux[j := InAux(s', j)]
    requires s'.outPool == s.outPool[k.box := OutPool(s', k.box)] && s'.inPool == s.inPool[j.box := InPool(s', j.box)]
    requires OutPool(s', k.box).free == OutPool(s, k.box).free && OutPool(s', k.box).done == OutPool(s, k.box).done
    requires InPool(s', j.box).done == InPool(s, j.box).done
    requires forall x :: x != k.slot ==> (x in OutPool(s', k.box).todo <==> x in OutPool(s, k.box).todo)
    requires forall x :: x != j.slot ==> (x in InPool(s', j.box).free <==> x in InPool(s, j.box).free)
    requires forall x :: x != j.slot ==> (x in InPool(s', j.box).todo <==> x in InPool(s, j.box).todo)
    ensures Local(s, s', k, j, -1)
  {
    forall x | x != k ensures SameOut(s, s', x) {}
    forall x | x != j ensures SameIn(s, s', x) {}
    forall g: nat ensures SameActivity(s, s', g) {}
  }

  lemma DeliverOk(s: State, box: nat)
    requires Inv(s) && CanDeliver(s, box)
    ensures var s', k := DoDeliver(s, box), HeadKey(s, box);
            var c := Out(s, k).gateway.box;
            var j := Key(c, InPool(s, c).free[0]);
            OutOk(s', k) && StampOk(s', k) && HolderOk(s', k) && InOk(s', j) && ServerOk(s', j)
  {
    var k := HeadKey(s, box);
    var c := Out(s, k).gateway.box;
    DeliverPools(s, box);
    assert OutOk(s, k) && StampOk(s, k) && InOk(s, Key(c, InPool(s, c).free[0])) && HolderOk(s, k);
  }

  lemma DeliverInv(s: State, box: nat)
    requires Inv(s) && CanDeliver(s, box)
    ensures Inv(DoDeliver(s, box)) && Loyal(s, DoDeliver(s, box))
  {
    var s', k := DoDeliver(s, box), HeadKey(s, box);
    var c := Out(s, k).gateway.box;
    var j := Key(c, InPool(s, c).free[0]);
    DeliverPools(s, box);
    DeliverStep(s, box);
    DeliverOk(s, box);
    StepInv(s, s', k, j, -1);
  }

  lemma PutBackInv(s: State, box: nat)
    requires Inv(s) && CanPutBack(s, box)
    ensures Inv(DoPutBack(s, box)) && Loyal(s, DoPutBack(s, box))
    ensures Quiet(s, DoPutBack(s, box))
  {
    var s', v := DoPutBack(s, box), OutPool(s, box);
    var slot := v.todo[0];
    assert slot in v.todo;
    PoolsDequeue(s.outPool, box, OUT_SLOTS, Todo, slot);
    var mid := s.outPool[box := PoolSpec.Dequeue(v, Todo, slot)];
    PoolsEnqueue(mid, box, OUT_SLOTS, Todo, slot);
    assert s'.outPool == mid[box := Enqueue(mid[box], Todo, slot)];
    forall x ensures SameOut(s, s', x) {}
    forall x ensures SameIn(s, s', x) {}
    forall g: nat ensures SameActivity(s, s', g) {}
    StepInv(s, s', NOWHERE, NOWHERE, -1);
  }

  lemma DropBadInv(s: State, box: nat)
    requires Inv(s) && CanDropBad(s, box)
    ensures Inv(DoDropBad(s, box)) && Loyal(s, DoDropBad(s, box))
    ensures Quiet(s, DoDropBad(s, box))
  {
    var s', k := DoDropBad(s, box), HeadKey(s, box);
    assert k.slot in OutPool(s, box).todo;
    PoolsDequeue(s.outPool, box, OUT_SLOTS, Todo, k.slot);
    assert OutOk(s, k) && StampOk(s, k) && HolderOk(s, k);
    forall x | x != k ensures SameOut(s, s', x) {}
    forall x ensures SameIn(s, s', x) {}
    forall g: nat ensures SameActivity(s, s', g) {}
    StepInv(s, s', k, NOWHERE, -1);
  }

  /** None of the `assert(false)` branches of drain_result_queue is reached. */
  lemma GiveBackFacts(s: State, box: nat)
    requires Inv(s) && CanGiveBack(s, box)
    ensures var s', j := DoGiveBack(s, box), Key(box, InPool(s, box).done[0]);
            && s' == GivenBack(s, j, Origin(Inc(s, j)))
            && Sound(s') && InKey(j) && InAux(s, j).InDone? && OutKey(Origin(Inc(s, j)))
            && PoolsOk(s'.inPool, IN_SLOTS)
            && (forall x :: x in InPool(s', box).done <==> x in InPool(s, box).done && x != j.slot)
            && (forall x :: x in InPool(s', box).free <==> x in InPool(s, box).free || x == j.slot)
  {
    var j := Key(box, InPool(s, box).done[0]);
    assert j.slot in InPool(s, box).done;
    PoolsDequeue(s.inPool, box, IN_SLOTS, PoolSpec.Done, j.slot);
    var mid := s.inPool[box := PoolSpec.Dequeue(InPool(s, box), PoolSpec.Done, j.slot)];
    PoolsFree(mid, box, IN_SLOTS, j.slot);
    assert s.inPool[box := Free(mid[box], j.slot)] == mid[box := Free(mid[box], j.slot)];
    assert InOk(s, j) && OutOk(s, Origin(Inc(s, j)));
  }

  lemma GiveBackStep(s: State, box: nat)
    requires Inv(s) && CanGiveBack(s, box)
    ensures var j := Key(box, InPool(s, box).done[0]);
            Step(s, DoGiveBack(s, box), Origin(Inc(s, j)), j, -1)
  {
    var j := Key(box, InPool(s, box).done[0]);
    var k := Origin(Inc(s, j));
    GiveBackFacts(s, box);
    GiveBackLocal(s, j, k);
    assert InOk(s, j) && OutOk(s, k);
  }

  lemma GiveBackLocal(s: State, j: Key, k: Key)
    requires forall x :: x in InPool(GivenBack(s, j, k), j.box).done <==> x in InPool(s, j.box).done && x != j.slot
    requires forall x :: x in InPool(GivenBack(s, j, k), j.box).free <==> x in InPool(s, j.box).free || x == j.slot
    ensures Local(s, GivenBack(s, j, k), k, j, -1)
  {
    var s' := GivenBack(s, j, k);
    forall x | x != k ensures SameOut(s, s', x) {}
    forall x | x != j ensures SameIn(s, s', x) {}
    forall g: nat ensures SameActivity(s, s', g) {}
  }

  lemma GiveBackInv(s: State, box: nat)
    requires Inv(s) && CanGiveBack(s, box)
    ensures Inv(DoGiveBack(s, box)) && Loyal(s, DoGiveBack(s, box))
  {
    var s', j := DoGiveBack(s, box), Key(box, InPool(s, box).done[0]);
    var k := Origin(Inc(s, j));
    GiveBackFacts(s, box);
    GiveBackStep(s, box);
    assert InOk(s, j) && OutOk(s, k) && StampOk(s, k) && HolderOk(s, k);
    StepInv(s, s', k, j, -1);
  }

  // ---- the callee -------------------------------------------------------------

  lemma FindInv(s: State, f: nat, box: nat, group: set<int>)
    requires Inv(s) && CanFind(s, f, box, group)
    ensures Inv(DoFind(s, f, box, group)) && Loyal(s, DoFind(s, f, box, group))
  {
    var s', q := DoFind(s, f, box, group), InPool(s, box).todo;
    var i := FirstMatch(s, box, q, group);
    assert q[i] in q;
    var k := Origin(Inc(s, Key(box, q[i])));
    PoolsDequeue(s.inPool, box, IN_SLOTS, Todo, q[i]);
    assert InOk(s, Key(box, q[i])) && OutOk(s, k);
    forall x ensures SameIn(s, s', x) {}
    forall g: nat | g != f ensures SameActivity(s, s', g) {}
    CalleeStepInv(s, s', NOWHERE, f);
  }

  /** The slot that a handler found is not on the done queue when it dequeues. */
  predicate Orderly(s: State, f: nat)
    requires CanTakeFound(s, f)
  {
    s.activities[f].j.slot !in InPool(s, s.activities[f].j.box).done
  }

  lemma TakeFoundInv(s: State, f: nat)
    requires Inv(s) && CanTakeFound(s, f) && Orderly(s, f)
    ensures Inv(DoTakeFound(s, f)) && Loyal(s, DoTakeFound(s, f))
  {
    if s.activities[f].j.slot in InPool(s, s.activities[f].j.box).todo {
      TakeQueuedInv(s, f);
    } else {
      var s' := DoTakeFound(s, f);
      forall x ensures SameIn(s, s', x) {}
      forall g: nat | g != f ensures SameActivity(s, s', g) {}
      CalleeStepInv(s, s', NOWHERE, f);
    }
  }

  /** The magic check after the dequeue always passes. */
  lemma TakeQueuedInv(s: State, f: nat)
    requires Inv(s) && CanTakeFound(s, f)
    requires s.activities[f].j.slot in InPool(s, s.activities[f].j.box).todo
    ensures Inv(DoTakeFound(s, f)) && Loyal(s, DoTakeFound(s, f))
    ensures DoTakeFound(s, f) == Taken(s, f)
  {
    var s', j := DoTakeFound(s, f), s.activities[f].j;
    assert ActivityOk(s, f) && InOk(s, j);
    PoolsDequeue(s.inPool, j.box, IN_SLOTS, Todo, j.slot);
    forall x | x != j ensures SameIn(s, s', x) {}
    forall g: nat | g != f ensures SameActivity(s, s', g) {}
    CalleeStepInv(s, s', j, f);
  }

  lemma DispatchStep(s: State, f: nat, value: u32)
    requires Inv(s) && CanDispatch(s, f)
    ensures var j := s.activities[f].j;
            Step(s, DoDispatch(s, f, value), Origin(Inc(s, j)), j, f)
  {
    var s', j := DoDispatch(s, f, value), s.activities[f].j;
    var k := Origin(Inc(s, j));
    assert ActivityOk(s, f) && InOk(s, j) && OutOk(s, k);
    forall x | x != k ensures SameOut(s, s', x) {}
    forall x | x != j ensures SameIn(s, s', x) {}
    forall g: nat | g != f ensures SameActivity(s, s', g) {}
  }

  lemma DispatchOk(s: State, f: nat, value: u32)
    requires Inv(s) && CanDispatch(s, f)
    ensures var s', j := DoDispatch(s, f, value), s.activities[f].j;
            var k := Origin(Inc(s, j));
            && (OutKey(k) ==> OutOk(s', k) && StampOk(s', k) && HolderOk(s', k))
            && (InKey(j) ==> InOk(s', j) && ServerOk(s', j))
            && ActivityOk(s', f)
  {
    var j := s.activities[f].j;
    var k := Origin(Inc(s, j));
    assert ActivityOk(s, f) && InOk(s, j) && OutOk(s, k) && StampOk(s, k) && HolderOk(s, k);
  }

  lemma DispatchInv(s: State, f: nat, value: u32)
    requires Inv(s) && CanDispatch(s, f)
    ensures Inv(DoDispatch(s, f, value)) && Loyal(s, DoDispatch(s, f, value))
    ensures Inc(DoDispatch(s, f, value), s.activities[f].j).result == value
  {
    var s', j := DoDispatch(s, f, value), s.activities[f].j;
    DispatchStep(s, f, value);
    DispatchOk(s, f, value);
    StepInv(s, s', Origin(Inc(s, j)), j, f);
  }

  lemma ReportFacts(s: State, f: nat)
    requires Inv(s) && CanReport(s, f)
    ensures var s', j := DoReport(s, f), s.activities[f].j;
            && InKey(j) && InAux(s, j) == InServed(f) && Held(InPool(s, j.box), j.slot)
            && PoolsOk(s'.inPool, IN_SLOTS) && InOk(s', j)
            && (forall x :: x in InPool(s', j.box).done <==> x in InPool(s, j.box).done || x == j.slot)
  {
    var s', j := DoReport(s, f), s.activities[f].j;
    assert ActivityOk(s, f) && InOk(s, j);
    PoolsEnqueue(s.inPool, j.box, IN_SLOTS, PoolSpec.Done, j.slot);
  }

  lemma ReportInv(s: State, f: nat)
    requires Inv(s) && CanReport(s, f)
    ensures Inv(DoReport(s, f)) && Loyal(s, DoReport(s, f))
  {
    var s', j := DoReport(s, f), s.activities[f].j;
    ReportFacts(s, f);
    forall x | x != j ensures SameIn(s, s', x) {}
    forall g: nat | g != f ensures SameActivity(s, s', g) {}
    CalleeStepInv(s, s', j, f);
  }
}
