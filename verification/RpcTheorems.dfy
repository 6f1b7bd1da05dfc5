/** What the RPC protocol guarantees over whole runs. */
module RpcTheorems {
  import opened Cookies
  import opened PoolSpec
  import opened RpcProtocol
  import opened RpcInvariant

  predicate Legal(s: State, run: seq<Action>)
    decreases run
  {
    run == [] || (Enabled(s, run[0]) && Legal(Apply(s, run[0]), run[1..]))
  }

  function After(s: State, run: seq<Action>): State
    requires Legal(s, run)
    decreases run
  {
    if run == [] then s else After(Apply(s, run[0]), run[1..])
  }

  /** The two things the library leaves to its users: waiting on a cookie before
      the counter comes round to it, and not dequeuing a message that another
      handler has already answered. */
  predicate Careful(s: State, a: Action)
    requires Enabled(s, a)
  {
    && (a.Swap? ==> !Mixup(s, a.t))
    && (a.TakeFound? ==> Orderly(s, a.f))
  }

  predicate CarefulRun(s: State, run: seq<Action>)
    requires Legal(s, run)
    decreases run
  {
    run == [] || (Careful(s, run[0]) && CarefulRun(Apply(s, run[0]), run[1..]))
  }

  /** Actions that leave the callee's side alone. */
  predicate OfCaller(a: Action) {
    !(a.Deliver? || a.GiveBack? || a.Find? || a.TakeFound? || a.Dispatch? || a.Report?)
  }

  lemma ActionInv(s: State, a: Action)
    requires Inv(s) && Enabled(s, a) && Careful(s, a)
    ensures Inv(Apply(s, a)) && Loyal(s, Apply(s, a))
    ensures OfCaller(a) ==> Quiet(s, Apply(s, a))
  {
    match a
    case Claim(f, box, sync, args, gateway) => ClaimInv(s, f, box, sync, args, gateway);
    case Fill(f) => FillInv(s, f);
    case Post(f) => PostInv(s, f);
    case TakeCookie(f) =>
      if s.activities[f].sync { TakeCookieSyncInv(s, f); } else { TakeCookieAsyncInv(s, f); }
    case Swap(f, t) => SwapInv(s, f, t);
    case Pend(f, ok) =>
      if ok { WakeInv(s, f); } else { TimeoutInv(s, f); }
    case Release(f) => ReleaseInv(s, f);
    case Deliver(box) => DeliverInv(s, box);
    case PutBack(box) => PutBackInv(s, box);
    case DropBad(box) => DropBadInv(s, box);
    case GiveBack(box) => GiveBackInv(s, box);
    case Find(f, box, group) => FindInv(s, f, box, group);
    case TakeFound(f) => TakeFoundInv(s, f);
    case Dispatch(f, value) => DispatchInv(s, f, value);
    case Report(f) => ReportInv(s, f);
  }

  lemma {:induction false} RunInv(s: State, run: seq<Action>)
    requires Inv(s) && Legal(s, run) && CarefulRun(s, run)
    ensures Inv(After(s, run)) && After(s, run).boxes == s.boxes && After(s, run).gateways == s.gateways
    decreases run
  {
    if run != [] {
      ActionInv(s, run[0]);
      RunInv(Apply(s, run[0]), run[1..]);
    }
  }

  /** A state that some careful run of some system leads to. */
  ghost predicate Reachable(s: State) {
    exists boxes, gateways, run ::
      && Legal(InitState(boxes, gateways), run) && CarefulRun(InitState(boxes, gateways), run)
      && s == After(InitState(boxes, gateways), run)
  }

  lemma ReachableInv(s: State)
    requires Reachable(s)
    ensures Inv(s)
  {
    var boxes, gateways, run :|
      && Legal(InitState(boxes, gateways), run) && CarefulRun(InitState(boxes, gateways), run)
      && s == After(InitState(boxes, gateways), run);
    InitInv(boxes, gateways);
    RunInv(InitState(boxes, gateways), run);
  }

  // ---- results ----------------------------------------------------------------

  /** Every call that returned asked for exactly the send it was answered for. That
      send was executed once, in the box of its gateway, by its target, on its own
      arguments and under its caller's box id; the call returned what that one
      execution computed. No send is answered twice. */
  lemma CallsReturnTheirOwnResult(s: State)
    requires Reachable(s)
    ensures forall r :: r in s.finished ==>
              && r.asked == r.h.stamp
              && |r.h.returned| == 1 && r.h.claims <= 1
              && r.h.executions == [Execution(r.k.box, r.h.gateway.box, r.h.gateway.target, r.h.args, r.h.returned[0])]
    ensures forall x, y :: 0 <= x < y < |s.finished| ==>
              (s.finished[x].k, s.finished[x].h.stamp) != (s.finished[y].k, s.finished[y].h.stamp)
  {
    ReachableInv(s);
    forall r | r in s.finished ensures FinishOk(r) {}
  }

  /** A send that was not answered yet was executed and claimed at most once too. */
  lemma PendingSendsRunOnce(s: State, k: Key)
    requires Reachable(s) && OutKey(k)
    requires Live(Aux(s, k).phase) || Aux(s, k).phase.OutConsumed?
    ensures Aux(s, k).h.claims <= 1 && |Aux(s, k).h.executions| <= 1 && Aux(s, k).h.returned == []
  {
    ReachableInv(s);
    assert OutOk(s, k) && HolderOk(s, k);
    if Aux(s, k).phase.OutInFlight? {
      assert InOk(s, Aux(s, k).phase.j);
    }
  }

  /** Nothing fails but perhaps the assertion on bad gateways: the halt in
      free_outgoing_msg, the assertions of drain_result_queue and the gateway check of
      handle_incoming_rpc are not reached, and no pool is corrupted. */
  lemma NoFault(s: State)
    requires Reachable(s)
    ensures s.faults <= {GatewayAssert}
  {
    ReachableInv(s);
  }

  /** A waiter that was woken finds its slot dequeued and its result set, and a free
      slot never carries a stale post. */
  lemma WakingMeansDone(s: State)
    requires Reachable(s)
    ensures forall f :: f in s.activities && s.activities[f].Woken? ==>
              var k := s.activities[f].k;
              && Held(OutPool(s, k.box), k.slot) && Out(s, k).state == Completed
              && Out(s, k).semaphore == 0 && Aux(s, k).h.stamp == s.activities[f].asked
    ensures forall k :: OutKey(k) && k.slot in OutPool(s, k.box).free ==> Out(s, k).semaphore == 0
    ensures forall k :: OutKey(k) ==> Out(s, k).semaphore <= 1
  {
    ReachableInv(s);
    forall f | f in s.activities && s.activities[f].Woken?
      ensures var k := s.activities[f].k;
              && Held(OutPool(s, k.box), k.slot) && Out(s, k).state == Completed
              && Out(s, k).semaphore == 0 && Aux(s, k).h.stamp == s.activities[f].asked
    {
      assert ActivityOk(s, f) && OutOk(s, s.activities[f].k);
    }
    forall k | OutKey(k)
      ensures Out(s, k).semaphore <= 1
      ensures k.slot in OutPool(s, k.box).free ==> Out(s, k).semaphore == 0
    {
      assert OutOk(s, k);
    }
  }

  // ---- places -----------------------------------------------------------------

  /** Where an outgoing slot can be. */
  datatype Place = OnFreeList | OnQueue | InHand | AtCallee | Answered | Dropped

  predicate Owns(a: Activity, k: Key) {
    (a.Claimed? || a.Filled? || a.Woken?) && a.k == k
  }

  ghost predicate Owned(s: State, k: Key) {
    exists f :: f in s.activities && Owns(s.activities[f], k)
  }

  predicate Carries(s: State, j: Key, k: Key) {
    InKey(j) && j.slot !in InPool(s, j.box).free && Origin(Inc(s, j)) == k
  }

  ghost predicate IsAt(s: State, k: Key, p: Place) {
    match p
    case OnFreeList => k.slot in OutPool(s, k.box).free
    case OnQueue => k.slot in OutPool(s, k.box).todo
    case InHand => Owned(s, k)
    case AtCallee => exists j :: Carries(s, j, k)
    case Answered => Out(s, k).semaphore == 1
    case Dropped => Held(OutPool(s, k.box), k.slot) && Out(s, k).state == ReadyToSend && !Owned(s, k)
  }

  function PlaceOf(p: OutPhase): Place {
    match p
    case OutFree => OnFreeList
    case OutClaimed(_) => InHand
    case OutQueued => OnQueue
    case OutLost => Dropped
    case OutInFlight(_) => AtCallee
    case OutReturned => Answered
    case OutConsumed(_) => InHand
  }

  lemma OwnerUnique(s: State, k: Key, f: nat, g: nat)
    requires Inv(s) && f in s.activities && g in s.activities
    requires Owns(s.activities[f], k) && Owns(s.activities[g], k)
    ensures f == g && PlaceOf(Aux(s, k).phase) == InHand
  {
    assert ActivityOk(s, f) && ActivityOk(s, g);
  }

  lemma CarrierUnique(s: State, k: Key, j: Key)
    requires Inv(s) && Carries(s, j, k)
    ensures Aux(s, k).phase == OutInFlight(j)
  {
    assert InOk(s, j);
  }

  /** In every reachable state each outgoing slot is in exactly one place, in the
      hands of at most one activity and carried by at most one incoming message. */
  lemma OutgoingSlotInOnePlace(s: State, k: Key)
    requires Reachable(s) && OutKey(k)
    ensures exists p :: IsAt(s, k, p) && forall q :: IsAt(s, k, q) ==> q == p
    ensures forall f, g | f in s.activities && g in s.activities ::
              Owns(s.activities[f], k) && Owns(s.activities[g], k) ==> f == g
    ensures forall i, j :: Carries(s, i, k) && Carries(s, j, k) ==> i == j
  {
    ReachableInv(s);
    assert OutOk(s, k) && HolderOk(s, k);
    var p := Aux(s, k).phase;
    forall f, g | f in s.activities && g in s.activities && Owns(s.activities[f], k) && Owns(s.activities[g], k)
      ensures f == g && PlaceOf(p) == InHand
    {
      OwnerUnique(s, k, f, g);
    }
    forall j | Carries(s, j, k) ensures p == OutInFlight(j) { CarrierUnique(s, k, j); }
    if p.OutInFlight? {
      assert InOk(s, p.j) && Carries(s, p.j, k);
    }
    assert Owned(s, k) <==> PlaceOf(p) == InHand;
    assert IsAt(s, k, PlaceOf(p));
    forall q | IsAt(s, k, q) ensures q == PlaceOf(p) {}
  }

  /** An incoming slot is free, to do, done, or with the one handler serving it. */
  lemma IncomingSlotInOnePlace(s: State, j: Key)
    requires Reachable(s) && InKey(j)
    ensures var v := InPool(s, j.box);
            var served := exists f :: f in s.activities && s.activities[f] in {Serving(j), Served(j)};
            || (j.slot in v.free && j.slot !in v.todo && j.slot !in v.done && !served)
            || (j.slot !in v.free && j.slot in v.todo && j.slot !in v.done && !served)
            || (j.slot !in v.free && j.slot !in v.todo && j.slot in v.done && !served)
            || (Held(v, j.slot) && served)
    ensures forall f, g | f in s.activities && g in s.activities ::
              s.activities[f] in {Serving(j), Served(j)} && s.activities[g] in {Serving(j), Served(j)} ==> f == g
  {
    ReachableInv(s);
    assert InOk(s, j) && ServerOk(s, j);
    forall f | f in s.activities && s.activities[f] in {Serving(j), Served(j)}
      ensures InAux(s, j) == InServing(f) || InAux(s, j) == InServed(f)
    {
      assert ActivityOk(s, f);
    }
  }

  // ---- timed-out waits ----------------------------------------------------------

  /** A wait that timed out leaves its slot behind for good: in every later state
      the slot is still taken by that send and no wait can claim it. */
  lemma {:induction false} TimedOutSlotStaysTaken(s: State, run: seq<Action>, k: Key)
    requires Inv(s) && Legal(s, run) && CarefulRun(s, run) && Forsaken(s, k)
    ensures Forsaken(After(s, run), k)
    ensures k.slot !in OutPool(After(s, run), k.box).free
    ensures Out(After(s, run), k).waitCookie == InvalidCookie(k.slot)
    decreases run
  {
    assert OutOk(s, k);
    if run != [] {
      ActionInv(s, run[0]);
      assert Forsaken(Apply(s, run[0]), k);
      TimedOutSlotStaysTaken(Apply(s, run[0]), run[1..], k);
    }
  }

  // ---- mixed-up cookies --------------------------------------------------------

  /** The slot was refilled a positive multiple of 2^21 sends after the cookie was issued,
      and nobody has waited on the refill. */
  predicate Refilled(s: State, t: Token) {
    var k := Key(t.box, t.cookie.slot);
    var n := Aux(s, k).h.stamp;
    t.stamp < n && (n - t.stamp) % PERIOD == 0 && Out(s, k).waitCookie == Aux(s, k).h.cookie
  }

  /** A wait on a slot whose result has arrived. Either its cookie was used up and it fails
      without a trace, or it returns the result of the slot's latest send. That is another
      send than the one it asked for exactly when the slot was refilled. */
  lemma SwapExactly(s: State, f: nat, t: Token)
    requires Inv(s) && CanSwap(s, f, t) && Aux(s, Key(t.box, t.cookie.slot)).phase.OutReturned?
    ensures var k, s1 := Key(t.box, t.cookie.slot), DoSwap(s, f, t);
            if Out(s, k).waitCookie != t.cookie then s1 == s && !Refilled(s, t)
            else
              && CanPend(s1, f, true) && CanRelease(DoPend(s1, f, true), f)
              && var finished := DoRelease(DoPend(s1, f, true), f).finished;
              && |finished| == |s.finished| + 1 && finished[..|s.finished|] == s.finished
              && var r := finished[|s.finished|];
              && r.k == k && r.asked == t.stamp && r.h.stamp == Aux(s, k).h.stamp
              && r.h.executions == [Expected(k.box, r.h, r.h.returned[0])]
              && (r.h.stamp != r.asked <==> Refilled(s, t))
  {
    var k := Key(t.box, t.cookie.slot);
    SwapFacts(s, t, k);
    if Out(s, k).waitCookie == t.cookie {
      CollectResult(s, f, t, k);
      assert DoSwap(s, f, t) == Swapped(s, f, t, k);
    }
  }

  lemma SwapFacts(s: State, t: Token, k: Key)
    requires Inv(s) && t in s.issued && k == Key(t.box, t.cookie.slot) && Aux(s, k).phase.OutReturned?
    ensures Out(s, k).semaphore == 1 && Held(OutPool(s, k.box), k.slot) && Aux(s, k).h.returned == []
    ensures Aux(s, k).h.executions == [Expected(k.box, Aux(s, k).h, Out(s, k).result)]
    ensures Refilled(s, t) <==> Out(s, k).waitCookie == t.cookie && Aux(s, k).h.stamp != t.stamp
  {
    assert TokenOk(s, t) && OutOk(s, k);
    MixupExactly(s, t);
  }

  lemma CollectResult(s: State, f: nat, t: Token, k: Key)
    requires Out(s, k).semaphore == 1 && Held(OutPool(s, k.box), k.slot) && Aux(s, k).h.returned == []
    ensures var s1 := Swapped(s, f, t, k);
            && CanPend(s1, f, true) && CanRelease(DoPend(s1, f, true), f)
            && var h := Aux(s, k).h.(claims := Aux(s, k).h.claims + 1, returned := [Out(s, k).result]);
            DoRelease(DoPend(s1, f, true), f).finished == s.finished + [Finish(k, t.stamp, h)]
  {
    var s2 := DoPend(Swapped(s, f, t, k), f, true);
    assert s2.activities[f] == Woken(k, t.stamp) && OutPool(s2, k.box) == OutPool(s, k.box);
    assert Aux(s2, k).h == Aux(s, k).h.(claims := Aux(s, k).h.claims + 1);
    assert [] + [Out(s2, k).result] == [Out(s, k).result];
  }

  // ---- putting runs together ---------------------------------------------------

  lemma LegalThen(s: State, a: Action, rest: seq<Action>)
    requires Enabled(s, a) && Legal(Apply(s, a), rest)
    ensures Legal(s, [a] + rest) && After(s, [a] + rest) == After(Apply(s, a), rest)
  {
    assert ([a] + rest)[1..] == rest;
  }

  lemma ThreeSteps(s: State, s1: State, s2: State, a: Action, b: Action, c: Action)
    requires Enabled(s, a) && s1 == Apply(s, a) && Enabled(s1, b) && s2 == Apply(s1, b) && Enabled(s2, c)
    ensures Legal(s, [a] + ([b] + [c])) && After(s, [a] + ([b] + [c])) == Apply(s2, c)
  {
    assert Legal(Apply(s2, c), []);
    LegalThen(s2, c, []);
    assert [c] + [] == [c];
    LegalThen(s1, b, [c]);
    LegalThen(s, a, [b] + [c]);
  }

  lemma {:induction false} LegalAppend(s: State, run: seq<Action>, more: seq<Action>)
    requires Legal(s, run) && Legal(After(s, run), more)
    ensures Legal(s, run + more) && After(s, run + more) == After(After(s, run), more)
    decreases run
  {
    if run == [] {
      assert run + more == more;
    } else {
      LegalAppend(Apply(s, run[0]), run[1..], more);
      AppendFirst(s, run, more);
    }
  }

  lemma AppendFirst(s: State, run: seq<Action>, more: seq<Action>)
    requires run != [] && Enabled(s, run[0]) && Legal(Apply(s, run[0]), run[1..] + more)
    ensures Legal(s, run + more) && After(s, run + more) == After(Apply(s, run[0]), run[1..] + more)
  {
    assert (run + more)[1..] == run[1..] + more;
  }

  /** One asynchronous call up to the point where its message is queued. */
  function ExampleRun(g: Gateway): seq<Action> {
    [Claim(0, 0, false, NoArgs, g)] + ([Fill(0)] + [Post(0)])
  }

  lemma ExampleSend(boxes: nat, gateways: set<Gateway>, g: Gateway)
    requires boxes > 0 && g in gateways
    ensures Legal(InitState(boxes, gateways), ExampleRun(g))
    ensures var s := After(InitState(boxes, gateways), ExampleRun(g));
            && s.boxes == boxes && s.inPool == map[] && s.activities.Keys == {0} && s.faults == {}
            && OutPool(s, 0).todo == [0] && Out(s, Key(0, 0)).gateway == g
  {
    var s := InitState(boxes, gateways);
    assert OutPool(s, 0).free[0] == 0;
    var s1 := DoClaim(s, 0, 0, false, NoArgs, g);
    var s2 := DoFill(s1, 0);
    ThreeSteps(s, s1, s2, Claim(0, 0, false, NoArgs, g), Fill(0), Post(0));
  }

  lemma {:induction false} CallerRunCareful(s: State, run: seq<Action>)
    requires Legal(s, run)
    requires forall a :: a in run ==> !a.Swap? && !a.TakeFound?
    ensures CarefulRun(s, run)
    decreases run
  {
    if run != [] {
      assert run[0] in run;
      CallerRunCareful(Apply(s, run[0]), run[1..]);
    }
  }
}
