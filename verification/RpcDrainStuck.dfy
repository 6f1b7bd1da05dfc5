/** A drain that never ends does happen: a run of four boxes fills one of them and then queues
    a message that can be delivered before one that cannot. */
module RpcDrainStuck {
  import opened PoolSpec
  import opened RpcProtocol
  import opened RpcInvariant
  import opened RpcTheorems
  import opened RpcCalls
  import opened RpcDrain

  const TO_FULL := Gateway(AsyncMagic, true, 1, 7)
  const TO_IDLE := Gateway(AsyncMagic, true, 3, 7)
  const BOTH := {TO_FULL, TO_IDLE}

  /** Activity `f` of a box has queued one more message. */
  predicate Queued(s: State, s': State, f: nat, box: nat, g: Gateway) {
    && s'.boxes == s.boxes && s'.gateways == s.gateways && s'.inPool == s.inPool
    && s'.activities.Keys == s.activities.Keys + {f}
    && OutPool(s, box).free != []
    && var slot := OutPool(s, box).free[0];
    && s'.outPool == s.outPool[box := View(OutPool(s, box).free[1..], Outbox(s, box) + [slot], OutPool(s, box).done)]
    && s'.out == s.out[Key(box, slot) := Out(s', Key(box, slot))] && GatewayAt(s', box, slot) == g
  }

  lemma QueueWrites(s: State, f: nat, box: nat, g: Gateway)
    requires CanClaim(s, f, box, g)
    ensures var s1 := DoClaim(s, f, box, false, NoArgs, g);
            CanFill(s1, f) && CanPost(DoFill(s1, f), f) && Queued(s, DoPost(DoFill(s1, f), f), f, box, g)
  {
    var s1 := DoClaim(s, f, box, false, NoArgs, g);
    FillWrites(s1, f, g);
    PostWrites(DoFill(s1, f), f);
  }

  lemma FillWrites(s: State, f: nat, g: Gateway)
    requires CanFill(s, f) && s.activities[f].gateway == g
    ensures var s', k := DoFill(s, f), s.activities[f].k;
            && CanPost(s', f) && s'.activities[f].k == k && s'.activities.Keys == s.activities.Keys
            && s'.boxes == s.boxes && s'.gateways == s.gateways
            && s'.inPool == s.inPool && s'.outPool == s.outPool
            && s'.out == s.out[k := Out(s', k)] && Out(s', k).gateway == g
  {
  }

  lemma PostWrites(s: State, f: nat)
    requires CanPost(s, f)
    ensures var s', k := DoPost(s, f), s.activities[f].k;
            && s'.activities.Keys == s.activities.Keys && s'.boxes == s.boxes && s'.gateways == s.gateways
            && s'.inPool == s.inPool && s'.out == s.out
            && s'.outPool == s.outPool[k.box := Enqueue(OutPool(s, k.box), Todo, k.slot)]
  {
  }

  lemma Queueing(s: State, f: nat, box: nat, g: Gateway) returns (s': State)
    requires Inv(s) && CanClaim(s, f, box, g)
    ensures Leads(s, s') && Inv(s') && Queued(s, s', f, box, g)
  {
    QueueWrites(s, f, box, g);
    var s1 := DoClaim(s, f, box, false, NoArgs, g);
    var s2 := DoFill(s1, f);
    s' := DoPost(s2, f);
    QueueLeads(s, s1, s2, s', f, box, g);
  }

  lemma QueueLeads(s: State, s1: State, s2: State, s': State, f: nat, box: nat, g: Gateway)
    requires Inv(s) && CanClaim(s, f, box, g) && s1 == DoClaim(s, f, box, false, NoArgs, g)
    requires CanFill(s1, f) && s2 == DoFill(s1, f) && CanPost(s2, f) && s' == DoPost(s2, f)
    ensures Leads(s, s') && Inv(s')
  {
    LeadsStep(s, Claim(f, box, false, NoArgs, g));
    LeadsStep(s1, Fill(f));
    LeadsStep(s2, Post(f));
    LeadsOn(s, s1, s2);
    LeadsOn(s, s2, s');
  }

  /** Box 0 has sent `n` messages, which are at box 1; boxes 2 and 3 are as they were. */
  predicate FilledUp(s: State, n: nat) {
    && s.boxes == 4 && s.gateways == BOTH && (forall f :: f in s.activities ==> f < n)
    && Outbox(s, 0) == [] && |OutPool(s, 0).free| == |InPool(s, 1).free| == 8 - n
    && OutPool(s, 2) == Fresh(8) && InPool(s, 3) == Fresh(8)
  }

  lemma FillingOne(s: State, n: nat) returns (s': State)
    requires Inv(s) && FilledUp(s, n) && n < 8
    ensures Leads(s, s') && Inv(s') && FilledUp(s', n + 1)
  {
    var s1 := Queueing(s, n, 0, TO_FULL);
    FilledOne(s, s1, n);
    LeadsStep(s1, Deliver(0));
    s' := DoDeliver(s1, 0);
    LeadsOn(s, s1, s');
  }

  lemma FilledOne(s: State, s1: State, n: nat)
    requires FilledUp(s, n) && n < 8 && Queued(s, s1, n, 0, TO_FULL)
    ensures CanDeliver(s1, 0) && FilledUp(DoDeliver(s1, 0), n + 1)
  {
    QueuedOne(s, s1, n);
    DeliverOne(s1, OutPool(s, 0).free[0]);
  }

  lemma QueuedOne(s: State, s1: State, n: nat)
    requires FilledUp(s, n) && n < 8 && Queued(s, s1, n, 0, TO_FULL)
    ensures Outbox(s1, 0) == [OutPool(s, 0).free[0]] && |OutPool(s1, 0).free| == 8 - (n + 1)
    ensures GatewayAt(s1, 0, OutPool(s, 0).free[0]) == TO_FULL
    ensures s1.boxes == 4 && s1.gateways == BOTH && s1.inPool == s.inPool && OutPool(s1, 2) == OutPool(s, 2)
    ensures forall f :: f in s1.activities ==> f < n + 1
  {
  }

  lemma DeliverOne(s: State, slot: nat)
    requires Outbox(s, 0) == [slot] && GatewayAt(s, 0, slot) == TO_FULL && s.boxes == 4 && InPool(s, 1).free != []
    ensures CanDeliver(s, 0)
    ensures var s' := DoDeliver(s, 0);
            && Outbox(s', 0) == [] && OutPool(s', 0).free == OutPool(s, 0).free
            && InPool(s', 1).free == InPool(s, 1).free[1..] && InPool(s', 3) == InPool(s, 3)
            && OutPool(s', 2) == OutPool(s, 2)
            && s'.boxes == s.boxes && s'.gateways == s.gateways && s'.activities == s.activities
  {
    HeadOff(s, 0);
  }

  lemma {:induction false} FillingUp(n: nat) returns (s: State)
    requires n <= 8
    ensures Leads(InitState(4, BOTH), s) && Inv(s) && FilledUp(s, n)
    decreases n
  {
    if n == 0 {
      s := InitState(4, BOTH);
      InitInv(4, BOTH);
      LeadsNowhere(s);
    } else {
      var s1 := FillingUp(n - 1);
      s := FillingOne(s1, n - 1);
      LeadsOn(InitState(4, BOTH), s1, s);
    }
  }

  /** Box 2 has queued a message for idle box 3 and then one for full box 1. */
  predicate Stuck(s: State) {
    && s.boxes == 4 && InPool(s, 1).free == [] && InPool(s, 3).free != []
    && |Outbox(s, 2)| == 2
    && GatewayAt(s, 2, Outbox(s, 2)[0]) == TO_IDLE && GatewayAt(s, 2, Outbox(s, 2)[1]) == TO_FULL
  }

  lemma StuckNeverEnds(s: State)
    requires Inv(s) && Stuck(s)
    ensures !DrainEnds(s, 2, {})
  {
    var q := Outbox(s, 2);
    DrainEndsExactly(s, 2, {});
    CountGrows(s, 2, q, 1, 1);
    assert CountTo(s, 2, q, 1) > Room(s, {}, 1);
  }

  lemma StuckAtLast(s1: State, s2: State, s3: State)
    requires FilledUp(s1, 8) && Queued(s1, s2, 8, 2, TO_IDLE) && Queued(s2, s3, 9, 2, TO_FULL)
    ensures Stuck(s3)
  {
    assert OutPool(s1, 2).free[0] == 0 && OutPool(s2, 2).free[0] == 1;
    assert Outbox(s3, 2) == [0, 1];
  }

  lemma NeverEndsHappens()
    ensures exists s, box: nat :: Reachable(s) && box < s.boxes && !DrainEnds(s, box, {})
  {
    var s0 := InitState(4, BOTH);
    var s1 := FillingUp(8);
    assert TO_IDLE in BOTH && TO_FULL in BOTH;
    var s2 := Queueing(s1, 8, 2, TO_IDLE);
    var s3 := Queueing(s2, 9, 2, TO_FULL);
    LeadsOn(s0, s1, s2);
    LeadsOn(s0, s2, s3);
    StuckAtLast(s1, s2, s3);
    StuckNeverEnds(s3);
    assert Reachable(s3);
  }
}
