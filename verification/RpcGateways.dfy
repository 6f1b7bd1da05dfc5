/** Exactly when a system runs into the assertion on bad gateways. */
module RpcGateways {
  import opened Cookies
  import opened PoolSpec
  import opened RpcProtocol
  import opened RpcInvariant
  import opened RpcTheorems

  /** No careful run fails an assertion, halts or corrupts a pool. */
  ghost predicate NeverFails(boxes: nat, gateways: set<Gateway>) {
    forall run :: Legal(InitState(boxes, gateways), run) && CarefulRun(InitState(boxes, gateways), run)
                  ==> After(InitState(boxes, gateways), run).faults == {}
  }

  /** A system never fails exactly when all the gateways its callers use have one of the two
      known magics, lie in flash and lead to a box other than box 0 that exists. */
  lemma GatewaysExactly(boxes: nat, gateways: set<Gateway>)
    requires boxes > 0
    ensures NeverFails(boxes, gateways) <==>
              forall g :: g in gateways ==> g.magic != OtherMagic && g.inFlash && 1 <= g.box < boxes
  {
    var s := InitState(boxes, gateways);
    if AllGood(boxes, gateways) {
      InitInv(boxes, gateways);
      forall run | Legal(s, run) && CarefulRun(s, run) ensures After(s, run).faults == {} {
        RunInv(s, run);
      }
    } else {
      var g :| g in gateways && !GatewayOk(boxes, g);
      BadGatewayFails(boxes, gateways, g);
    }
  }

  /** The message at the head of a queue is dropped exactly when its gateway is bad. Otherwise
      it is delivered exactly when its callee has a free slot: then a copy of it, with the
      caller's box id, is the last message on the callee's queue. */
  lemma HeadExactly(s: State, box: nat)
    requires Inv(s) && OutPool(s, box).todo != []
    ensures var m := Out(s, HeadKey(s, box));
            var good := m.gateway.magic != OtherMagic && m.gateway.inFlash && 1 <= m.gateway.box < s.boxes;
            && (CanDropBad(s, box) <==> !good)
            && (CanDeliver(s, box) <==> good && InPool(s, m.gateway.box).free != [])
    ensures CanDeliver(s, box) ==>
              var m, s' := Out(s, HeadKey(s, box)), DoDeliver(s, box);
              var q := InPool(s', m.gateway.box).todo;
              && OutPool(s', box).todo == OutPool(s, box).todo[1..]
              && |q| == |InPool(s, m.gateway.box).todo| + 1 && q[..|q| - 1] == InPool(s, m.gateway.box).todo
              && var i := Inc(s', Key(m.gateway.box, q[|q| - 1]));
              && i.args == m.args && i.gateway == m.gateway && i.otherBox == box && i.matchCookie == m.matchCookie
  {
    var v := OutPool(s, box);
    assert PoolOk(s.outPool, box, OUT_SLOTS) && v.todo[0] == HeadKey(s, box).slot;
    assert PoolSpec.Dequeue(v, Todo, v.todo[0]).todo == v.todo[1..];
  }

  /** One call through a good gateway, whatever its magic, is delivered and nothing fails. */
  lemma GoodGatewayDelivers(boxes: nat, gateways: set<Gateway>, g: Gateway)
    requires boxes > 0 && g in gateways && g.magic != OtherMagic && g.inFlash && 1 <= g.box < boxes
    ensures var s, run := InitState(boxes, gateways), ExampleRun(g) + [Deliver(0)];
            && Legal(s, run) && CarefulRun(s, run)
            && var s' := After(s, run);
            s'.faults == {} && InPool(s', g.box).todo == [0] && Inc(s', Key(g.box, 0)).gateway == g
  {
    var s0 := InitState(boxes, gateways);
    ExampleSend(boxes, gateways, g);
    var s := After(s0, ExampleRun(g));
    assert HeadKey(s, 0) == Key(0, 0) && InPool(s, g.box).free[0] == 0;
    assert [] + [0] == [0];
    assert Legal(DoDeliver(s, 0), []);
    LegalThen(s, Deliver(0), []);
    assert [Deliver(0)] + [] == [Deliver(0)];
    LegalAppend(s0, ExampleRun(g), [Deliver(0)]);
    CallerRunCareful(s0, ExampleRun(g) + [Deliver(0)]);
  }

  /** One call through a bad gateway runs into the assertion. */
  lemma BadGatewayFails(boxes: nat, gateways: set<Gateway>, g: Gateway)
    requires boxes > 0 && g in gateways && !(g.magic != OtherMagic && g.inFlash && 1 <= g.box < boxes)
    ensures var s, run := InitState(boxes, gateways), ExampleRun(g) + [DropBad(0)];
            Legal(s, run) && CarefulRun(s, run) && After(s, run).faults == {GatewayAssert}
  {
    var s0 := InitState(boxes, gateways);
    ExampleSend(boxes, gateways, g);
    var s := After(s0, ExampleRun(g));
    assert HeadKey(s, 0) == Key(0, 0);
    assert Legal(DoDropBad(s, 0), []);
    LegalThen(s, DropBad(0), []);
    assert [DropBad(0)] + [] == [DropBad(0)];
    LegalAppend(s0, ExampleRun(g), [DropBad(0)]);
    CallerRunCareful(s0, ExampleRun(g) + [DropBad(0)]);
  }
}
