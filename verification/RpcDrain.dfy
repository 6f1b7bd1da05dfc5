/** A whole call of drain_message_queue: when it ends, and what it leaves.

    Nothing else runs during a drain. `locked` are the boxes whose incoming pool an
    interrupted thread holds, so that uVisor cannot allocate from it. A drain that finds its
    own queue locked ends at once and is not considered, nor is the halt at a bad gateway in
    a build with assertions: without them its message is dropped. */
module RpcDrain {
  import opened PoolSpec
  import opened RpcProtocol
  import opened RpcInvariant
  import opened RpcTheorems
  import opened DrainSpec

  datatype Drain = Drain(s: State, first: int)

  function Outbox(s: State, box: nat): seq<nat> {
    OutPool(s, box).todo
  }

  predicate Stopped(d: Drain, box: nat) {
    Outbox(d.s, box) == [] || Outbox(d.s, box)[0] == d.first
  }

  function GatewayAt(s: State, box: nat, slot: nat): Gateway {
    Out(s, Key(box, slot)).gateway
  }

  /** What one turn of the loop does with the head of the queue. */
  function Visit(s: State, box: nat, locked: set<nat>): Action
    requires Outbox(s, box) != []
  {
    var g := GatewayAt(s, box, Outbox(s, box)[0]);
    if !GatewayOk(s.boxes, g) then DropBad(box)
    else if g.box in locked || InPool(s, g.box).free == [] then PutBack(box)
    else Deliver(box)
  }

  lemma VisitEnabled(s: State, box: nat, locked: set<nat>)
    requires Outbox(s, box) != []
    ensures Enabled(s, Visit(s, box, locked)) && Careful(s, Visit(s, box, locked))
  {
  }

  function DrainTurn(d: Drain, box: nat, locked: set<nat>): Drain
    requires !Stopped(d, box)
  {
    VisitEnabled(d.s, box, locked);
    Drain(Apply(d.s, Visit(d.s, box, locked)), if d.first == -1 then Outbox(d.s, box)[0] else d.first)
  }

  function DrainTurns(d: Drain, box: nat, locked: set<nat>, n: nat): Drain
    decreases n
  {
    if n == 0 || Stopped(d, box) then d else DrainTurns(DrainTurn(d, box, locked), box, locked, n - 1)
  }

  ghost predicate DrainEnds(s: State, box: nat, locked: set<nat>) {
    exists n: nat :: Stopped(DrainTurns(Drain(s, -1), box, locked, n), box)
  }

  // ---- the fate of each message ---------------------------------------------------------------

  /** The gateway of the message is good and leads to box `c`. */
  predicate GoodFor(s: State, box: nat, slot: nat, c: int) {
    var g := GatewayAt(s, box, slot);
    g.magic != OtherMagic && g.inFlash && g.box == c && 1 <= c < s.boxes
  }

  /** How many messages a box can still take. */
  function Room(s: State, locked: set<nat>, c: int): nat {
    if c < 0 || c in locked then 0 else |InPool(s, c).free|
  }

  /** How many messages of a queue are for box `c`. */
  function CountTo(s: State, box: nat, queue: seq<nat>, c: int): nat {
    if queue == [] then 0
    else (if GoodFor(s, box, queue[0], c) then 1 else 0) + CountTo(s, box, queue[1..], c)
  }

  /** Those before it take up all the room of its callee. */
  predicate Stays(s: State, box: nat, locked: set<nat>, queue: seq<nat>, i: nat)
    requires i < |queue|
  {
    var c := GatewayAt(s, box, queue[i]).box;
    GoodFor(s, box, queue[i], c) && Room(s, locked, c) <= CountTo(s, box, queue[..i], c)
  }

  /** `rest` was not visited yet, `seen` was put back before. */
  ghost predicate Fated(s: State, box: nat, locked: set<nat>, rest: seq<nat>, seen: seq<nat>, stay: set<nat>) {
    && Outbox(s, box) == rest + seen
    && (forall i: nat {:trigger Stays(s, box, locked, rest, i)} :: i < |rest| ==>
          (rest[i] in stay <==> Stays(s, box, locked, rest, i)))
    && (forall x :: x in seen ==> x in stay && Blocked(s, box, locked, x))
  }

  predicate Blocked(s: State, box: nat, locked: set<nat>, slot: nat) {
    var c := GatewayAt(s, box, slot).box;
    GoodFor(s, box, slot, c) && (c in locked || InPool(s, c).free == [])
  }

  ghost predicate SameGateways(s: State, s': State) {
    s'.boxes == s.boxes && forall k {:trigger Out(s', k)} :: Out(s', k).gateway == Out(s, k).gateway
  }

  predicate RoomAfter(s: State, s': State, locked: set<nat>, c: int, taken: bool) {
    Room(s', locked, c) == Room(s, locked, c) - if taken && Room(s, locked, c) > 0 then 1 else 0
  }

  /** A turn takes the head off its queue, or moves it to the back if its callee has no
      room; a delivery takes up one slot of the callee. */
  ghost predicate Visited(s: State, s': State, box: nat, locked: set<nat>)
    requires Outbox(s, box) != []
  {
    var q := Outbox(s, box);
    && SameGateways(s, s')
    && Outbox(s', box) == q[1..] + (if Blocked(s, box, locked, q[0]) then [q[0]] else [])
    && forall c {:trigger Room(s', locked, c)} :: RoomAfter(s, s', locked, c, GoodFor(s, box, q[0], c))
  }

  lemma HeadOff(s: State, box: nat)
    requires Outbox(s, box) != []
    ensures HeadKey(s, box) == Key(box, Outbox(s, box)[0])
    ensures Without(Outbox(s, box), Outbox(s, box)[0]) == Outbox(s, box)[1..]
  {
  }

  lemma DropVisited(s: State, box: nat, locked: set<nat>)
    requires CanDropBad(s, box)
    ensures Visited(s, DoDropBad(s, box), box, locked)
  {
    HeadOff(s, box);
    var s', slot := DoDropBad(s, box), Outbox(s, box)[0];
    assert Outbox(s, box)[1..] + [] == Outbox(s, box)[1..];
    forall c: int ensures RoomAfter(s, s', locked, c, GoodFor(s, box, slot, c)) {}
  }

  lemma PutBackVisited(s: State, box: nat, locked: set<nat>)
    requires CanPutBack(s, box) && Blocked(s, box, locked, Outbox(s, box)[0])
    ensures Visited(s, DoPutBack(s, box), box, locked)
  {
    HeadOff(s, box);
    var s', slot := DoPutBack(s, box), Outbox(s, box)[0];
    forall c: int ensures RoomAfter(s, s', locked, c, GoodFor(s, box, slot, c)) {}
  }

  lemma DeliverVisited(s: State, box: nat, locked: set<nat>)
    requires CanDeliver(s, box) && Room(s, locked, GatewayAt(s, box, Outbox(s, box)[0]).box) > 0
    ensures Visited(s, DoDeliver(s, box), box, locked)
  {
    HeadOff(s, box);
    var s', slot := DoDeliver(s, box), Outbox(s, box)[0];
    assert Outbox(s, box)[1..] + [] == Outbox(s, box)[1..];
    forall c: int ensures RoomAfter(s, s', locked, c, GoodFor(s, box, slot, c)) {}
  }

  lemma VisitDoes(s: State, box: nat, locked: set<nat>)
    requires Inv(s) && Outbox(s, box) != []
    ensures Enabled(s, Visit(s, box, locked))
    ensures Inv(Apply(s, Visit(s, box, locked))) && Visited(s, Apply(s, Visit(s, box, locked)), box, locked)
  {
    VisitEnabled(s, box, locked);
    ActionInv(s, Visit(s, box, locked));
    match Visit(s, box, locked)
    case DropBad(_) => DropVisited(s, box, locked);
    case PutBack(_) => PutBackVisited(s, box, locked);
    case Deliver(_) => DeliverVisited(s, box, locked);
  }

  // ---- the fates do not change as the drain goes on -----------------------------------------------

  lemma {:induction false} CountSame(s: State, s': State, box: nat, queue: seq<nat>, c: int)
    requires SameGateways(s, s')
    ensures CountTo(s', box, queue, c) == CountTo(s, box, queue, c)
    decreases queue
  {
    if queue != [] {
      assert Out(s', Key(box, queue[0])).gateway == Out(s, Key(box, queue[0])).gateway;
      CountSame(s, s', box, queue[1..], c);
    }
  }

  lemma StaysLater(s: State, s': State, box: nat, locked: set<nat>, rest: seq<nat>, more: seq<nat>, i: nat)
    requires rest != [] && Outbox(s, box) == rest + more && Visited(s, s', box, locked) && i < |rest| - 1
    ensures Stays(s', box, locked, rest[1..], i) <==> Stays(s, box, locked, rest, i + 1)
  {
    var c := GatewayAt(s, box, rest[i + 1]).box;
    assert Out(s', Key(box, rest[i + 1])).gateway == Out(s, Key(box, rest[i + 1])).gateway;
    assert Room(s', locked, c) <= Room(s, locked, c);
    assert rest[..i + 1][1..] == rest[1..][..i];
    CountSame(s, s', box, rest[1..][..i], c);
  }

  lemma BlockedLater(s: State, s': State, box: nat, locked: set<nat>, x: nat)
    requires Outbox(s, box) != [] && Visited(s, s', box, locked) && Blocked(s, box, locked, x)
    ensures Blocked(s', box, locked, x)
  {
    var c := GatewayAt(s, box, x).box;
    assert Out(s', Key(box, x)).gateway == Out(s, Key(box, x)).gateway;
    assert Room(s', locked, c) <= Room(s, locked, c);
  }

  lemma FatedVisited(s: State, s': State, box: nat, locked: set<nat>, rest: seq<nat>, seen: seq<nat>, stay: set<nat>)
    requires Fated(s, box, locked, rest, seen, stay) && rest + seen != [] && Visited(s, s', box, locked)
    ensures Blocked(s, box, locked, (rest + seen)[0]) <==> (rest + seen)[0] in stay
    ensures Fated(s', box, locked, NextRest(rest), NextSeen(rest, seen, stay), stay)
  {
    var x, rest' := (rest + seen)[0], NextRest(rest);
    if rest == [] {
      assert rest + seen == seen;
    } else {
      assert Stays(s, box, locked, rest, 0) <==> Blocked(s, box, locked, x);
    }
    assert Outbox(s', box) == rest' + NextSeen(rest, seen, stay);
    forall i: nat | i < |rest'| ensures rest'[i] in stay <==> Stays(s', box, locked, rest', i) {
      StaysLater(s, s', box, locked, rest, seen, i);
      assert Stays(s, box, locked, rest, i + 1) <==> rest[i + 1] in stay;
    }
    forall y | y in NextSeen(rest, seen, stay) ensures y in stay && Blocked(s', box, locked, y) {
      BlockedLater(s, s', box, locked, y);
    }
  }

  // ---- the drain is the abstract loop ----------------------------------------------------------

  lemma DrainTurnIs(d: Drain, box: nat, locked: set<nat>, rest: seq<nat>, seen: seq<nat>, stay: set<nat>)
    requires Inv(d.s) && Fated(d.s, box, locked, rest, seen, stay) && !Stopped(d, box)
    ensures var d', rest' := DrainTurn(d, box, locked), NextRest(rest);
            && rest + seen != [] && !Over(Loop(rest + seen, d.first))
            && Inv(d'.s) && Fated(d'.s, box, locked, rest', NextSeen(rest, seen, stay), stay)
            && Turn(Loop(rest + seen, d.first), Fates(stay, {}))
               == Loop(rest' + NextSeen(rest, seen, stay), d'.first)
  {
    VisitDoes(d.s, box, locked);
    FatedVisited(d.s, DrainTurn(d, box, locked).s, box, locked, rest, seen, stay);
    TurnOf(rest, seen, d.first, Fates(stay, {}));
  }

  /** The drain has the same queue and first slot as the abstract loop. */
  ghost predicate Follows(d: Drain, l: Loop, box: nat, locked: set<nat>, stay: set<nat>) {
    exists rest, seen ::
      Inv(d.s) && Fated(d.s, box, locked, rest, seen, stay) && l == Loop(rest + seen, d.first)
  }

  lemma FollowsTurn(d: Drain, l: Loop, box: nat, locked: set<nat>, stay: set<nat>)
    requires Follows(d, l, box, locked, stay)
    ensures Over(l) <==> Stopped(d, box)
    ensures Inv(d.s) && l == Loop(Outbox(d.s, box), d.first)
    ensures !Over(l) ==> Follows(DrainTurn(d, box, locked), Turn(l, Fates(stay, {})), box, locked, stay)
  {
    var rest, seen :| Inv(d.s) && Fated(d.s, box, locked, rest, seen, stay) && l == Loop(rest + seen, d.first);
    if !Over(l) {
      DrainTurnIs(d, box, locked, rest, seen, stay);
    }
  }

  lemma {:induction false} DrainIsLoop(d: Drain, l: Loop, box: nat, locked: set<nat>, stay: set<nat>, n: nat)
    requires Follows(d, l, box, locked, stay)
    ensures Follows(DrainTurns(d, box, locked, n), Turns(l, Fates(stay, {}), n), box, locked, stay)
    decreases n
  {
    FollowsTurn(d, l, box, locked, stay);
    if n > 0 && !Over(l) {
      DrainIsLoop(DrainTurn(d, box, locked), Turn(l, Fates(stay, {})), box, locked, stay, n - 1);
    }
  }

  function Staying(s: State, box: nat, locked: set<nat>): set<nat> {
    var q := Outbox(s, box);
    set i: nat | i < |q| && Stays(s, box, locked, q, i) :: q[i]
  }

  lemma FatedAtFirst(s: State, box: nat, locked: set<nat>)
    requires Inv(s)
    ensures Distinct(Outbox(s, box))
    ensures Fated(s, box, locked, Outbox(s, box), [], Staying(s, box, locked))
    ensures Follows(Drain(s, -1), Begin(Outbox(s, box)), box, locked, Staying(s, box, locked))
  {
    assert PoolOk(s.outPool, box, OUT_SLOTS);
    var q, stay := Outbox(s, box), Staying(s, box, locked);
    assert q + [] == q;
    forall i: nat | i < |q| ensures q[i] in stay <==> Stays(s, box, locked, q, i) {
      if q[i] in stay {
        var j: nat :| j < |q| && Stays(s, box, locked, q, j) && q[i] == q[j];
        assert i == j;
      }
    }
    assert Fated(s, box, locked, q, [], stay);
  }

  /** After `n` turns the drain and the abstract loop have the same queue and first slot. */
  lemma DrainAfter(s: State, box: nat, locked: set<nat>, n: nat)
    requires Inv(s)
    ensures var d := DrainTurns(Drain(s, -1), box, locked, n);
            && Inv(d.s) && Distinct(Outbox(s, box))
            && Loop(Outbox(d.s, box), d.first)
               == Turns(Begin(Outbox(s, box)), Fates(Staying(s, box, locked), {}), n)
  {
    var stay := Staying(s, box, locked);
    FatedAtFirst(s, box, locked);
    DrainIsLoop(Drain(s, -1), Begin(Outbox(s, box)), box, locked, stay, n);
    FollowsTurn(DrainTurns(Drain(s, -1), box, locked, n), Turns(Begin(Outbox(s, box)), Fates(stay, {}), n),
                box, locked, stay);
  }

  lemma EndsTogether(s: State, box: nat, locked: set<nat>)
    requires Inv(s)
    ensures DrainEnds(s, box, locked) <==> Ends(Begin(Outbox(s, box)), Fates(Staying(s, box, locked), {}))
  {
    var l, fates := Begin(Outbox(s, box)), Fates(Staying(s, box, locked), {});
    if n: nat :| Stopped(DrainTurns(Drain(s, -1), box, locked, n), box) {
      DrainAfter(s, box, locked, n);
      assert Over(Turns(l, fates, n));
    }
    if n: nat :| Over(Turns(l, fates, n)) {
      DrainAfter(s, box, locked, n);
      assert Stopped(DrainTurns(Drain(s, -1), box, locked, n), box);
    }
  }

  // ---- main results --------------------------------------------------------------------------------

  /** Every callee has room for all messages of the queue that are for it. */
  ghost predicate RoomForAll(s: State, box: nat, locked: set<nat>) {
    forall c {:trigger CountTo(s, box, Outbox(s, box), c)} ::
      CountTo(s, box, Outbox(s, box), c) <= Room(s, locked, c)
  }

  lemma {:induction false} CountGrows(s: State, box: nat, queue: seq<nat>, i: nat, c: int)
    requires i < |queue|
    ensures CountTo(s, box, queue[..i], c) + (if GoodFor(s, box, queue[i], c) then 1 else 0)
         <= CountTo(s, box, queue, c)
    decreases queue
  {
    if i > 0 {
      assert queue[..i][1..] == queue[1..][..i - 1];
      CountGrows(s, box, queue[1..], i - 1, c);
    }
  }

  /** The first message for `c` that finds `room` others before it. */
  lemma {:induction false} FirstBeyond(s: State, box: nat, queue: seq<nat>, c: int, room: nat) returns (i: nat)
    requires CountTo(s, box, queue, c) > room
    ensures i < |queue| && GoodFor(s, box, queue[i], c) && CountTo(s, box, queue[..i], c) == room
    decreases queue
  {
    if GoodFor(s, box, queue[0], c) && room == 0 {
      i := 0;
    } else {
      var h := FirstBeyond(s, box, queue[1..], c, if GoodFor(s, box, queue[0], c) then room - 1 else room);
      i := h + 1;
      assert queue[..i][1..] == queue[1..][..h];
    }
  }

  lemma NoneStays(s: State, box: nat, locked: set<nat>)
    ensures RoomForAll(s, box, locked) <==>
              forall i: nat {:trigger Stays(s, box, locked, Outbox(s, box), i)} :: i < |Outbox(s, box)| ==>
                !Stays(s, box, locked, Outbox(s, box), i)
  {
    var q := Outbox(s, box);
    if RoomForAll(s, box, locked) {
      forall i: nat | i < |q| ensures !Stays(s, box, locked, q, i) {
        CountGrows(s, box, q, i, GatewayAt(s, box, q[i]).box);
      }
    } else {
      var c :| CountTo(s, box, q, c) > Room(s, locked, c);
      var i := FirstBeyond(s, box, q, c, Room(s, locked, c));
      assert Stays(s, box, locked, q, i);
    }
  }

  /** A drain ends exactly when the queue is empty, when its first message has a good gateway
      and finds no room at its callee, or when every callee has room for all its messages.
      Otherwise it takes and puts back the same messages for ever: the first one is gone, so
      that its slot never comes round again, and another one stays. */
  lemma DrainEndsExactly(s: State, box: nat, locked: set<nat>)
    requires Inv(s)
    ensures DrainEnds(s, box, locked) <==>
              || Outbox(s, box) == []
              || Blocked(s, box, locked, Outbox(s, box)[0])
              || RoomForAll(s, box, locked)
  {
    var q, stay := Outbox(s, box), Staying(s, box, locked);
    FatedAtFirst(s, box, locked);
    EndsTogether(s, box, locked);
    EndsExactly(q, Fates(stay, {}));
    NoneStays(s, box, locked);
    assert q != [] ==> (Stays(s, box, locked, q, 0) <==> Blocked(s, box, locked, q[0]));
  }

  /** The messages that stay are left in their order but for one: the drain ends by putting
      the first of them at the back. */
  lemma DrainLeaves(s: State, box: nat, locked: set<nat>, n: nat)
    requires Inv(s) && Stopped(DrainTurns(Drain(s, -1), box, locked, n), box)
    ensures var s' := DrainTurns(Drain(s, -1), box, locked, n).s;
            && Inv(s') && Outbox(s', box) == Keep(Outbox(s, box), Staying(s, box, locked))
            && (CanPutBack(s', box) ==> Outbox(DoPutBack(s', box), box) == Rotated(Outbox(s', box)))
  {
    DrainAfter(s, box, locked, n);
    OverLeaves(Outbox(s, box), Fates(Staying(s, box, locked), {}), n);
    var s' := DrainTurns(Drain(s, -1), box, locked, n).s;
    if CanPutBack(s', box) { HeadOff(s', box); }
  }
}
