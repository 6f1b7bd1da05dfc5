/** A whole call of ipc_drain_queue: when it ends, and what it leaves.

    Nothing else runs during a drain. The locks of receive pools and of token words that
    interrupted threads hold stay taken all through it. A drain that finds its own send pool
    locked ends at once and is not considered. */
module IpcDrain {
  import opened PoolSpec
  import opened IpcProtocol
  import opened DrainSpec

  datatype Locks = Locks(pools: set<nat>, tokens: set<nat>)

  datatype Drain = Drain(s: State, first: int)

  function Outbox(s: State, box: nat): seq<nat> {
    QueueOf(s, Line(box, SendIo))
  }

  function Inbox(s: State, box: nat): seq<nat> {
    QueueOf(s, Line(box, RecvIo))
  }

  predicate Stopped(d: Drain, box: nat) {
    Outbox(d.s, box) == [] || Outbox(d.s, box)[0] == d.first
  }

  // ---- the fate of each message ---------------------------------------------------------------

  /** The box that a send is for, or -1. */
  function To(s: State, x: nat): int {
    if x in s.requests && s.requests[x].desc.box >= 0 then s.requests[x].desc.box else -1
  }

  predicate HasDestination(s: State, x: nat) {
    0 <= To(s, x) < s.boxes
  }

  /** No delivery to box `to` can be made: one of the locks that it needs is taken. */
  predicate Barred(locks: Locks, box: nat, to: int) {
    to >= 0 && (to in locks.pools || box in locks.tokens || to in locks.tokens)
  }

  /** Receive `r` accepts send `x` of the box: its origin, its port and its length. */
  predicate Pairs(s: State, box: nat, x: nat, r: nat) {
    && x in s.requests && r in s.requests
    && var send, recv := s.requests[x].desc, s.requests[r].desc;
    && (recv.box == box || recv.box == ANY_BOX) && recv.port == send.port && recv.len >= send.len
  }

  /** The position of the first receive that send `x` matches, or the number of receives. */
  function FirstFor(s: State, box: nat, x: nat, recvs: seq<nat>): (i: nat)
    ensures i <= |recvs|
  {
    if recvs == [] || Pairs(s, box, x, recvs[0]) then 0 else 1 + FirstFor(s, box, x, recvs[1..])
  }

  /** The receives of box `to` that are left when send `x` has been visited. */
  function LeftBy(s: State, box: nat, to: int, x: nat, recvs: seq<nat>): seq<nat> {
    var i := FirstFor(s, box, x, recvs);
    if To(s, x) == to && i < |recvs| then Without(recvs, recvs[i]) else recvs
  }

  function Left(s: State, box: nat, to: int, sends: seq<nat>, recvs: seq<nat>): seq<nat> {
    if sends == [] then recvs else Left(s, box, to, sends[1..], LeftBy(s, box, to, sends[0], recvs))
  }

  predicate Refuses(s: State, box: nat, locks: Locks, x: nat, recvs: seq<nat>) {
    HasDestination(s, x) && (Barred(locks, box, To(s, x)) || FirstFor(s, box, x, recvs) == |recvs|)
  }

  /** The sends before it take all receives of its destination that match it, or its delivery
      is barred. */
  predicate Stays(s: State, box: nat, locks: Locks, queue: seq<nat>, i: nat)
    requires i < |queue|
  {
    var to := To(s, queue[i]);
    to >= 0 && Refuses(s, box, locks, queue[i], Left(s, box, to, queue[..i], Inbox(s, to)))
  }

  predicate Blocked(s: State, box: nat, locks: Locks, x: nat) {
    To(s, x) >= 0 && Refuses(s, box, locks, x, Inbox(s, To(s, x)))
  }

  // ---- the drain ------------------------------------------------------------------------------

  /** What one turn of the loop does with the head of the queue. */
  function Visit(s: State, box: nat, locks: Locks): Action
    requires Outbox(s, box) != []
  {
    var x := Outbox(s, box)[0];
    if !HasDestination(s, x) then Discard(box)
    else if To(s, x) in locks.pools || FirstFor(s, box, x, Inbox(s, To(s, x))) == |Inbox(s, To(s, x))|
    then PutBack(box)
    else if box in locks.tokens || To(s, x) in locks.tokens then Contend(box)
    else Deliver(box)
  }

  lemma {:induction false} FirstForIs(s: State, box: nat, x: nat, recvs: seq<nat>)
    requires Known(s, recvs) && x in s.requests
    ensures FirstFor(s, box, x, recvs) == FirstMatch(s, box, s.requests[x], recvs)
    decreases recvs
  {
    if recvs != [] {
      assert Known(s, recvs[1..]);
      FirstForIs(s, box, x, recvs[1..]);
    }
  }

  lemma LineKnown(s: State, line: Line)
    requires Inv(s)
    ensures Known(s, QueueOf(s, line))
  {
    assert LineOk(s, line);
  }

  lemma VisitEnabled(s: State, box: nat, locks: Locks)
    requires Inv(s) && Outbox(s, box) != []
    ensures Enabled(s, Visit(s, box, locks)) && Inv(Apply(s, Visit(s, box, locks)))
  {
    var x := Outbox(s, box)[0];
    LineKnown(s, Line(box, SendIo));
    if HasDestination(s, x) {
      LineKnown(s, RecvLine(s, box));
      FirstForIs(s, box, x, Inbox(s, To(s, x)));
      if Visit(s, box, locks).Deliver? { DeliverFits(s, box); }
    }
    StepInv(s, Visit(s, box, locks));
  }

  /** A delivery of the first slot seen makes the loop forget it. */
  ghost function DrainTurn(d: Drain, box: nat, locks: Locks): (d': Drain)
    requires Inv(d.s) && !Stopped(d, box)
    ensures Inv(d'.s)
  {
    VisitEnabled(d.s, box, locks);
    var x := Outbox(d.s, box)[0];
    var first := if d.first == -1 then x else d.first;
    var a := Visit(d.s, box, locks);
    Drain(Apply(d.s, a), if a.Deliver? && x == first then -1 else first)
  }

  ghost function DrainTurns(d: Drain, box: nat, locks: Locks, n: nat): Drain
    requires Inv(d.s)
    decreases n
  {
    if n == 0 || Stopped(d, box) then d else DrainTurns(DrainTurn(d, box, locks), box, locks, n - 1)
  }

  ghost predicate DrainEnds(s: State, box: nat, locks: Locks)
    requires Inv(s)
  {
    exists n: nat :: Stopped(DrainTurns(Drain(s, -1), box, locks, n), box)
  }

  // ---- what a turn changes ---------------------------------------------------------------------

  predicate SameRequest(s: State, s': State, x: nat) {
    x in s.requests && x in s'.requests && s'.requests[x] == s.requests[x]
  }

  ghost predicate AllSame(s: State, s': State, queue: seq<nat>) {
    forall x :: x in queue ==> SameRequest(s, s', x)
  }

  /** The receives of a box where deliveries are not barred. */
  ghost predicate InboxAfter(s: State, s': State, box: nat, to: nat, x: nat) {
    Inbox(s', to) == LeftBy(s, box, to, x, Inbox(s, to)) && AllSame(s, s', Inbox(s', to))
  }

  ghost predicate Visited(s: State, s': State, box: nat, locks: Locks)
    requires Outbox(s, box) != []
  {
    var q := Outbox(s, box);
    && s'.boxes == s.boxes
    && Outbox(s', box) == q[1..] + (if Blocked(s, box, locks, q[0]) then [q[0]] else [])
    && AllSame(s, s', Outbox(s', box))
    && forall to: nat {:trigger Inbox(s', to)} :: to < s.boxes && !Barred(locks, box, to) ==>
         InboxAfter(s, s', box, to, q[0])
  }

  /** The two queues that a turn is about hold queued requests only, and no request twice. */
  lemma LineFacts(s: State, line: Line)
    requires Inv(s)
    ensures Distinct(QueueOf(s, line))
    ensures forall x :: x in QueueOf(s, line) ==> x in s.requests && LineOf(s.requests[x]) == line
  {
    assert LineOk(s, line);
  }

  lemma DiscardVisited(s: State, box: nat, locks: Locks)
    requires Inv(s) && CanDiscard(s, box)
    ensures Visited(s, DoDiscard(s, box), box, locks)
  {
    var s', q := DoDiscard(s, box), Outbox(s, box);
    HeadFacts(s, box);
    assert q[1..] + [] == q[1..];
    LineFacts(s, Line(box, SendIo));
    forall to: nat | to < s.boxes ensures InboxAfter(s, s', box, to, q[0]) { LineFacts(s, Line(to, RecvIo)); }
  }

  lemma PutBackVisited(s: State, box: nat, locks: Locks)
    requires Inv(s) && HasHead(s, box) && Blocked(s, box, locks, Head(s, box))
    ensures Visited(s, DoPutBack(s, box), box, locks)
  {
    var s', q := DoPutBack(s, box), Outbox(s, box);
    HeadFacts(s, box);
    LineFacts(s, Line(box, SendIo));
    forall to: nat | to < s.boxes && !Barred(locks, box, to) ensures InboxAfter(s, s', box, to, q[0]) {
      LineFacts(s, Line(to, RecvIo));
    }
  }

  lemma ContendVisited(s: State, box: nat, locks: Locks)
    requires Inv(s) && CanDeliver(s, box) && Blocked(s, box, locks, Head(s, box))
    requires Barred(locks, box, RecvLine(s, box).box)
    ensures Visited(s, DoContend(s, box), box, locks)
  {
    var s', q := DoContend(s, box), Outbox(s, box);
    HeadFacts(s, box);
    LineFacts(s, Line(box, SendIo));
    forall to: nat | to < s.boxes && !Barred(locks, box, to) ensures InboxAfter(s, s', box, to, q[0]) {
      LineFacts(s, Line(to, RecvIo));
    }
  }

  lemma DeliverVisited(s: State, box: nat, locks: Locks)
    requires Inv(s) && Enabled(s, Deliver(box)) && !Blocked(s, box, locks, Head(s, box))
    ensures Visited(s, DoDeliver(s, box), box, locks)
  {
    var s', q, m := DoDeliver(s, box), Outbox(s, box), Receiver(s, box);
    HeadFacts(s, box);
    ReceiverFacts(s, box);
    LineFacts(s, Line(box, SendIo));
    assert q[1..] + [] == q[1..];
    forall to: nat | to < s.boxes && !Barred(locks, box, to) ensures InboxAfter(s, s', box, to, q[0]) {
      LineFacts(s, Line(to, RecvIo));
      FirstForIs(s, box, q[0], Inbox(s, to));
      if to == RecvLine(s, box).box { WithoutMembers(Inbox(s, to), m); }
    }
  }

  lemma VisitDoes(s: State, box: nat, locks: Locks)
    requires Inv(s) && Outbox(s, box) != []
    ensures Enabled(s, Visit(s, box, locks)) && Inv(Apply(s, Visit(s, box, locks)))
    ensures Visited(s, Apply(s, Visit(s, box, locks)), box, locks)
    ensures Visit(s, box, locks).Deliver? <==>
              HasDestination(s, Outbox(s, box)[0]) && !Blocked(s, box, locks, Outbox(s, box)[0])
  {
    VisitEnabled(s, box, locks);
    match Visit(s, box, locks)
    case Discard(_) => DiscardVisited(s, box, locks);
    case PutBack(_) => PutBackVisited(s, box, locks);
    case Contend(_) => ContendVisited(s, box, locks);
    case Deliver(_) => DeliverVisited(s, box, locks);
  }

  // ---- the fates do not change as the drain goes on -----------------------------------------------

  lemma {:induction false} FirstForSame(s: State, s': State, box: nat, x: nat, recvs: seq<nat>)
    requires SameRequest(s, s', x) && AllSame(s, s', recvs)
    ensures FirstFor(s', box, x, recvs) == FirstFor(s, box, x, recvs)
    decreases recvs
  {
    if recvs != [] {
      assert recvs[0] in recvs;
      FirstForSame(s, s', box, x, recvs[1..]);
    }
  }

  lemma {:induction false} WithoutIn(queue: seq<nat>, x: nat)
    ensures forall y :: y in Without(queue, x) ==> y in queue
    decreases queue
  {
    if queue != [] {
      WithoutIn(queue[1..], x);
    }
  }

  lemma {:induction false} LeftSame(s: State, s': State, box: nat, to: int, sends: seq<nat>, recvs: seq<nat>)
    requires AllSame(s, s', sends) && AllSame(s, s', recvs)
    ensures Left(s', box, to, sends, recvs) == Left(s, box, to, sends, recvs)
    ensures AllSame(s, s', Left(s, box, to, sends, recvs))
    decreases sends
  {
    if sends != [] {
      var x, i := sends[0], FirstFor(s, box, sends[0], recvs);
      FirstForSame(s, s', box, x, recvs);
      if i < |recvs| { WithoutIn(recvs, recvs[i]); }
      LeftSame(s, s', box, to, sends[1..], LeftBy(s, box, to, x, recvs));
    }
  }

  lemma StaysLater(s: State, s': State, box: nat, locks: Locks, rest: seq<nat>, seen: seq<nat>, i: nat)
    requires rest != [] && Outbox(s, box) == rest + seen && Visited(s, s', box, locks) && i < |rest| - 1
    ensures Stays(s', box, locks, rest[1..], i) <==> Stays(s, box, locks, rest, i + 1)
  {
    var y, to, before := rest[i + 1], To(s, rest[i + 1]), rest[1..][..i];
    assert Outbox(s, box)[1..] == rest[1..] + seen;
    assert forall x :: x in rest[1..] ==> x in Outbox(s', box);
    assert rest[1..][i] == y && SameRequest(s, s', y);
    if HasDestination(s, y) && !Barred(locks, box, to) {
      assert rest[..i + 1][1..] == before;
      assert InboxAfter(s, s', box, to, rest[0]) by { assert |Inbox(s', to)| >= 0; }
      assert forall x :: x in before ==> x in rest[1..];
      LeftSame(s, s', box, to, before, Inbox(s', to));
      FirstForSame(s, s', box, y, Left(s, box, to, before, Inbox(s', to)));
    }
  }

  lemma {:induction false} NoneWithout(s: State, box: nat, x: nat, recvs: seq<nat>, m: nat)
    requires FirstFor(s, box, x, recvs) == |recvs|
    ensures FirstFor(s, box, x, Without(recvs, m)) == |Without(recvs, m)|
    decreases recvs
  {
    if recvs != [] && recvs[0] != m {
      NoneWithout(s, box, x, recvs[1..], m);
    }
  }

  lemma BlockedLater(s: State, s': State, box: nat, locks: Locks, x: nat)
    requires Outbox(s, box) != [] && Visited(s, s', box, locks) && Blocked(s, box, locks, x) && SameRequest(s, s', x)
    ensures Blocked(s', box, locks, x)
  {
    var to, h := To(s, x), Outbox(s, box)[0];
    if !Barred(locks, box, to) {
      assert InboxAfter(s, s', box, to, h) by { assert |Inbox(s', to)| >= 0; }
      var i := FirstFor(s, box, h, Inbox(s, to));
      if i < |Inbox(s, to)| { NoneWithout(s, box, x, Inbox(s, to), Inbox(s, to)[i]); }
      FirstForSame(s, s', box, x, Inbox(s', to));
    }
  }

  /** `rest` was not visited yet, `seen` was put back before. `reset` are the messages with a
      destination, which are delivered when they leave. */
  ghost predicate Fated(s: State, box: nat, locks: Locks, rest: seq<nat>, seen: seq<nat>, fates: Fates) {
    && Outbox(s, box) == rest + seen
    && (forall i: nat {:trigger Stays(s, box, locks, rest, i)} :: i < |rest| ==>
          && (rest[i] in fates.stay <==> Stays(s, box, locks, rest, i))
          && (rest[i] in fates.reset <==> HasDestination(s, rest[i])))
    && (forall x :: x in seen ==> x in fates.stay && Blocked(s, box, locks, x))
  }

  lemma FatedVisited(s: State, s': State, box: nat, locks: Locks, rest: seq<nat>, seen: seq<nat>, fates: Fates)
    requires Fated(s, box, locks, rest, seen, fates) && rest + seen != [] && Visited(s, s', box, locks)
    ensures Blocked(s, box, locks, (rest + seen)[0]) <==> (rest + seen)[0] in fates.stay
    ensures rest != [] ==> (rest[0] in fates.reset <==> HasDestination(s, rest[0]))
    ensures Fated(s', box, locks, NextRest(rest), NextSeen(rest, seen, fates.stay), fates)
  {
    var x, rest' := (rest + seen)[0], NextRest(rest);
    if rest == [] {
      assert rest + seen == seen;
    } else {
      assert Stays(s, box, locks, rest, 0) <==> Blocked(s, box, locks, x);
    }
    assert Outbox(s', box) == rest' + NextSeen(rest, seen, fates.stay);
    forall i: nat | i < |rest'|
      ensures rest'[i] in fates.stay <==> Stays(s', box, locks, rest', i)
      ensures rest'[i] in fates.reset <==> HasDestination(s', rest'[i])
    {
      StaysLater(s, s', box, locks, rest, seen, i);
      assert Stays(s, box, locks, rest, i + 1) <==> rest[i + 1] in fates.stay;
      assert rest'[i] in Outbox(s', box);
    }
    forall y | y in NextSeen(rest, seen, fates.stay) ensures y in fates.stay && Blocked(s', box, locks, y) {
      assert y in Outbox(s', box);
      BlockedLater(s, s', box, locks, y);
    }
  }

  // ---- the drain is the abstract loop ----------------------------------------------------------

  lemma DrainTurnIs(d: Drain, box: nat, locks: Locks, rest: seq<nat>, seen: seq<nat>, fates: Fates)
    requires Inv(d.s) && Fated(d.s, box, locks, rest, seen, fates) && !Stopped(d, box)
    ensures var d' := DrainTurn(d, box, locks);
            && rest + seen != [] && !Over(Loop(rest + seen, d.first))
            && Fated(d'.s, box, locks, NextRest(rest), NextSeen(rest, seen, fates.stay), fates)
            && Turn(Loop(rest + seen, d.first), fates)
               == Loop(NextRest(rest) + NextSeen(rest, seen, fates.stay), d'.first)
  {
    VisitDoes(d.s, box, locks);
    FatedVisited(d.s, DrainTurn(d, box, locks).s, box, locks, rest, seen, fates);
    TurnOf(rest, seen, d.first, fates);
  }

  /** The drain has the same queue and first slot as the abstract loop. */
  ghost predicate Follows(d: Drain, l: Loop, box: nat, locks: Locks, fates: Fates) {
    exists rest, seen ::
      Inv(d.s) && Fated(d.s, box, locks, rest, seen, fates) && l == Loop(rest + seen, d.first)
  }

  lemma FollowsTurn(d: Drain, l: Loop, box: nat, locks: Locks, fates: Fates)
    requires Follows(d, l, box, locks, fates)
    ensures Over(l) <==> Stopped(d, box)
    ensures Inv(d.s) && l == Loop(Outbox(d.s, box), d.first)
    ensures !Over(l) ==> Follows(DrainTurn(d, box, locks), Turn(l, fates), box, locks, fates)
  {
    var rest, seen :| Inv(d.s) && Fated(d.s, box, locks, rest, seen, fates) && l == Loop(rest + seen, d.first);
    if !Over(l) {
      DrainTurnIs(d, box, locks, rest, seen, fates);
    }
  }

  lemma {:induction false} DrainIsLoop(d: Drain, l: Loop, box: nat, locks: Locks, fates: Fates, n: nat)
    requires Inv(d.s) && Follows(d, l, box, locks, fates)
    ensures Follows(DrainTurns(d, box, locks, n), Turns(l, fates, n), box, locks, fates)
    decreases n
  {
    FollowsTurn(d, l, box, locks, fates);
    if n > 0 && !Over(l) {
      DrainIsLoop(DrainTurn(d, box, locks), Turn(l, fates), box, locks, fates, n - 1);
    }
  }

  function FatesOf(s: State, box: nat, locks: Locks): Fates {
    var q := Outbox(s, box);
    Fates(set i: nat | i < |q| && Stays(s, box, locks, q, i) :: q[i], set x | x in q && HasDestination(s, x))
  }

  lemma FatedAtFirst(s: State, box: nat, locks: Locks)
    requires Inv(s)
    ensures Distinct(Outbox(s, box))
    ensures Fated(s, box, locks, Outbox(s, box), [], FatesOf(s, box, locks))
    ensures Follows(Drain(s, -1), Begin(Outbox(s, box)), box, locks, FatesOf(s, box, locks))
  {
    LineFacts(s, Line(box, SendIo));
    var q, fates := Outbox(s, box), FatesOf(s, box, locks);
    assert q + [] == q;
    forall i: nat | i < |q| ensures q[i] in fates.stay <==> Stays(s, box, locks, q, i) {
      if q[i] in fates.stay {
        var j: nat :| j < |q| && Stays(s, box, locks, q, j) && q[i] == q[j];
        assert i == j;
      }
    }
    assert Fated(s, box, locks, q, [], fates);
  }

  /** After `n` turns the drain and the abstract loop have the same queue and first slot. */
  lemma DrainAfter(s: State, box: nat, locks: Locks, n: nat)
    requires Inv(s)
    ensures var d := DrainTurns(Drain(s, -1), box, locks, n);
            && Inv(d.s) && Distinct(Outbox(s, box))
            && Loop(Outbox(d.s, box), d.first) == Turns(Begin(Outbox(s, box)), FatesOf(s, box, locks), n)
  {
    var fates := FatesOf(s, box, locks);
    FatedAtFirst(s, box, locks);
    DrainIsLoop(Drain(s, -1), Begin(Outbox(s, box)), box, locks, fates, n);
    FollowsTurn(DrainTurns(Drain(s, -1), box, locks, n), Turns(Begin(Outbox(s, box)), fates, n), box, locks, fates);
  }

  lemma EndsTogether(s: State, box: nat, locks: Locks)
    requires Inv(s)
    ensures DrainEnds(s, box, locks) <==> Ends(Begin(Outbox(s, box)), FatesOf(s, box, locks))
  {
    var l, fates := Begin(Outbox(s, box)), FatesOf(s, box, locks);
    if n: nat :| Stopped(DrainTurns(Drain(s, -1), box, locks, n), box) {
      DrainAfter(s, box, locks, n);
      assert Over(Turns(l, fates, n));
    }
    if n: nat :| Over(Turns(l, fates, n)) {
      DrainAfter(s, box, locks, n);
      assert Stopped(DrainTurns(Drain(s, -1), box, locks, n), box);
    }
  }

  // ---- main results --------------------------------------------------------------------------------

  ghost predicate NoneStays(s: State, box: nat, locks: Locks) {
    forall i: nat {:trigger Stays(s, box, locks, Outbox(s, box), i)} :: i < |Outbox(s, box)| ==>
      !Stays(s, box, locks, Outbox(s, box), i)
  }

  /** The first message that stays comes after `i` messages, all for boxes that exist. */
  predicate StaysAfterGood(s: State, box: nat, locks: Locks, i: nat) {
    var q := Outbox(s, box);
    i < |q| && Stays(s, box, locks, q, i) && forall h :: 0 <= h < i ==> HasDestination(s, q[h])
  }

  lemma CanEndIs(s: State, box: nat, locks: Locks)
    requires Fated(s, box, locks, Outbox(s, box), [], FatesOf(s, box, locks))
    ensures CanEnd(Outbox(s, box), FatesOf(s, box, locks)) <==>
              NoneStays(s, box, locks) || exists i: nat :: StaysAfterGood(s, box, locks, i)
  {
    var q, fates := Outbox(s, box), FatesOf(s, box, locks);
    assert forall i: nat :: i < |q| ==> (q[i] in fates.stay <==> Stays(s, box, locks, q, i));
    if i :| 0 <= i < |q| && q[i] in fates.stay && forall h :: 0 <= h < i ==> q[h] in fates.reset {
      assert StaysAfterGood(s, box, locks, i);
    }
    if i: nat :| StaysAfterGood(s, box, locks, i) {
      assert q[i] in fates.stay && forall h :: 0 <= h < i ==> q[h] in fates.reset;
    }
  }

  /** A drain ends exactly when every message leaves, or when some message stays and all those
      before it are for boxes that exist. Otherwise a message for an unknown box is dropped
      first, its slot never comes round again, and another message stays: the drain takes and
      puts back the same messages for ever. */
  lemma DrainEndsExactly(s: State, box: nat, locks: Locks)
    requires Inv(s)
    ensures DrainEnds(s, box, locks) <==>
              NoneStays(s, box, locks) || exists i: nat :: StaysAfterGood(s, box, locks, i)
  {
    FatedAtFirst(s, box, locks);
    EndsTogether(s, box, locks);
    EndsExactly(Outbox(s, box), FatesOf(s, box, locks));
    CanEndIs(s, box, locks);
  }

  /** The messages that stay are left in their order but for one: the drain ends by putting
      the first of them at the back. */
  lemma DrainLeaves(s: State, box: nat, locks: Locks, n: nat)
    requires Inv(s) && Stopped(DrainTurns(Drain(s, -1), box, locks, n), box)
    ensures var s' := DrainTurns(Drain(s, -1), box, locks, n).s;
            && Inv(s') && Outbox(s', box) == Keep(Outbox(s, box), FatesOf(s, box, locks).stay)
            && (HasHead(s', box) ==> Outbox(DoPutBack(s', box), box) == Rotated(Outbox(s', box)))
  {
    DrainAfter(s, box, locks, n);
    OverLeaves(Outbox(s, box), FatesOf(s, box, locks), n);
  }
}
