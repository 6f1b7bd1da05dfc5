/** Handlers of incoming messages: exactly when one runs a message that another has
    answered, and a discipline that rules it out. */
module RpcHandlers {
  import opened Cookies
  import opened PoolSpec
  import opened RpcProtocol
  import opened RpcInvariant
  import opened RpcTheorems
  import PoolQueue

  /** Dequeuing leaves a pool behind, and the send that is in the slot by then has been
      executed once when the handler is through with it. */
  predicate RunsOnce(s: State, f: nat, value: u32)
    requires CanTakeFound(s, f)
  {
    var s', k := DoTakeFound(s, f), Origin(Inc(s, s.activities[f].j));
    && WrongQueue !in s'.faults
    && (CanDispatch(s', f) ==> |Aux(DoDispatch(s', f, value), k).h.executions| == 1)
  }

  /** Dequeuing leaves a pool behind, and a handler that goes on executes the send that it
      found, for the first time. */
  predicate RunsFound(s: State, f: nat, value: u32)
    requires CanTakeFound(s, f)
  {
    var s', a := DoTakeFound(s, f), s.activities[f];
    && WrongQueue !in s'.faults
    && (CanDispatch(s', f) ==>
          var before, after := Aux(s', a.k).h, Aux(DoDispatch(s', f, value), a.k).h;
          after.stamp == a.stamp && before.executions == [] && |after.executions| == 1)
  }

  /** The message in incoming slot `j` is send `stamp` from slot `k`. */
  predicate Holds(s: State, j: Key, k: Key, stamp: nat) {
    Origin(Inc(s, j)) == k && Aux(s, k).h.stamp == stamp
  }

  /** The slot that a handler found waits with another send in it: a second handler has
      answered the first one, and the freed slot took the next delivery. */
  predicate Replaced(s: State, f: nat)
    requires CanTakeFound(s, f)
  {
    var a := s.activities[f];
    a.j.slot in InPool(s, a.j.box).todo && !Holds(s, a.j, a.k, a.stamp)
  }

  lemma OrderlyRunsOnce(s: State, f: nat, value: u32)
    requires Inv(s) && CanTakeFound(s, f) && Orderly(s, f)
    ensures RunsOnce(s, f, value)
  {
    var j := s.activities[f].j;
    assert ActivityOk(s, f) && InOk(s, j);
  }

  lemma OrderlyRunsFound(s: State, f: nat, value: u32)
    requires Inv(s) && CanTakeFound(s, f) && Orderly(s, f)
    ensures RunsFound(s, f, value) <==> !Replaced(s, f)
  {
    var j := s.activities[f].j;
    assert ActivityOk(s, f) && InOk(s, j);
  }

  /** Found on the done queue: either the array is corrupted, or the handler runs the
      target again, whether the slot stayed on that queue or silently came off it. */
  lemma DisorderlyRunsTwice(s: State, f: nat, value: u32)
    requires Inv(s) && CanTakeFound(s, f) && !Orderly(s, f)
    ensures var s', j := DoTakeFound(s, f), s.activities[f].j;
            if PoolQueue.DequeueSafe(InPool(s, j.box), Todo, j.slot)
            then CanDispatch(s', f) && |Aux(DoDispatch(s', f, value), Origin(Inc(s, j))).h.executions| == 2
            else WrongQueue in s'.faults
    ensures !RunsFound(s, f, value)
  {
    var j := s.activities[f].j;
    assert ActivityOk(s, f) && InOk(s, j);
    assert PoolOk(s.inPool, j.box, IN_SLOTS);
  }

  /** A handler that found a message leaves the pool intact and runs no send a second time
      exactly when the slot does not sit on the done queue at the moment of the dequeue. It
      runs the send that it found exactly when, besides, the slot was not refilled. */
  lemma DequeueExactly(s: State, f: nat, value: u32)
    requires Inv(s) && CanTakeFound(s, f)
    ensures RunsOnce(s, f, value) <==> Orderly(s, f)
    ensures RunsFound(s, f, value) <==> Orderly(s, f) && !Replaced(s, f)
    ensures Orderly(s, f) ==> Inv(DoTakeFound(s, f))
    ensures Held(InPool(s, s.activities[f].j.box), s.activities[f].j.slot) ==>
              DoTakeFound(s, f) == s.(activities := s.activities - {f})
  {
    if Orderly(s, f) {
      OrderlyRunsOnce(s, f, value);
      OrderlyRunsFound(s, f, value);
      TakeFoundInv(s, f);
    } else {
      DisorderlyRunsTwice(s, f, value);
    }
  }

  /** A search succeeds exactly when a waiting message has a target in the group. It then
      remembers the earliest of them, and which send that is. */
  lemma FindExactly(s: State, f: nat, box: nat, group: set<int>)
    requires f !in s.activities
    ensures CanFind(s, f, box, group) <==>
              exists x :: x in InPool(s, box).todo && Inc(s, Key(box, x)).gateway.target in group
    ensures CanFind(s, f, box, group) ==>
              exists i :: 0 <= i < |InPool(s, box).todo| && FindsAt(s, box, group, i)
                          && DoFind(s, f, box, group) == FoundAt(s, f, box, group, i)
  {
    var q := InPool(s, box).todo;
    var i := FirstMatch(s, box, q, group);
    if i < |q| { assert q[i] in q && FindsAt(s, box, group, i); }
    if x :| x in q && Inc(s, Key(box, x)).gateway.target in group {
      var h: nat :| h < |q| && q[h] == x;
    }
  }

  /** The earliest match in queue order. */
  predicate FindsAt(s: State, box: nat, group: set<int>, i: nat)
    requires i < |InPool(s, box).todo|
  {
    var q := InPool(s, box).todo;
    && Inc(s, Key(box, q[i])).gateway.target in group
    && forall h :: 0 <= h < i ==> Inc(s, Key(box, q[h])).gateway.target !in group
  }

  /** The handler remembers its slot, and nothing else changes. */
  function FoundAt(s: State, f: nat, box: nat, group: set<int>, i: nat): State
    requires i < |InPool(s, box).todo|
  {
    var j := Key(box, InPool(s, box).todo[i]);
    var k := Origin(Inc(s, j));
    s.(activities := s.activities[f := Found(j, group, k, Aux(s, k).h.stamp)])
  }

  /** A handler that goes on executes a target of its own function group exactly when the
      message in the slot has one by then, as it does unless the slot was refilled. */
  lemma GroupExactly(s: State, f: nat, value: u32)
    requires Inv(s) && CanTakeFound(s, f) && Orderly(s, f) && CanDispatch(DoTakeFound(s, f), f)
    ensures var a, j := s.activities[f], s.activities[f].j;
            var executions := Aux(DoDispatch(DoTakeFound(s, f), f, value), Origin(Inc(s, j))).h.executions;
            && |executions| == 1
            && (executions[0].target in a.group <==> Inc(s, j).gateway.target in a.group)
            && (!Replaced(s, f) ==> executions[0].target in a.group)
  {
    var a := s.activities[f];
    assert ActivityOk(s, f) && InOk(s, a.j) && OutOk(s, Origin(Inc(s, a.j)));
  }

  // ---- one handler at a time --------------------------------------------------

  /** In the todo queue, message `j` is the earliest whose target is in the group. */
  predicate Earliest(s: State, j: Key, group: set<int>) {
    var q := InPool(s, j.box).todo;
    var i := FirstMatch(s, j.box, q, group);
    i < |q| && q[i] == j.slot
  }

  predicate Searching(s: State, box: nat) {
    exists f :: f in s.activities && s.activities[f].Found? && s.activities[f].j.box == box
  }

  predicate StillFound(s: State, a: Activity)
    requires a.Found?
  {
    Earliest(s, a.j, a.group) && Holds(s, a.j, a.k, a.stamp)
  }

  /** No other handler of the box stands between finding and dequeuing. */
  ghost predicate Serial(s: State) {
    && (forall f :: f in s.activities && s.activities[f].Found? ==> StillFound(s, s.activities[f]))
    && (forall f, g | f in s.activities && g in s.activities ::
          s.activities[f].Found? && s.activities[g].Found? && s.activities[f].j.box == s.activities[g].j.box
          ==> f == g)
  }

  /** The discipline: start looking only when nobody else in the box is looking. */
  predicate Disciplined(s: State, a: Action)
    requires Enabled(s, a)
  {
    && (a.Swap? ==> Timely(s, a.t))
    && (a.Find? ==> !Searching(s, a.box))
  }

  predicate DisciplinedRun(s: State, run: seq<Action>)
    requires Legal(s, run)
    decreases run
  {
    run == [] || (Disciplined(s, run[0]) && DisciplinedRun(Apply(s, run[0]), run[1..]))
  }

  /** The earliest match stays the earliest while messages are only appended. */
  lemma {:induction false} FirstMatchGrows(s: State, s': State, box: nat, q: seq<nat>, more: seq<nat>, group: set<int>)
    requires forall x :: x in q ==> Inc(s', Key(box, x)).gateway == Inc(s, Key(box, x)).gateway
    requires FirstMatch(s, box, q, group) < |q|
    ensures FirstMatch(s', box, q + more, group) == FirstMatch(s, box, q, group)
    decreases q
  {
    assert q[0] in q;
    if Inc(s, Key(box, q[0])).gateway.target !in group {
      assert (q + more)[1..] == q[1..] + more;
      FirstMatchGrows(s, s', box, q[1..], more, group);
    }
  }

  predicate SameMessage(s: State, s': State, j: Key) {
    var m, m' := Inc(s, j), Inc(s', j);
    m'.gateway == m.gateway && Origin(m') == Origin(m) && Aux(s', Origin(m)).h.stamp == Aux(s, Origin(m)).h.stamp
  }

  lemma StillFoundKept(s: State, s': State, a: Activity, more: seq<nat>)
    requires a.Found? && StillFound(s, a) && InPool(s', a.j.box).todo == InPool(s, a.j.box).todo + more
    requires forall x :: x in InPool(s, a.j.box).todo ==> SameMessage(s, s', Key(a.j.box, x))
    ensures StillFound(s', a)
  {
    assert a.j.slot in InPool(s, a.j.box).todo && Key(a.j.box, a.j.slot) == a.j;
    FirstMatchGrows(s, s', a.j.box, InPool(s, a.j.box).todo, more, a.group);
  }

  lemma SerialFound(s: State, f: nat)
    requires Inv(s) && Serial(s) && CanTakeFound(s, f)
    ensures var j := s.activities[f].j;
            j.slot in InPool(s, j.box).todo && Orderly(s, f) && !Replaced(s, f)
  {
    var j := s.activities[f].j;
    assert InOk(s, j) by { assert ActivityOk(s, f); }
  }

  /** From `s` to `s'` the todo queues are only appended to. */
  ghost predicate Grows(s: State, s': State) {
    forall b: nat {:trigger GrowsAt(s, s', b)} :: GrowsAt(s, s', b)
  }

  ghost predicate GrowsAt(s: State, s': State, b: nat) {
    && (exists more :: InPool(s', b).todo == InPool(s, b).todo + more)
    && (forall x :: x in InPool(s, b).todo ==> SameMessage(s, s', Key(b, x)))
  }

  lemma WaitingMessage(s: State, b: nat, x: nat)
    requires Inv(s) && x in InPool(s, b).todo
    ensures OutKey(Origin(Inc(s, Key(b, x)))) && Aux(s, Origin(Inc(s, Key(b, x)))).phase.OutInFlight?
  {
    assert PoolOk(s.inPool, b, IN_SLOTS);
    assert InOk(s, Key(b, x));
  }

  lemma SameGrows(s: State, s': State)
    requires Inv(s) && s'.inPool == s.inPool && s'.inc == s.inc
    requires forall x {:trigger SameDelivered(s, s', x)} :: OutKey(x) ==> SameDelivered(s, s', x)
    ensures Grows(s, s')
  {
    forall b: nat ensures GrowsAt(s, s', b) {
      assert InPool(s', b).todo == InPool(s, b).todo + [];
      forall x | x in InPool(s, b).todo ensures SameMessage(s, s', Key(b, x)) {
        WaitingMessage(s, b, x);
        assert SameDelivered(s, s', Origin(Inc(s, Key(b, x))));
      }
    }
  }

  lemma DeliverGrows(s: State, box: nat)
    requires Inv(s) && CanDeliver(s, box)
    ensures Grows(s, DoDeliver(s, box))
  {
    var s' := DoDeliver(s, box);
    var c := Out(s, HeadKey(s, box)).gateway.box;
    var slot := InPool(s, c).free[0];
    assert PoolOk(s.inPool, c, IN_SLOTS);
    assert slot in InPool(s, c).free;
    forall b: nat ensures GrowsAt(s, s', b) {
      assert InPool(s', b).todo == InPool(s, b).todo + if b == c then [slot] else [];
    }
  }

  lemma PoolUpdateGrows(s: State, s': State, box: nat, v: View)
    requires s'.inPool == s.inPool[box := v] && v.todo == InPool(s, box).todo
    requires forall j {:trigger SameMessage(s, s', j)} :: SameMessage(s, s', j)
    ensures Grows(s, s')
  {
    forall b: nat ensures GrowsAt(s, s', b) {
      assert InPool(s', b).todo == InPool(s, b).todo + [];
    }
  }

  lemma GiveBackGrows(s: State, box: nat)
    requires Inv(s) && CanGiveBack(s, box)
    ensures Grows(s, DoGiveBack(s, box))
  {
    var s', j := DoGiveBack(s, box), Key(box, InPool(s, box).done[0]);
    GiveBackFacts(s, box);
    assert InOk(s, j) && OutOk(s, Origin(Inc(s, j)));
    PoolUpdateGrows(s, s', box, InPool(s', box));
  }

  lemma DispatchGrows(s: State, f: nat, value: u32)
    requires CanDispatch(s, f)
    ensures Grows(s, DoDispatch(s, f, value))
  {
    var s' := DoDispatch(s, f, value);
    forall b: nat ensures GrowsAt(s, s', b) {
      assert InPool(s', b).todo == InPool(s, b).todo + [];
    }
  }

  lemma ReportGrows(s: State, f: nat)
    requires CanReport(s, f) && Held(InPool(s, s.activities[f].j.box), s.activities[f].j.slot)
    ensures Grows(s, DoReport(s, f))
  {
    var j := s.activities[f].j;
    PoolUpdateGrows(s, DoReport(s, f), j.box, Enqueue(InPool(s, j.box), PoolSpec.Done, j.slot));
  }

  lemma SerialGrows(s: State, s': State)
    requires Serial(s) && Grows(s, s')
    requires forall f :: f in s'.activities && s'.activities[f].Found? ==>
               f in s.activities && s'.activities[f] == s.activities[f]
    ensures Serial(s')
  {
    forall f | f in s'.activities && s'.activities[f].Found?
      ensures StillFound(s', s'.activities[f])
    {
      var j := s.activities[f].j;
      assert GrowsAt(s, s', j.box);
      var more :| InPool(s', j.box).todo == InPool(s, j.box).todo + more;
      StillFoundKept(s, s', s.activities[f], more);
    }
  }

  lemma SerialQuiet(s: State, s': State)
    requires Inv(s) && Serial(s) && Quiet(s, s')
    ensures Serial(s')
  {
    SameGrows(s, s');
    SerialGrows(s, s');
  }

  lemma FindSerial(s: State, f: nat, box: nat, group: set<int>)
    requires Inv(s) && Serial(s) && CanFind(s, f, box, group) && !Searching(s, box)
    ensures Serial(DoFind(s, f, box, group))
  {
    var s' := DoFind(s, f, box, group);
    FirstMatchGrows(s, s', box, InPool(s, box).todo, [], group);
    assert InPool(s, box).todo + [] == InPool(s, box).todo;
    forall g | g in s.activities && s.activities[g].Found? ensures StillFound(s', s.activities[g]) {
      assert InPool(s', s.activities[g].j.box).todo == InPool(s, s.activities[g].j.box).todo + [];
      StillFoundKept(s, s', s.activities[g], []);
    }
  }

  lemma TakeFoundSerial(s: State, f: nat)
    requires Inv(s) && Serial(s) && CanTakeFound(s, f)
    ensures Serial(DoTakeFound(s, f))
  {
    SerialFound(s, f);
    TakeQueuedInv(s, f);
    ElsewhereSerial(s, f);
  }

  /** One handler stops looking and only the queue of its own box changes. */
  lemma ElsewhereSerial(s: State, f: nat)
    requires Serial(s) && CanTakeFound(s, f)
    ensures Serial(Taken(s, f))
  {
    var s' := Taken(s, f);
    forall g | g in s'.activities && s'.activities[g].Found? ensures StillFound(s', s'.activities[g]) {
      assert InPool(s', s.activities[g].j.box).todo == InPool(s, s.activities[g].j.box).todo + [];
      StillFoundKept(s, s', s.activities[g], []);
    }
  }

  lemma DeliverSerial(s: State, box: nat)
    requires Inv(s) && Serial(s) && CanDeliver(s, box)
    ensures Serial(DoDeliver(s, box))
  {
    DeliverGrows(s, box);
    SerialGrows(s, DoDeliver(s, box));
  }

  lemma GiveBackSerial(s: State, box: nat)
    requires Inv(s) && Serial(s) && CanGiveBack(s, box)
    ensures Serial(DoGiveBack(s, box))
  {
    GiveBackFacts(s, box);
    GiveBackGrows(s, box);
    SerialGrows(s, DoGiveBack(s, box));
  }

  lemma DispatchSerial(s: State, f: nat, value: u32)
    requires Inv(s) && Serial(s) && CanDispatch(s, f)
    ensures Serial(DoDispatch(s, f, value))
  {
    DispatchGrows(s, f, value);
    SerialGrows(s, DoDispatch(s, f, value));
  }

  lemma ReportSerial(s: State, f: nat)
    requires Inv(s) && Serial(s) && CanReport(s, f)
    ensures Serial(DoReport(s, f))
  {
    ReportFacts(s, f);
    ReportGrows(s, f);
    SerialGrows(s, DoReport(s, f));
  }

  lemma SerialKept(s: State, a: Action)
    requires Inv(s) && Serial(s) && Enabled(s, a) && Disciplined(s, a)
    ensures Serial(Apply(s, a))
  {
    if OfCaller(a) {
      DisciplineSuffices(s, a);
      ActionInv(s, a);
      SerialQuiet(s, Apply(s, a));
      return;
    }
    match a
    case Deliver(box) => DeliverSerial(s, box);
    case GiveBack(box) => GiveBackSerial(s, box);
    case Find(f, box, group) => FindSerial(s, f, box, group);
    case TakeFound(f) => TakeFoundSerial(s, f);
    case Dispatch(f, value) => DispatchSerial(s, f, value);
    case Report(f) => ReportSerial(s, f);
  }

  lemma DisciplineSuffices(s: State, a: Action)
    requires Inv(s) && Serial(s) && Enabled(s, a) && Disciplined(s, a)
    ensures Careful(s, a)
  {
    if a.Swap? { MixupExactly(s, a.t); }
    if a.TakeFound? { SerialFound(s, a.f); }
  }

  /** If in each box only one handler at a time is between finding and dequeuing,
      and cookies are waited on in time, then every run is careful, and a handler
      always dequeues the earliest waiting message that its group can handle. */
  lemma {:induction false} DisciplinedRunsAreCareful(s: State, run: seq<Action>)
    requires Inv(s) && Serial(s) && Legal(s, run) && DisciplinedRun(s, run)
    ensures CarefulRun(s, run)
    ensures Serial(After(s, run))
    decreases run
  {
    if run != [] {
      DisciplineSuffices(s, run[0]);
      ActionInv(s, run[0]);
      SerialKept(s, run[0]);
      DisciplinedRunsAreCareful(Apply(s, run[0]), run[1..]);
    }
  }

  /** So all results above hold for whole systems that keep the discipline. */
  lemma DisciplinedRunsReach(boxes: nat, gateways: set<Gateway>, run: seq<Action>)
    requires Legal(InitState(boxes, gateways), run) && DisciplinedRun(InitState(boxes, gateways), run)
    ensures Reachable(After(InitState(boxes, gateways), run)) && Serial(After(InitState(boxes, gateways), run))
  {
    InitInv(boxes, gateways);
    DisciplinedRunsAreCareful(InitState(boxes, gateways), run);
  }

  /** In a disciplined run a handler dequeues the send that it found, which is the earliest
      waiting message that its group can handle, and goes on to serve it for the first time. */
  lemma HandlerTakesEarliest(s: State, f: nat, value: u32)
    requires Inv(s) && Serial(s) && CanTakeFound(s, f)
    ensures var j, group, q := s.activities[f].j, s.activities[f].group, InPool(s, s.activities[f].j.box).todo;
            && DoTakeFound(s, f).activities == s.activities[f := Serving(j)] && RunsFound(s, f, value)
            && exists i :: (0 <= i < |q| && q[i] == j.slot && Inc(s, j).gateway.target in group
                            && forall h :: 0 <= h < i ==> Inc(s, Key(j.box, q[h])).gateway.target !in group)
  {
    SerialFound(s, f);
    TakeQueuedInv(s, f);
    DequeueExactly(s, f, value);
    var j, group, q := s.activities[f].j, s.activities[f].group, InPool(s, s.activities[f].j.box).todo;
    var i := FirstMatch(s, j.box, q, group);
    assert q[i] == j.slot;
  }

  // ---- two handlers can run one message twice ---------------------------------

  /** The first handler has answered; the second now gets the same slot again. */
  lemma SecondTake(s: State, box: nat, slot: nat, g: nat, w: u32)
    requires InPool(s, box).todo == [] && slot in InPool(s, box).done
    requires CanTakeFound(s, g) && s.activities[g].j == Key(box, slot)
    ensures Legal(s, [TakeFound(g)] + [Dispatch(g, w)])
    ensures var s', k := After(s, [TakeFound(g)] + [Dispatch(g, w)]), Origin(Inc(s, Key(box, slot)));
            |Aux(s', k).h.executions| == |Aux(s, k).h.executions| + 1
  {
    var t := DoTakeFound(s, g);
    assert Legal(DoDispatch(t, g, w), []);
    LegalThen(t, Dispatch(g, w), []);
    assert [Dispatch(g, w)] + [] == [Dispatch(g, w)];
    LegalThen(s, TakeFound(g), [Dispatch(g, w)]);
  }

  /** The first handler takes the only waiting message and runs it. */
  lemma FirstServes(s: State, box: nat, slot: nat, f: nat, v: u32)
    requires Inv(s) && InPool(s, box).todo == [slot] && InPool(s, box).done == []
    requires CanTakeFound(s, f) && s.activities[f].j == Key(box, slot)
    ensures var s1, k := DoTakeFound(s, f), Origin(Inc(s, Key(box, slot)));
            && CanDispatch(s1, f)
            && var s2 := DoDispatch(s1, f, v);
            && Inv(s2) && s2.activities == s.activities[f := Served(Key(box, slot))]
            && InPool(s2, box).todo == []
            && Origin(Inc(s2, Key(box, slot))) == k && |Aux(s2, k).h.executions| == 1
  {
    assert InOk(s, Key(box, slot)) by { assert ActivityOk(s, f); }
    TakeQueuedInv(s, f);
    DispatchInv(DoTakeFound(s, f), f, v);
  }

  lemma FirstReports(s: State, box: nat, slot: nat, f: nat)
    requires Inv(s) && f in s.activities && s.activities[f] == Served(Key(box, slot)) && InPool(s, box).todo == []
    ensures var s' := DoReport(s, f);
            && InPool(s', box).todo == [] && slot in InPool(s', box).done
            && s'.activities == s.activities - {f} && s'.inc == s.inc && s'.outAux == s.outAux
  {
    ReportFacts(s, f);
  }

  /** What a handler that answered leaves behind. */
  predicate FirstDone(s: State, s': State, box: nat, slot: nat, f: nat) {
    && InPool(s', box).todo == [] && slot in InPool(s', box).done
    && s'.activities == s.activities - {f}
    && Origin(Inc(s', Key(box, slot))) == Origin(Inc(s, Key(box, slot)))
    && |Aux(s', Origin(Inc(s, Key(box, slot)))).h.executions| == 1
  }

  lemma ServedOnce(s: State, box: nat, slot: nat, f: nat, v: u32)
    requires Inv(s) && InPool(s, box).todo == [slot] && InPool(s, box).done == []
    requires CanTakeFound(s, f) && s.activities[f].j == Key(box, slot)
    ensures CanDispatch(DoTakeFound(s, f), f) && CanReport(DoDispatch(DoTakeFound(s, f), f, v), f)
    ensures FirstDone(s, DoReport(DoDispatch(DoTakeFound(s, f), f, v), f), box, slot, f)
  {
    FirstServes(s, box, slot, f, v);
    var s2 := DoDispatch(DoTakeFound(s, f), f, v);
    FirstReports(s2, box, slot, f);
    assert s2.activities - {f} == s.activities - {f};
  }

  /** ... and answers. */
  lemma FirstAnswers(s: State, box: nat, slot: nat, f: nat, v: u32)
    requires Inv(s) && InPool(s, box).todo == [slot] && InPool(s, box).done == []
    requires CanTakeFound(s, f) && s.activities[f].j == Key(box, slot)
    ensures var run := [TakeFound(f)] + ([Dispatch(f, v)] + [Report(f)]);
            Legal(s, run) && FirstDone(s, After(s, run), box, slot, f)
  {
    ServedOnce(s, box, slot, f, v);
    ServeRun(s, f, v);
  }

  lemma ServeRun(s: State, f: nat, v: u32)
    requires CanTakeFound(s, f) && CanDispatch(DoTakeFound(s, f), f)
    requires CanReport(DoDispatch(DoTakeFound(s, f), f, v), f)
    ensures var run := [TakeFound(f)] + ([Dispatch(f, v)] + [Report(f)]);
            Legal(s, run) && After(s, run) == DoReport(DoDispatch(DoTakeFound(s, f), f, v), f)
  {
    var s1 := DoTakeFound(s, f);
    ThreeSteps(s, s1, DoDispatch(s1, f, v), TakeFound(f), Dispatch(f, v), Report(f));
  }

  function FoundIn(s: State, box: nat, slot: nat, group: set<int>): Activity {
    var k := Origin(Inc(s, Key(box, slot)));
    Found(Key(box, slot), group, k, Aux(s, k).h.stamp)
  }

  lemma BothFind(s: State, box: nat, slot: nat, f: nat, g: nat, group: set<int>)
    requires Inv(s) && InPool(s, box).todo == [slot] && Inc(s, Key(box, slot)).gateway.target in group
    requires f != g && f !in s.activities && g !in s.activities
    ensures var run := [Find(f, box, group)] + [Find(g, box, group)];
            && Legal(s, run) && Inv(After(s, run))
            && var a := FoundIn(s, box, slot, group);
            After(s, run) == s.(activities := s.activities[f := a][g := a])
  {
    var s1 := DoFind(s, f, box, group);
    FindInv(s, f, box, group);
    FindInv(s1, g, box, group);
    assert Legal(DoFind(s1, g, box, group), []);
    LegalThen(s1, Find(g, box, group), []);
    assert [Find(g, box, group)] + [] == [Find(g, box, group)];
    LegalThen(s, Find(f, box, group), [Find(g, box, group)]);
  }

  function DoubleRun(box: nat, f: nat, g: nat, group: set<int>, v: u32, w: u32): seq<Action> {
    ([Find(f, box, group)] + [Find(g, box, group)])
    + (([TakeFound(f)] + ([Dispatch(f, v)] + [Report(f)])) + ([TakeFound(g)] + [Dispatch(g, w)]))
  }

  /** From every consistent state in which one message waits in a box and nothing
      else is unanswered there, two handlers whose groups contain its target can
      both dispatch it: the send is executed twice. */
  lemma TwoHandlersCanDispatchTwice(s: State, box: nat, slot: nat, f: nat, g: nat, group: set<int>, v: u32, w: u32)
    requires Inv(s) && InPool(s, box).todo == [slot] && InPool(s, box).done == []
    requires f != g && f !in s.activities && g !in s.activities
    requires Inc(s, Key(box, slot)).gateway.target in group
    ensures Legal(s, DoubleRun(box, f, g, group, v, w))
    ensures var k := Origin(Inc(s, Key(box, slot)));
            |Aux(After(s, DoubleRun(box, f, g, group, v, w)), k).h.executions| == 2
  {
    var finds := [Find(f, box, group)] + [Find(g, box, group)];
    var first := [TakeFound(f)] + ([Dispatch(f, v)] + [Report(f)]);
    var second := [TakeFound(g)] + [Dispatch(g, w)];
    BothFind(s, box, slot, f, g, group);
    var s2 := After(s, finds);
    FirstAnswers(s2, box, slot, f, v);
    SecondTake(After(s2, first), box, slot, g, w);
    LegalAppend(s2, first, second);
    LegalAppend(s, finds, first + second);
  }

  const ExampleGateway := Gateway(AsyncMagic, true, 1, 7)

  lemma ExampleDelivery(s: State)
    requires s.boxes == 2 && s.inPool == map[] && s.activities.Keys == {0}
    requires OutPool(s, 0).todo == [0] && Out(s, Key(0, 0)).gateway == ExampleGateway
    ensures CanDeliver(s, 0)
    ensures var s' := DoDeliver(s, 0);
            && s'.activities.Keys == {0} && InPool(s', 1).todo == [0] && InPool(s', 1).done == []
            && Inc(s', Key(1, 0)).gateway.target == 7
  {
    assert HeadKey(s, 0) == Key(0, 0);
    assert InPool(s, 1).free[0] == 0;
  }

  /** A state as in TwoHandlersCanDispatchTwice is reached by two boxes and one call. */
  lemma OneCallPending()
    ensures exists s :: Reachable(s) && s.activities.Keys == {0} && InPool(s, 1).todo == [0]
                        && InPool(s, 1).done == [] && Inc(s, Key(1, 0)).gateway.target == 7
  {
    ExampleSend(2, {ExampleGateway}, ExampleGateway);
    var send, deliver := ExampleRun(ExampleGateway), [Deliver(0)];
    var s := After(InitState(2, {ExampleGateway}), send);
    ExampleDelivery(s);
    assert Legal(DoDeliver(s, 0), []);
    LegalThen(s, Deliver(0), []);
    assert deliver + [] == deliver;
    LegalAppend(InitState(2, {ExampleGateway}), send, deliver);
    CallerRunCareful(InitState(2, {ExampleGateway}), send + deliver);
    assert Reachable(DoDeliver(s, 0));
  }
}
