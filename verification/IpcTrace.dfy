/** What a delivered receive holds, in terms of the calls that the boxes made. */
module IpcTrace {
  import opened IpcTokens
  import opened PoolSpec
  import opened IpcProtocol

  /** The state before each action, and the last one. */
  function States(s: State, run: seq<Action>): (st: seq<State>)
    requires Legal(s, run)
    ensures |st| == |run| + 1 && st[0] == s && st[|run|] == After(s, run)
    decreases |run|
  {
    if run == [] then [s] else [s] + States(Apply(s, run[0]), run[1..])
  }

  predicate LeapAt(st: seq<State>, run: seq<Action>, n: nat)
    requires |st| == |run| + 1 && n < |run|
  {
    Enabled(st[n], run[n]) && st[n + 1] == Apply(st[n], run[n])
  }

  ghost predicate Chain(st: seq<State>, run: seq<Action>) {
    && |st| == |run| + 1
    && forall n: nat {:trigger LeapAt(st, run, n)} :: n < |run| ==> LeapAt(st, run, n)
  }

  lemma {:induction false} StatesChain(s: State, run: seq<Action>)
    requires Legal(s, run)
    ensures Chain(States(s, run), run)
    decreases |run|
  {
    var st := States(s, run);
    if run != [] {
      var rest := States(Apply(s, run[0]), run[1..]);
      StatesChain(Apply(s, run[0]), run[1..]);
      forall n: nat | n < |run| ensures LeapAt(st, run, n) {
        if n > 0 { assert LeapAt(rest, run[1..], n - 1); }
      }
    }
  }

  lemma {:induction false} ChainInv(st: seq<State>, run: seq<Action>, n: nat)
    requires Chain(st, run) && Inv(st[0]) && n <= |run|
    ensures Inv(st[n])
    decreases n
  {
    if n > 0 {
      ChainInv(st, run, n - 1);
      assert LeapAt(st, run, n - 1);
      StepInv(st[n - 1], run[n - 1]);
    }
  }

  // ---- where requests come from -----------------------------------------------------------------

  /** Action `i` is the call that makes request `r`. */
  predicate Calls(run: seq<Action>, i: nat, r: nat, q: Request) {
    && i < |run| && run[i].Take? && run[i].r == r
    && run[i].owner == q.owner && run[i].kind == q.kind && run[i].desc == q.asked
  }

  /** Action `d` delivers send `h` to receive `m`. */
  predicate Delivers(st: seq<State>, run: seq<Action>, d: nat, h: nat, m: nat)
    requires |st| == |run| + 1
  {
    && d < |run| && run[d].Deliver? && CanDeliver(st[d], run[d].box)
    && Head(st[d], run[d].box) == h && Receiver(st[d], run[d].box) == m
  }

  /** The buffer of a request: untouched, unless it is a receive and was delivered to. Then
      it begins with the bytes of the send and goes on as it was. */
  ghost predicate Text(st: seq<State>, run: seq<Action>, n: nat, i: nat, r: nat, q: Request)
    requires |st| == |run| + 1 && Calls(run, i, r, q)
  {
    if q.kind == SendIo || !DonePair(q) then q.text == run[i].text
    else exists d: nat :: && i < d < n && Delivers(st, run, d, q.partner, r)
                          && q.partner in st[d].requests && |st[d].requests[q.partner].text| <= |run[i].text|
                          && q.text == Overlaid(st[d].requests[q.partner].text, run[i].text)
  }

  function Overlaid(text: seq<nat>, buffer: seq<nat>): seq<nat>
    requires |text| <= |buffer|
  {
    text + buffer[|text|..]
  }

  ghost predicate Called(st: seq<State>, run: seq<Action>, n: nat, r: nat, q: Request)
    requires |st| == |run| + 1
  {
    exists i: nat :: i < n && Calls(run, i, r, q) && Text(st, run, n, i, r, q)
  }

  predicate SameCall(q: Request, q': Request) {
    && q'.owner == q.owner && q'.kind == q.kind && q'.asked == q.asked && q'.text == q.text
    && q'.partner == q.partner && DonePair(q') == DonePair(q)
  }

  /** What becomes of request `r` in one action. */
  ghost predicate Moves(s: State, a: Action, s': State, r: nat) {
    r in s'.requests ==>
      || (r in s.requests && SameCall(s.requests[r], s'.requests[r]))
      || (&& a.Take? && a.r == r
          && s'.requests[r].owner == a.owner && s'.requests[r].kind == a.kind && s'.requests[r].asked == a.desc
          && s'.requests[r].text == a.text && !DonePair(s'.requests[r]))
      || (a.Deliver? && CanDeliver(s, a.box) && (r == Head(s, a.box) || r == Receiver(s, a.box)))
  }

  lemma MovesBy(s: State, a: Action, r: nat)
    requires Inv(s) && Enabled(s, a)
    ensures Moves(s, a, Apply(s, a), r)
  {
    if a.Discard? { HeadFacts(s, a.box); }
  }

  /** What a delivery writes to its two requests. */
  lemma DeliverWrites(s: State, box: nat)
    requires Inv(s) && Enabled(s, Deliver(box))
    ensures var h, m, s' := Head(s, box), Receiver(s, box), DoDeliver(s, box);
            && h != m && h in s.requests && m in s.requests && FinishedTogether(s', h, m)
            && s.requests[h].kind == SendIo && s.requests[m].kind == RecvIo
            && !DonePair(s.requests[h]) && !DonePair(s.requests[m])
            && SameButDone(s.requests[h], s'.requests[h]) && s'.requests[h].text == s.requests[h].text
            && SameButDone(s.requests[m], s'.requests[m])
            && |s.requests[h].text| <= |s.requests[m].text|
            && s'.requests[m].text == Overlaid(s.requests[h].text, s.requests[m].text)
  {
    HeadFacts(s, box);
    ReceiverFacts(s, box);
    FirstFinished(s, box);
  }

  predicate SameButDone(q: Request, q': Request) {
    q'.owner == q.owner && q'.kind == q.kind && q'.asked == q.asked && q'.stage == Finished
  }

  lemma CalledKept(st: seq<State>, run: seq<Action>, n: nat, r: nat, q: Request, q': Request)
    requires |st| == |run| + 1 && Called(st, run, n, r, q) && SameCall(q, q')
    ensures Called(st, run, n + 1, r, q')
  {
    var i: nat :| i < n && Calls(run, i, r, q) && Text(st, run, n, i, r, q);
    assert Calls(run, i, r, q');
    assert Text(st, run, n + 1, i, r, q');
  }

  lemma CalledDelivered(st: seq<State>, run: seq<Action>, n: nat, r: nat)
    requires Chain(st, run) && n < |run| && Inv(st[n]) && run[n].Deliver? && Enabled(st[n], run[n])
    requires r == Head(st[n], run[n].box) || r == Receiver(st[n], run[n].box)
    requires r in st[n].requests && Called(st, run, n, r, st[n].requests[r])
    ensures r in st[n + 1].requests && Called(st, run, n + 1, r, st[n + 1].requests[r])
  {
    assert LeapAt(st, run, n);
    DeliverWrites(st[n], run[n].box);
    var q, q' := st[n].requests[r], st[n + 1].requests[r];
    var i: nat :| i < n && Calls(run, i, r, q) && Text(st, run, n, i, r, q);
    assert Calls(run, i, r, q');
    if r == Receiver(st[n], run[n].box) {
      assert Delivers(st, run, n, q'.partner, r);
    }
    assert Text(st, run, n + 1, i, r, q');
  }

  /** Every request comes from a call, and its buffer from that call and its delivery. */
  lemma {:induction false} RequestsCalled(st: seq<State>, run: seq<Action>, n: nat, r: nat)
    requires Chain(st, run) && Inv(st[0]) && st[0].requests == map[] && n <= |run| && r in st[n].requests
    ensures Called(st, run, n, r, st[n].requests[r])
    decreases n
  {
    var m := n - 1;
    var s, a, q' := st[m], run[m], st[n].requests[r];
    assert LeapAt(st, run, m);
    ChainInv(st, run, m);
    MovesBy(s, a, r);
    if r in s.requests && SameCall(s.requests[r], q') {
      RequestsCalled(st, run, m, r);
      CalledKept(st, run, m, r, s.requests[r], q');
    } else if a.Take? {
      assert Calls(run, m, r, q') && Text(st, run, n, m, r, q');
    } else {
      DeliverWrites(s, a.box);
      RequestsCalled(st, run, m, r);
      CalledDelivered(st, run, m, r);
    }
  }

  lemma {:induction false} StaysIn(st: seq<State>, run: seq<Action>, m: nat, n: nat, r: nat)
    requires Chain(st, run) && m <= n <= |run| && r in st[m].requests
    ensures r in st[n].requests
    decreases n
  {
    if m < n {
      StaysIn(st, run, m, n - 1, r);
      assert LeapAt(st, run, n - 1);
    }
  }

  /** A request is made once. */
  lemma CalledOnce(st: seq<State>, run: seq<Action>, i: nat, j: nat, r: nat)
    requires Chain(st, run) && i < |run| && j < |run| && run[i].Take? && run[j].Take? && run[i].r == run[j].r == r
    ensures i == j
  {
    assert LeapAt(st, run, i) && LeapAt(st, run, j);
    if i < j { StaysIn(st, run, i + 1, j, r); }
    if j < i { StaysIn(st, run, j + 1, i, r); }
  }

  /** The send that was delivered, as it was then and as it is later. */
  lemma SendCalled(st: seq<State>, run: seq<Action>, d: nat, n: nat, h: nat, m: nat) returns (i: nat)
    requires Chain(st, run) && Inv(st[0]) && st[0].requests == map[] && d < n <= |run|
    requires Delivers(st, run, d, h, m) && h in st[n].requests && st[n].requests[h].kind == SendIo
    ensures i < d && Calls(run, i, h, st[n].requests[h]) && run[i].owner == run[d].box
    ensures h in st[d].requests && st[d].requests[h].text == st[n].requests[h].text == run[i].text
  {
    ChainInv(st, run, d);
    HeadFacts(st[d], run[d].box);
    RequestsCalled(st, run, d, h);
    RequestsCalled(st, run, n, h);
    i :| i < d && Calls(run, i, h, st[d].requests[h]) && Text(st, run, d, i, h, st[d].requests[h]);
    var k: nat :| k < n && Calls(run, k, h, st[n].requests[h]) && Text(st, run, n, k, h, st[n].requests[h]);
    CalledOnce(st, run, i, k, h);
  }

  /** The call that made a receive that was delivered to, and its delivery. */
  lemma RecvCalled(st: seq<State>, run: seq<Action>, n: nat, m: nat) returns (j: nat, d: nat)
    requires Chain(st, run) && Inv(st[0]) && st[0].requests == map[] && n <= |run|
    requires m in st[n].requests && st[n].requests[m].kind == RecvIo && DonePair(st[n].requests[m])
    ensures var recv := st[n].requests[m];
            && j < d < n && Calls(run, j, m, recv) && Delivers(st, run, d, recv.partner, m)
            && recv.partner in st[d].requests && |st[d].requests[recv.partner].text| <= |run[j].text|
            && recv.text == Overlaid(st[d].requests[recv.partner].text, run[j].text)
  {
    var recv := st[n].requests[m];
    RequestsCalled(st, run, n, m);
    j :| j < n && Calls(run, j, m, recv) && Text(st, run, n, j, m, recv);
    d :| && j < d < n && Delivers(st, run, d, recv.partner, m)
         && recv.partner in st[d].requests && |st[d].requests[recv.partner].text| <= |run[j].text|
         && recv.text == Overlaid(st[d].requests[recv.partner].text, run[j].text);
  }

  // ---- main result -------------------------------------------------------------------------------

  /** Calls `i` and `j` were a send and a receive that accepts it, action `d` delivered the one
      to the other, and the receive now holds the bytes that were sent, over its old buffer,
      and their origin, port and number. */
  ghost predicate Received(st: seq<State>, run: seq<Action>, h: nat, m: nat, recv: Request, i: nat, j: nat, d: nat)
    requires |st| == |run| + 1
  {
    && i < d && j < d && Delivers(st, run, d, h, m)
    && i < |run| && run[i].Take? && run[i].r == h && run[i].kind == SendIo
    && j < |run| && run[j].Take? && run[j].r == m && run[j].kind == RecvIo
    && run[d].box == run[i].owner && run[i].desc.box == run[j].owner && run[i].desc.port == run[j].desc.port
    && (run[j].desc.box == run[i].owner || run[j].desc.box == ANY_BOX)
    && |run[i].text| == run[i].desc.len <= run[j].desc.len == |run[j].text|
    && recv.text == Overlaid(run[i].text, run[j].text)
    && recv.desc == Desc(run[i].owner, run[i].desc.port, run[i].desc.len)
  }

  lemma ReceivedIs(st: seq<State>, run: seq<Action>, s: State, m: nat, i: nat, j: nat, d: nat)
    requires |st| == |run| + 1 && Inv(s) && m in s.requests && s.requests[m].kind == RecvIo && DonePair(s.requests[m])
    requires var recv := s.requests[m];
             && recv.partner in s.requests && i < d && j < d && Delivers(st, run, d, recv.partner, m)
             && Calls(run, i, recv.partner, s.requests[recv.partner]) && run[i].owner == run[d].box
             && s.requests[recv.partner].text == run[i].text
             && Calls(run, j, m, recv) && |run[i].text| <= |run[j].text|
             && recv.text == Overlaid(run[i].text, run[j].text)
    ensures Received(st, run, s.requests[m].partner, m, s.requests[m], i, j, d)
  {
    assert PairOk(s, m) && ReqOk(s, m) && ReqOk(s, s.requests[m].partner);
  }

  /** In every run, a receive that was delivered to holds what one call of ipc_send asked to
      send. */
  lemma ReceivesWhatWasSent(boxes: nat, run: seq<Action>, m: nat)
    requires Legal(Start(boxes), run) && m in After(Start(boxes), run).requests
    requires var recv := After(Start(boxes), run).requests[m]; recv.kind == RecvIo && DonePair(recv)
    ensures var recv := After(Start(boxes), run).requests[m];
            exists i: nat, j: nat, d: nat ::
              Received(States(Start(boxes), run), run, recv.partner, m, recv, i, j, d)
  {
    var st, n := States(Start(boxes), run), |run|;
    StartInv(boxes);
    StatesChain(Start(boxes), run);
    ChainInv(st, run, n);
    var recv := st[n].requests[m];
    assert PairOk(st[n], m);
    var j, d := RecvCalled(st, run, n, m);
    var i := SendCalled(st, run, d, n, recv.partner, m);
    ReceivedIs(st, run, st[n], m, i, j, d);
  }
}
