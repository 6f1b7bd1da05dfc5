/** What the calls that return have to do with the actions of their run: which call made the
    send, which dispatch ran its target, and whom the value was given to. */
module RpcTrace {
  import opened Cookies
  import opened PoolSpec
  import opened RpcProtocol
  import opened RpcInvariant
  import opened RpcTheorems
  import opened RpcRecords

  // ---- the states of a run ------------------------------------------------------------------

  /** The state before each action, and the last one. */
  function States(s: State, run: seq<Action>): (st: seq<State>)
    requires Legal(s, run)
    ensures |st| == |run| + 1 && st[0] == s && st[|run|] == After(s, run)
    decreases run
  {
    if run == [] then [s] else [s] + States(Apply(s, run[0]), run[1..])
  }

  predicate Leap(s: State, a: Action, s': State) {
    Enabled(s, a) && Careful(s, a) && s' == Apply(s, a)
  }

  /** Careful actions lead from each state to the next. */
  ghost predicate Chain(st: seq<State>, run: seq<Action>) {
    && |st| == |run| + 1
    && forall n: nat {:trigger LeapAt(st, run, n)} :: n < |run| ==> LeapAt(st, run, n)
  }

  predicate LeapAt(st: seq<State>, run: seq<Action>, n: nat)
    requires |st| == |run| + 1 && n < |run|
  {
    Leap(st[n], run[n], st[n + 1])
  }

  lemma {:induction false} StatesChain(s: State, run: seq<Action>)
    requires Legal(s, run) && CarefulRun(s, run)
    ensures Chain(States(s, run), run)
    decreases run
  {
    var st := States(s, run);
    if run != [] {
      var rest := States(Apply(s, run[0]), run[1..]);
      StatesChain(Apply(s, run[0]), run[1..]);
      forall n: nat | n < |run| ensures LeapAt(st, run, n) {
        if n > 0 { assert LeapAt(rest, run[1..], n - 1); }
      }
    }
  }

  lemma {:induction false} ChainInv(st: seq<State>, run: seq<Action>, n: nat)
    requires Chain(st, run) && Inv(st[0]) && n <= |run|
    ensures Inv(st[n])
    decreases n
  {
    if n > 0 {
      ChainInv(st, run, n - 1);
      assert LeapAt(st, run, n - 1);
      ActionInv(st[n - 1], run[n - 1]);
    }
  }

  lemma {:induction false} StampsGrow(st: seq<State>, run: seq<Action>, m: nat, n: nat, box: nat)
    requires Chain(st, run) && m <= n <= |run|
    ensures Stamps(st[m], box) <= Stamps(st[n], box)
    decreases n
  {
    if m < n {
      StampsGrow(st, run, m, n - 1, box);
      assert LeapAt(st, run, n - 1);
      StampsStep(st[n - 1], run[n - 1], box);
    }
  }

  // ---- who sent -----------------------------------------------------------------------------------

  /** Activity `f` claimed slot `k` with action `i` and has held it unfilled up to state `n`. */
  ghost predicate Holds(st: seq<State>, run: seq<Action>, i: nat, n: nat, k: Key)
    requires |st| == |run| + 1 && i < n <= |run|
  {
    && run[i].Claim? && run[i].box == k.box
    && OutPool(st[i], k.box).free != [] && OutPool(st[i], k.box).free[0] == k.slot
    && forall x {:trigger st[x]} :: i < x <= n ==>
         run[i].f in st[x].activities
         && st[x].activities[run[i].f] == Claimed(k, run[i].sync, run[i].args, run[i].gateway)
  }

  /** Action `i` claims slot `k` and action `b` fills it, as send number `stamp` of the box. */
  ghost predicate Sends(st: seq<State>, run: seq<Action>, i: nat, b: nat, k: Key, stamp: nat)
    requires |st| == |run| + 1
  {
    && i < b < |run| && Holds(st, run, i, b, k)
    && run[b] == Fill(run[i].f) && Stamps(st[b], k.box) + 1 == stamp
  }

  ghost predicate Asks(st: seq<State>, run: seq<Action>, i: nat, b: nat, k: Key, h: Send)
    requires |st| == |run| + 1
  {
    Sends(st, run, i, b, k, h.stamp) && run[i].args == h.args && run[i].gateway == h.gateway
  }

  /** Whoever holds a slot unfilled has claimed it. */
  ghost predicate ClaimTraced(st: seq<State>, run: seq<Action>, n: nat, f: nat)
    requires |st| == |run| + 1 && n <= |run|
  {
    f in st[n].activities && st[n].activities[f].Claimed? ==>
      exists i: nat :: i < n && run[i].Claim? && run[i].f == f && Holds(st, run, i, n, st[n].activities[f].k)
  }

  lemma {:induction false} ClaimsTraced(st: seq<State>, run: seq<Action>, n: nat, f: nat)
    requires Chain(st, run) && n <= |run| && st[0].activities == map[]
    ensures ClaimTraced(st, run, n, f)
    decreases n
  {
    if n > 0 && f in st[n].activities && st[n].activities[f].Claimed? {
      var a, m := st[n].activities[f], n - 1;
      assert LeapAt(st, run, m);
      Becoming(st[m], run[m], f);
      if f in st[m].activities && st[m].activities[f] == a {
        ClaimsTraced(st, run, m, f);
        var i: nat :| i < m && run[i].Claim? && run[i].f == f && Holds(st, run, i, m, a.k);
        assert st[m].activities[f] == a;
        assert Holds(st, run, i, n, a.k);
      } else {
        assert Holds(st, run, m, n, a.k);
      }
    }
  }

  /** Two sends of a box with the same number are one. */
  lemma SendsUnique(st: seq<State>, run: seq<Action>, i: nat, b: nat, i': nat, b': nat, k: Key, k': Key, stamp: nat)
    requires Chain(st, run) && Sends(st, run, i, b, k, stamp) && Sends(st, run, i', b', k', stamp) && k.box == k'.box
    ensures i == i' && b == b'
  {
    if b < b' { FillsOnce(st, run, i, b, b', k, stamp); }
    if b' < b { FillsOnce(st, run, i', b', b, k', stamp); }
    assert LeapAt(st, run, i) && LeapAt(st, run, i');
  }

  lemma FillsOnce(st: seq<State>, run: seq<Action>, i: nat, b: nat, n: nat, k: Key, stamp: nat)
    requires Chain(st, run) && Sends(st, run, i, b, k, stamp) && b < n <= |run|
    ensures Stamps(st[n], k.box) >= stamp
  {
    assert LeapAt(st, run, b);
    assert st[b].activities[run[i].f].k == k;
    StampsStep(st[b], run[b], k.box);
    StampsGrow(st, run, b + 1, n, k.box);
  }

  /** Whoever fills a slot sends. */
  lemma FillSends(st: seq<State>, run: seq<Action>, b: nat) returns (i: nat)
    requires Chain(st, run) && st[0].activities == map[] && b < |run| && run[b].Fill?
    ensures run[b].f in st[b].activities && st[b].activities[run[b].f].Claimed?
    ensures var a := st[b].activities[run[b].f];
            && Sends(st, run, i, b, a.k, Stamps(st[b], a.k.box) + 1) && run[i].f == run[b].f
            && run[i].sync == a.sync && run[i].args == a.args && run[i].gateway == a.gateway
  {
    assert LeapAt(st, run, b);
    ClaimsTraced(st, run, b, run[b].f);
    var a := st[b].activities[run[b].f];
    i :| i < b && run[i].Claim? && run[i].f == run[b].f && Holds(st, run, i, b, a.k);
    assert st[b].activities[run[i].f] == a;
  }

  // ---- what ran ------------------------------------------------------------------------------------

  /** Action `x` dispatches the message of send `stamp` from slot `k`. */
  predicate Dispatches(st: seq<State>, run: seq<Action>, x: nat, k: Key, stamp: nat)
    requires |st| == |run| + 1
  {
    && x < |run| && run[x].Dispatch?
    && run[x].f in st[x].activities && st[x].activities[run[x].f].Serving?
    && Origin(Inc(st[x], st[x].activities[run[x].f].j)) == k && Aux(st[x], k).h.stamp == stamp
  }

  /** It does so in the callee's box, on a message with the gateway and the arguments of the
      send and the caller's box id, and the target returns `value`. */
  predicate Runs(st: seq<State>, run: seq<Action>, x: nat, k: Key, h: Send, value: u32)
    requires |st| == |run| + 1
  {
    && Dispatches(st, run, x, k, h.stamp) && run[x].value == value
    && var j := st[x].activities[run[x].f].j;
    && j.box == h.gateway.box && Inc(st[x], j).gateway == h.gateway && Inc(st[x], j).args == h.args
    && Inc(st[x], j).otherBox == k.box
  }

  /** Of the first `n` actions only `x` dispatches the send. */
  ghost predicate OnlyRun(st: seq<State>, run: seq<Action>, x: nat, n: nat, k: Key, h: Send, value: u32)
    requires |st| == |run| + 1
  {
    && x < n && Runs(st, run, x, k, h, value)
    && forall y: nat :: Dispatches(st, run, y, k, h.stamp) && y < n ==> y == x
  }

  ghost predicate NotRun(st: seq<State>, run: seq<Action>, n: nat, k: Key, stamp: nat)
    requires |st| == |run| + 1
  {
    forall y: nat :: Dispatches(st, run, y, k, stamp) ==> y >= n
  }

  /** The send was made by two of the first `n` actions, and what its history says of its
      execution is what the actions did. */
  ghost predicate Told(st: seq<State>, run: seq<Action>, i: nat, b: nat, n: nat, k: Key, h: Send)
    requires |st| == |run| + 1
  {
    && b < n && Asks(st, run, i, b, k, h)
    && (h.executions == [] ==> NotRun(st, run, n, k, h.stamp))
    && (|h.executions| == 1 ==> exists x: nat :: b < x && OnlyRun(st, run, x, n, k, h, h.executions[0].value))
  }

  ghost predicate Story(st: seq<State>, run: seq<Action>, n: nat, k: Key, h: Send)
    requires |st| == |run| + 1
  {
    exists i: nat, b: nat :: Told(st, run, i, b, n, k, h)
  }

  lemma StoryKept(st: seq<State>, run: seq<Action>, n: nat, k: Key, h: Send, h': Send)
    requires Chain(st, run) && n < |run| && Story(st, run, n, k, h) && SameSend(h, h')
    requires !Dispatches(st, run, n, k, h.stamp)
    ensures Story(st, run, n + 1, k, h')
  {
    var i: nat, b: nat :| Told(st, run, i, b, n, k, h);
    if |h.executions| == 1 {
      var x: nat :| b < x && OnlyRun(st, run, x, n, k, h, h.executions[0].value);
      OnlyRunKept(st, run, x, n, k, h, h', h.executions[0].value);
    }
    assert Asks(st, run, i, b, k, h');
    assert Told(st, run, i, b, n + 1, k, h');
  }

  lemma OnlyRunKept(st: seq<State>, run: seq<Action>, x: nat, n: nat, k: Key, h: Send, h': Send, value: u32)
    requires |st| == |run| + 1 && OnlyRun(st, run, x, n, k, h, value) && SameSend(h, h')
    requires !Dispatches(st, run, n, k, h.stamp)
    ensures OnlyRun(st, run, x, n + 1, k, h', value)
  {
  }

  /** A send that is being made was not dispatched before. */
  lemma NewNotRun(st: seq<State>, run: seq<Action>, n: nat, k: Key, stamp: nat)
    requires Chain(st, run) && Inv(st[0]) && n <= |run| && OutKey(k) && Stamps(st[n], k.box) < stamp
    ensures NotRun(st, run, n + 1, k, stamp)
  {
    forall y: nat | Dispatches(st, run, y, k, stamp) ensures y >= n + 1 {
      if y <= n {
        ChainInv(st, run, y);
        assert StampOk(st[y], k);
        StampsGrow(st, run, y, n, k.box);
      }
    }
  }

  lemma StoryFilled(st: seq<State>, run: seq<Action>, n: nat)
    requires Chain(st, run) && Inv(st[0]) && st[0].activities == map[] && n < |run| && run[n].Fill?
    ensures run[n].f in st[n].activities && st[n].activities[run[n].f].Claimed?
    ensures var k := st[n].activities[run[n].f].k; OutKey(k) ==> Story(st, run, n + 1, k, Aux(st[n + 1], k).h)
  {
    var i := FillSends(st, run, n);
    var k := st[n].activities[run[n].f].k;
    assert LeapAt(st, run, n);
    if OutKey(k) {
      NewNotRun(st, run, n, k, Stamps(st[n], k.box) + 1);
      assert st[n + 1] == DoFill(st[n], run[n].f);
      assert Told(st, run, i, n, n + 1, k, Aux(st[n + 1], k).h);
    }
  }

  /** What a dispatch finds and leaves. */
  lemma DispatchFacts(s: State, f: nat, value: u32)
    requires Inv(s) && CanDispatch(s, f)
    ensures var j := s.activities[f].j;
            var k, m := Origin(Inc(s, j)), Inc(s, j);
            var h, h' := Aux(s, k).h, Aux(DoDispatch(s, f, value), k).h;
            && OutKey(k) && h.stamp > 0 && h.executions == [] && Live(Aux(s, k).phase) && h.returned == []
            && j.box == h.gateway.box && m.gateway == h.gateway && m.args == h.args && m.otherBox == k.box
            && h'.stamp == h.stamp && h'.args == h.args && h'.gateway == h.gateway
            && |h'.executions| == 1 && h'.executions[0].value == value
  {
    var j := s.activities[f].j;
    assert ActivityOk(s, f) && InOk(s, j) && OutOk(s, Origin(Inc(s, j)));
  }

  lemma RunsNow(st: seq<State>, run: seq<Action>, n: nat, k: Key)
    requires Chain(st, run) && n < |run| && Inv(st[n]) && run[n].Dispatch? && CanDispatch(st[n], run[n].f)
    requires k == Origin(Inc(st[n], st[n].activities[run[n].f].j))
    ensures var h, h' := Aux(st[n], k).h, Aux(st[n + 1], k).h;
            && h'.stamp == h.stamp && h'.args == h.args && h'.gateway == h.gateway && h.executions == []
            && |h'.executions| == 1 && Runs(st, run, n, k, h', h'.executions[0].value)
  {
    assert LeapAt(st, run, n);
    DispatchFacts(st[n], run[n].f, run[n].value);
  }

  lemma StoryRun(st: seq<State>, run: seq<Action>, n: nat, k: Key, h: Send, h': Send)
    requires |st| == |run| + 1 && Story(st, run, n, k, h) && h.executions == []
    requires h'.stamp == h.stamp && h'.args == h.args && h'.gateway == h.gateway
    requires |h'.executions| == 1 && Runs(st, run, n, k, h', h'.executions[0].value)
    ensures Story(st, run, n + 1, k, h')
  {
    var i: nat, b: nat :| Told(st, run, i, b, n, k, h);
    assert OnlyRun(st, run, n, n + 1, k, h', h'.executions[0].value);
    assert Told(st, run, i, b, n + 1, k, h');
  }

  /** In every state the history of a slot's latest send tells what the actions did. */
  lemma {:induction false} SendsTold(st: seq<State>, run: seq<Action>, n: nat, k: Key)
    requires Chain(st, run) && Inv(st[0]) && st[0].activities == map[] && st[0].outAux == map[] && n <= |run|
    requires OutKey(k) && Aux(st[n], k).h.stamp > 0
    ensures Story(st, run, n, k, Aux(st[n], k).h)
    decreases n
  {
    var m := n - 1;
    var s, a := st[m], run[m];
    assert LeapAt(st, run, m);
    ChainInv(st, run, m);
    ActionRecords(s, a);
    if a.Fill? && Touched(s, a) == k {
      StoryFilled(st, run, m);
    } else if a.Dispatch? && Touched(s, a) == k {
      DispatchFacts(s, a.f, a.value);
      SendsTold(st, run, m, k);
      RunsNow(st, run, m, k);
      StoryRun(st, run, m, k, Aux(s, k).h, Aux(st[n], k).h);
    } else {
      assert SameSend(Aux(s, k).h, Aux(st[n], k).h);
      SendsTold(st, run, m, k);
      StoryKept(st, run, m, k, Aux(s, k).h, Aux(st[n], k).h);
    }
  }

  // ---- who waits --------------------------------------------------------------------------------------

  /** Activity `f` itself made the send, as a synchronous call or not. */
  ghost predicate SentBy(st: seq<State>, run: seq<Action>, n: nat, k: Key, stamp: nat, f: nat, sync: bool)
    requires |st| == |run| + 1
  {
    exists i: nat, b: nat :: Sends(st, run, i, b, k, stamp) && b < n && run[i].f == f && run[i].sync == sync
  }

  /** Action `c` returns the cookie of a send that an asynchronous call made. */
  ghost predicate Issues(st: seq<State>, run: seq<Action>, i: nat, b: nat, c: nat, t: Token)
    requires |st| == |run| + 1
  {
    && Sends(st, run, i, b, Key(t.box, t.cookie.slot), t.stamp) && !run[i].sync
    && b < c < |run| && run[c] == TakeCookie(run[i].f)
  }

  ghost predicate Issued(st: seq<State>, run: seq<Action>, n: nat, t: Token)
    requires |st| == |run| + 1
  {
    exists i: nat, b: nat, c: nat :: Issues(st, run, i, b, c, t) && c < n
  }

  /** Action `w` of activity `f` is a wait with the cookie of the send. */
  ghost predicate WaitsOn(st: seq<State>, run: seq<Action>, w: nat, k: Key, stamp: nat, f: nat)
    requires |st| == |run| + 1
  {
    && w < |run| && run[w].Swap? && run[w].f == f && Key(run[w].t.box, run[w].t.cookie.slot) == k
    && run[w].t.stamp == stamp && Issued(st, run, w, run[w].t)
  }

  ghost predicate WaitedBy(st: seq<State>, run: seq<Action>, n: nat, k: Key, stamp: nat, f: nat)
    requires |st| == |run| + 1
  {
    exists w: nat :: WaitsOn(st, run, w, k, stamp, f) && w < n
  }

  /** An activity is where its call or wait has brought it. */
  ghost predicate WaiterTraced(st: seq<State>, run: seq<Action>, n: nat, f: nat, x: Activity)
    requires |st| == |run| + 1
  {
    match x
    case Filled(k, sync, asked) => SentBy(st, run, n, k, asked, f, sync)
    case Posted(k, sync, asked) => SentBy(st, run, n, k, asked, f, sync)
    case SyncWaiting(k, asked) => SentBy(st, run, n, k, asked, f, true)
    case AsyncWaiting(k, asked) => WaitedBy(st, run, n, k, asked, f)
    case Woken(k, asked) => SentBy(st, run, n, k, asked, f, true) || WaitedBy(st, run, n, k, asked, f)
    case _ => true
  }

  lemma WaiterKept(st: seq<State>, run: seq<Action>, n: nat, f: nat, x: Activity)
    requires |st| == |run| + 1 && WaiterTraced(st, run, n, f, x)
    ensures WaiterTraced(st, run, n + 1, f, x)
  {
  }

  /** The cookie that is read back names the slot of the send. */
  lemma CookieSlot(s: State, f: nat)
    requires Inv(s) && CanTakeCookie(s, f)
    ensures Out(s, s.activities[f].k).matchCookie.slot == s.activities[f].k.slot
  {
    var k := s.activities[f].k;
    assert ActivityOk(s, f) && OutOk(s, k) && StampOk(s, k);
  }

  lemma {:induction false} TokenTraced(st: seq<State>, run: seq<Action>, n: nat, t: Token)
    requires Chain(st, run) && Inv(st[0]) && st[0].activities == map[] && st[0].issued == {} && n <= |run|
    requires t in st[n].issued
    ensures Issued(st, run, n, t)
    decreases n, 0
  {
    var m := n - 1;
    var s, a := st[m], run[m];
    assert LeapAt(st, run, m);
    ActionRecords(s, a);
    if t in s.issued {
      TokenTraced(st, run, m, t);
      var i: nat, b: nat, c: nat :| Issues(st, run, i, b, c, t) && c < m;
      assert Issues(st, run, i, b, c, t) && c < n;
    } else {
      ChainInv(st, run, m);
      CookieSlot(s, a.f);
      NewToken(s, a.f, t);
      ActivityTraced(st, run, m, a.f);
      NewIssued(st, run, m, s.activities[a.f], t);
    }
  }

  lemma NewIssued(st: seq<State>, run: seq<Action>, m: nat, x: Activity, t: Token)
    requires |st| == |run| + 1 && m < |run| && run[m].TakeCookie? && x.Posted? && !x.sync
    requires WaiterTraced(st, run, m, run[m].f, x)
    requires t.box == x.k.box && t.cookie.slot == x.k.slot && t.stamp == x.asked
    ensures Issued(st, run, m + 1, t)
  {
    var i: nat, b: nat :|
      Sends(st, run, i, b, x.k, x.asked) && b < m && run[i].f == run[m].f && run[i].sync == x.sync;
    assert Issues(st, run, i, b, m, t);
  }

  lemma NewToken(s: State, f: nat, t: Token)
    requires CanTakeCookie(s, f) && t in DoTakeCookie(s, f).issued && t !in s.issued
    ensures var x := s.activities[f]; !x.sync && t == Token(x.k.box, Out(s, x.k).matchCookie, x.asked)
  {
  }

  lemma {:induction false} ActivityTraced(st: seq<State>, run: seq<Action>, n: nat, f: nat)
    requires Chain(st, run) && Inv(st[0]) && st[0].activities == map[] && st[0].issued == {} && n <= |run|
    requires f in st[n].activities
    ensures WaiterTraced(st, run, n, f, st[n].activities[f])
    decreases n, 1
  {
    var m := n - 1;
    var s, a, x := st[m], run[m], st[n].activities[f];
    assert LeapAt(st, run, m);
    Becoming(s, a, f);
    if f in s.activities && s.activities[f] == x {
      ActivityTraced(st, run, m, f);
      WaiterKept(st, run, m, f, x);
    } else {
      ChainInv(st, run, m);
      ActorOf(s, a, f);
      if a.Fill? {
        var i := FillSends(st, run, m);
        assert Sends(st, run, i, m, x.k, x.asked) && run[i].f == f && run[i].sync == x.sync;
      } else if a.Swap? {
        TokenTraced(st, run, m, a.t);
        assert x.AsyncWaiting? ==> WaitsOn(st, run, m, x.k, x.asked, f);
      } else if a.Post? || a.TakeCookie? || a.Pend? {
        if a.TakeCookie? { CookieSlot(s, f); }
        ActivityTraced(st, run, m, f);
        WaiterKept(st, run, m, f, s.activities[f]);
      }
    }
  }

  /** Only its own actions move an activity. */
  lemma ActorOf(s: State, a: Action, f: nat)
    requires Enabled(s, a) && f in Apply(s, a).activities
    ensures Actor(a) == f || (f in s.activities && Apply(s, a).activities[f] == s.activities[f])
  {
    ActionRecords(s, a);
    assert Actor(a) != f ==> SameActivity(s, Apply(s, a), f);
  }

  // ---- what is given back ----------------------------------------------------------------------------

  /** Action `m` returns the result to the synchronous call that action `i` began, or to a
      wait with the cookie of the asynchronous one. */
  ghost predicate GivesBack(st: seq<State>, run: seq<Action>, i: nat, m: nat, r: Finish)
    requires |st| == |run| + 1
  {
    && i < m < |run| && run[i].Claim? && run[m].Release? && run[m].f in st[m].activities
    && st[m].activities[run[m].f] == Woken(r.k, r.asked) && r.asked == r.h.stamp
    && r.h.returned == [Out(st[m], r.k).result]
    && (if run[i].sync then run[m].f == run[i].f else WaitedBy(st, run, m, r.k, r.asked, run[m].f))
  }

  /** Actions `i` and `b` make the send, `x` alone of the first `n` runs its target, which
      returns what action `m` gives back. */
  ghost predicate Answered(st: seq<State>, run: seq<Action>, n: nat, r: Finish, i: nat, b: nat, x: nat, m: nat)
    requires |st| == |run| + 1
  {
    && |r.h.returned| == 1
    && Asks(st, run, i, b, r.k, r.h) && OnlyRun(st, run, x, n, r.k, r.h, r.h.returned[0])
    && b < x < m < n && GivesBack(st, run, i, m, r)
  }

  ghost predicate AnsweredAt(st: seq<State>, run: seq<Action>, n: nat, r: Finish)
    requires |st| == |run| + 1
  {
    exists i: nat, b: nat, x: nat, m: nat :: Answered(st, run, n, r, i, b, x, m)
  }

  /** A send whose call has returned is not dispatched any more. */
  lemma NoLateDispatch(st: seq<State>, run: seq<Action>, n: nat, r: Finish)
    requires Chain(st, run) && n < |run| && Inv(st[n]) && r in st[n].finished
    ensures !Dispatches(st, run, n, r.k, r.h.stamp)
  {
    assert PastOk(st[n], r);
    if Dispatches(st, run, n, r.k, r.h.stamp) { DispatchFacts(st[n], run[n].f, run[n].value); }
  }

  lemma AnsweredKept(st: seq<State>, run: seq<Action>, n: nat, r: Finish)
    requires Chain(st, run) && n < |run| && Inv(st[n]) && r in st[n].finished && AnsweredAt(st, run, n, r)
    ensures AnsweredAt(st, run, n + 1, r)
  {
    NoLateDispatch(st, run, n, r);
    var i: nat, b: nat, x: nat, m: nat :| Answered(st, run, n, r, i, b, x, m);
    OnlyRunKept(st, run, x, n, r.k, r.h, r.h, r.h.returned[0]);
    assert Answered(st, run, n + 1, r, i, b, x, m);
  }

  /** What a release finds. */
  lemma ReleaseFinds(s: State, f: nat)
    requires Inv(s) && CanRelease(s, f)
    ensures var k, h := s.activities[f].k, Aux(s, s.activities[f].k).h;
            && OutKey(k) && s.activities[f].asked == h.stamp > 0 && h.returned == []
            && |h.executions| == 1 && h.executions[0].value == Out(s, k).result
  {
    assert ActivityOk(s, f) && OutOk(s, s.activities[f].k);
  }

  lemma ReleaseAdds(s: State, f: nat, r: Finish)
    requires CanRelease(s, f) && r in DoRelease(s, f).finished && r !in s.finished
    ensures r == Finish(s.activities[f].k, s.activities[f].asked,
                        Aux(Released(s, f), s.activities[f].k).h)
  {
    assert DoRelease(s, f) == Fail(s, NotDequeued) || DoRelease(s, f) == Released(s, f);
  }

  /** What it records. */
  lemma ReleaseTells(s: State, f: nat, r: Finish)
    requires Inv(s) && CanRelease(s, f) && r in DoRelease(s, f).finished && r !in s.finished
    ensures var x := s.activities[f];
            && r.k == x.k && r.asked == x.asked && OutKey(x.k) && r.asked == r.h.stamp > 0
            && SameSend(Aux(s, x.k).h, r.h) && r.h.returned == [Out(s, x.k).result]
            && |r.h.executions| == 1 && r.h.executions[0].value == Out(s, x.k).result
  {
    ReleaseAdds(s, f, r);
    ReleaseFinds(s, f);
    assert [] + [Out(s, r.k).result] == [Out(s, r.k).result];
  }

  /** The one to whom it is given is the one who asked. */
  lemma GivenToAsker(st: seq<State>, run: seq<Action>, i: nat, b: nat, n: nat, k: Key, stamp: nat, f: nat)
    requires Chain(st, run) && Sends(st, run, i, b, k, stamp) && b < n <= |run|
    requires SentBy(st, run, n, k, stamp, f, true) || WaitedBy(st, run, n, k, stamp, f)
    ensures if run[i].sync then f == run[i].f else WaitedBy(st, run, n, k, stamp, f)
  {
    if SentBy(st, run, n, k, stamp, f, true) {
      var i': nat, b': nat :| Sends(st, run, i', b', k, stamp) && b' < n && run[i'].f == f && run[i'].sync == true;
      SendsUnique(st, run, i, b, i', b', k, k, stamp);
    } else {
      var w: nat :| WaitsOn(st, run, w, k, stamp, f) && w < n;
      var i': nat, b': nat, c: nat :| Issues(st, run, i', b', c, run[w].t) && c < w;
      SendsUnique(st, run, i, b, i', b', k, k, stamp);
    }
  }

  lemma AnsweredNow(st: seq<State>, run: seq<Action>, n: nat, r: Finish)
    requires Chain(st, run) && n < |run| && run[n].Release? && CanRelease(st[n], run[n].f)
    requires var x := st[n].activities[run[n].f];
             && r.k == x.k && r.asked == x.asked == r.h.stamp && WaiterTraced(st, run, n, run[n].f, x)
    requires Story(st, run, n, r.k, r.h) && r.h.returned == [Out(st[n], r.k).result]
    requires |r.h.executions| == 1 && r.h.executions[0].value == r.h.returned[0]
    ensures AnsweredAt(st, run, n + 1, r)
  {
    var i: nat, b: nat :| Told(st, run, i, b, n, r.k, r.h);
    var x: nat :| b < x && OnlyRun(st, run, x, n, r.k, r.h, r.h.executions[0].value);
    GivenToAsker(st, run, i, b, n, r.k, r.asked, run[n].f);
    OnlyRunKept(st, run, x, n, r.k, r.h, r.h, r.h.returned[0]);
    assert GivesBack(st, run, i, n, r);
    assert Answered(st, run, n + 1, r, i, b, x, n);
  }

  lemma {:induction false} FinishTold(st: seq<State>, run: seq<Action>, n: nat, r: Finish)
    requires Chain(st, run) && Inv(st[0]) && n <= |run| && r in st[n].finished
    requires st[0].activities == map[] && st[0].outAux == map[] && st[0].issued == {} && st[0].finished == []
    ensures AnsweredAt(st, run, n, r)
    decreases n
  {
    var m := n - 1;
    var s, a := st[m], run[m];
    assert LeapAt(st, run, m);
    ChainInv(st, run, m);
    if r in s.finished {
      FinishTold(st, run, m, r);
      AnsweredKept(st, run, m, r);
    } else {
      ActionRecords(s, a);
      ReleaseTells(s, a.f, r);
      SendsTold(st, run, m, r.k);
      StorySame(st, run, m, r.k, Aux(s, r.k).h, r.h);
      ActivityTraced(st, run, m, a.f);
      AnsweredNow(st, run, m, r);
    }
  }

  lemma StorySame(st: seq<State>, run: seq<Action>, n: nat, k: Key, h: Send, h': Send)
    requires |st| == |run| + 1 && Story(st, run, n, k, h) && SameSend(h, h')
    ensures Story(st, run, n, k, h')
  {
    var i: nat, b: nat :| Told(st, run, i, b, n, k, h);
    if |h.executions| == 1 {
      var x: nat :| b < x && OnlyRun(st, run, x, n, k, h, h.executions[0].value);
      assert OnlyRun(st, run, x, n, k, h', h'.executions[0].value);
    }
    assert Told(st, run, i, b, n, k, h');
  }

  /** In every careful run from initialisation, each call that returned goes back to actions
      of the run. One action claimed the slot, with the arguments and the gateway of the send,
      and another made the send of it. After that exactly one action of the run dispatched it,
      in the callee's box, on a message with those arguments, that gateway and the caller's
      box id. What the target returned then is what the call returned later. It returned to
      the synchronous call itself, or to a wait with the cookie that the asynchronous call
      got. */
  lemma CallsReturnWhatTheirTargetComputed(boxes: nat, gateways: set<Gateway>, run: seq<Action>, r: Finish)
    requires Legal(InitState(boxes, gateways), run) && CarefulRun(InitState(boxes, gateways), run)
    requires r in After(InitState(boxes, gateways), run).finished
    ensures exists i: nat, b: nat, x: nat, m: nat ::
              Answered(States(InitState(boxes, gateways), run), run, |run|, r, i, b, x, m)
  {
    var s := InitState(boxes, gateways);
    InitInv(boxes, gateways);
    StatesChain(s, run);
    FinishTold(States(s, run), run, |run|, r);
  }
}
