/** Careful runs put together from calls of one box to another. */
module RpcCalls {
  import opened Cookies
  import opened PoolSpec
  import opened RpcProtocol
  import opened RpcInvariant
  import opened RpcTheorems

  // ---- careful runs -----------------------------------------------------------------

  ghost predicate Leads(s: State, s': State) {
    exists run :: Legal(s, run) && CarefulRun(s, run) && After(s, run) == s'
  }

  lemma LeadsStep(s: State, a: Action)
    requires Inv(s) && Enabled(s, a) && Careful(s, a)
    ensures Leads(s, Apply(s, a)) && Inv(Apply(s, a))
  {
    ActionInv(s, a);
    var run := [a];
    assert run[1..] == [] && Legal(Apply(s, a), []) && CarefulRun(Apply(s, a), []);
    assert Legal(s, run) && After(s, run) == Apply(s, a) && CarefulRun(s, run);
  }

  lemma CarefulFirst(s: State, run: seq<Action>, more: seq<Action>)
    requires run != [] && Enabled(s, run[0]) && Careful(s, run[0])
    requires Legal(Apply(s, run[0]), run[1..] + more) && CarefulRun(Apply(s, run[0]), run[1..] + more)
    ensures Legal(s, run + more) && CarefulRun(s, run + more)
    ensures After(s, run + more) == After(Apply(s, run[0]), run[1..] + more)
  {
    assert (run + more)[1..] == run[1..] + more;
  }

  lemma {:induction false} CarefulAppend(s: State, run: seq<Action>, more: seq<Action>)
    requires Legal(s, run) && CarefulRun(s, run) && Legal(After(s, run), more) && CarefulRun(After(s, run), more)
    ensures Legal(s, run + more) && CarefulRun(s, run + more) && After(s, run + more) == After(After(s, run), more)
    decreases run
  {
    if run == [] {
      assert run + more == more;
    } else {
      CarefulAppend(Apply(s, run[0]), run[1..], more);
      CarefulFirst(s, run, more);
    }
  }

  lemma LeadsOn(s: State, s1: State, s2: State)
    requires Leads(s, s1) && Leads(s1, s2)
    ensures Leads(s, s2)
  {
    var a :| Legal(s, a) && CarefulRun(s, a) && After(s, a) == s1;
    var b :| Legal(s1, b) && CarefulRun(s1, b) && After(s1, b) == s2;
    CarefulAppend(s, a, b);
  }

  lemma LeadsNowhere(s: State)
    ensures Leads(s, s)
  {
    assert Legal(s, []) && CarefulRun(s, []) && After(s, []) == s;
  }

  lemma LeadsReachable(s: State)
    requires Leads(InitState(2, GATES), s)
    ensures Reachable(s)
  {
  }

  // ---- a call through slot 0 ----------------------------------------------------------

  const GATES := {Target(7), Target(9)}
  const K := Key(0, 0)
  const J := Key(1, 0)
  const ALL: View := Fresh(8)
  const REST: seq<nat> := ALL.free[1..]

  function Target(target: int): Gateway {
    Gateway(AsyncMagic, true, 1, target)
  }

  /** Two boxes: box 0 has sent `n` messages and calls box 1 through slot 0. The views are
      those of the two pools that take part. */
  predicate Snap(s: State, n: nat, out: View, inc: View, activities: map<nat, Activity>) {
    && s.boxes == 2 && s.gateways == GATES && Stamps(s, 0) == n
    && OutPool(s, 0) == out && InPool(s, 1) == inc && s.activities == activities
  }

  /** What is remembered of the latest send in slot 0. */
  predicate SameSend(s: State, s': State) {
    s'.issued == s.issued && Aux(s', K).h.stamp == Aux(s, K).h.stamp && Out(s', K).waitCookie == Out(s, K).waitCookie
  }

  lemma ClaimSnap(s: State, n: nat, g: Gateway, sync: bool, others: map<nat, Activity>)
    requires Snap(s, n, ALL, ALL, others) && 0 !in others && g in GATES
    ensures CanClaim(s, 0, 0, g)
    ensures var s' := DoClaim(s, 0, 0, sync, NoArgs, g);
            && Snap(s', n, View(REST, [], []), ALL, others[0 := Claimed(K, sync, NoArgs, g)])
            && s'.issued == s.issued
  {
  }

  lemma FillSnap(s: State, n: nat, g: Gateway, out: View, sync: bool, others: map<nat, Activity>)
    requires Snap(s, n, out, ALL, others[0 := Claimed(K, sync, NoArgs, g)])
    ensures var s' := DoFill(s, 0);
            && Snap(s', n + 1, out, ALL, others[0 := Filled(K, sync, n + 1)]) && s'.issued == s.issued
            && Out(s', K).gateway == g && Aux(s', K).h.stamp == n + 1
  {
    var s' := DoFill(s, 0);
    Overwrite(others, 0, s.activities[0], Filled(K, sync, n + 1));
    FillWrites(s, s', n, out, s'.activities, s'.out[K], s'.outAux[K]);
  }

  lemma Overwrite(m: map<nat, Activity>, f: nat, a: Activity, b: Activity)
    ensures m[f := a][f := b] == m[f := b] && m[f := a] - {f} == m - {f}
    ensures f !in m ==> m - {f} == m
  {
  }

  lemma FillWrites(s: State, s': State, n: nat, out: View, activities: map<nat, Activity>, m: OutMsg, a: OutAux)
    requires Snap(s, n, out, ALL, s.activities)
    requires s' == s.(out := s.out[K := m], counter := s'.counter, outAux := s.outAux[K := a],
                      activities := activities, stamps := s.stamps[0 := n + 1])
    ensures Snap(s', n + 1, out, ALL, activities) && s'.issued == s.issued
    ensures Out(s', K) == m && Aux(s', K) == a
  {
  }

  lemma PostSnap(s: State, n: nat, sync: bool, others: map<nat, Activity>)
    requires Snap(s, n, View(REST, [], []), ALL, others[0 := Filled(K, sync, n)])
    ensures var s' := DoPost(s, 0);
            && Snap(s', n, View(REST, [0], []), ALL, others[0 := Posted(K, sync, n)])
            && SameSend(s, s') && Out(s', K) == Out(s, K)
  {
    assert [] + [0] == [0];
    Overwrite(others, 0, Filled(K, sync, n), Posted(K, sync, n));
  }

  lemma CookieFacts(s: State, n: nat, sync: bool)
    requires Inv(s) && 0 in s.activities && s.activities[0] == Posted(K, sync, n)
    ensures Out(s, K).waitCookie == Out(s, K).matchCookie == CookieAt(n, 0) && Aux(s, K).h.stamp == n
  {
    assert ActivityOk(s, 0) && OutOk(s, K) && StampOk(s, K) && HolderOk(s, K);
  }

  lemma CookieSnap(s: State, n: nat, out: View, sync: bool, others: map<nat, Activity>)
    requires Snap(s, n, out, ALL, others[0 := Posted(K, sync, n)]) && Out(s, K).matchCookie == CookieAt(n, 0)
    requires 0 !in others
    ensures var s' := DoTakeCookie(s, 0);
            && Snap(s', n, out, ALL, Waiting(others, sync, n))
            && Aux(s', K).h.stamp == Aux(s, K).h.stamp && Out(s', K) == Out(s, K)
            && s'.issued == s.issued + if sync then {} else {Token(0, CookieAt(n, 0), n)}
  {
    Overwrite(others, 0, Posted(K, sync, n), SyncWaiting(K, n));
  }

  /** A message is queued for delivery. */
  ghost predicate Awaited(s: State, n: nat, g: Gateway, activities: map<nat, Activity>) {
    && Inv(s) && Snap(s, n, View(REST, [0], []), ALL, activities) && g in GATES
    && Out(s, K).gateway == g && Aux(s, K).h.stamp == n && Out(s, K).waitCookie == CookieAt(n, 0)
  }

  function Waiting(others: map<nat, Activity>, sync: bool, n: nat): map<nat, Activity> {
    if sync then others[0 := SyncWaiting(K, n)] else others
  }

  lemma Stamping(s: State, n: nat, g: Gateway, sync: bool, others: map<nat, Activity>) returns (s': State)
    requires Inv(s) && Snap(s, n, ALL, ALL, others) && 0 !in others && g in GATES
    ensures Leads(s, s') && Inv(s')
    ensures Snap(s', n + 1, View(REST, [], []), ALL, others[0 := Filled(K, sync, n + 1)])
    ensures s'.issued == s.issued && Out(s', K).gateway == g && Aux(s', K).h.stamp == n + 1
  {
    ClaimSnap(s, n, g, sync, others);
    LeadsStep(s, Claim(0, 0, sync, NoArgs, g));
    var s1 := DoClaim(s, 0, 0, sync, NoArgs, g);
    FillSnap(s1, n, g, View(REST, [], []), sync, others);
    LeadsStep(s1, Fill(0));
    s' := DoFill(s1, 0);
    LeadsOn(s, s1, s');
  }

  /** A call up to the point where its caller waits or has its cookie. */
  lemma Sending(s: State, n: nat, g: Gateway, sync: bool, others: map<nat, Activity>) returns (s': State)
    requires Inv(s) && Snap(s, n, ALL, ALL, others) && 0 !in others && g in GATES
    ensures Leads(s, s') && Awaited(s', n + 1, g, Waiting(others, sync, n + 1))
    ensures s'.issued == s.issued + if sync then {} else {Token(0, CookieAt(n + 1, 0), n + 1)}
  {
    var s1 := Stamping(s, n, g, sync, others);
    PostSnap(s1, n + 1, sync, others);
    LeadsStep(s1, Post(0));
    var s2 := DoPost(s1, 0);
    CookieFacts(s2, n + 1, sync);
    CookieSnap(s2, n + 1, View(REST, [0], []), sync, others);
    LeadsStep(s2, TakeCookie(0));
    s' := DoTakeCookie(s2, 0);
    LeadsOn(s, s1, s2);
    LeadsOn(s, s2, s');
  }

  // ---- the callee's side -------------------------------------------------------------------

  /** Send `n` is at the callee, whose pool looks like `inc`. */
  ghost predicate Away(s: State, n: nat, g: Gateway, inc: View, activities: map<nat, Activity>) {
    && Inv(s) && Snap(s, n, View(REST, [], []), inc, activities)
    && Aux(s, K).phase == OutInFlight(J) && Aux(s, K).h.stamp == n && Inc(s, J).gateway == g
  }

  lemma DeliverSnap(s: State, n: nat, g: Gateway, activities: map<nat, Activity>)
    requires Awaited(s, n, g, activities)
    ensures CanDeliver(s, 0)
    ensures var s' := DoDeliver(s, 0);
            && Snap(s', n, View(REST, [], []), View(REST, [0], []), activities) && SameSend(s, s')
            && Aux(s', K).phase == OutInFlight(J) && Inc(s', J).gateway == g
  {
    assert HeadKey(s, 0) == K;
    assert Without([0], 0) == [] && [] + [0] == [0];
  }

  lemma Delivering(s: State, n: nat, g: Gateway, activities: map<nat, Activity>) returns (s': State)
    requires Awaited(s, n, g, activities)
    ensures Leads(s, s') && Away(s', n, g, View(REST, [0], []), activities) && SameSend(s, s')
  {
    DeliverSnap(s, n, g, activities);
    LeadsStep(s, Deliver(0));
    s' := DoDeliver(s, 0);
  }

  /** Handler `h` finds the waiting message. */
  lemma Finding(s: State, n: nat, g: Gateway, activities: map<nat, Activity>, h: nat) returns (s': State)
    requires Away(s, n, g, View(REST, [0], []), activities) && h !in activities
    ensures Leads(s, s') && SameSend(s, s')
    ensures Away(s', n, g, View(REST, [0], []), activities[h := Found(J, {g.target}, K, n)])
  {
    assert InPool(s, 1).todo == [0] && Key(1, [0][0]) == J;
    assert FirstMatch(s, 1, [0], {g.target}) == 0;
    assert HolderOk(s, K);
    LeadsStep(s, Find(h, 1, {g.target}));
    s' := DoFind(s, h, 1, {g.target});
  }

  lemma TakeSnap(s: State, h: nat)
    requires InPool(s, 1) == View(REST, [0], []) && CanTakeFound(s, h) && s.activities[h].j == J
    requires Inc(s, J).gateway.magic != OtherMagic
    ensures Orderly(s, h)
    ensures DoTakeFound(s, h) == s.(inPool := s.inPool[1 := View(REST, [], [])],
                                    activities := s.activities[h := Serving(J)],
                                    inAux := s.inAux[J := InServing(h)])
  {
    assert 0 in InPool(s, 1).todo && Without([0], 0) == [];
  }

  /** A handler that found slot 0 before dequeues whatever message is in it now. */
  lemma Taking(s: State, n: nat, g: Gateway, activities: map<nat, Activity>, h: nat) returns (s': State)
    requires Away(s, n, g, View(REST, [0], []), activities) && g in GATES
    requires h in activities && activities[h].Found? && activities[h].j == J
    ensures Leads(s, s') && SameSend(s, s')
    ensures Away(s', n, g, View(REST, [], []), activities[h := Serving(J)])
  {
    TakeSnap(s, h);
    LeadsStep(s, TakeFound(h));
    s' := DoTakeFound(s, h);
  }

  lemma DispatchSnap(s: State, n: nat, g: Gateway, activities: map<nat, Activity>, h: nat)
    requires Away(s, n, g, View(REST, [], []), activities) && h in activities && activities[h] == Serving(J)
    ensures var s' := DoDispatch(s, h, 0);
            && Snap(s', n, View(REST, [], []), View(REST, [], []), activities[h := Served(J)]) && SameSend(s, s')
            && Aux(s', K).phase == OutInFlight(J) && Inc(s', J).gateway == g
  {
    assert HolderOk(s, K);
  }

  lemma ReportSnap(s: State, n: nat, g: Gateway, activities: map<nat, Activity>, h: nat)
    requires Away(s, n, g, View(REST, [], []), activities) && h in activities && activities[h] == Served(J)
    ensures var s' := DoReport(s, h);
            && Snap(s', n, View(REST, [], []), View(REST, [], [0]), activities - {h}) && SameSend(s, s')
            && Aux(s', K).phase == OutInFlight(J) && Inc(s', J).gateway == g
  {
    ReportFacts(s, h);
    assert [] + [0] == [0];
  }

  /** The result has arrived. */
  ghost predicate Back(s: State, n: nat, activities: map<nat, Activity>) {
    Inv(s) && Snap(s, n, View(REST, [], []), ALL, activities) && Aux(s, K).phase.OutReturned?
  }

  lemma GiveBackSnap(s: State, n: nat, g: Gateway, activities: map<nat, Activity>)
    requires Away(s, n, g, View(REST, [], [0]), activities)
    ensures CanGiveBack(s, 1)
    ensures var s' := DoGiveBack(s, 1);
            && Snap(s', n, View(REST, [], []), ALL, activities) && Aux(s', K).phase.OutReturned? && SameSend(s, s')
  {
    assert InPool(s, 1).done[0] == 0 && HolderOk(s, K);
    GiveBackFacts(s, 1);
    ReturnSnap(s, n, activities);
  }

  lemma ReturnSnap(s: State, n: nat, activities: map<nat, Activity>)
    requires Snap(s, n, View(REST, [], []), View(REST, [], [0]), activities)
    ensures var s' := GivenBack(s, J, K);
            && Snap(s', n, View(REST, [], []), ALL, activities) && Aux(s', K).phase.OutReturned? && SameSend(s, s')
  {
    assert Without([0], 0) == [] && [0] + REST == ALL.free;
  }

  /** Handler `h` runs the message it dequeued. */
  lemma Running(s: State, n: nat, g: Gateway, activities: map<nat, Activity>, h: nat) returns (s': State)
    requires Away(s, n, g, View(REST, [], []), activities) && h in activities && activities[h] == Serving(J)
    ensures Leads(s, s') && SameSend(s, s')
    ensures Away(s', n, g, View(REST, [], []), activities[h := Served(J)])
  {
    DispatchSnap(s, n, g, activities, h);
    LeadsStep(s, Dispatch(h, 0));
    s' := DoDispatch(s, h, 0);
  }

  lemma Reporting(s: State, n: nat, g: Gateway, activities: map<nat, Activity>, h: nat) returns (s': State)
    requires Away(s, n, g, View(REST, [], []), activities) && h in activities && activities[h] == Served(J)
    ensures Leads(s, s') && SameSend(s, s') && Away(s', n, g, View(REST, [], [0]), activities - {h})
  {
    ReportSnap(s, n, g, activities, h);
    LeadsStep(s, Report(h));
    s' := DoReport(s, h);
  }

  lemma Returning(s: State, n: nat, g: Gateway, activities: map<nat, Activity>) returns (s': State)
    requires Away(s, n, g, View(REST, [], [0]), activities)
    ensures Leads(s, s') && SameSend(s, s') && Back(s', n, activities)
  {
    GiveBackSnap(s, n, g, activities);
    LeadsStep(s, GiveBack(1));
    s' := DoGiveBack(s, 1);
  }

  /** A message that handler `h` took is answered. */
  lemma Finishing(s: State, n: nat, g: Gateway, others: map<nat, Activity>, h: nat) returns (s': State)
    requires Away(s, n, g, View(REST, [], []), others[h := Serving(J)]) && h !in others
    ensures Leads(s, s') && Back(s', n, others) && SameSend(s, s')
  {
    Overwrite(others, h, Serving(J), Served(J));
    var s1 := Running(s, n, g, others[h := Serving(J)], h);
    Overwrite(others, h, Served(J), Served(J));
    var s2 := Reporting(s1, n, g, others[h := Served(J)], h);
    s' := Returning(s2, n, g, others);
    LeadsOn(s, s1, s2);
    LeadsOn(s, s2, s');
  }

  /** A message that waits at the callee is answered by handler `h`. */
  lemma Handling(s: State, n: nat, g: Gateway, others: map<nat, Activity>, h: nat) returns (s': State)
    requires Away(s, n, g, View(REST, [0], []), others) && h !in others && g in GATES
    ensures Leads(s, s') && Back(s', n, others) && SameSend(s, s')
  {
    var found := Found(J, {g.target}, K, n);
    var s1 := Finding(s, n, g, others, h);
    Overwrite(others, h, found, Serving(J));
    var s2 := Taking(s1, n, g, others[h := found], h);
    s' := Finishing(s2, n, g, others, h);
    LeadsOn(s, s1, s2);
    LeadsOn(s, s2, s');
  }

  /** A queued message is answered. */
  lemma Answering(s: State, n: nat, g: Gateway, activities: map<nat, Activity>, h: nat) returns (s': State)
    requires Awaited(s, n, g, activities) && h !in activities
    ensures Leads(s, s') && Back(s', n, activities) && SameSend(s, s')
  {
    var s1 := Delivering(s, n, g, activities);
    s' := Handling(s1, n, g, activities, h);
    LeadsOn(s, s1, s');
  }

  // ---- collecting ------------------------------------------------------------------------------

  /** A waiter on slot 0 picks the result up and frees the slot. */
  lemma Collecting(s: State, n: nat, others: map<nat, Activity>, a: Activity) returns (s': State)
    requires Back(s, n, others[0 := a]) && (a.SyncWaiting? || a.AsyncWaiting?) && a.k == K && 0 !in others
    ensures Leads(s, s') && Inv(s') && Snap(s', n, ALL, ALL, others) && s'.issued == s.issued
  {
    assert OutOk(s, K);
    PendSnap(s, n, others, a);
    LeadsStep(s, Pend(0, true));
    var s1 := DoPend(s, 0, true);
    ReleaseSnap(s1, n, others, a.asked);
    LeadsStep(s1, Release(0));
    s' := DoRelease(s1, 0);
    LeadsOn(s, s1, s');
  }

  lemma PendSnap(s: State, n: nat, others: map<nat, Activity>, a: Activity)
    requires Snap(s, n, View(REST, [], []), ALL, others[0 := a]) && Out(s, K).semaphore == 1
    requires (a.SyncWaiting? || a.AsyncWaiting?) && a.k == K
    ensures CanPend(s, 0, true)
    ensures var s' := DoPend(s, 0, true);
            Snap(s', n, View(REST, [], []), ALL, others[0 := Woken(K, a.asked)]) && s'.issued == s.issued
  {
    Overwrite(others, 0, a, Woken(K, a.asked));
  }

  lemma ReleaseSnap(s: State, n: nat, others: map<nat, Activity>, asked: nat)
    requires Snap(s, n, View(REST, [], []), ALL, others[0 := Woken(K, asked)]) && 0 !in others
    ensures var s' := DoRelease(s, 0); Snap(s', n, ALL, ALL, others) && s'.issued == s.issued
  {
    assert Held(OutPool(s, 0), 0);
    assert [0] + REST == ALL.free;
    Overwrite(others, 0, Woken(K, asked), Woken(K, asked));
  }

  /** Waiting on a cookie that is still open. */
  lemma Swapping(s: State, n: nat, others: map<nat, Activity>, t: Token) returns (s': State)
    requires Back(s, n, others) && 0 !in others && t in s.issued && t == Token(0, CookieAt(n, 0), n)
    requires Aux(s, K).h.stamp == n && Out(s, K).waitCookie == t.cookie
    ensures Leads(s, s') && Back(s', n, others[0 := AsyncWaiting(K, n)]) && s'.issued == s.issued
  {
    LeadsStep(s, Swap(0, t));
    s' := Swapped(s, 0, t, K);
    assert DoSwap(s, 0, t) == s';
  }
}
