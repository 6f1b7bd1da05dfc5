/** Mixed-up cookies happen: a run of 2^21 calls after which an old cookie is taken for a
    new one. */
module RpcMixup {
  import opened Cookies
  import opened PoolSpec
  import opened RpcProtocol
  import opened RpcInvariant
  import opened RpcTheorems
  import opened RpcCalls

  const G := Target(7)

  /** A queued message is answered and its waiter picks the result up. */
  lemma Completing(s: State, n: nat, others: map<nat, Activity>, a: Activity) returns (s': State)
    requires Awaited(s, n, G, others[0 := a]) && 0 !in others && 1 !in others && a == SyncWaiting(K, n)
    ensures Leads(s, s') && Inv(s') && Snap(s', n, ALL, ALL, others) && s'.issued == s.issued
  {
    var s1 := Answering(s, n, G, others[0 := a], 1);
    s' := Collecting(s1, n, others, a);
    LeadsOn(s, s1, s');
  }

  /** A synchronous call from start to end: one more stamp, and everything as before. */
  lemma Calling(s: State, n: nat) returns (s': State)
    requires Inv(s) && Snap(s, n, ALL, ALL, map[])
    ensures Leads(s, s') && Inv(s') && Snap(s', n + 1, ALL, ALL, map[]) && s'.issued == s.issued
  {
    var s1 := Sending(s, n, G, true, map[]);
    s' := Completing(s1, n + 1, map[], SyncWaiting(K, n + 1));
    LeadsOn(s, s1, s');
  }

  lemma {:induction false} CallingOften(s: State, n: nat, times: nat) returns (s': State)
    requires Inv(s) && Snap(s, n, ALL, ALL, map[])
    ensures Leads(s, s') && Inv(s') && Snap(s', n + times, ALL, ALL, map[]) && s'.issued == s.issued
    decreases times
  {
    if times == 0 {
      LeadsNowhere(s);
      s' := s;
    } else {
      var s1 := Calling(s, n);
      s' := CallingOften(s1, n + 1, times - 1);
      LeadsOn(s, s1, s');
    }
  }

  /** An asynchronous call whose result is waited for; its caller remembers the cookie. */
  lemma FirstCall() returns (s': State, t: Token)
    ensures Leads(InitState(2, GATES), s') && Inv(s') && Snap(s', 1, ALL, ALL, map[])
    ensures t == Token(0, CookieAt(1, 0), 1) && t in s'.issued
  {
    var s := InitState(2, GATES);
    InitInv(2, GATES);
    t := Token(0, CookieAt(1, 0), 1);
    var s1 := Sending(s, 0, G, false, map[]);
    var s2 := Answering(s1, 1, G, map[], 1);
    var s3 := Swapping(s2, 1, map[], t);
    s' := Collecting(s3, 1, map[], AsyncWaiting(K, 1));
    LeadsOn(s, s1, s2);
    LeadsOn(s, s2, s3);
    LeadsOn(s, s3, s');
  }

  /** The call number `n + 1`, after the first one and n - 1 others. */
  lemma LateCall(n: nat) returns (s: State, t: Token)
    requires n > 0
    ensures Leads(InitState(2, GATES), s) && Back(s, n + 1, map[])
    ensures t == Token(0, CookieAt(1, 0), 1) && t in s.issued
    ensures Aux(s, K).h.stamp == n + 1 && Out(s, K).waitCookie == CookieAt(n + 1, 0)
  {
    var s0 := InitState(2, GATES);
    var s1, t1 := FirstCall();
    t := t1;
    var s2 := CallingOften(s1, 1, n - 1);
    var s3 := Sending(s2, n, G, false, map[]);
    s := Answering(s3, n + 1, G, map[], 1);
    LeadsOn(s0, s1, s2);
    LeadsOn(s0, s2, s3);
    LeadsOn(s0, s3, s);
  }

  lemma SameCookie(s: State, n: nat)
    requires n > 0 && n % PERIOD == 0
    requires Aux(s, K).h.stamp == n + 1 && Out(s, K).waitCookie == CookieAt(n + 1, 0)
    ensures Mixup(s, Token(0, CookieAt(1, 0), 1))
  {
    CookieCollision(1, 0, n + 1, 0);
  }

  lemma LateMixup(n: nat) returns (s: State, t: Token)
    requires n > 0 && n % PERIOD == 0
    ensures Reachable(s) && t in s.issued && Mixup(s, t)
    ensures Aux(s, Key(t.box, t.cookie.slot)).phase.OutReturned?
  {
    s, t := LateCall(n);
    SameCookie(s, n);
    LeadsReachable(s);
    assert Key(t.box, t.cookie.slot) == K;
  }

  /** After 2^21 calls a remembered cookie is the cookie of another send whose result has
      arrived. Every step up to there is careful; a wait on the old cookie now returns the
      result of the new send (see SwapExactly). */
  lemma MixupHappens()
    ensures exists s, t :: && Reachable(s) && t in s.issued && Mixup(s, t)
                           && Aux(s, Key(t.box, t.cookie.slot)).phase.OutReturned?
  {
    var s, t := LateMixup(PERIOD);
  }
}
