/** A handler can be handed a message that it never looked at: between its finding a slot and
    its dequeuing it, another handler answers the message and the slot takes the next one. */
module RpcRefill {
  import opened Cookies
  import opened PoolSpec
  import opened RpcProtocol
  import opened RpcInvariant
  import opened RpcTheorems
  import opened RpcHandlers
  import opened RpcCalls

  const SEVEN := Target(7)
  const NINE := Target(9)

  /** Handler 1 has found the first message, for target 7, and nothing more. */
  function Finder(): map<nat, Activity> {
    map[1 := Found(J, {SEVEN.target}, K, 1)]
  }

  /** The cookie of the first message is open. */
  predicate Open(s: State) {
    && Token(0, CookieAt(1, 0), 1) in s.issued
    && Aux(s, K).h.stamp == 1 && Out(s, K).waitCookie == CookieAt(1, 0)
  }

  lemma FirstFound() returns (s: State)
    ensures Leads(InitState(2, GATES), s) && Open(s) && Away(s, 1, SEVEN, View(REST, [0], []), Finder())
  {
    var s0 := InitState(2, GATES);
    InitInv(2, GATES);
    var s1 := Sending(s0, 0, SEVEN, false, map[]);
    var s2 := Delivering(s1, 1, SEVEN, map[]);
    s := Finding(s2, 1, SEVEN, map[], 1);
    LeadsOn(s0, s1, s2);
    LeadsOn(s0, s2, s);
  }

  /** Handler 2 finds it as well, and answers it. */
  lemma AnsweredByOther() returns (s: State)
    ensures Leads(InitState(2, GATES), s) && Open(s) && Back(s, 1, Finder())
  {
    var s1 := FirstFound();
    s := Handling(s1, 1, SEVEN, Finder(), 2);
    LeadsOn(InitState(2, GATES), s1, s);
  }

  /** Its caller collects the result, and the second message, for target 9, arrives. */
  lemma SlotRefilled(s: State) returns (s': State)
    requires Back(s, 1, Finder()) && Open(s)
    ensures Leads(s, s') && Away(s', 2, NINE, View(REST, [0], []), Finder())
  {
    var s1 := Swapping(s, 1, Finder(), Token(0, CookieAt(1, 0), 1));
    var s2 := Collecting(s1, 1, Finder(), AsyncWaiting(K, 1));
    var s3 := Sending(s2, 1, NINE, false, Finder());
    s' := Delivering(s3, 2, NINE, Finder());
    LeadsOn(s, s1, s2);
    LeadsOn(s, s2, s3);
    LeadsOn(s, s3, s');
  }

  /** In a state that careful steps lead to, the handler's next step is careful too. It then
      executes a target that is not in its function group, and no fault is recorded. */
  predicate RunsForeign(s: State, f: nat) {
    && CanTakeFound(s, f) && Orderly(s, f) && CanDispatch(DoTakeFound(s, f), f)
    && var t, j := DoDispatch(DoTakeFound(s, f), f, 0), s.activities[f].j;
    && t.faults == {} && |Aux(t, Origin(Inc(s, j))).h.executions| == 1
    && Aux(t, Origin(Inc(s, j))).h.executions[0].target !in s.activities[f].group
  }

  lemma ForeignNext(s: State)
    requires Away(s, 2, NINE, View(REST, [0], []), Finder()) && Reachable(s)
    ensures RunsForeign(s, 1)
  {
    TakeSnap(s, 1);
    GroupExactly(s, 1, 0);
    assert AllGood(s.boxes, s.gateways);
  }

  lemma RefillHappens()
    ensures exists s, f :: Reachable(s) && RunsForeign(s, f)
  {
    var s := AnsweredByOther();
    var s' := SlotRefilled(s);
    LeadsOn(InitState(2, GATES), s, s');
    LeadsReachable(s');
    ForeignNext(s');
  }
}
