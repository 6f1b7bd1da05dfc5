/** What one action records: of activities, of sends and of calls that return. */
module RpcRecords {
  import opened Cookies
  import opened PoolSpec
  import opened RpcProtocol
  import opened RpcInvariant
  import opened RpcTheorems
  import PoolQueue

  /** The same send with the same executions. */
  predicate SameSend(h: Send, h': Send) {
    && h'.stamp == h.stamp && h'.args == h.args && h'.gateway == h.gateway && h'.executions == h.executions
  }

  /** The activity that acts, or -1. */
  function Actor(a: Action): int {
    match a
    case Deliver(_) => -1
    case PutBack(_) => -1
    case DropBad(_) => -1
    case GiveBack(_) => -1
    case _ => a.f
  }

  /** The slot whose send the action fills or executes, if any. */
  function Touched(s: State, a: Action): (k: Key)
    requires Enabled(s, a)
  {
    if a.Fill? then s.activities[a.f].k
    else if a.Dispatch? then Origin(Inc(s, s.activities[a.f].j))
    else NOWHERE
  }

  ghost predicate OthersSame(s: State, s': State, f: int) {
    forall g: nat {:trigger SameActivity(s, s', g)} :: g != f ==> SameActivity(s, s', g)
  }

  ghost predicate SendsSame(s: State, s': State, k: Key) {
    forall x {:trigger Aux(s', x)} :: x != k && OutKey(x) ==> SameSend(Aux(s, x).h, Aux(s', x).h)
  }

  /** Nobody else acts, no send but that of slot `k` is touched, none is made, no call returns
      and no cookie is issued. */
  ghost predicate Quietly(s: State, s': State, f: int, k: Key) {
    && OthersSame(s, s', f) && SendsSame(s, s', k)
    && s'.finished == s.finished && s'.issued == s.issued && s'.stamps == s.stamps
  }

  /** What an action writes: its activity and the record of slot `k`. */
  predicate Writes(s: State, s': State, f: int, k: Key) {
    && (|| s'.activities == s.activities
        || (f >= 0 && s'.activities == s.activities - {f})
        || (f in s'.activities && s'.activities == s.activities[f := s'.activities[f]]))
    && (s'.outAux == s.outAux || s'.outAux == s.outAux[k := Aux(s', k)])
  }

  lemma WritesOnly(s: State, s': State, f: int, k: Key, touched: Key)
    requires Writes(s, s', f, k) && (k == touched || SameSend(Aux(s, k).h, Aux(s', k).h))
    ensures OthersSame(s, s', f) && SendsSame(s, s', touched)
  {
    forall g: nat | g != f ensures SameActivity(s, s', g) {}
  }

  lemma ClaimRecords(s: State, f: nat, box: nat, sync: bool, args: Args, gateway: Gateway)
    requires CanClaim(s, f, box, gateway)
    ensures Quietly(s, DoClaim(s, f, box, sync, args, gateway), f, NOWHERE)
  {
    WritesOnly(s, DoClaim(s, f, box, sync, args, gateway), f, Key(box, OutPool(s, box).free[0]), NOWHERE);
  }

  lemma FillRecords(s: State, f: nat)
    requires CanFill(s, f)
    ensures OthersSame(s, DoFill(s, f), f) && SendsSame(s, DoFill(s, f), s.activities[f].k)
    ensures DoFill(s, f).finished == s.finished
    ensures DoFill(s, f).issued == s.issued
  {
    WritesOnly(s, DoFill(s, f), f, s.activities[f].k, s.activities[f].k);
  }

  lemma PostRecords(s: State, f: nat)
    requires CanPost(s, f)
    ensures Quietly(s, DoPost(s, f), f, NOWHERE)
  {
    WritesOnly(s, DoPost(s, f), f, s.activities[f].k, NOWHERE);
  }

  lemma AwaitedRecords(s: State, f: nat)
    requires CanTakeCookie(s, f)
    ensures OthersSame(s, CookieAwaited(s, f), f) && SendsSame(s, CookieAwaited(s, f), NOWHERE)
  {
    WritesOnly(s, CookieAwaited(s, f), f, NOWHERE, NOWHERE);
  }

  lemma IssuedRecords(s: State, f: nat)
    requires CanTakeCookie(s, f)
    ensures OthersSame(s, CookieIssued(s, f), f) && SendsSame(s, CookieIssued(s, f), NOWHERE)
  {
    WritesOnly(s, CookieIssued(s, f), f, s.activities[f].k, NOWHERE);
  }

  lemma ReleasedRecords(s: State, f: nat)
    requires CanRelease(s, f)
    ensures OthersSame(s, Released(s, f), f) && SendsSame(s, Released(s, f), NOWHERE)
  {
    WritesOnly(s, Released(s, f), f, s.activities[f].k, NOWHERE);
  }

  /** What a dequeue after a find leaves alone. */
  predicate FoundWrites(s: State, s': State, f: nat) {
    && s'.outAux == s.outAux && s'.finished == s.finished && s'.issued == s.issued && s'.stamps == s.stamps
    && Writes(s, s', f, NOWHERE)
    && (f in s'.activities ==>
          (f in s.activities && s'.activities[f] == s.activities[f]) || s'.activities[f].Serving?)
  }

  lemma TakenWrites(s: State, f: nat)
    requires CanTakeFound(s, f)
    ensures FoundWrites(s, Taken(s, f), f) && FoundWrites(s, s.(activities := s.activities - {f}), f)
    ensures forall why :: FoundWrites(s, Fail(s, why), f)
  {
  }

  lemma TakenAgainWrites(s: State, f: nat)
    requires CanTakeFound(s, f)
    requires PoolQueue.DequeueSafe(InPool(s, s.activities[f].j.box), Todo, s.activities[f].j.slot)
    ensures FoundWrites(s, TakenAgain(s, f), f)
  {
  }

  lemma TakeFoundWrites(s: State, f: nat)
    requires CanTakeFound(s, f)
    ensures FoundWrites(s, DoTakeFound(s, f), f)
  {
    TakenWrites(s, f);
    var j := s.activities[f].j;
    if j.slot !in InPool(s, j.box).todo && j.slot in InPool(s, j.box).done
       && PoolQueue.DequeueSafe(InPool(s, j.box), Todo, j.slot) {
      TakenAgainWrites(s, f);
      assert DoTakeFound(s, f) == TakenAgain(s, f);
    }
  }

  lemma TakeCookieRecords(s: State, f: nat)
    requires CanTakeCookie(s, f)
    ensures OthersSame(s, DoTakeCookie(s, f), f) && SendsSame(s, DoTakeCookie(s, f), NOWHERE)
    ensures DoTakeCookie(s, f).finished == s.finished
    ensures DoTakeCookie(s, f).stamps == s.stamps
  {
    if s.activities[f].sync {
      AwaitedRecords(s, f);
      assert DoTakeCookie(s, f) == CookieAwaited(s, f);
    } else {
      IssuedRecords(s, f);
      assert DoTakeCookie(s, f) == CookieIssued(s, f);
    }
  }

  lemma SwapRecords(s: State, f: nat, t: Token)
    requires CanSwap(s, f, t)
    ensures Quietly(s, DoSwap(s, f, t), f, NOWHERE)
  {
    if Out(s, Key(t.box, t.cookie.slot)).waitCookie != t.cookie {
      WritesOnly(s, s, f, NOWHERE, NOWHERE);
    } else {
      WritesOnly(s, Swapped(s, f, t, Key(t.box, t.cookie.slot)), f, Key(t.box, t.cookie.slot), NOWHERE);
    }
  }

  lemma PendRecords(s: State, f: nat, ok: bool)
    requires CanPend(s, f, ok)
    ensures Quietly(s, DoPend(s, f, ok), f, NOWHERE)
  {
    WritesOnly(s, DoPend(s, f, ok), f, s.activities[f].k, NOWHERE);
  }

  lemma ReleaseRecords(s: State, f: nat)
    requires CanRelease(s, f)
    ensures OthersSame(s, DoRelease(s, f), f) && SendsSame(s, DoRelease(s, f), NOWHERE)
    ensures DoRelease(s, f).issued == s.issued
    ensures DoRelease(s, f).stamps == s.stamps
  {
    if DoRelease(s, f) == Fail(s, NotDequeued) {
      WritesOnly(s, Fail(s, NotDequeued), f, NOWHERE, NOWHERE);
    } else {
      ReleasedRecords(s, f);
      assert DoRelease(s, f) == Released(s, f);
    }
  }

  lemma DeliverRecords(s: State, box: nat)
    requires CanDeliver(s, box)
    ensures Quietly(s, DoDeliver(s, box), -1, NOWHERE)
  {
    WritesOnly(s, DoDeliver(s, box), -1, HeadKey(s, box), NOWHERE);
  }

  lemma PutBackRecords(s: State, box: nat)
    requires CanPutBack(s, box)
    ensures Quietly(s, DoPutBack(s, box), -1, NOWHERE)
  {
    WritesOnly(s, DoPutBack(s, box), -1, NOWHERE, NOWHERE);
  }

  lemma DropBadRecords(s: State, box: nat)
    requires CanDropBad(s, box)
    ensures Quietly(s, DoDropBad(s, box), -1, NOWHERE)
  {
    WritesOnly(s, DoDropBad(s, box), -1, HeadKey(s, box), NOWHERE);
  }

  lemma GiveBackRecords(s: State, box: nat)
    requires CanGiveBack(s, box)
    ensures Quietly(s, DoGiveBack(s, box), -1, NOWHERE)
  {
    var j := Key(box, InPool(s, box).done[0]);
    var r := Inc(s, j);
    if DoGiveBack(s, box) == Fail(s, ResultAssert) {
      WritesOnly(s, Fail(s, ResultAssert), -1, NOWHERE, NOWHERE);
    } else {
      var k := Key(if r.otherBox < 0 then 0 else r.otherBox, r.matchCookie.slot);
      WritesOnly(s, GivenBack(s, j, k), -1, k, NOWHERE);
    }
  }

  lemma FindRecords(s: State, f: nat, box: nat, group: set<int>)
    requires CanFind(s, f, box, group)
    ensures Quietly(s, DoFind(s, f, box, group), f, NOWHERE)
  {
    WritesOnly(s, DoFind(s, f, box, group), f, NOWHERE, NOWHERE);
  }

  lemma TakeFoundRecords(s: State, f: nat)
    requires CanTakeFound(s, f)
    ensures Quietly(s, DoTakeFound(s, f), f, NOWHERE)
  {
    TakeFoundWrites(s, f);
    WritesOnly(s, DoTakeFound(s, f), f, NOWHERE, NOWHERE);
  }

  lemma DispatchRecords(s: State, f: nat, value: u32)
    requires CanDispatch(s, f)
    ensures Quietly(s, DoDispatch(s, f, value), f, Origin(Inc(s, s.activities[f].j)))
  {
    WritesOnly(s, DoDispatch(s, f, value), f, Origin(Inc(s, s.activities[f].j)), Origin(Inc(s, s.activities[f].j)));
  }

  lemma ReportRecords(s: State, f: nat)
    requires CanReport(s, f)
    ensures Quietly(s, DoReport(s, f), f, NOWHERE)
  {
    if !Held(InPool(s, s.activities[f].j.box), s.activities[f].j.slot) {
      WritesOnly(s, Fail(s, NotHeld), f, NOWHERE, NOWHERE);
    } else {
      WritesOnly(s, DoReport(s, f), f, NOWHERE, NOWHERE);
    }
  }

  /** An action changes what its activity does, one send at most, and no stamp count but
      that of a box in which it fills a message. */
  lemma ActionRecords(s: State, a: Action)
    requires Enabled(s, a)
    ensures var s' := Apply(s, a);
            && OthersSame(s, s', Actor(a)) && SendsSame(s, s', Touched(s, a))
            && (!a.Release? ==> s'.finished == s.finished) && (!a.TakeCookie? ==> s'.issued == s.issued)
            && (!a.Fill? ==> s'.stamps == s.stamps)
  {
    match a
    case Claim(f, box, sync, args, gateway) => ClaimRecords(s, f, box, sync, args, gateway);
    case Fill(f) => FillRecords(s, f);
    case Post(f) => PostRecords(s, f);
    case TakeCookie(f) => TakeCookieRecords(s, f);
    case Swap(f, t) => SwapRecords(s, f, t);
    case Pend(f, ok) => PendRecords(s, f, ok);
    case Release(f) => ReleaseRecords(s, f);
    case Deliver(box) => DeliverRecords(s, box);
    case PutBack(box) => PutBackRecords(s, box);
    case DropBad(box) => DropBadRecords(s, box);
    case GiveBack(box) => GiveBackRecords(s, box);
    case Find(f, box, group) => FindRecords(s, f, box, group);
    case TakeFound(f) => TakeFoundRecords(s, f);
    case Dispatch(f, value) => DispatchRecords(s, f, value);
    case Report(f) => ReportRecords(s, f);
  }

  /** An activity is at `x` because of action `a`. */
  predicate Becomes(s: State, a: Action, x: Activity)
    requires Enabled(s, a)
  {
    match x
    case Claimed(k, sync, args, gateway) =>
      && a.Claim? && k == Key(a.box, OutPool(s, a.box).free[0])
      && sync == a.sync && args == a.args && gateway == a.gateway
    case Filled(k, sync, asked) =>
      && a.Fill? && s.activities[a.f].k == k && s.activities[a.f].sync == sync && asked == Stamps(s, k.box) + 1
    case Posted(k, sync, asked) => a.Post? && s.activities[a.f] == Filled(k, sync, asked)
    case SyncWaiting(k, asked) =>
      && a.TakeCookie? && s.activities[a.f].sync && s.activities[a.f].asked == asked
      && k == Key(s.activities[a.f].k.box, Out(s, s.activities[a.f].k).matchCookie.slot)
    case AsyncWaiting(k, asked) => a.Swap? && k == Key(a.t.box, a.t.cookie.slot) && asked == a.t.stamp
    case Woken(k, asked) =>
      a.Pend? && (s.activities[a.f] == SyncWaiting(k, asked) || s.activities[a.f] == AsyncWaiting(k, asked))
    case _ => true
  }

  predicate BecomesOf(s: State, s': State, a: Action, f: nat)
    requires Enabled(s, a)
  {
    f in s'.activities ==> (f in s.activities && s'.activities[f] == s.activities[f]) || Becomes(s, a, s'.activities[f])
  }

  lemma SenderBecomes(s: State, a: Action)
    requires Enabled(s, a) && (a.Claim? || a.Fill? || a.Post?)
    ensures BecomesOf(s, Apply(s, a), a, a.f)
  {
  }

  lemma AwaitedBecomes(s: State, f: nat)
    requires CanTakeCookie(s, f) && s.activities[f].sync
    ensures BecomesOf(s, CookieAwaited(s, f), TakeCookie(f), f)
  {
  }

  lemma TakeCookieBecomes(s: State, f: nat)
    requires CanTakeCookie(s, f)
    ensures BecomesOf(s, DoTakeCookie(s, f), TakeCookie(f), f)
  {
    if s.activities[f].sync {
      AwaitedBecomes(s, f);
    } else {
      assert f !in CookieIssued(s, f).activities;
    }
  }

  lemma SwapBecomes(s: State, f: nat, t: Token)
    requires CanSwap(s, f, t)
    ensures BecomesOf(s, DoSwap(s, f, t), Swap(f, t), f)
  {
  }

  lemma PendBecomes(s: State, f: nat, ok: bool)
    requires CanPend(s, f, ok)
    ensures BecomesOf(s, DoPend(s, f, ok), Pend(f, ok), f)
  {
  }

  lemma ReleaseBecomes(s: State, f: nat)
    requires CanRelease(s, f)
    ensures BecomesOf(s, DoRelease(s, f), Release(f), f)
  {
    assert DoRelease(s, f) == Fail(s, NotDequeued) || DoRelease(s, f) == Released(s, f);
  }

  lemma FindBecomes(s: State, f: nat, box: nat, group: set<int>)
    requires CanFind(s, f, box, group)
    ensures BecomesOf(s, DoFind(s, f, box, group), Find(f, box, group), f)
  {
  }

  lemma DispatchBecomes(s: State, f: nat, value: u32)
    requires CanDispatch(s, f)
    ensures BecomesOf(s, DoDispatch(s, f, value), Dispatch(f, value), f)
  {
  }

  lemma ReportBecomes(s: State, f: nat)
    requires CanReport(s, f)
    ensures BecomesOf(s, DoReport(s, f), Report(f), f)
  {
  }

  lemma TakeFoundBecomes(s: State, f: nat)
    requires CanTakeFound(s, f)
    ensures BecomesOf(s, DoTakeFound(s, f), TakeFound(f), f)
  {
    TakeFoundWrites(s, f);
  }

  /** Where an activity is, it was before or the action put it there. */
  lemma Becoming(s: State, a: Action, f: nat)
    requires Enabled(s, a)
    ensures BecomesOf(s, Apply(s, a), a, f)
  {
    if Actor(a) != f {
      ActionRecords(s, a);
      assert SameActivity(s, Apply(s, a), f);
      return;
    }
    match a
    case Claim(_, _, _, _, _) => SenderBecomes(s, a);
    case Fill(_) => SenderBecomes(s, a);
    case Post(_) => SenderBecomes(s, a);
    case TakeCookie(_) => TakeCookieBecomes(s, f);
    case Swap(_, t) => SwapBecomes(s, f, t);
    case Pend(_, ok) => PendBecomes(s, f, ok);
    case Release(_) => ReleaseBecomes(s, f);
    case Find(_, box, group) => FindBecomes(s, f, box, group);
    case TakeFound(_) => TakeFoundBecomes(s, f);
    case Dispatch(_, value) => DispatchBecomes(s, f, value);
    case Report(_) => ReportBecomes(s, f);
  }

  /** Only filling a message of the box counts its stamps up, by one. */
  lemma StampsStep(s: State, a: Action, box: nat)
    requires Enabled(s, a)
    ensures Stamps(Apply(s, a), box)
         == Stamps(s, box) + if a.Fill? && s.activities[a.f].k.box == box then 1 else 0
  {
    ActionRecords(s, a);
    if a.Fill? { assert Apply(s, a) == DoFill(s, a.f); }
  }
}
