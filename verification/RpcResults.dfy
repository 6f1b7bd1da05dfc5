/** A whole call of drain_result_queue: every waiting result is given back. */
module RpcResults {
  import opened Cookies
  import opened PoolSpec
  import opened RpcProtocol
  import opened RpcInvariant
  import opened RpcTheorems

  function Results(s: State, box: nat): seq<nat> {
    InPool(s, box).done
  }

  /** The caller's slot that a result is for. */
  function Asker(s: State, box: nat, slot: nat): Key {
    Origin(Inc(s, Key(box, slot)))
  }

  /** The head of the queue and the caller's slot it is for. */
  lemma HeadFacts(s: State, box: nat)
    requires Inv(s) && Results(s, box) != []
    ensures var j := Key(box, Results(s, box)[0]);
            var k := Asker(s, box, j.slot);
            && OutKey(k) && Aux(s, k).phase == OutInFlight(j) && DoGiveBack(s, box) == GivenBack(s, j, k)
            && Distinct(Results(s, box))
  {
    var j := Key(box, Results(s, box)[0]);
    GiveBackFacts(s, box);
    assert PoolOk(s.inPool, box, IN_SLOTS) && InOk(s, j);
  }

  /** What one turn does. */
  ghost predicate Given(s: State, s': State, box: nat) {
    && Results(s, box) != []
    && var j := Key(box, Results(s, box)[0]);
    && var k := Asker(s, box, j.slot);
    && Results(s', box) == Results(s, box)[1..] && InPool(s', box).free == [j.slot] + InPool(s, box).free
    && Returned(s', k, Inc(s, j).result) && Aux(s, k).phase == OutInFlight(j)
    && (forall x {:trigger Out(s', x)} :: x != k ==> Out(s', x) == Out(s, x) && Aux(s', x) == Aux(s, x))
    && (forall x {:trigger Inc(s', x)} :: x != j ==> Inc(s', x) == Inc(s, x))
    && Distinct(Results(s, box))
  }

  /** The caller's message is completed with the result and its semaphore is posted. */
  predicate Returned(s: State, k: Key, result: u32) {
    && Out(s, k).result == result && Out(s, k).state == Completed && Out(s, k).semaphore == 1
    && Aux(s, k).phase == OutReturned
  }

  predicate GivenAt(st: seq<State>, box: nat, n: nat)
    requires n + 1 < |st|
  {
    CanGiveBack(st[n], box) && st[n + 1] == DoGiveBack(st[n], box)
  }

  /** The states of the loop: while a message is on the done queue, its head is given back. */
  ghost predicate Drains(st: seq<State>, box: nat) {
    && |st| > 0 && Results(st[|st| - 1], box) == []
    && forall n: nat {:trigger GivenAt(st, box, n)} :: n + 1 < |st| ==> GivenAt(st, box, n)
  }

  lemma GiveOne(s: State, box: nat)
    requires Inv(s) && Results(s, box) != []
    ensures CanGiveBack(s, box) && Inv(DoGiveBack(s, box)) && Given(s, DoGiveBack(s, box), box)
  {
    HeadFacts(s, box);
    GiveBackInv(s, box);
    GivenBackGives(s, box, Key(box, Results(s, box)[0]), Asker(s, box, Results(s, box)[0]));
  }

  lemma GivenBackGives(s: State, box: nat, j: Key, k: Key)
    requires Results(s, box) != [] && j == Key(box, Results(s, box)[0]) && k == Asker(s, box, j.slot)
    requires Aux(s, k).phase == OutInFlight(j) && Distinct(Results(s, box))
    ensures Given(s, GivenBack(s, j, k), box)
  {
    var s' := GivenBack(s, j, k);
    assert Without(Results(s, box), j.slot) == Results(s, box)[1..];
    forall x | x != k ensures Out(s', x) == Out(s, x) && Aux(s', x) == Aux(s, x) {}
    forall x | x != j ensures Inc(s', x) == Inc(s, x) {}
  }

  lemma {:induction false} DrainStarts(s: State, box: nat) returns (st: seq<State>)
    requires Inv(s)
    ensures Drains(st, box) && st[0] == s
    decreases |Results(s, box)|
  {
    if Results(s, box) == [] {
      st := [s];
    } else {
      GiveOne(s, box);
      var rest := DrainStarts(DoGiveBack(s, box), box);
      st := [s] + rest;
      forall n: nat | n + 1 < |st| ensures GivenAt(st, box, n) {
        if n > 0 { assert GivenAt(rest, box, n - 1); }
      }
    }
  }

  lemma {:induction false} Remaining(st: seq<State>, box: nat, n: nat)
    requires Drains(st, box) && Inv(st[0]) && n < |st|
    ensures Inv(st[n]) && n <= |Results(st[0], box)| && Results(st[n], box) == Results(st[0], box)[n..]
    decreases n
  {
    if n > 0 {
      Remaining(st, box, n - 1);
      assert GivenAt(st, box, n - 1);
      GiveOne(st[n - 1], box);
    }
  }

  lemma GivenNext(st: seq<State>, box: nat, n: nat)
    requires Drains(st, box) && Inv(st[0]) && n + 1 < |st|
    ensures n < |Results(st[0], box)| && Results(st[n], box) == Results(st[0], box)[n..]
    ensures Given(st[n], st[n + 1], box)
  {
    Remaining(st, box, n);
    assert GivenAt(st, box, n);
    GiveOne(st[n], box);
  }

  lemma LaterResult(s: State, s': State, box: nat, i: nat)
    requires Given(s, s', box) && 0 < i < |Results(s, box)|
    ensures Inc(s', Key(box, Results(s, box)[i])) == Inc(s, Key(box, Results(s, box)[i]))
  {
  }

  lemma EarlierResult(s: State, s': State, box: nat, k: Key, slot: nat, result: u32)
    requires Given(s, s', box) && Returned(s, k, result) && slot in InPool(s, box).free
    ensures Returned(s', k, result) && slot in InPool(s', box).free
  {
    assert Out(s', k) == Out(s, k);
  }

  /** Before its turn a result is as it was; after it, it is given back and its slot free. */
  lemma {:induction false} ResultAt(st: seq<State>, box: nat, i: nat, n: nat)
    requires Drains(st, box) && Inv(st[0]) && i < |Results(st[0], box)| && n < |st|
    ensures var slot := Results(st[0], box)[i];
            if n <= i then Inc(st[n], Key(box, slot)) == Inc(st[0], Key(box, slot))
            else && Returned(st[n], Asker(st[0], box, slot), Inc(st[0], Key(box, slot)).result)
                 && slot in InPool(st[n], box).free
    decreases n
  {
    if n > 0 {
      var s, s', slot := st[n - 1], st[n], Results(st[0], box)[i];
      ResultAt(st, box, i, n - 1);
      GivenNext(st, box, n - 1);
      if i > n - 1 {
        LaterResult(s, s', box, i - (n - 1));
      } else if i < n - 1 {
        EarlierResult(s, s', box, Asker(st[0], box, slot), slot, Inc(st[0], Key(box, slot)).result);
      }
    }
  }

  /** The drain takes as many turns as there are results and leaves the queue empty. Every slot
      that was on it is free, and the caller's message it is for has its result, is completed
      and has its semaphore posted. */
  lemma DrainReturnsAll(st: seq<State>, box: nat)
    requires Drains(st, box) && Inv(st[0])
    ensures |st| == |Results(st[0], box)| + 1 && Inv(st[|st| - 1]) && Results(st[|st| - 1], box) == []
    ensures forall slot :: slot in Results(st[0], box) ==>
              && slot in InPool(st[|st| - 1], box).free
              && Returned(st[|st| - 1], Asker(st[0], box, slot), Inc(st[0], Key(box, slot)).result)
  {
    Remaining(st, box, |st| - 1);
    forall slot | slot in Results(st[0], box)
      ensures slot in InPool(st[|st| - 1], box).free
      ensures Returned(st[|st| - 1], Asker(st[0], box, slot), Inc(st[0], Key(box, slot)).result)
    {
      var i: nat :| i < |Results(st[0], box)| && Results(st[0], box)[i] == slot;
      ResultAt(st, box, i, |st| - 1);
    }
  }
}
