/** The loop shape of uVisor's two message drains: take the head of a queue, remember the
    first slot taken, and stop at an empty queue or when that slot comes round again.

    A slot whose message cannot be delivered goes to the back of the queue and stays; any
    other leaves. Some of those that leave make the loop forget the first slot if it is
    theirs: these reset it. */
module DrainSpec {
  import opened PoolSpec

  datatype Loop = Loop(queue: seq<nat>, first: int)

  datatype Fates = Fates(stay: set<nat>, reset: set<nat>)

  function Begin(queue: seq<nat>): Loop {
    Loop(queue, -1)
  }

  /** The loop breaks: the queue is empty, or its head was seen before and is put back. */
  predicate Over(l: Loop) {
    l.queue == [] || l.queue[0] == l.first
  }

  function Turn(l: Loop, fates: Fates): Loop
    requires !Over(l)
  {
    var x := l.queue[0];
    var first := if l.first == -1 then x else l.first;
    if x in fates.stay then Loop(l.queue[1..] + [x], first)
    else Loop(l.queue[1..], if x in fates.reset && x == first then -1 else first)
  }

  /** The loop after `n` turns, or when it breaks. */
  function Turns(l: Loop, fates: Fates, n: nat): Loop
    decreases n
  {
    if n == 0 || Over(l) then l else Turns(Turn(l, fates), fates, n - 1)
  }

  ghost predicate Ends(l: Loop, fates: Fates) {
    exists n: nat :: Over(Turns(l, fates, n))
  }

  function Keep(queue: seq<nat>, stay: set<nat>): seq<nat> {
    if queue == [] then []
    else (if queue[0] in stay then [queue[0]] else []) + Keep(queue[1..], stay)
  }

  function Rotated(queue: seq<nat>): seq<nat> {
    if queue == [] then [] else queue[1..] + [queue[0]]
  }

  // ---- when the loop ends ---------------------------------------------------------------

  lemma EndsLater(l: Loop, fates: Fates)
    requires !Over(l)
    ensures Ends(l, fates) <==> Ends(Turn(l, fates), fates)
  {
    if Ends(l, fates) {
      var n: nat :| Over(Turns(l, fates, n));
      assert Over(Turns(Turn(l, fates), fates, n - 1));
    }
    if Ends(Turn(l, fates), fates) {
      var n: nat :| Over(Turns(Turn(l, fates), fates, n));
      assert Over(Turns(l, fates, n + 1));
    }
  }

  /** With the first slot gone for good and somebody staying, it never ends. */
  lemma {:induction false} NeverOver(l: Loop, fates: Fates, n: nat, x: nat)
    requires l.first >= 0 && l.first !in l.queue && x in l.queue && x in fates.stay
    ensures !Over(Turns(l, fates, n))
    decreases n
  {
    assert l.queue[0] in l.queue;
    if n > 0 {
      var l' := Turn(l, fates);
      assert forall y :: y in l'.queue ==> y in l.queue;
      assert l.queue[0] != x ==> x in l.queue[1..];
      NeverOver(l', fates, n - 1, x);
    }
  }

  lemma {:induction false} EmptiesOut(l: Loop, fates: Fates)
    requires forall x :: x in l.queue ==> x !in fates.stay
    ensures Ends(l, fates)
    decreases |l.queue|
  {
    if Over(l) {
      assert Over(Turns(l, fates, 0));
    } else {
      EmptiesOut(Turn(l, fates), fates);
      EndsLater(l, fates);
    }
  }

  lemma {:induction false} ComesRound(l: Loop, fates: Fates, i: nat)
    requires i < |l.queue| && l.queue[i] == l.first
    ensures Ends(l, fates)
    decreases i
  {
    if Over(l) {
      assert Over(Turns(l, fates, 0));
    } else {
      assert Turn(l, fates).queue[i - 1] == l.first;
      ComesRound(Turn(l, fates), fates, i - 1);
      EndsLater(l, fates);
    }
  }

  /** No slot stays, or all those before the first one that stays reset the loop. */
  predicate CanEnd(queue: seq<nat>, fates: Fates) {
    || (forall x :: x in queue ==> x !in fates.stay)
    || (exists i :: 0 <= i < |queue| && queue[i] in fates.stay && forall h :: 0 <= h < i ==> queue[h] in fates.reset)
  }

  lemma CanEndLater(queue: seq<nat>, fates: Fates)
    requires queue != [] && queue[0] !in fates.stay && queue[0] in fates.reset
    ensures CanEnd(queue, fates) <==> CanEnd(queue[1..], fates)
  {
    var rest := queue[1..];
    if i :| 0 <= i < |queue| && queue[i] in fates.stay && forall h :: 0 <= h < i ==> queue[h] in fates.reset {
      assert rest[i - 1] == queue[i] && forall h :: 0 <= h < i - 1 ==> rest[h] == queue[h + 1];
    }
    if i :| 0 <= i < |rest| && rest[i] in fates.stay && forall h :: 0 <= h < i ==> rest[h] in fates.reset {
      assert forall h :: 0 < h < i + 1 ==> queue[h] == rest[h - 1];
      assert queue[i + 1] in fates.stay;
    }
  }

  /** A drain ends exactly when nothing stays, or all before the first that stays reset it. */
  lemma {:induction false} EndsExactly(queue: seq<nat>, fates: Fates)
    requires Distinct(queue)
    ensures Ends(Begin(queue), fates) <==> CanEnd(queue, fates)
    decreases queue
  {
    var l := Begin(queue);
    if queue == [] {
      assert Over(Turns(l, fates, 0));
      return;
    }
    var x, l' := queue[0], Turn(l, fates);
    EndsLater(l, fates);
    if x in fates.stay {
      assert l'.queue[|queue| - 1] == x;
      ComesRound(l', fates, |queue| - 1);
    } else if x in fates.reset {
      EndsExactly(queue[1..], fates);
      CanEndLater(queue, fates);
    } else if y :| y in queue && y in fates.stay {
      forall n: nat ensures !Over(Turns(l', fates, n)) { NeverOver(l', fates, n, y); }
    } else {
      EmptiesOut(l', fates);
    }
  }

  // ---- what it leaves ---------------------------------------------------------------------

  lemma HeadApart(rest: seq<nat>, seen: seq<nat>)
    requires Distinct(rest + seen) && rest != []
    ensures rest[0] !in rest[1..] && rest[0] !in seen
    ensures Distinct(rest[1..] + seen) && Distinct(rest[1..] + (seen + [rest[0]]))
  {
    var all, less := rest + seen, rest[1..] + seen;
    assert all[0] == rest[0] && forall i :: 0 <= i < |less| ==> less[i] == all[i + 1];
    assert forall y :: y in seen || y in rest[1..] ==> y in less;
    assert less + [rest[0]] == rest[1..] + (seen + [rest[0]]);
  }

  /** `seen` are the slots that were put back so far, `rest` those not yet looked at. */
  lemma {:induction false} OverWith(rest: seq<nat>, seen: seq<nat>, first: int, fates: Fates, n: nat)
    requires Distinct(rest + seen) && forall x :: x in seen ==> x in fates.stay
    requires if first == -1 then seen == [] else first >= 0 && first !in rest && (first in seen ==> seen[0] == first)
    requires Over(Turns(Loop(rest + seen, first), fates, n))
    ensures Turns(Loop(rest + seen, first), fates, n).queue == seen + Keep(rest, fates.stay)
    decreases |rest|
  {
    var l := Loop(rest + seen, first);
    if rest == [] {
      assert l.queue == seen;
      if !Over(l) { NeverOver(l, fates, n, seen[0]); }
    } else {
      var x, l' := rest[0], Turn(l, fates);
      HeadApart(rest, seen);
      assert l.queue[0] == x && (rest + seen)[1..] == rest[1..] + seen;
      if x in fates.stay {
        assert l'.queue == rest[1..] + (seen + [x]);
        OverWith(rest[1..], seen + [x], l'.first, fates, n - 1);
      } else {
        assert l'.queue == rest[1..] + seen;
        OverWith(rest[1..], seen, l'.first, fates, n - 1);
      }
    }
  }

  /** When a drain breaks, the head that it puts back and the rest of the queue are the slots
      that stay, in their order. */
  lemma OverLeaves(queue: seq<nat>, fates: Fates, n: nat)
    requires Distinct(queue) && Over(Turns(Begin(queue), fates, n))
    ensures Turns(Begin(queue), fates, n).queue == Keep(queue, fates.stay)
  {
    assert queue + [] == queue;
    OverWith(queue, [], -1, fates, n);
  }

  // ---- the queue as a part not yet visited and a part put back ------------------------------------

  function NextRest(rest: seq<nat>): seq<nat> {
    if rest == [] then [] else rest[1..]
  }

  function NextSeen(rest: seq<nat>, seen: seq<nat>, stay: set<nat>): seq<nat>
    requires rest + seen != []
  {
    if rest == [] then seen[1..] + [seen[0]]
    else if rest[0] in stay then seen + [rest[0]] else seen
  }

  lemma TurnOf(rest: seq<nat>, seen: seq<nat>, first: int, fates: Fates)
    requires rest + seen != [] && !Over(Loop(rest + seen, first))
    requires rest == [] ==> seen[0] in fates.stay
    ensures var x := (rest + seen)[0];
            var first1 := if first == -1 then x else first;
            Turn(Loop(rest + seen, first), fates)
            == Loop(NextRest(rest) + NextSeen(rest, seen, fates.stay),
                    if x !in fates.stay && x in fates.reset && x == first1 then -1 else first1)
  {
    assert rest == [] ==> rest + seen == seen;
  }
}
