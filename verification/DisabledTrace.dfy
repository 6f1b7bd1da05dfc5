/** Registrations and interrupts in what can be observed of a run: an interrupt is served in
    the box that was running when its number was registered last. */
module DisabledTrace {
  import opened DisabledSpec
  import opened DisabledVectors

  // ---- the latest registration ----------------------------------------------------------------

  /** Observation `m` is the latest registration of the number before `n`. */
  ghost predicate Latest(trace: seq<Obs>, irq: nat, m: nat, n: nat) {
    && m < n <= |trace| && trace[m].Registered? && trace[m].irq == irq
    && forall k :: m < k < n && trace[k].Registered? ==> trace[k].irq != irq
  }

  ghost predicate NoneBefore(trace: seq<Obs>, irq: nat, n: nat) {
    n <= |trace| && forall k :: 0 <= k < n && trace[k].Registered? ==> trace[k].irq != irq
  }

  /** The entry that the registrations before `n` leave. */
  lemma {:induction false} ReplayLatest(vectors: seq<Vector>, trace: seq<Obs>, irq: nat, m: nat, n: nat)
    requires Latest(trace, irq, m, n) && irq < |vectors|
    ensures Replay(vectors, trace[..n])[irq].vector == trace[m].vector
    ensures Replay(vectors, trace[..n])[irq].box == if trace[m].vector == 0 then 0 else trace[m].box
    decreases n
  {
    ReplayLast(vectors, trace, n);
    if m < n - 1 { ReplayLatest(vectors, trace, irq, m, n - 1); }
  }

  lemma ReplayLast(vectors: seq<Vector>, trace: seq<Obs>, n: nat)
    requires 0 < n <= |trace|
    ensures Replay(vectors, trace[..n]) == Replayed(Replay(vectors, trace[..n - 1]), trace[n - 1])
  {
    assert trace[..n] == trace[..n - 1] + [trace[n - 1]];
    ReplayPlus(vectors, trace[..n - 1], [trace[n - 1]]);
    ReplayOne(Replay(vectors, trace[..n - 1]), trace[n - 1]);
  }

  lemma {:induction false} ReplayNone(vectors: seq<Vector>, trace: seq<Obs>, irq: nat, n: nat)
    requires NoneBefore(trace, irq, n) && irq < |vectors|
    ensures Replay(vectors, trace[..n])[irq] == vectors[irq]
    decreases n
  {
    if n > 0 {
      ReplayLast(vectors, trace, n);
      ReplayNone(vectors, trace, irq, n - 1);
    }
  }

  /** In every clean run an interrupt runs the vector of the latest registration of its number,
      in the box that made it; with none before, what the table held at first. */
  lemma HandledAsRegistered(y: Sys, events: seq<Event>, c: Cpu, code: nat, m: nat, n: nat)
    requires Clean(events) && n < |Meaning(y, events, c, code).trace| && Meaning(y, events, c, code).trace[n].Handling?
    ensures var trace := Meaning(y, events, c, code).trace;
            var h := trace[n];
            && h.vector != 0 && h.irq < |c.vectors|
            && (Latest(trace, h.irq, m, n) ==> h.box == trace[m].box && h.vector == trace[m].vector)
            && (NoneBefore(trace, h.irq, n) ==> c.vectors[h.irq] == Vector(h.box, h.vector))
  {
    var trace := Meaning(y, events, c, code).trace;
    LatestRegistrationServes(y, events, c, code);
    assert RuledAt(c.vectors, trace, n);
    if Latest(trace, trace[n].irq, m, n) { ReplayLatest(c.vectors, trace, trace[n].irq, m, n); }
    if NoneBefore(trace, trace[n].irq, n) { ReplayNone(c.vectors, trace, trace[n].irq, n); }
  }

  /** After a clean run an entry is what the latest registration of its number stored: the box
      that made it and its vector, or zeros if that was a de-registration. */
  lemma TableAsRegistered(y: Sys, events: seq<Event>, c: Cpu, code: nat, irq: nat, m: nat)
    requires Clean(events) && Meaning(y, events, c, code).ok && irq < |c.vectors|
    ensures var r := Meaning(y, events, c, code);
            && (Latest(r.trace, irq, m, |r.trace|) ==>
                  r.cpu.vectors[irq] == if r.trace[m].vector == 0 then Vector(0, 0)
                                        else Vector(r.trace[m].box, r.trace[m].vector))
            && (NoneBefore(r.trace, irq, |r.trace|) ==> r.cpu.vectors[irq] == c.vectors[irq])
  {
    var r := Meaning(y, events, c, code);
    LatestRegistrationServes(y, events, c, code);
    assert r.trace[..|r.trace|] == r.trace;
    if Latest(r.trace, irq, m, |r.trace|) { ReplayLatest(c.vectors, r.trace, irq, m, |r.trace|); }
    if NoneBefore(r.trace, irq, |r.trace|) { ReplayNone(c.vectors, r.trace, irq, |r.trace|); }
  }

  // ---- the box that runs -------------------------------------------------------------------------

  /** The box whose code runs after the trace, when box `code` ran before it. */
  function Running(code: nat, trace: seq<Obs>): nat
    decreases |trace|
  {
    if trace == [] then code
    else
      var o := trace[|trace| - 1];
      if o.Entered? || o.Back? then o.box else Running(code, trace[..|trace| - 1])
  }

  /** A registration is for the box that runs, and a handler is entered in the box that serves
      the interrupt, with its context, unless the stack is full. */
  predicate ByRunner(y: Sys, code: nat, trace: seq<Obs>, n: nat)
    requires n < |trace|
  {
    && (trace[n].Registered? ==> trace[n].box == Running(code, trace[..n]))
    && (trace[n].Handling? ==>
          && n + 1 < |trace|
          && (trace[n + 1] == Halted(TooDeep)
              || trace[n + 1] == Entered(trace[n].box, ContextOf(y, trace[n].box))))
  }

  ghost predicate AllByRunner(y: Sys, code: nat, trace: seq<Obs>) {
    forall n: nat {:trigger ByRunner(y, code, trace, n)} :: n < |trace| ==> ByRunner(y, code, trace, n)
  }

  lemma {:induction false} RunningPlus(code: nat, a: seq<Obs>, b: seq<Obs>)
    ensures Running(code, a + b) == Running(Running(code, a), b)
    decreases |b|
  {
    if b == [] {
      assert a + b == a;
    } else {
      assert (a + b)[..|a + b| - 1] == a + b[..|b| - 1];
      RunningPlus(code, a, b[..|b| - 1]);
    }
  }

  lemma ByRunnerPlus(y: Sys, code: nat, a: seq<Obs>, b: seq<Obs>)
    requires AllByRunner(y, code, a) && AllByRunner(y, Running(code, a), b)
    ensures AllByRunner(y, code, a + b)
  {
    var t := a + b;
    forall n: nat | n < |t| ensures ByRunner(y, code, t, n) {
      if n < |a| {
        assert t[..n] == a[..n] && ByRunner(y, code, a, n);
      } else {
        assert t[..n] == a + b[..n - |a|];
        RunningPlus(code, a, b[..n - |a|]);
        assert ByRunner(y, Running(code, a), b, n - |a|);
      }
    }
  }

  /** Nothing falls into the windows of a switch. */
  predicate NoWindow(events: seq<Event>)
    decreases events
  {
    events == [] ||
    (&& NoWindow(events[1..])
     && match events[0]
        case Register(_, _, gap) => NoWindow(gap)
        case Call(_, gap, push, inside) => gap == [] && push == [] && NoWindow(inside)
        case Irq(_, torn, gap, push, inside) => gap == [] && push == [] && NoWindow(torn) && NoWindow(inside))
  }

  /** What holds of a batch of events that starts and ends in code of one box. */
  ghost predicate Keeps(y: Sys, code: nat, r: Outcome) {
    AllByRunner(y, code, r.trace) && (r.ok ==> Running(code, r.trace) == code)
  }

  lemma OneMore(y: Sys, code: nat, a: seq<Obs>, o: Obs)
    requires AllByRunner(y, code, a) && !o.Handling? && (o.Registered? ==> o.box == Running(code, a))
    ensures AllByRunner(y, code, a + [o])
    ensures Running(code, a + [o]) == if o.Entered? || o.Back? then o.box else Running(code, a)
  {
    var t := a + [o];
    assert t[..|a|] == a;
    forall n: nat | n < |t| ensures ByRunner(y, code, t, n) {
      if n < |a| { assert t[..n] == a[..n] && ByRunner(y, code, a, n); }
    }
  }

  lemma {:induction false} EventsByRunner(y: Sys, events: seq<Event>, c: Cpu, code: nat)
    requires NoWindow(events) && Top(c) == code
    ensures Keeps(y, code, Meaning(y, events, c, code))
    decreases events, 2
  {
    if events != [] {
      var first := First(y, events, c, code);
      FirstByRunner(y, events, c, code);
      if first.ok {
        EventsByRunner(y, events[1..], first.cpu, code);
        var rest := Meaning(y, events[1..], first.cpu, code);
        ByRunnerPlus(y, code, first.trace, rest.trace);
        RunningPlus(code, first.trace, rest.trace);
      }
    }
  }

  lemma {:induction false} FirstByRunner(y: Sys, events: seq<Event>, c: Cpu, code: nat)
    requires events != [] && NoWindow(events) && Top(c) == code
    ensures Keeps(y, code, First(y, events, c, code))
    decreases events, 1
  {
    OneMore(y, code, [], Halted(NoSuchIrq));
    match events[0]
    case Register(irq, vector, gap) =>
      if irq < |c.vectors| {
        var c1 := HalfSet(c, irq, vector);
        EventsByRunner(y, gap, c1, code);
        var g := Meaning(y, gap, c1, code);
        if g.ok { OneMore(y, code, g.trace, Registered(irq, Top(c), vector)); }
      }
    case Call(dst, _, _, _) => VisitByRunner(y, events, dst, c, code);
    case Irq(irq, torn, _, _, _) =>
      if irq < |c.vectors| {
        EventsByRunner(y, torn, c, code);
        var t := Meaning(y, torn, c, code);
        OneMore(y, code, t.trace, Halted(NotRegistered));
        if t.ok && t.cpu.vectors[irq].vector != 0 {
          VisitByRunner(y, events, c.vectors[irq].box, t.cpu, code);
          HandlingFirst(y, events, t.cpu, code, t.trace, c.vectors[irq].box, t.cpu.vectors[irq].vector);
        }
      }
  }

  /** Switching to a box, running what is inside, and back. */
  lemma {:induction false} VisitByRunner(y: Sys, events: seq<Event>, dst: nat, c: Cpu, code: nat)
    requires events != [] && NoWindow(events) && !events[0].Register? && Top(c) == code
    ensures var v := Visit(y, events, dst, c, code);
            && Keeps(y, code, v) && |v.trace| > 0
            && (v.trace[0] == Halted(TooDeep) || v.trace[0] == Entered(dst, ContextOf(y, dst)))
    decreases events, 0
  {
    var p := Enter(y, events, dst, c);
    EnterQuiet(y, events, dst, c);
    OneMore(y, code, [], p.trace[0]);
    if p.ok {
      assert Top(p.cpu) == dst;
      EventsByRunner(y, events[0].inside, p.cpu, dst);
      var i := Meaning(y, events[0].inside, p.cpu, dst);
      ByRunnerPlus(y, code, p.trace, i.trace);
      RunningPlus(code, p.trace, i.trace);
      OneMore(y, code, p.trace + i.trace, Back(code, ContextOf(y, Top(c))));
    }
  }

  lemma EnterQuiet(y: Sys, events: seq<Event>, dst: nat, c: Cpu)
    requires events != [] && !events[0].Register? && events[0].gap == [] && events[0].push == []
    ensures var p := Enter(y, events, dst, c);
            if p.ok then p.trace == [Entered(dst, ContextOf(y, dst))] && Top(p.cpu) == dst
            else p.trace == [Halted(TooDeep)]
  {
  }

  lemma HandlingFirst(y: Sys, events: seq<Event>, c: Cpu, code: nat, a: seq<Obs>, dst: nat, vector: nat)
    requires events != [] && events[0].Irq? && AllByRunner(y, code, a) && Running(code, a) == code
    requires var v := Visit(y, events, dst, c, code);
             && Keeps(y, code, v) && |v.trace| > 0
             && (v.trace[0] == Halted(TooDeep) || v.trace[0] == Entered(dst, ContextOf(y, dst)))
    ensures Keeps(y, code, Prefixed(a + [Handling(events[0].irq, dst, vector)], Visit(y, events, dst, c, code)))
  {
    var h, v := Handling(events[0].irq, dst, vector), Visit(y, events, dst, c, code).trace;
    var t := [h] + v;
    assert Running(code, [h]) == Running(code, []);
    RunningPlus(code, [h], v);
    forall n: nat | n < |t| ensures ByRunner(y, code, t, n) {
      if n > 0 {
        assert t[..n] == [h] + v[..n - 1];
        RunningPlus(code, [h], v[..n - 1]);
        assert ByRunner(y, code, v, n - 1);
      }
    }
    ByRunnerPlus(y, code, a, t);
    RunningPlus(code, a, t);
    assert a + [h] + v == a + t;
  }

  /** Unless an interrupt or a registration tears a window apart, an interrupt is served in the
      box that was running when its number was registered last, with the vector of that
      registration, and that box's context is set for it. */
  lemma HandlersRunWhereRegistered(y: Sys, events: seq<Event>, c: Cpu, code: nat, m: nat, n: nat)
    requires Clean(events) && NoWindow(events) && Top(c) == code
    requires n < |Meaning(y, events, c, code).trace| && Meaning(y, events, c, code).trace[n].Handling?
    requires Latest(Meaning(y, events, c, code).trace, Meaning(y, events, c, code).trace[n].irq, m, n)
    ensures var trace := Meaning(y, events, c, code).trace;
            var box := Running(code, trace[..m]);
            && trace[n] == Handling(trace[m].irq, box, trace[m].vector) && trace[m].vector != 0
            && n + 1 < |trace|
            && (trace[n + 1] == Entered(box, ContextOf(y, box)) || trace[n + 1] == Halted(TooDeep))
  {
    var trace := Meaning(y, events, c, code).trace;
    HandledAsRegistered(y, events, c, code, m, n);
    EventsByRunner(y, events, c, code);
    assert ByRunner(y, code, trace, m) && ByRunner(y, code, trace, n);
  }
}
