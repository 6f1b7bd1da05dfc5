/** What running boxes without uVisor means (api/src/disabled.c): which box context is
    current in every handler and after every return, defined on the tree of nested calls
    and interrupts. */
module DisabledSpec {
  import opened Regions

  const MAX_DEPTH: nat := 16   // UVISOR_CONTEXT_MAX_DEPTH
  const MAX_BOXES: nat := 5    // UVISOR_MAX_BOXES

  /** One entry of g_uvisor_disabled_vectors. */
  datatype Vector = Vector(box: nat, vector: nat)

  /** What the boxes do. Each list holds the events that arrive while another is under way:
      `inside` before the callee or handler returns; `gap` and `push` in the windows of
      uvisor_disabled_switch_in, after setting the context and between the two stores that
      push the box; the `gap` of a registration between the two stores of
      uvisor_disabled_set_vector; `torn` between the two reads of
      uvisor_disabled_default_vector. */
  datatype Event =
    | Call(dst: nat, gap: seq<Event>, push: seq<Event>, inside: seq<Event>)
    | Irq(irq: nat, torn: seq<Event>, gap: seq<Event>, push: seq<Event>, inside: seq<Event>)
    | Register(irq: nat, vector: nat, gap: seq<Event>)

  datatype Why = TooDeep | NotRegistered | NoSuchIrq

  /** What can be observed, in order: entering a box, starting to serve an interrupt,
      returning to the code of a box, completing a registration, and the halt of
      uvisor_error. */
  datatype Obs =
    | Entered(box: nat, context: nat)
    | Handling(irq: nat, box: nat, vector: nat)
    | Back(box: nat, context: nat)
    | Registered(irq: nat, box: nat, vector: nat)
    | Halted(why: Why)

  /** The contexts of the boxes, and the order in which the compiler emits the two stores
      of a push: the stack pointer first, or the box first. */
  datatype Sys = Sys(contexts: seq<nat>, pointerFirst: bool)

  /** The current context, the stack pointer, the call stack with the entries that earlier
      calls left above it, and the vector table. */
  datatype Cpu = Cpu(ps: nat, sp: nat, stack: seq<nat>, vectors: seq<Vector>)

  datatype Outcome = Outcome(ok: bool, trace: seq<Obs>, cpu: Cpu)

  function ContextOf(y: Sys, box: nat): nat {
    if box < |y.contexts| then y.contexts[box] else 0
  }

  function Halt(trace: seq<Obs>, why: Why, c: Cpu): Outcome {
    Outcome(false, trace + [Halted(why)], c)
  }

  function Prefixed(trace: seq<Obs>, r: Outcome): Outcome {
    r.(trace := trace + r.trace)
  }

  /** The box that a registration stores: vector 0 is a de-registration. */
  function Owner(box: nat, vector: nat): nat {
    if vector == 0 then 0 else box
  }

  function Registration(box: nat, vector: nat): Vector {
    Vector(Owner(box, vector), vector)
  }

  function At(stack: seq<nat>, i: nat): nat {
    if i < |stack| then stack[i] else 0
  }

  function Put(stack: seq<nat>, i: nat, box: nat): seq<nat> {
    if i < |stack| then stack[i := box] else stack
  }

  /** The box that counts as the current one. */
  function Top(c: Cpu): nat {
    At(c.stack, c.sp)
  }

  /** What an earlier call left in the first entry above it. */
  function Stale(c: Cpu): nat {
    At(c.stack, c.sp + 1)
  }

  /** The free entries. */
  function Room(c: Cpu): nat {
    if c.sp < |c.stack| then |c.stack| - 1 - c.sp else 0
  }

  /** The first of the two stores of a registration. */
  function HalfSet(c: Cpu, irq: nat, vector: nat): Cpu
    requires irq < |c.vectors|
  {
    c.(vectors := c.vectors[irq := c.vectors[irq].(box := Owner(Top(c), vector))])
  }

  /** The first and the second of the two stores of a push. */
  function HalfPushed(y: Sys, c: Cpu, dst: nat): Cpu {
    if y.pointerFirst then c.(sp := c.sp + 1) else c.(stack := Put(c.stack, c.sp + 1, dst))
  }

  function Pushed(y: Sys, c: Cpu, dst: nat): Cpu {
    if y.pointerFirst then c.(stack := Put(c.stack, c.sp, dst)) else c.(sp := c.sp + 1)
  }

  /** uvisor_disabled_switch_out. */
  function Popped(y: Sys, c: Cpu): Cpu
    requires c.sp > 0
  {
    c.(sp := c.sp - 1, ps := ContextOf(y, At(c.stack, c.sp - 1)))
  }

  /** The stack up to and with entry `n` is as it was. */
  predicate SameUpTo(c: Cpu, c': Cpu, n: nat) {
    && |c'.stack| == |c.stack| && |c'.vectors| == |c.vectors|
    && forall k: nat :: k <= n ==> At(c'.stack, k) == At(c.stack, k)
  }

  /** Events come and go and leave the stack up to its top alone. */
  predicate SameShape(c: Cpu, c': Cpu) {
    c'.sp == c.sp && SameUpTo(c, c', c.sp)
  }

  /** The events, run one after the other in state `c` during code of box `code`. */
  function Meaning(y: Sys, events: seq<Event>, c: Cpu, code: nat): (r: Outcome)
    ensures |r.cpu.vectors| == |c.vectors|
    ensures r.ok ==> SameShape(c, r.cpu)
    decreases events, 3
  {
    if events == [] then Outcome(true, [], c)
    else
      var first := First(y, events, c, code);
      if !first.ok then first else Prefixed(first.trace, Meaning(y, events[1..], first.cpu, code))
  }

  /** The first event alone. */
  function First(y: Sys, events: seq<Event>, c: Cpu, code: nat): (r: Outcome)
    requires events != []
    ensures |r.cpu.vectors| == |c.vectors|
    ensures r.ok ==> SameShape(c, r.cpu)
    decreases events, 2
  {
    match events[0]
    case Register(irq, vector, gap) =>
      if irq >= |c.vectors| then Halt([], NoSuchIrq, c)
      else
        var g := Meaning(y, gap, HalfSet(c, irq, vector), code);
        if !g.ok then g
        else
          var v := g.cpu.vectors;
          Outcome(true, g.trace + [Registered(irq, Top(c), vector)],
                  g.cpu.(vectors := v[irq := v[irq].(vector := vector)]))
    case Call(dst, _, _, _) => Visit(y, events, dst, c, code)
    case Irq(irq, torn, _, _, _) =>
      if irq >= |c.vectors| then Halt([], NoSuchIrq, c)
      else
        var t := Meaning(y, torn, c, code);
        if !t.ok then t
        else if t.cpu.vectors[irq].vector == 0 then Halt(t.trace, NotRegistered, t.cpu)
        else
          var h := Handling(irq, c.vectors[irq].box, t.cpu.vectors[irq].vector);
          Prefixed(t.trace + [h], Visit(y, events, c.vectors[irq].box, t.cpu, code))
  }

  /** Switching in to box `dst` for the first event, and out again. */
  function Visit(y: Sys, events: seq<Event>, dst: nat, c: Cpu, code: nat): (r: Outcome)
    requires events != [] && !events[0].Register?
    ensures |r.cpu.vectors| == |c.vectors|
    ensures r.ok ==> SameShape(c, r.cpu)
    decreases events, 1
  {
    var p := Enter(y, events, dst, c);
    if !p.ok then p
    else
      var i := Meaning(y, events[0].inside, p.cpu, dst);
      var t := p.trace + i.trace;
      if !i.ok then i.(trace := t)
      else Outcome(true, t + [Back(code, ContextOf(y, Top(c)))], Popped(y, i.cpu))
  }

  /** uvisor_disabled_switch_in with what falls into its windows. Code of `dst` is what the
      interrupts in them return to, since the context is already meant to be its own. */
  function Enter(y: Sys, events: seq<Event>, dst: nat, c: Cpu): (r: Outcome)
    requires events != [] && !events[0].Register?
    ensures |r.cpu.vectors| == |c.vectors|
    ensures r.ok ==> r.cpu.sp == c.sp + 1 && SameUpTo(c, r.cpu, c.sp) && r.cpu.sp < |r.cpu.stack|
    decreases events, 0
  {
    var g := Meaning(y, events[0].gap, c.(ps := ContextOf(y, dst)), dst);
    if !g.ok then g
    else if Room(g.cpu) == 0 then Halt(g.trace, TooDeep, g.cpu)
    else
      var p := Meaning(y, events[0].push, HalfPushed(y, g.cpu, dst), dst);
      if !p.ok then Prefixed(g.trace, p)
      else Outcome(true, g.trace + p.trace + [Entered(dst, p.cpu.ps)], Pushed(y, p.cpu, dst))
  }

  // ---- contexts ------------------------------------------------------------------------

  /** The observed context is the one of the box that runs. */
  predicate Right(y: Sys, o: Obs) {
    match o
    case Entered(box, context) => context == ContextOf(y, box)
    case Back(box, context) => context == ContextOf(y, box)
    case _ => true
  }

  predicate AllRight(y: Sys, trace: seq<Obs>) {
    forall o :: o in trace ==> Right(y, o)
  }

  lemma AllRightPlus(y: Sys, a: seq<Obs>, b: seq<Obs>)
    ensures AllRight(y, a + b) <==> AllRight(y, a) && AllRight(y, b)
  {
    assert forall o :: o in a + b <==> o in a || o in b;
  }

  lemma AllRightOne(y: Sys, a: seq<Obs>, o: Obs)
    ensures AllRight(y, a + [o]) <==> AllRight(y, a) && Right(y, o)
  {
    AllRightPlus(y, a, [o]);
  }

  /** Nothing but registrations, and none of them interrupted. */
  predicate NoSwitch(events: seq<Event>)
    decreases events
  {
    events == [] || (events[0].Register? && NoSwitch(events[0].gap) && NoSwitch(events[1..]))
  }

  /** What a batch of events leaves as the current context and above the top. */
  lemma {:induction false} ContextAfter(y: Sys, events: seq<Event>, c: Cpu, code: nat)
    ensures var r := Meaning(y, events, c, code);
            r.ok ==> if NoSwitch(events) then r.cpu.ps == c.ps && r.cpu.stack == c.stack
                     else r.cpu.ps == ContextOf(y, Top(c))
    decreases events, 1
  {
    if events != [] {
      var first := First(y, events, c, code);
      FirstBack(y, events, c, code);
      if first.ok { ContextAfter(y, events[1..], first.cpu, code); }
    }
  }

  lemma {:induction false} FirstBack(y: Sys, events: seq<Event>, c: Cpu, code: nat)
    requires events != []
    ensures var r := First(y, events, c, code);
            r.ok ==> if events[0].Register? && NoSwitch(events[0].gap) then r.cpu.ps == c.ps && r.cpu.stack == c.stack
                     else r.cpu.ps == ContextOf(y, Top(c))
    decreases events, 0
  {
    match events[0]
    case Register(irq, vector, gap) =>
      if irq < |c.vectors| { ContextAfter(y, gap, HalfSet(c, irq, vector), code); }
    case Call(dst, _, _, _) =>
      assert Visit(y, events, dst, c, code).ok ==> Visit(y, events, dst, c, code).cpu.ps == ContextOf(y, Top(c));
    case Irq(irq, torn, _, _, _) =>
      if irq < |c.vectors| {
        var t := Meaning(y, torn, c, code);
        var w := Visit(y, events, c.vectors[irq].box, t.cpu, code);
        assert w.ok ==> w.cpu.ps == ContextOf(y, Top(t.cpu));
      }
  }

  /** The context that a callee or handler finds, when the windows of its switch ran
      through and `g` is the state after the first. */
  function Found(y: Sys, e: Event, dst: nat, c: Cpu, g: Cpu): nat
    requires !e.Register? && Room(g) > 0
  {
    if !NoSwitch(e.push) then ContextOf(y, if y.pointerFirst then Stale(g) else Top(c))
    else ContextOf(y, if NoSwitch(e.gap) then dst else Top(c))
  }

  lemma FoundIs(y: Sys, events: seq<Event>, dst: nat, c: Cpu)
    requires events != [] && !events[0].Register?
    ensures var r, g := Enter(y, events, dst, c), Meaning(y, events[0].gap, c.(ps := ContextOf(y, dst)), dst);
            r.ok ==> g.ok && Room(g.cpu) > 0 && r.cpu.ps == Found(y, events[0], dst, c, g.cpu)
                     && (NoSwitch(events[0].push) ==> Top(r.cpu) == dst)
  {
    var e, g := events[0], Meaning(y, events[0].gap, c.(ps := ContextOf(y, dst)), dst);
    ContextAfter(y, e.gap, c.(ps := ContextOf(y, dst)), dst);
    if g.ok && Room(g.cpu) > 0 { ContextAfter(y, e.push, HalfPushed(y, g.cpu, dst), dst); }
  }

  /** Whoever is switched to starts in its own context if and only if the windows leave it
      that: no interrupt fell into them, or the context that the last one went back to is
      the same. That is the interrupted box's after the first window, and in the second
      one that of the stale entry above it if the stack pointer is stored first. */
  lemma {:induction false} WindowExactly(y: Sys, events: seq<Event>, dst: nat, c: Cpu)
    requires events != [] && !events[0].Register? && Enter(y, events, dst, c).ok
    ensures var e, t := events[0], Enter(y, events, dst, c).trace;
            var g := Meaning(y, e.gap, c.(ps := ContextOf(y, dst)), dst);
            && g.ok && Room(g.cpu) > 0 && |t| > 0
            && t[|t| - 1] == Entered(dst, Found(y, e, dst, c, g.cpu))
            && (Right(y, t[|t| - 1]) <==>
                (if !NoSwitch(e.push) && y.pointerFirst then ContextOf(y, dst) == ContextOf(y, Stale(g.cpu))
                 else (NoSwitch(e.gap) && NoSwitch(e.push)) || ContextOf(y, dst) == ContextOf(y, Top(c))))
  {
    FoundIs(y, events, dst, c);
  }

  /** An interrupt as a whole: after both reads its handler is entered in the same way, and so
      starts in its own context under the same condition. */
  lemma {:induction false} HandlerWindowExactly(y: Sys, events: seq<Event>, c: Cpu, code: nat)
    requires events != [] && events[0].Irq? && events[0].irq < |c.vectors|
    requires var t := Meaning(y, events[0].torn, c, code);
             && t.ok && t.cpu.vectors[events[0].irq].vector != 0
             && Enter(y, events, c.vectors[events[0].irq].box, t.cpu).ok
    ensures var e, t, dst := events[0], Meaning(y, events[0].torn, c, code), c.vectors[events[0].irq].box;
            var g, trace := Meaning(y, e.gap, t.cpu.(ps := ContextOf(y, dst)), dst), First(y, events, c, code).trace;
            var n := |t.trace| + |Enter(y, events, dst, t.cpu).trace|;
            && t.trace + [Handling(e.irq, dst, t.cpu.vectors[e.irq].vector)] <= trace
            && Room(g.cpu) > 0 && n < |trace| && trace[n] == Entered(dst, Found(y, e, dst, t.cpu, g.cpu))
            && (Right(y, trace[n]) <==>
                (if !NoSwitch(e.push) && y.pointerFirst then ContextOf(y, dst) == ContextOf(y, Stale(g.cpu))
                 else (NoSwitch(e.gap) && NoSwitch(e.push)) || ContextOf(y, dst) == ContextOf(y, Top(c))))
  {
    var irq, t := events[0].irq, Meaning(y, events[0].torn, c, code);
    var dst := c.vectors[irq].box;
    var h, w := Handling(irq, dst, t.cpu.vectors[irq].vector), Visit(y, events, dst, t.cpu, code);
    WindowExactly(y, events, dst, t.cpu);
    assert Enter(y, events, dst, t.cpu).trace <= w.trace;
    assert First(y, events, c, code).trace == t.trace + [h] + w.trace;
  }

  /** Every window that a run passes through leaves the right context, and every return is
      to code of the box on top of the stack or of one with the same context. */
  predicate Undisturbed(y: Sys, events: seq<Event>, c: Cpu, code: nat)
    decreases events, 3
  {
    events == [] ||
    (&& FirstUndisturbed(y, events, c, code)
     && var first := First(y, events, c, code);
        (first.ok ==> Undisturbed(y, events[1..], first.cpu, code)))
  }

  predicate FirstUndisturbed(y: Sys, events: seq<Event>, c: Cpu, code: nat)
    requires events != []
    decreases events, 2
  {
    match events[0]
    case Register(irq, vector, gap) =>
      irq < |c.vectors| ==> Undisturbed(y, gap, HalfSet(c, irq, vector), code)
    case Call(dst, _, _, _) => VisitUndisturbed(y, events, dst, c, code)
    case Irq(irq, torn, _, _, _) =>
      irq < |c.vectors| ==>
        && Undisturbed(y, torn, c, code)
        && var t := Meaning(y, torn, c, code);
           (t.ok && t.cpu.vectors[irq].vector != 0 ==> VisitUndisturbed(y, events, c.vectors[irq].box, t.cpu, code))
  }

  predicate VisitUndisturbed(y: Sys, events: seq<Event>, dst: nat, c: Cpu, code: nat)
    requires events != [] && !events[0].Register?
    decreases events, 1
  {
    var p := Enter(y, events, dst, c);
    && EnterUndisturbed(y, events, dst, c)
    && (p.ok ==>
          && Undisturbed(y, events[0].inside, p.cpu, dst)
          && (Meaning(y, events[0].inside, p.cpu, dst).ok ==> ContextOf(y, Top(c)) == ContextOf(y, code)))
  }

  predicate EnterUndisturbed(y: Sys, events: seq<Event>, dst: nat, c: Cpu)
    requires events != [] && !events[0].Register?
    decreases events, 0
  {
    var e, c1 := events[0], c.(ps := ContextOf(y, dst));
    && Undisturbed(y, e.gap, c1, dst)
    && var g := Meaning(y, e.gap, c1, dst);
       (g.ok && Room(g.cpu) > 0 ==>
          && Undisturbed(y, e.push, HalfPushed(y, g.cpu, dst), dst)
          && (Meaning(y, e.push, HalfPushed(y, g.cpu, dst), dst).ok ==>
                ContextOf(y, dst) == Found(y, e, dst, c, g.cpu)))
  }

  /** In every run, all boxes run in their own contexts and get them back if and only if
      no window that was passed through left a different one. */
  lemma {:induction false} RightExactly(y: Sys, events: seq<Event>, c: Cpu, code: nat)
    ensures AllRight(y, Meaning(y, events, c, code).trace) <==> Undisturbed(y, events, c, code)
    decreases events, 3
  {
    if events != [] {
      FirstRightExactly(y, events, c, code);
      var first := First(y, events, c, code);
      if first.ok {
        RightExactly(y, events[1..], first.cpu, code);
        AllRightPlus(y, first.trace, Meaning(y, events[1..], first.cpu, code).trace);
      }
    }
  }

  lemma {:induction false} FirstRightExactly(y: Sys, events: seq<Event>, c: Cpu, code: nat)
    requires events != []
    ensures AllRight(y, First(y, events, c, code).trace) <==> FirstUndisturbed(y, events, c, code)
    decreases events, 2
  {
    match events[0]
    case Register(irq, vector, gap) =>
      if irq < |c.vectors| {
        RightExactly(y, gap, HalfSet(c, irq, vector), code);
        AllRightOne(y, Meaning(y, gap, HalfSet(c, irq, vector), code).trace, Registered(irq, Top(c), vector));
      }
    case Call(dst, _, _, _) => VisitRightExactly(y, events, dst, c, code);
    case Irq(irq, torn, _, _, _) =>
      if irq < |c.vectors| {
        RightExactly(y, torn, c, code);
        var t, dst := Meaning(y, torn, c, code), c.vectors[irq].box;
        AllRightOne(y, t.trace, Halted(NotRegistered));
        VisitRightExactly(y, events, dst, t.cpu, code);
        var h := Handling(irq, dst, t.cpu.vectors[irq].vector);
        AllRightOne(y, t.trace, h);
        AllRightPlus(y, t.trace + [h], Visit(y, events, dst, t.cpu, code).trace);
      }
  }

  lemma {:induction false} VisitRightExactly(y: Sys, events: seq<Event>, dst: nat, c: Cpu, code: nat)
    requires events != [] && !events[0].Register?
    ensures AllRight(y, Visit(y, events, dst, c, code).trace) <==> VisitUndisturbed(y, events, dst, c, code)
    decreases events, 1
  {
    var p := Enter(y, events, dst, c);
    EnterRightExactly(y, events, dst, c);
    if p.ok {
      var i := Meaning(y, events[0].inside, p.cpu, dst);
      RightExactly(y, events[0].inside, p.cpu, dst);
      AllRightPlus(y, p.trace, i.trace);
      AllRightOne(y, p.trace + i.trace, Back(code, ContextOf(y, Top(c))));
    }
  }

  lemma {:induction false} EnterRightExactly(y: Sys, events: seq<Event>, dst: nat, c: Cpu)
    requires events != [] && !events[0].Register?
    ensures AllRight(y, Enter(y, events, dst, c).trace) <==> EnterUndisturbed(y, events, dst, c)
    decreases events, 0
  {
    var e, c1 := events[0], c.(ps := ContextOf(y, dst));
    var g := Meaning(y, e.gap, c1, dst);
    RightExactly(y, e.gap, c1, dst);
    AllRightOne(y, g.trace, Halted(TooDeep));
    if g.ok && Room(g.cpu) > 0 {
      var p := Meaning(y, e.push, HalfPushed(y, g.cpu, dst), dst);
      RightExactly(y, e.push, HalfPushed(y, g.cpu, dst), dst);
      AllRightPlus(y, g.trace, p.trace);
      AllRightOne(y, g.trace + p.trace, Entered(dst, p.cpu.ps));
      FoundIs(y, events, dst, c);
    }
  }

  /** No interrupt falls into a window of a switch, which can be told from the tree. */
  predicate Steady(events: seq<Event>)
    decreases events
  {
    events == [] ||
    (&& Steady(events[1..])
     && match events[0]
        case Register(_, _, gap) => Steady(gap)
        case Call(_, gap, push, inside) => NoSwitch(gap) && NoSwitch(push) && Steady(inside)
        case Irq(_, torn, gap, push, inside) =>
          Steady(torn) && NoSwitch(gap) && NoSwitch(push) && Steady(inside))
  }

  lemma {:induction false} NoSwitchUndisturbed(y: Sys, events: seq<Event>, c: Cpu, code: nat)
    requires NoSwitch(events)
    ensures Undisturbed(y, events, c, code)
    decreases events
  {
    if events != [] {
      var e := events[0];
      if e.irq < |c.vectors| { NoSwitchUndisturbed(y, e.gap, HalfSet(c, e.irq, e.vector), code); }
      NoSwitchUndisturbed(y, events[1..], First(y, events, c, code).cpu, code);
    }
  }

  lemma {:induction false} SteadyUndisturbed(y: Sys, events: seq<Event>, c: Cpu)
    requires Steady(events)
    ensures Undisturbed(y, events, c, Top(c))
    decreases events, 1
  {
    if events != [] {
      match events[0] {
        case Register(irq, vector, gap) =>
          if irq < |c.vectors| { SteadyUndisturbed(y, gap, HalfSet(c, irq, vector)); }
        case Call(dst, _, _, _) => SteadyVisit(y, events, dst, c);
        case Irq(irq, torn, _, _, _) =>
          if irq < |c.vectors| {
            SteadyUndisturbed(y, torn, c);
            var t := Meaning(y, torn, c, Top(c));
            if t.ok { SteadyVisit(y, events, c.vectors[irq].box, t.cpu); }
          }
      }
      var first := First(y, events, c, Top(c));
      if first.ok { SteadyUndisturbed(y, events[1..], first.cpu); }
    }
  }

  lemma {:induction false} SteadyVisit(y: Sys, events: seq<Event>, dst: nat, c: Cpu)
    requires events != [] && !events[0].Register? && Steady(events)
    ensures VisitUndisturbed(y, events, dst, c, Top(c))
    decreases events, 0
  {
    var e, c1 := events[0], c.(ps := ContextOf(y, dst));
    NoSwitchUndisturbed(y, e.gap, c1, dst);
    var g := Meaning(y, e.gap, c1, dst);
    if g.ok && Room(g.cpu) > 0 { NoSwitchUndisturbed(y, e.push, HalfPushed(y, g.cpu, dst), dst); }
    FoundIs(y, events, dst, c);
    var p := Enter(y, events, dst, c);
    if p.ok { SteadyUndisturbed(y, e.inside, p.cpu); }
  }

  /** Every handler and callee runs with its own context, whatever the nesting, and the
      interrupted box gets its context back. */
  lemma SteadyRunsRight(y: Sys, events: seq<Event>, c: Cpu)
    requires Steady(events) && c.ps == ContextOf(y, Top(c))
    ensures var r := Meaning(y, events, c, Top(c));
            AllRight(y, r.trace) && (r.ok ==> r.cpu.ps == ContextOf(y, Top(c)))
  {
    SteadyUndisturbed(y, events, c);
    RightExactly(y, events, c, Top(c));
    ContextAfter(y, events, c, Top(c));
  }

  // ---- nesting -----------------------------------------------------------------------------

  /** How much of the stack the events need. Interrupts in the second window of a switch
      nest one deeper if the stack pointer is stored first. */
  function Height(y: Sys, events: seq<Event>): nat
    decreases events
  {
    if events == [] then 0
    else
      var h := match events[0]
               case Register(_, _, gap) => Height(y, gap)
               case Call(_, gap, push, inside) => VisitHeight(y, Height(y, gap), Height(y, push), Height(y, inside))
               case Irq(_, torn, gap, push, inside) =>
                 Max(Height(y, torn), VisitHeight(y, Height(y, gap), Height(y, push), Height(y, inside)));
      Max(h, Height(y, events[1..]))
  }

  function VisitHeight(y: Sys, gap: nat, push: nat, inside: nat): nat {
    Max(gap, Max(if y.pointerFirst then push + 1 else push, inside + 1))
  }

  function Max(a: nat, b: nat): nat {
    if a < b then b else a
  }

  lemma {:induction false} ShallowFits(y: Sys, events: seq<Event>, c: Cpu, code: nat)
    requires Height(y, events) <= Room(c)
    ensures Halted(TooDeep) !in Meaning(y, events, c, code).trace
    decreases events, 1
  {
    if events != [] {
      match events[0] {
        case Register(irq, vector, gap) =>
          if irq < |c.vectors| { ShallowFits(y, gap, HalfSet(c, irq, vector), code); }
        case Call(dst, _, _, _) => ShallowVisit(y, events, dst, c, code);
        case Irq(irq, torn, _, _, _) =>
          if irq < |c.vectors| {
            ShallowFits(y, torn, c, code);
            var t := Meaning(y, torn, c, code);
            if t.ok { ShallowVisit(y, events, c.vectors[irq].box, t.cpu, code); }
          }
      }
      var first := First(y, events, c, code);
      if first.ok { ShallowFits(y, events[1..], first.cpu, code); }
    }
  }

  lemma {:induction false} ShallowVisit(y: Sys, events: seq<Event>, dst: nat, c: Cpu, code: nat)
    requires events != [] && !events[0].Register? && Height(y, events) <= Room(c)
    ensures Halted(TooDeep) !in Visit(y, events, dst, c, code).trace
    decreases events, 0
  {
    var e, c1 := events[0], c.(ps := ContextOf(y, dst));
    ShallowFits(y, e.gap, c1, dst);
    var g := Meaning(y, e.gap, c1, dst);
    if g.ok {
      ShallowFits(y, e.push, HalfPushed(y, g.cpu, dst), dst);
      ShallowEnter(y, events, dst, c);
      var p := Enter(y, events, dst, c);
      if p.ok { ShallowFits(y, e.inside, p.cpu, dst); }
    }
  }

  lemma ShallowEnter(y: Sys, events: seq<Event>, dst: nat, c: Cpu)
    requires events != [] && !events[0].Register? && Room(c) > 0
    requires var e, g := events[0], Meaning(y, events[0].gap, c.(ps := ContextOf(y, dst)), dst);
             && g.ok && Halted(TooDeep) !in g.trace
             && Halted(TooDeep) !in Meaning(y, e.push, HalfPushed(y, g.cpu, dst), dst).trace
    ensures Halted(TooDeep) !in Enter(y, events, dst, c).trace
  {
  }

  predicate OnlyCalls(events: seq<Event>)
    decreases events
  {
    events == [] ||
    (&& events[0].Call? && OnlyCalls(events[0].gap) && OnlyCalls(events[0].push) && OnlyCalls(events[0].inside)
     && OnlyCalls(events[1..]))
  }

  lemma {:induction false} CallsFit(y: Sys, events: seq<Event>, c: Cpu, code: nat)
    requires OnlyCalls(events)
    ensures Meaning(y, events, c, code).ok <==> Height(y, events) <= Room(c)
    decreases events, 1
  {
    if events != [] {
      var first := First(y, events, c, code);
      assert first == Visit(y, events, events[0].dst, c, code);
      CallFits(y, events, c, code);
      if first.ok { CallsFit(y, events[1..], first.cpu, code); }
    }
  }

  lemma {:induction false} CallFits(y: Sys, events: seq<Event>, c: Cpu, code: nat)
    requires events != [] && OnlyCalls(events)
    ensures var e := events[0];
            Visit(y, events, e.dst, c, code).ok <==>
              VisitHeight(y, Height(y, e.gap), Height(y, e.push), Height(y, e.inside)) <= Room(c)
    decreases events, 0
  {
    var e, c1 := events[0], c.(ps := ContextOf(y, events[0].dst));
    var g := Meaning(y, e.gap, c1, e.dst);
    CallsFit(y, e.gap, c1, e.dst);
    if g.ok && Room(g.cpu) > 0 {
      CallsFit(y, e.push, HalfPushed(y, g.cpu, e.dst), e.dst);
      var p := Enter(y, events, e.dst, c);
      if p.ok { CallsFit(y, e.inside, p.cpu, e.dst); }
    }
  }

  /** Trees that need no more entries than the stack has above its top never overflow it. */
  lemma ShallowNeverOverflows(y: Sys, events: seq<Event>, c: Cpu, code: nat)
    requires Height(y, events) == 0 || c.sp + Height(y, events) < |c.stack|
    ensures Halted(TooDeep) !in Meaning(y, events, c, code).trace
  {
    ShallowFits(y, events, c, code);
  }

  /** Nested calls complete if and only if they fit on the stack. */
  lemma CallsFitExactly(y: Sys, events: seq<Event>, c: Cpu, code: nat)
    requires OnlyCalls(events)
    ensures Meaning(y, events, c, code).ok <==> Height(y, events) == 0 || c.sp + Height(y, events) < |c.stack|
  {
    CallsFit(y, events, c, code);
  }
}
