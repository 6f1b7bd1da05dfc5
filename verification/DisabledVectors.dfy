/** Which box and vector serve an interrupt when uVisor is disabled (api/src/disabled.c):
    the latest registration of its number, unless an interrupt tears the two stores of a
    registration or the two reads of a dispatch apart. */
module DisabledVectors {
  import opened DisabledSpec

  // ---- registrations in a trace ------------------------------------------------------------

  /** The vector table that the completed registrations in a trace leave. */
  function Replay(vectors: seq<Vector>, trace: seq<Obs>): (r: seq<Vector>)
    ensures |r| == |vectors|
    decreases |trace|
  {
    if trace == [] then vectors else Replay(Replayed(vectors, trace[0]), trace[1..])
  }

  function Replayed(vectors: seq<Vector>, o: Obs): (r: seq<Vector>)
    ensures |r| == |vectors|
  {
    if o.Registered? && o.irq < |vectors| then vectors[o.irq := Registration(o.box, o.vector)] else vectors
  }

  lemma {:induction false} ReplayPlus(vectors: seq<Vector>, a: seq<Obs>, b: seq<Obs>)
    ensures Replay(vectors, a + b) == Replay(Replay(vectors, a), b)
    decreases |a|
  {
    if a == [] {
      assert a + b == b;
    } else {
      assert (a + b)[1..] == a[1..] + b;
      ReplayPlus(Replayed(vectors, a[0]), a[1..], b);
    }
  }

  lemma ReplayOne(vectors: seq<Vector>, o: Obs)
    ensures Replay(vectors, [o]) == Replayed(vectors, o)
  {
    assert [o][1..] == [];
  }

  /** The interrupt is served as registered. */
  predicate HandledBy(vectors: seq<Vector>, o: Obs)
    requires o.Handling?
  {
    o.irq < |vectors| && vectors[o.irq] == Vector(o.box, o.vector) && o.vector != 0
  }

  /** Every interrupt is served by the latest registration before it. */
  ghost predicate LatestRules(vectors: seq<Vector>, trace: seq<Obs>) {
    forall n: nat {:trigger RuledAt(vectors, trace, n)} :: n < |trace| ==> RuledAt(vectors, trace, n)
  }

  predicate RuledAt(vectors: seq<Vector>, trace: seq<Obs>, n: nat)
    requires n < |trace|
  {
    trace[n].Handling? ==> HandledBy(Replay(vectors, trace[..n]), trace[n])
  }

  // ---- what a tree touches -------------------------------------------------------------------

  /** The number is registered somewhere in the tree. */
  predicate Registers(events: seq<Event>, irq: nat)
    decreases events
  {
    events != [] &&
    (|| Registers(events[1..], irq)
     || match events[0]
        case Register(i, _, gap) => i == irq || Registers(gap, irq)
        case Call(_, gap, push, inside) => Registers(gap, irq) || Registers(push, irq) || Registers(inside, irq)
        case Irq(_, torn, gap, push, inside) =>
          Registers(torn, irq) || Registers(gap, irq) || Registers(push, irq) || Registers(inside, irq))
  }

  /** The interrupt fires somewhere in the tree. */
  predicate Fires(events: seq<Event>, irq: nat)
    decreases events
  {
    events != [] &&
    (|| Fires(events[1..], irq)
     || match events[0]
        case Register(_, _, gap) => Fires(gap, irq)
        case Call(_, gap, push, inside) => Fires(gap, irq) || Fires(push, irq) || Fires(inside, irq)
        case Irq(i, torn, gap, push, inside) =>
          i == irq || Fires(torn, irq) || Fires(gap, irq) || Fires(push, irq) || Fires(inside, irq))
  }

  /** No registration is interrupted by something that concerns its own number, and no
      dispatch by a registration of its own number. */
  predicate Clean(events: seq<Event>)
    decreases events
  {
    events == [] ||
    (&& Clean(events[1..])
     && match events[0]
        case Register(irq, _, gap) => Clean(gap) && !Registers(gap, irq) && !Fires(gap, irq)
        case Call(_, gap, push, inside) => Clean(gap) && Clean(push) && Clean(inside)
        case Irq(irq, torn, gap, push, inside) =>
          Clean(torn) && !Registers(torn, irq) && Clean(gap) && Clean(push) && Clean(inside))
  }

  // ---- the table in memory and the official one ------------------------------------------------

  /** Memory `v` and official table `o` agree, except that the box of the numbers in
      `half` may be stored already. */
  predicate Agree(v: seq<Vector>, o: seq<Vector>, half: set<nat>) {
    && |v| == |o|
    && forall i: nat :: i < |v| ==> v[i].vector == o[i].vector && (i !in half ==> v[i] == o[i])
  }

  /** The observation is what the memory says, and the official table too unless the
      number is half registered. */
  predicate Served(o: seq<Vector>, v: seq<Vector>, half: set<nat>, x: Obs)
    requires x.Handling?
  {
    && x.irq < |o| && x.irq < |v| && x.vector != 0
    && (if x.irq in half then v[x.irq] == Vector(x.box, x.vector) else o[x.irq] == Vector(x.box, x.vector))
  }

  predicate ServedAt(o: seq<Vector>, v: seq<Vector>, half: set<nat>, trace: seq<Obs>, n: nat)
    requires n < |trace|
  {
    trace[n].Handling? ==>
      && Served(Replay(o, trace[..n]), v, half, trace[n])
      && (trace[n].irq in half ==> Replay(o, trace[..n])[trace[n].irq] == o[trace[n].irq])
  }

  ghost predicate AllServed(o: seq<Vector>, v: seq<Vector>, half: set<nat>, trace: seq<Obs>) {
    forall n: nat {:trigger ServedAt(o, v, half, trace, n)} :: n < |trace| ==> ServedAt(o, v, half, trace, n)
  }

  /** The numbers in `half` keep their entries. */
  predicate KeepsHalf(v: seq<Vector>, v': seq<Vector>, half: set<nat>) {
    |v'| == |v| && forall i: nat :: i < |v| && i in half ==> v'[i] == v[i]
  }

  /** A stretch of a run: from memory `v` to `v'`. */
  ghost predicate Stretch(o: seq<Vector>, v: seq<Vector>, half: set<nat>, trace: seq<Obs>, v': seq<Vector>) {
    && AllServed(o, v, half, trace)
    && Agree(v', Replay(o, trace), half)
    && KeepsHalf(v, v', half) && KeepsHalf(o, Replay(o, trace), half)
  }

  lemma ServedPlus(o: seq<Vector>, v: seq<Vector>, v1: seq<Vector>, half: set<nat>, a: seq<Obs>, b: seq<Obs>)
    requires AllServed(o, v, half, a) && AllServed(Replay(o, a), v1, half, b)
    requires KeepsHalf(v, v1, half) && KeepsHalf(o, Replay(o, a), half)
    ensures AllServed(o, v, half, a + b)
  {
    var t := a + b;
    forall n: nat | n < |t| ensures ServedAt(o, v, half, t, n) {
      if n < |a| {
        assert t[..n] == a[..n] && ServedAt(o, v, half, a, n);
      } else {
        assert t[..n] == a + b[..n - |a|];
        ReplayPlus(o, a, b[..n - |a|]);
        assert ServedAt(Replay(o, a), v1, half, b, n - |a|);
      }
    }
  }

  lemma StretchPlus(o: seq<Vector>, v: seq<Vector>, half: set<nat>, a: seq<Obs>, v1: seq<Vector>, b: seq<Obs>,
                    v2: seq<Vector>)
    requires Stretch(o, v, half, a, v1) && Stretch(Replay(o, a), v1, half, b, v2)
    ensures Stretch(o, v, half, a + b, v2)
  {
    ServedPlus(o, v, v1, half, a, b);
    ReplayPlus(o, a, b);
  }

  lemma OneServed(o: seq<Vector>, v: seq<Vector>, half: set<nat>, x: Obs)
    requires Agree(v, o, half) && !x.Registered? && (x.Handling? ==> Served(o, v, half, x))
    ensures Stretch(o, v, half, [x], v)
  {
    ReplayOne(o, x);
    forall n: nat | n < 1 ensures ServedAt(o, v, half, [x], n) { assert [x][..0] == []; }
  }

  lemma NothingServed(o: seq<Vector>, v: seq<Vector>, half: set<nat>)
    requires Agree(v, o, half)
    ensures Stretch(o, v, half, [], v)
  {
  }

  lemma StretchOne(o: seq<Vector>, v: seq<Vector>, half: set<nat>, a: seq<Obs>, v1: seq<Vector>, x: Obs)
    requires Stretch(o, v, half, a, v1) && !x.Registered? && (x.Handling? ==> Served(Replay(o, a), v1, half, x))
    ensures Stretch(o, v, half, a + [x], v1)
  {
    OneServed(Replay(o, a), v1, half, x);
    StretchPlus(o, v, half, a, v1, [x], v1);
  }

  /** What holds of one batch of events, run or halted. */
  ghost predicate Goes(o: seq<Vector>, v: seq<Vector>, half: set<nat>, r: Outcome) {
    AllServed(o, v, half, r.trace) && (r.ok ==> Stretch(o, v, half, r.trace, r.cpu.vectors))
  }

  // ---- clean trees ---------------------------------------------------------------------------------

  ghost predicate Apart(events: seq<Event>, half: set<nat>) {
    forall i :: i in half ==> !Registers(events, i)
  }

  lemma {:induction false} CleanGoes(y: Sys, events: seq<Event>, c: Cpu, code: nat, o: seq<Vector>, half: set<nat>)
    requires Clean(events) && Apart(events, half) && Agree(c.vectors, o, half)
    ensures Goes(o, c.vectors, half, Meaning(y, events, c, code))
    decreases events, 4
  {
    var v := c.vectors;
    NothingServed(o, v, half);
    if events != [] {
      FirstGoes(y, events, c, code, o, half);
      var first := First(y, events, c, code);
      if first.ok {
        var rest, v1 := Meaning(y, events[1..], first.cpu, code), first.cpu.vectors;
        CleanGoes(y, events[1..], first.cpu, code, Replay(o, first.trace), half);
        ServedPlus(o, v, v1, half, first.trace, rest.trace);
        if rest.ok { StretchPlus(o, v, half, first.trace, v1, rest.trace, rest.cpu.vectors); }
      }
    }
  }

  lemma {:induction false} FirstGoes(y: Sys, events: seq<Event>, c: Cpu, code: nat, o: seq<Vector>, half: set<nat>)
    requires events != [] && Clean(events) && Apart(events, half) && Agree(c.vectors, o, half)
    ensures Goes(o, c.vectors, half, First(y, events, c, code))
    decreases events, 3
  {
    var v := c.vectors;
    OneServed(o, v, half, Halted(NoSuchIrq));
    assert [] + [Halted(NoSuchIrq)] == [Halted(NoSuchIrq)];
    match events[0]
    case Register(irq, vector, gap) =>
      if irq < |v| {
        assert Registers(events, irq) && irq !in half;
        var c1 := HalfSet(c, irq, vector);
        CleanGoes(y, gap, c1, code, o, half + {irq});
        UnfiredServes(y, gap, c1, code, v, o, half, irq);
        var g := Meaning(y, gap, c1, code);
        if g.ok { RegisterGoes(o, c, half, irq, vector, g); }
      }
    case Call(dst, _, _, _) => VisitGoes(y, events, dst, c, code, o, half);
    case Irq(irq, torn, _, _, _) =>
      if irq < |v| {
        CleanGoes(y, torn, c, code, o, half);
        Unregistered(y, torn, c, code, irq);
        if Meaning(y, torn, c, code).ok { DispatchGoes(y, events, c, code, o, half); }
      }
  }

  /** The rest of an interrupt once both fields are read. */
  lemma {:induction false} DispatchGoes(y: Sys, events: seq<Event>, c: Cpu, code: nat, o: seq<Vector>, half: set<nat>)
    requires events != [] && events[0].Irq? && events[0].irq < |c.vectors|
    requires Clean(events) && Apart(events, half) && Agree(c.vectors, o, half)
    requires var irq, t := events[0].irq, Meaning(y, events[0].torn, c, code);
             && t.ok && Stretch(o, c.vectors, half, t.trace, t.cpu.vectors)
             && t.cpu.vectors[irq] == c.vectors[irq]
    ensures Goes(o, c.vectors, half, First(y, events, c, code))
    decreases events, 2
  {
    var irq, t := events[0].irq, Meaning(y, events[0].torn, c, code);
    var v, tv, dst := c.vectors, t.cpu.vectors, c.vectors[irq].box;
    StretchOne(o, v, half, t.trace, tv, Halted(NotRegistered));
    if tv[irq].vector != 0 {
      var h := Handling(irq, dst, tv[irq].vector);
      StretchOne(o, v, half, t.trace, tv, h);
      VisitGoes(y, events, dst, t.cpu, code, Replay(o, t.trace + [h]), half);
      var w := Visit(y, events, dst, t.cpu, code);
      ServedPlus(o, v, tv, half, t.trace + [h], w.trace);
      if w.ok { StretchPlus(o, v, half, t.trace + [h], tv, w.trace, w.cpu.vectors); }
    }
  }

  ghost predicate CleanVisit(e: Event, half: set<nat>) {
    && !e.Register? && Clean(e.gap) && Clean(e.push) && Clean(e.inside)
    && Apart(e.gap, half) && Apart(e.push, half) && Apart(e.inside, half)
  }

  lemma {:induction false} VisitGoes(y: Sys, events: seq<Event>, dst: nat, c: Cpu, code: nat, o: seq<Vector>,
                                     half: set<nat>)
    requires events != [] && CleanVisit(events[0], half) && Agree(c.vectors, o, half)
    ensures Goes(o, c.vectors, half, Visit(y, events, dst, c, code))
    decreases events, 1
  {
    var v, p := c.vectors, Enter(y, events, dst, c);
    EnterGoes(y, events, dst, c, o, half);
    if p.ok {
      var i := Meaning(y, events[0].inside, p.cpu, dst);
      CleanGoes(y, events[0].inside, p.cpu, dst, Replay(o, p.trace), half);
      ServedPlus(o, v, p.cpu.vectors, half, p.trace, i.trace);
      if i.ok {
        StretchPlus(o, v, half, p.trace, p.cpu.vectors, i.trace, i.cpu.vectors);
        StretchOne(o, v, half, p.trace + i.trace, i.cpu.vectors, Back(code, ContextOf(y, Top(c))));
      }
    }
  }

  lemma {:induction false} EnterGoes(y: Sys, events: seq<Event>, dst: nat, c: Cpu, o: seq<Vector>, half: set<nat>)
    requires events != [] && CleanVisit(events[0], half) && Agree(c.vectors, o, half)
    ensures Goes(o, c.vectors, half, Enter(y, events, dst, c))
    decreases events, 0
  {
    var e, v, c1 := events[0], c.vectors, c.(ps := ContextOf(y, dst));
    var g := Meaning(y, e.gap, c1, dst);
    CleanGoes(y, e.gap, c1, dst, o, half);
    if g.ok {
      StretchOne(o, v, half, g.trace, g.cpu.vectors, Halted(TooDeep));
      if Room(g.cpu) > 0 {
        var c2 := HalfPushed(y, g.cpu, dst);
        var p := Meaning(y, e.push, c2, dst);
        CleanGoes(y, e.push, c2, dst, Replay(o, g.trace), half);
        ServedPlus(o, v, g.cpu.vectors, half, g.trace, p.trace);
        if p.ok {
          StretchPlus(o, v, half, g.trace, g.cpu.vectors, p.trace, p.cpu.vectors);
          StretchOne(o, v, half, g.trace + p.trace, p.cpu.vectors, Entered(dst, p.cpu.ps));
        }
      }
    }
  }

  /** Completing a registration makes it official. */
  lemma RegisterGoes(o: seq<Vector>, c: Cpu, half: set<nat>, irq: nat, vector: nat, g: Outcome)
    requires irq < |c.vectors| && irq !in half && Agree(c.vectors, o, half) && |g.cpu.vectors| == |c.vectors|
    requires Stretch(o, HalfSet(c, irq, vector).vectors, half + {irq}, g.trace, g.cpu.vectors)
    requires AllServed(o, c.vectors, half, g.trace)
    ensures var v := g.cpu.vectors;
            Stretch(o, c.vectors, half, g.trace + [Registered(irq, Top(c), vector)],
                    v[irq := v[irq].(vector := vector)])
  {
    var x, o1, v := Registered(irq, Top(c), vector), Replay(o, g.trace), c.vectors;
    ReplayPlus(o, g.trace, [x]);
    ReplayOne(o1, x);
    forall n: nat | n < |g.trace| + 1 ensures ServedAt(o, v, half, g.trace + [x], n) {
      if n < |g.trace| { assert (g.trace + [x])[..n] == g.trace[..n] && ServedAt(o, v, half, g.trace, n); }
    }
  }

  // ---- what does not happen -------------------------------------------------------------------------

  ghost predicate NoHandling(trace: seq<Obs>, irq: nat) {
    forall x :: x in trace ==> !(x.Handling? && x.irq == irq)
  }

  lemma {:induction false} UnfiredQuiet(y: Sys, events: seq<Event>, c: Cpu, code: nat, irq: nat)
    requires !Fires(events, irq)
    ensures NoHandling(Meaning(y, events, c, code).trace, irq)
    decreases events, 1
  {
    if events != [] {
      match events[0] {
        case Register(i, vector, gap) =>
          if i < |c.vectors| { UnfiredQuiet(y, gap, HalfSet(c, i, vector), code, irq); }
        case Call(dst, _, _, _) => UnfiredVisit(y, events, dst, c, code, irq);
        case Irq(i, torn, _, _, _) =>
          if i < |c.vectors| {
            UnfiredQuiet(y, torn, c, code, irq);
            UnfiredVisit(y, events, c.vectors[i].box, Meaning(y, torn, c, code).cpu, code, irq);
          }
      }
      UnfiredQuiet(y, events[1..], First(y, events, c, code).cpu, code, irq);
    }
  }

  lemma {:induction false} UnfiredVisit(y: Sys, events: seq<Event>, dst: nat, c: Cpu, code: nat, irq: nat)
    requires events != [] && !events[0].Register? && !Fires(events, irq)
    ensures NoHandling(Visit(y, events, dst, c, code).trace, irq)
    decreases events, 0
  {
    var e, c1 := events[0], c.(ps := ContextOf(y, dst));
    UnfiredQuiet(y, e.gap, c1, dst, irq);
    var g := Meaning(y, e.gap, c1, dst);
    if g.ok && Room(g.cpu) > 0 { UnfiredQuiet(y, e.push, HalfPushed(y, g.cpu, dst), dst, irq); }
    UnfiredQuiet(y, e.inside, Enter(y, events, dst, c).cpu, dst, irq);
  }

  /** While the number does not fire, nobody sees that it is half registered. */
  lemma UnfiredServes(y: Sys, events: seq<Event>, c: Cpu, code: nat, v: seq<Vector>, o: seq<Vector>, half: set<nat>,
                      irq: nat)
    requires irq < |v| && |c.vectors| == |v| && (forall i: nat :: i < |v| && i != irq ==> c.vectors[i] == v[i])
    requires !Fires(events, irq)
    requires AllServed(o, c.vectors, half + {irq}, Meaning(y, events, c, code).trace)
    ensures AllServed(o, v, half, Meaning(y, events, c, code).trace)
  {
    var t := Meaning(y, events, c, code).trace;
    UnfiredQuiet(y, events, c, code, irq);
    forall n: nat | n < |t| ensures ServedAt(o, v, half, t, n) {
      assert ServedAt(o, c.vectors, half + {irq}, t, n) && t[n] in t;
    }
  }

  /** A number that nobody registers keeps its entry. */
  lemma {:induction false} Unregistered(y: Sys, events: seq<Event>, c: Cpu, code: nat, irq: nat)
    requires !Registers(events, irq) && irq < |c.vectors|
    ensures Meaning(y, events, c, code).cpu.vectors[irq] == c.vectors[irq]
    decreases events, 1
  {
    if events != [] {
      match events[0] {
        case Register(i, vector, gap) =>
          if i < |c.vectors| { Unregistered(y, gap, HalfSet(c, i, vector), code, irq); }
        case Call(dst, _, _, _) => UnregisteredVisit(y, events, dst, c, code, irq);
        case Irq(i, torn, _, _, _) =>
          if i < |c.vectors| {
            Unregistered(y, torn, c, code, irq);
            UnregisteredVisit(y, events, c.vectors[i].box, Meaning(y, torn, c, code).cpu, code, irq);
          }
      }
      Unregistered(y, events[1..], First(y, events, c, code).cpu, code, irq);
    }
  }

  lemma {:induction false} UnregisteredVisit(y: Sys, events: seq<Event>, dst: nat, c: Cpu, code: nat, irq: nat)
    requires events != [] && !events[0].Register? && !Registers(events, irq) && irq < |c.vectors|
    ensures Visit(y, events, dst, c, code).cpu.vectors[irq] == c.vectors[irq]
    decreases events, 0
  {
    var e, c1 := events[0], c.(ps := ContextOf(y, dst));
    Unregistered(y, e.gap, c1, dst, irq);
    var g := Meaning(y, e.gap, c1, dst);
    if g.ok && Room(g.cpu) > 0 { Unregistered(y, e.push, HalfPushed(y, g.cpu, dst), dst, irq); }
    Unregistered(y, e.inside, Enter(y, events, dst, c).cpu, dst, irq);
  }

  // ---- results ----------------------------------------------------------------------------------------

  lemma ServedRules(o: seq<Vector>, trace: seq<Obs>)
    ensures AllServed(o, o, {}, trace) <==> LatestRules(o, trace)
  {
    forall n: nat | n < |trace| ensures ServedAt(o, o, {}, trace, n) <==> RuledAt(o, trace, n) {}
  }

  /** In every clean run, each interrupt is served by the box and vector of the latest
      registration of its number, nested registrations included. */
  lemma LatestRegistrationServes(y: Sys, events: seq<Event>, c: Cpu, code: nat)
    requires Clean(events)
    ensures var r := Meaning(y, events, c, code);
            LatestRules(c.vectors, r.trace) && (r.ok ==> r.cpu.vectors == Replay(c.vectors, r.trace))
  {
    CleanGoes(y, events, c, code, c.vectors, {});
    ServedRules(c.vectors, Meaning(y, events, c, code).trace);
  }

  /** Everything in a tree that runs through happens. */
  lemma {:induction false} FiredHandled(y: Sys, events: seq<Event>, c: Cpu, code: nat, irq: nat)
    requires Fires(events, irq) && Meaning(y, events, c, code).ok
    ensures !NoHandling(Meaning(y, events, c, code).trace, irq)
    decreases events, 3
  {
    var first := First(y, events, c, code);
    var rest := Meaning(y, events[1..], first.cpu, code);
    if Fires(events[1..], irq) {
      FiredHandled(y, events[1..], first.cpu, code, irq);
      HandledWithin(first.trace, rest.trace, [], irq);
      assert first.trace + rest.trace + [] == first.trace + rest.trace;
    } else {
      FiredFirst(y, events, c, code, irq);
      HandledWithin([], first.trace, rest.trace, irq);
      assert [] + first.trace + rest.trace == first.trace + rest.trace;
    }
  }

  lemma HandledWithin(a: seq<Obs>, b: seq<Obs>, d: seq<Obs>, irq: nat)
    requires !NoHandling(b, irq)
    ensures !NoHandling(a + b + d, irq)
  {
    var x :| x in b && x.Handling? && x.irq == irq;
    assert x in a + b + d;
  }

  lemma {:induction false} FiredFirst(y: Sys, events: seq<Event>, c: Cpu, code: nat, irq: nat)
    requires Fires(events, irq) && !Fires(events[1..], irq) && First(y, events, c, code).ok
    ensures !NoHandling(First(y, events, c, code).trace, irq)
    decreases events, 2
  {
    match events[0]
    case Register(i, vector, gap) =>
      var g := Meaning(y, gap, HalfSet(c, i, vector), code);
      FiredHandled(y, gap, HalfSet(c, i, vector), code, irq);
      HandledWithin([], g.trace, [Registered(i, Top(c), vector)], irq);
      assert [] + g.trace == g.trace;
    case Call(dst, _, _, _) => FiredVisit(y, events, dst, c, code, irq);
    case Irq(i, torn, _, _, _) =>
      var t, dst := Meaning(y, torn, c, code), c.vectors[i].box;
      var h, w := Handling(i, dst, t.cpu.vectors[i].vector), Visit(y, events, dst, t.cpu, code);
      if i == irq {
        assert !NoHandling([h], irq) by { assert h in [h]; }
        HandledWithin(t.trace, [h], w.trace, irq);
      } else if Fires(torn, irq) {
        FiredHandled(y, torn, c, code, irq);
        HandledWithin([], t.trace, [h] + w.trace, irq);
        assert [] + t.trace + ([h] + w.trace) == t.trace + [h] + w.trace;
      } else {
        FiredVisit(y, events, dst, t.cpu, code, irq);
        HandledWithin(t.trace + [h], w.trace, [], irq);
        assert t.trace + [h] + w.trace + [] == t.trace + [h] + w.trace;
      }
  }

  lemma {:induction false} FiredVisit(y: Sys, events: seq<Event>, dst: nat, c: Cpu, code: nat, irq: nat)
    requires events != [] && !events[0].Register? && Visit(y, events, dst, c, code).ok
    requires Fires(events[0].gap, irq) || Fires(events[0].push, irq) || Fires(events[0].inside, irq)
    ensures !NoHandling(Visit(y, events, dst, c, code).trace, irq)
    decreases events, 1
  {
    var e, n := events[0], Enter(y, events, dst, c);
    var i, b := Meaning(y, e.inside, n.cpu, dst), [Back(code, ContextOf(y, Top(c)))];
    assert Visit(y, events, dst, c, code).trace == n.trace + i.trace + b;
    if Fires(e.inside, irq) {
      FiredHandled(y, e.inside, n.cpu, dst, irq);
      HandledWithin(n.trace, i.trace, b, irq);
    } else {
      FiredEnter(y, events, dst, c, irq);
      HandledWithin([], n.trace, i.trace + b, irq);
      assert [] + n.trace + (i.trace + b) == n.trace + i.trace + b;
    }
  }

  lemma {:induction false} FiredEnter(y: Sys, events: seq<Event>, dst: nat, c: Cpu, irq: nat)
    requires events != [] && !events[0].Register? && Enter(y, events, dst, c).ok
    requires Fires(events[0].gap, irq) || Fires(events[0].push, irq)
    ensures !NoHandling(Enter(y, events, dst, c).trace, irq)
    decreases events, 0
  {
    var e, c1 := events[0], c.(ps := ContextOf(y, dst));
    var g := Meaning(y, e.gap, c1, dst);
    var p := Meaning(y, e.push, HalfPushed(y, g.cpu, dst), dst);
    var x := [Entered(dst, p.cpu.ps)];
    assert Enter(y, events, dst, c).trace == g.trace + p.trace + x;
    if Fires(e.push, irq) {
      FiredHandled(y, e.push, HalfPushed(y, g.cpu, dst), dst, irq);
      HandledWithin(g.trace, p.trace, x, irq);
    } else {
      FiredHandled(y, e.gap, c1, dst, irq);
      HandledWithin([], g.trace, p.trace + x, irq);
      assert [] + g.trace + (p.trace + x) == g.trace + p.trace + x;
    }
  }

  /** A completed registration whose window is clean of further registrations of its number
      leaves every interrupt served as registered if and only if the number did not fire in
      the window or the box did not change. With no vector registered before, an interrupt
      of that number in the window halts the system. */
  lemma TornStoreExactly(y: Sys, events: seq<Event>, c: Cpu, code: nat)
    requires events != [] && events[0].Register? && events[0].irq < |c.vectors|
    requires Clean(events[0].gap) && !Registers(events[0].gap, events[0].irq)
    ensures var e, r := events[0], First(y, events, c, code);
            && (r.ok ==> (LatestRules(c.vectors, r.trace) <==>
                          !Fires(e.gap, e.irq) || c.vectors[e.irq].box == Owner(Top(c), e.vector)))
            && (c.vectors[e.irq].vector == 0 && Fires(e.gap, e.irq) ==> !r.ok)
  {
    var e := events[0];
    var c1 := HalfSet(c, e.irq, e.vector);
    var g := Meaning(y, e.gap, c1, code);
    CleanGoes(y, e.gap, c1, code, c.vectors, {e.irq});
    if g.ok {
      TornTrace(c.vectors, c1.vectors, e.irq, g.trace);
      RulesEnd(c.vectors, g.trace, Registered(e.irq, Top(c), e.vector));
      if Fires(e.gap, e.irq) {
        FiredHandled(y, e.gap, c1, code, e.irq);
      } else {
        UnfiredQuiet(y, e.gap, c1, code, e.irq);
      }
    }
  }

  lemma RulesEnd(vectors: seq<Vector>, trace: seq<Obs>, x: Obs)
    requires !x.Handling?
    ensures LatestRules(vectors, trace + [x]) <==> LatestRules(vectors, trace)
  {
    var t := trace + [x];
    forall n: nat | n < |trace| ensures RuledAt(vectors, t, n) <==> RuledAt(vectors, trace, n) {
      assert t[..n] == trace[..n];
    }
    assert RuledAt(vectors, t, |trace|);
  }

  /** In the window of a registration the old vector is served for the new box. */
  lemma TornTrace(o: seq<Vector>, v: seq<Vector>, irq: nat, trace: seq<Obs>)
    requires irq < |o| && Agree(v, o, {irq}) && AllServed(o, v, {irq}, trace)
    ensures LatestRules(o, trace) <==> NoHandling(trace, irq) || v[irq] == o[irq]
    ensures !NoHandling(trace, irq) ==> v[irq].vector != 0
  {
    if !NoHandling(trace, irq) {
      var n: nat :| n < |trace| && trace[n].Handling? && trace[n].irq == irq;
      assert ServedAt(o, v, {irq}, trace, n);
      assert v[irq] != o[irq] ==> !RuledAt(o, trace, n);
    }
    if NoHandling(trace, irq) || v[irq] == o[irq] {
      forall n: nat | n < |trace| ensures RuledAt(o, trace, n) {
        assert ServedAt(o, v, {irq}, trace, n) && trace[n] in trace;
      }
    }
  }

  /** An interrupt with clean windows is served as registered if and only if the box
      registered for its number is the same before and after the window between its reads. */
  lemma TornReadExactly(y: Sys, events: seq<Event>, c: Cpu, code: nat)
    requires events != [] && events[0].Irq? && events[0].irq < |c.vectors|
    requires Clean(events[0].torn) && CleanVisit(events[0], {})
    requires var t := Meaning(y, events[0].torn, c, code); t.ok && t.cpu.vectors[events[0].irq].vector != 0
    ensures var irq, t := events[0].irq, Meaning(y, events[0].torn, c, code);
            var trace := First(y, events, c, code).trace;
            LatestRules(c.vectors, trace) <==> t.cpu.vectors[irq].box == c.vectors[irq].box
  {
    var irq, t, v := events[0].irq, Meaning(y, events[0].torn, c, code), c.vectors;
    LatestRegistrationServes(y, events[0].torn, c, code);
    var dst := v[irq].box;
    var h, w := Handling(irq, dst, t.cpu.vectors[irq].vector), Visit(y, events, dst, t.cpu, code);
    VisitGoes(y, events, dst, t.cpu, code, t.cpu.vectors, {});
    ServedRules(t.cpu.vectors, w.trace);
    RulesAround(v, t.trace, h, w.trace);
    assert First(y, events, c, code).trace == t.trace + [h] + w.trace;
  }

  lemma RulesAround(vectors: seq<Vector>, a: seq<Obs>, h: Obs, b: seq<Obs>)
    requires h.Handling? && LatestRules(vectors, a) && LatestRules(Replay(vectors, a), b)
    ensures LatestRules(vectors, a + [h] + b) <==> HandledBy(Replay(vectors, a), h)
  {
    var t, o := a + [h] + b, Replay(vectors, a);
    assert t[..|a|] == a && t[|a|] == h;
    if HandledBy(o, h) {
      ServedRules(vectors, a);
      ServedRules(o, b);
      OneServed(o, o, {}, h);
      ReplayOne(o, h);
      ServedPlus(o, o, o, {}, [h], b);
      ServedPlus(vectors, vectors, o, {}, a, [h] + b);
      assert a + ([h] + b) == t;
      HalfNone(vectors, vectors, o, t);
      ServedRules(vectors, t);
    } else {
      assert !RuledAt(vectors, t, |a|);
    }
  }

  lemma HalfNone(o: seq<Vector>, v: seq<Vector>, v1: seq<Vector>, trace: seq<Obs>)
    requires AllServed(o, v, {}, trace) && |v1| == |v|
    ensures AllServed(o, v1, {}, trace)
  {
    forall n: nat | n < |trace| ensures ServedAt(o, v1, {}, trace, n) { assert ServedAt(o, v, {}, trace, n); }
  }

  /** The shortest tree in which it goes wrong: the interrupt arrives between the two stores
      and the vector of one box runs in the context of another. */
  lemma TornStoreExample(y: Sys, irq: nat, vector: nat, c: Cpu, code: nat)
    requires irq < |c.vectors| && c.vectors[irq].vector != 0 && c.vectors[irq].box != Owner(Top(c), vector)
    requires Room(c) > 0
    ensures var r, b := Meaning(y, [Register(irq, vector, [Irq(irq, [], [], [], [])])], c, code), Owner(Top(c), vector);
            && r.ok && !LatestRules(c.vectors, r.trace)
            && |r.trace| >= 2 && r.trace[0] == Handling(irq, b, c.vectors[irq].vector)
            && r.trace[1] == Entered(b, ContextOf(y, b))
  {
    var gap, c1, b := [Irq(irq, [], [], [], [])], HalfSet(c, irq, vector), Owner(Top(c), vector);
    var events := [Register(irq, vector, gap)];
    assert gap[1..] == [] && events[1..] == [];
    var c2 := c1.(ps := ContextOf(y, b));
    var n, w := Enter(y, gap, b, c1), Visit(y, gap, b, c1, code);
    assert Meaning(y, gap[0].gap, c2, b) == Outcome(true, [], c2);
    assert Meaning(y, gap[0].push, HalfPushed(y, c2, b), b) == Outcome(true, [], HalfPushed(y, c2, b));
    assert n.ok && n.trace == [Entered(b, ContextOf(y, b))];
    assert Meaning(y, gap[0].inside, n.cpu, b) == Outcome(true, [], n.cpu);
    assert w.ok && w.trace == [Entered(b, ContextOf(y, b)), Back(code, ContextOf(y, Top(c1)))];
    assert Meaning(y, gap[0].torn, c1, code) == Outcome(true, [], c1);
    var f, h := First(y, gap, c1, code), Handling(irq, b, c.vectors[irq].vector);
    assert f.ok && f.trace == [h] + w.trace;
    assert Meaning(y, gap[1..], f.cpu, code) == Outcome(true, [], f.cpu);
    var g, x := Meaning(y, gap, c1, code), First(y, events, c, code);
    assert g.ok && g.trace == f.trace + [];
    assert x.ok && x.trace == g.trace + [Registered(irq, Top(c), vector)];
    var r := Meaning(y, events, c, code);
    assert Meaning(y, events[1..], x.cpu, code) == Outcome(true, [], x.cpu);
    assert r.ok && r.trace == x.trace + [];
    assert r.trace[..0] == [] && !RuledAt(c.vectors, r.trace, 0);
  }
}
