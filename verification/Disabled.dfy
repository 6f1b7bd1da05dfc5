/** api/src/disabled.c: box contexts carved from reserved memory, and the call stack that
    keeps track of the current one. */
module Disabled {
  import opened Regions
  import opened DisabledSpec
  import opened DisabledVectors
  import opened DisabledTrace

  // ---- where the contexts lie ------------------------------------------------------------

  /** The bytes that each box takes from the area. */
  function Lengths(mpu: Mpu, sizes: seq<nat>): (l: seq<nat>)
    ensures |l| == |sizes|
  {
    seq(|sizes|, b requires 0 <= b < |sizes| => if sizes[b] == 0 then 0 else RoundUp(mpu, sizes[b]))
  }

  /** The bump pointer after the first `n` boxes. */
  function Position(start: nat, lengths: seq<nat>, n: nat): nat
    requires n <= |lengths|
  {
    if n == 0 then start else Position(start, lengths, n - 1) + lengths[n - 1]
  }

  function Contexts(start: nat, sizes: seq<nat>, lengths: seq<nat>): (c: seq<nat>)
    requires |lengths| == |sizes|
    ensures |c| == |sizes|
  {
    seq(|sizes|, b requires 0 <= b < |sizes| => if sizes[b] == 0 then 0 else Position(start, lengths, b))
  }

  lemma {:induction false} PositionGrows(start: nat, lengths: seq<nat>, m: nat, n: nat)
    requires m <= n <= |lengths|
    ensures Position(start, lengths, m) <= Position(start, lengths, n)
    decreases n
  {
    if m < n { PositionGrows(start, lengths, m, n - 1); }
  }

  /** Regions of different boxes do not overlap, each is as large as asked, and all lie
      between the start and the final bump pointer. */
  lemma ContextsDisjoint(mpu: Mpu, start: nat, sizes: seq<nat>, a: nat, b: nat)
    requires a < b < |sizes| && sizes[a] > 0 && sizes[b] > 0
    requires sizes[a] <= 0x8000_0000 && sizes[b] <= 0x8000_0000
    ensures var l := Lengths(mpu, sizes);
            var c := Contexts(start, sizes, l);
            && start <= c[a] && c[a] + l[a] <= c[b] && c[b] + l[b] <= Position(start, l, |sizes|)
            && sizes[a] <= l[a] && sizes[b] <= l[b]
  {
    LayoutDisjoint(start, sizes, Lengths(mpu, sizes), a, b);
    LengthFits(mpu, sizes, a);
    LengthFits(mpu, sizes, b);
  }

  lemma LayoutDisjoint(start: nat, sizes: seq<nat>, l: seq<nat>, a: nat, b: nat)
    requires |l| == |sizes| && a < b < |sizes| && sizes[a] > 0 && sizes[b] > 0
    ensures var c := Contexts(start, sizes, l);
            start <= c[a] && c[a] + l[a] <= c[b] && c[b] + l[b] <= Position(start, l, |sizes|)
  {
    PositionGrows(start, l, 0, a);
    PositionGrows(start, l, a + 1, b);
    PositionGrows(start, l, b + 1, |sizes|);
  }

  lemma LengthFits(mpu: Mpu, sizes: seq<nat>, b: nat)
    requires b < |sizes| && sizes[b] <= 0x8000_0000
    ensures sizes[b] <= Lengths(mpu, sizes)[b]
  {
    RoundUpLeast(mpu, sizes[b], 0);
  }

  /** The configuration of one secure box. */
  datatype BoxConfig = BoxConfig(stack: nat, context: nat, others: nat)

  /** The bytes that each box reserved; box 0 reserves none. */
  function ReservedBytes(mpu: Mpu, boxes: seq<BoxConfig>): (r: seq<nat>)
    ensures |r| == |boxes| + 1 && r[0] == 0
  {
    [0] + seq(|boxes|, i requires 0 <= i < |boxes| => Reserved(mpu, boxes[i].stack, boxes[i].context, boxes[i].others))
  }

  function TotalReserved(mpu: Mpu, boxes: seq<BoxConfig>): nat {
    Position(0, ReservedBytes(mpu, boxes), |boxes| + 1)
  }

  /** Box 0 has no context; the sizes of the others come from their configuration. */
  function Sizes(boxes: seq<BoxConfig>): (s: seq<nat>)
    ensures |s| == |boxes| + 1 && s[0] == 0
  {
    [0] + seq(|boxes|, i requires 0 <= i < |boxes| => boxes[i].context)
  }

  /** All contexts together fit in what the boxes reserved. */
  lemma ContextsWithinReserved(mpu: Mpu, start: nat, boxes: seq<BoxConfig>)
    requires forall b :: b in boxes ==> Wanted(b.stack, b.context, b.others) + 256 <= 0x8000_0000
    ensures Position(start, Lengths(mpu, Sizes(boxes)), |boxes| + 1) <= start + TotalReserved(mpu, boxes)
  {
    var l, r := Lengths(mpu, Sizes(boxes)), ReservedBytes(mpu, boxes);
    forall i: nat | i < |l| ensures l[i] <= r[i] { LengthWithin(mpu, boxes, i); }
    PositionBelow(start, l, r, |l|);
  }

  lemma LengthWithin(mpu: Mpu, boxes: seq<BoxConfig>, i: nat)
    requires forall b :: b in boxes ==> Wanted(b.stack, b.context, b.others) + 256 <= 0x8000_0000
    requires i < |boxes| + 1
    ensures Lengths(mpu, Sizes(boxes))[i] <= ReservedBytes(mpu, boxes)[i]
  {
    if i > 0 {
      var b := boxes[i - 1];
      assert b in boxes;
      ContextFits(mpu, b.stack, b.context, b.others);
      LengthOf(mpu, boxes, i);
    }
  }

  lemma LengthOf(mpu: Mpu, boxes: seq<BoxConfig>, i: nat)
    requires 0 < i < |boxes| + 1
    ensures Lengths(mpu, Sizes(boxes))[i] <= RoundUp(mpu, boxes[i - 1].context)
  {
    assert Sizes(boxes)[i] == boxes[i - 1].context;
  }

  lemma {:induction false} PositionBelow(start: nat, a: seq<nat>, b: seq<nat>, n: nat)
    requires n <= |a| && n <= |b| && forall i: nat :: i < n ==> a[i] <= b[i]
    ensures Position(start, a, n) <= start + Position(0, b, n)
  {
    if n > 0 { PositionBelow(start, a, b, n - 1); }
  }

  // ---- the running system ----------------------------------------------------------------

  predicate KnownBoxes(events: seq<Event>, boxes: nat)
    decreases events
  {
    events == [] ||
    (&& KnownBoxes(events[1..], boxes)
     && match events[0]
        case Register(_, _, gap) => KnownBoxes(gap, boxes)
        case Call(dst, gap, push, inside) =>
          dst < boxes && KnownBoxes(gap, boxes) && KnownBoxes(push, boxes) && KnownBoxes(inside, boxes)
        case Irq(_, torn, gap, push, inside) =>
          && KnownBoxes(torn, boxes) && KnownBoxes(gap, boxes)
          && KnownBoxes(push, boxes) && KnownBoxes(inside, boxes))
  }

  ghost predicate BoxBelow(s: seq<nat>, i: nat, boxes: nat)
    requires i < |s|
  {
    s[i] < boxes
  }

  ghost predicate Below(s: seq<nat>, boxes: nat) {
    forall i: nat {:trigger BoxBelow(s, i, boxes)} :: i < |s| ==> BoxBelow(s, i, boxes)
  }

  ghost predicate OwnerBelow(v: seq<Vector>, i: nat, boxes: nat)
    requires i < |v|
  {
    v[i].box < boxes
  }

  ghost predicate OwnersBelow(v: seq<Vector>, boxes: nat) {
    forall i: nat {:trigger OwnerBelow(v, i, boxes)} :: i < |v| ==> OwnerBelow(v, i, boxes)
  }

  lemma StillBelow(s: seq<nat>, i: nat, box: nat, boxes: nat)
    requires Below(s, boxes) && i < |s| && box < boxes
    ensures Below(s[i := box], boxes)
  {
    var t := s[i := box];
    forall k: nat | k < |t| ensures BoxBelow(t, k, boxes) { assert BoxBelow(s, k, boxes); }
  }

  lemma OwnersStillBelow(v: seq<Vector>, i: nat, w: Vector, boxes: nat)
    requires OwnersBelow(v, boxes) && i < |v| && w.box < boxes
    ensures OwnersBelow(v[i := w], boxes)
  {
    var t := v[i := w];
    forall k: nat | k < |t| ensures OwnerBelow(t, k, boxes) { assert OwnerBelow(v, k, boxes); }
  }

  class System {
    const mpu: Mpu
    const start: nat              // __uvisor_bss_boxes_start
    const sizes: seq<nat>         // the context sizes in the configuration tables
    const pointerFirst: bool      // which of the two stores of a push the compiler emits first
    const memory: array<nat>      // indexed by address
    const table: array<nat>       // g_uvisor_ps_array
    const stack: array<nat>       // g_call_stack
    const vectors: array<Vector>  // g_uvisor_disabled_vectors
    var ps: nat                   // __uvisor_ps
    var sp: nat                   // g_call_sp
    var initialized: bool
    var position: nat

    ghost predicate Shape()
      reads this
    {
      && table != stack && table != memory && stack != memory
      && table.Length == MAX_BOXES && stack.Length == MAX_DEPTH && 0 < |sizes| <= MAX_BOXES
      && 0 < start && Position(start, Lengths(mpu, sizes), |sizes|) <= memory.Length
    }

    ghost function Current(): seq<nat>
      reads this
    {
      Contexts(start, sizes, Lengths(mpu, sizes))
    }

    ghost function Boxes(): Sys
      reads this
    {
      Sys(Current(), pointerFirst)
    }

    /** What the events act on. */
    ghost function State(): Cpu
      reads this, stack, vectors
    {
      Cpu(ps, sp, stack[..], vectors[..])
    }

    /** Entries above the top of the stack are left over from earlier calls. */
    ghost predicate Tables()
      reads this, table, stack, vectors
    {
      && Shape() && sizes[0] == 0 && sp < MAX_DEPTH
      && Below(stack[..], |sizes|) && OwnersBelow(vectors[..], |sizes|)
      && (initialized ==> table[..|sizes|] == Current())
    }

    /** Before the first switch nothing was allocated and box 0 runs without a context. */
    ghost predicate Valid()
      reads this, table, stack, vectors
    {
      Tables() && (!initialized ==> sp == 0 && stack[0] == 0 && ps == 0)
    }

    /** The current context is the one of the box on top of the stack. */
    ghost predicate InContext()
      reads this, stack, vectors
    {
      ps == ContextOf(Boxes(), Top(State()))
    }

    constructor (mpu: Mpu, start: nat, sizes: seq<nat>, pointerFirst: bool, memory: array<nat>, irqs: nat)
      requires 0 < start && 0 < |sizes| <= MAX_BOXES && sizes[0] == 0
      requires Position(start, Lengths(mpu, sizes), |sizes|) <= memory.Length
      ensures Valid() && InContext() && sp == 0 && !initialized
      ensures vectors[..] == seq(irqs, _ => Vector(0, 0))
      ensures this.mpu == mpu && this.start == start && this.sizes == sizes && this.memory == memory
      ensures this.pointerFirst == pointerFirst
      ensures fresh(table) && fresh(stack) && fresh(vectors)
    {
      this.mpu, this.start, this.sizes, this.pointerFirst, this.memory := mpu, start, sizes, pointerFirst, memory;
      table := new nat[MAX_BOXES](_ => 0);
      stack := new nat[MAX_DEPTH](_ => 0);
      vectors := new Vector[irqs](_ => Vector(0, 0));
      ps, sp, initialized, position := 0, 0, false, 0;
    }

    /** uvisor_disabled_init_context. Box 0 must not ask for a context. */
    method Init() returns (ok: bool)
      requires Shape()
      modifies this`initialized, this`position, table, memory
      ensures ok == (old(initialized) || sizes[0] == 0)
      ensures ok ==> initialized
      ensures old(initialized) ==> unchanged(this) && unchanged(table) && unchanged(memory)
      ensures ok && !old(initialized) ==>
                && table[..|sizes|] == Current()
                && position == Position(start, Lengths(mpu, sizes), |sizes|)
                && forall x: nat :: x < memory.Length ==>
                     memory[x] == if start <= x < position then 0 else old(memory[x])
    {
      if initialized {
        return true;
      }
      var box := 0;
      position := start;
      ghost var l := Lengths(mpu, sizes);
      while box < |sizes|
        invariant 0 <= box <= |sizes| && position == Position(start, l, box)
        invariant box > 0 ==> sizes[0] == 0
        invariant initialized == old(initialized)
        invariant table[..box] == Contexts(start, sizes, l)[..box]
        invariant start <= position
        invariant forall x: nat :: x < memory.Length ==>
                    memory[x] == if start <= x < position then 0 else old(memory[x])
      {
        if sizes[box] == 0 {
          table[box] := 0;
        } else if box == 0 {
          return false;
        } else {
          Place(box);
        }
        box := box + 1;
      }
      initialized := true;
      return true;
    }

    /** Giving one box its context. */
    method Place(box: nat)
      requires Shape() && box < |sizes| && sizes[box] != 0 && position == Position(start, Lengths(mpu, sizes), box)
      modifies this`position, table, memory
      ensures position == Position(start, Lengths(mpu, sizes), box + 1) >= old(position)
      ensures table[..] == old(table[..])[box := old(position)]
      ensures forall x: nat :: x < memory.Length ==>
                memory[x] == if old(position) <= x < position then 0 else old(memory[x])
    {
      var bytes := RoundUp(mpu, sizes[box]);
      assert bytes == Lengths(mpu, sizes)[box];
      PositionGrows(start, Lengths(mpu, sizes), box + 1, |sizes|);
      table[box] := position;
      Clear(position, bytes);
      position := position + bytes;
    }

    /** memset to zero. */
    method Clear(from: nat, n: nat)
      requires from + n <= memory.Length
      modifies memory
      ensures forall x: nat :: x < memory.Length ==>
                memory[x] == if from <= x < from + n then 0 else old(memory[x])
    {
      var i := 0;
      while i < n
        invariant 0 <= i <= n
        invariant forall x: nat :: x < memory.Length ==>
                    memory[x] == if from <= x < from + i then 0 else old(memory[x])
      {
        memory[from + i] := 0;
        i := i + 1;
      }
    }

    /** uvisor_disabled_switch_in up to its first window. */
    method SetContext(dst: nat)
      requires Valid() && dst < |sizes|
      modifies this`ps, this`initialized, this`position, table, memory
      ensures Valid() && initialized && ps == ContextOf(Boxes(), dst)
    {
      if !initialized {
        var _ := Init();
      }
      assert table[dst] == table[..|sizes|][dst];
      ps := table[dst];
    }

    /** From its first window to its second: the check, and one store of the push. */
    method HalfPush(dst: nat) returns (ok: bool)
      requires Valid() && initialized && dst < |sizes|
      modifies this`sp, stack
      ensures Valid()
      ensures ok == (Room(old(State())) > 0)
      ensures State() == if ok then HalfPushed(Boxes(), old(State()), dst) else old(State())
    {
      if sp >= MAX_DEPTH - 1 {
        return false;
      }
      StillBelow(stack[..], sp + 1, dst, |sizes|);
      if pointerFirst { sp := sp + 1; } else { stack[sp + 1] := dst; }
      return true;
    }

    /** The other store. */
    method PushRest(dst: nat)
      requires Valid() && initialized && dst < |sizes| && (pointerFirst || sp < MAX_DEPTH - 1)
      modifies this`sp, stack
      ensures Valid() && State() == Pushed(Boxes(), old(State()), dst)
    {
      StillBelow(stack[..], sp, dst, |sizes|);
      if pointerFirst { stack[sp] := dst; } else { sp := sp + 1; }
    }

    /** uvisor_disabled_switch_out. */
    method SwitchOut() returns (ok: bool)
      requires Valid()
      modifies this`sp, this`ps
      ensures Valid()
      ensures ok == (old(sp) > 0)
      ensures if ok then State() == Popped(Boxes(), old(State())) && InContext() else unchanged(this)
    {
      if sp == 0 {
        return false;
      }
      sp := sp - 1;
      assert BoxBelow(stack[..], sp, |sizes|);
      assert table[stack[sp]] == table[..|sizes|][stack[sp]];
      ps := table[stack[sp]];
      return true;
    }

    /** uvisor_disabled_get_vector. */
    method GetVector(irq: nat) returns (ok: bool, vector: nat)
      requires Valid()
      ensures ok == (irq < vectors.Length)
      ensures ok ==> vector == vectors[irq].vector
    {
      if irq >= vectors.Length {
        return false, 0;
      }
      return true, vectors[irq].vector;
    }

    /** The events run on the call stack, during code of box `code`. What is observed is
        their meaning, and unless the system halts so is the state they leave. */
    method Run(events: seq<Event>, code: nat) returns (ok: bool, trace: seq<Obs>)
      requires Valid() && KnownBoxes(events, |sizes|)
      modifies this, table, memory, stack, vectors
      ensures var r := Meaning(Boxes(), events, old(State()), code);
              ok == r.ok && trace == r.trace && (ok ==> Valid() && State() == r.cpu)
      ensures ok && old(initialized) ==> initialized
      decreases events, 5
    {
      if events == [] {
        return true, [];
      }
      ok, trace := RunFirst(events, code);
      if ok {
        var rest;
        ok, rest := Run(events[1..], code);
        trace := trace + rest;
      }
    }

    /** Unless an interrupt falls into a window of a switch, every box runs in its own
        context and the current context is the one of the box on top of the stack, before
        and after. */
    method RunSteady(events: seq<Event>) returns (ok: bool, trace: seq<Obs>)
      requires Valid() && KnownBoxes(events, |sizes|) && Steady(events) && InContext()
      modifies this, table, memory, stack, vectors
      ensures AllRight(Boxes(), trace)
      ensures ok ==> Valid() && InContext() && SameShape(old(State()), State())
    {
      SteadyRunsRight(Boxes(), events, State());
      ok, trace := Run(events, stack[sp]);
    }

    /** What get_vector returns after a clean run: the vector registered last. */
    method RunThenGet(events: seq<Event>, code: nat, irq: nat) returns (ok: bool, trace: seq<Obs>, vector: nat)
      requires Valid() && KnownBoxes(events, |sizes|) && Clean(events) && irq < vectors.Length
      modifies this, table, memory, stack, vectors
      ensures ok ==> Valid() && forall m: nat :: Latest(trace, irq, m, |trace|) ==> vector == trace[m].vector
      ensures ok && NoneBefore(trace, irq, |trace|) ==> vector == old(vectors[irq].vector)
    {
      ghost var c := State();
      ok, trace := Run(events, code);
      vector := 0;
      if ok {
        TableAsRegistered(Boxes(), events, c, code, irq, 0);
        forall m: nat | Latest(trace, irq, m, |trace|) ensures State().vectors[irq].vector == trace[m].vector {
          TableAsRegistered(Boxes(), events, c, code, irq, m);
        }
        var _, v := GetVector(irq);
        vector := v;
        assert vectors[irq] == State().vectors[irq];
      }
    }

    method RunFirst(events: seq<Event>, code: nat) returns (ok: bool, trace: seq<Obs>)
      requires events != [] && Valid() && KnownBoxes(events, |sizes|)
      modifies this, table, memory, stack, vectors
      ensures var r := First(Boxes(), events, old(State()), code);
              ok == r.ok && trace == r.trace && (ok ==> Valid() && State() == r.cpu)
      ensures ok && old(initialized) ==> initialized
      decreases events, 4
    {
      if events[0].Register? {
        ok, trace := RunRegister(events, code);
      } else if events[0].Call? {
        ok, trace := RunVisit(events, events[0].dst, code);
      } else {
        ok, trace := RunIrq(events, code);
      }
    }

    /** uvisor_disabled_set_vector with what falls between its stores: the box on top of the
        stack is registered, or box 0 for a de-registration. */
    method RunRegister(events: seq<Event>, code: nat) returns (ok: bool, trace: seq<Obs>)
      requires events != [] && events[0].Register? && Valid() && KnownBoxes(events, |sizes|)
      modifies this, table, memory, stack, vectors
      ensures var r := First(Boxes(), events, old(State()), code);
              ok == r.ok && trace == r.trace && (ok ==> Valid() && State() == r.cpu)
      ensures ok && old(initialized) ==> initialized
      ensures ok && events[0].gap == [] ==>
                var box := if events[0].vector == 0 then 0 else old(stack[sp]);
                vectors[..] == old(vectors[..])[events[0].irq := Vector(box, events[0].vector)]
      decreases events, 3
    {
      var irq, vector := events[0].irq, events[0].vector;
      if irq >= vectors.Length {
        return false, [Halted(NoSuchIrq)];
      }
      var box := stack[sp];
      ghost var c := HalfSet(State(), irq, vector);
      assert BoxBelow(stack[..], sp, |sizes|);
      OwnersStillBelow(vectors[..], irq, c.vectors[irq], |sizes|);
      vectors[irq] := vectors[irq].(box := if vector != 0 then box else 0);
      assert State() == c;
      ok, trace := Run(events[0].gap, code);
      if ok {
        ghost var g := State();
        assert OwnerBelow(vectors[..], irq, |sizes|);
        OwnersStillBelow(vectors[..], irq, vectors[irq].(vector := vector), |sizes|);
        vectors[irq] := vectors[irq].(vector := vector);
        assert State() == g.(vectors := g.vectors[irq := g.vectors[irq].(vector := vector)]);
        trace := trace + [Registered(irq, box, vector)];
      }
    }

    /** uvisor_disabled_default_vector with what falls between its reads. */
    method RunIrq(events: seq<Event>, code: nat) returns (ok: bool, trace: seq<Obs>)
      requires events != [] && events[0].Irq? && Valid() && KnownBoxes(events, |sizes|)
      modifies this, table, memory, stack, vectors
      ensures var r := First(Boxes(), events, old(State()), code);
              ok == r.ok && trace == r.trace && (ok ==> Valid() && State() == r.cpu)
      ensures ok && old(initialized) ==> initialized
      decreases events, 3
    {
      var irq := events[0].irq;
      if irq >= vectors.Length {
        return false, [Halted(NoSuchIrq)];
      }
      var dst := vectors[irq].box;
      assert OwnerBelow(vectors[..], irq, |sizes|);
      ok, trace := Run(events[0].torn, code);
      if !ok {
        return;
      }
      assert State().vectors[irq] == vectors[irq];
      var vector := vectors[irq].vector;
      if vector == 0 {
        return false, trace + [Halted(NotRegistered)];
      }
      var more;
      ok, more := RunVisit(events, dst, code);
      trace := trace + [Handling(irq, dst, vector)] + more;
    }

    /** uvisor_disabled_switch_in up to its second window. */
    method RunHalf(events: seq<Event>, dst: nat) returns (ok: bool, trace: seq<Obs>)
      requires events != [] && !events[0].Register? && Valid() && KnownBoxes(events, |sizes|) && dst < |sizes|
      modifies this, table, memory, stack, vectors
      ensures var g := Meaning(Boxes(), events[0].gap, old(State()).(ps := ContextOf(Boxes(), dst)), dst);
              && ok == (g.ok && Room(g.cpu) > 0)
              && trace == g.trace + (if g.ok && !ok then [Halted(TooDeep)] else [])
              && (ok ==> Valid() && initialized && State() == HalfPushed(Boxes(), g.cpu, dst))
      decreases events, 0
    {
      SetContext(dst);
      ok, trace := Run(events[0].gap, dst);
      if ok {
        ok := HalfPush(dst);
        if !ok { trace := trace + [Halted(TooDeep)]; }
      }
    }

    /** From there on. */
    method RunRest(push: seq<Event>, dst: nat) returns (ok: bool, trace: seq<Obs>)
      requires Valid() && initialized && KnownBoxes(push, |sizes|) && dst < |sizes|
      requires pointerFirst || sp < MAX_DEPTH - 1
      modifies this, table, memory, stack, vectors
      ensures var p := Meaning(Boxes(), push, old(State()), dst);
              && ok == p.ok && trace == p.trace + (if ok then [Entered(dst, p.cpu.ps)] else [])
              && (ok ==> Valid() && initialized && State() == Pushed(Boxes(), p.cpu, dst))
      decreases push, 6
    {
      ok, trace := Run(push, dst);
      if ok {
        trace := trace + [Entered(dst, ps)];
        PushRest(dst);
      }
    }

    /** uvisor_disabled_switch_in with what falls into its windows. */
    method RunEnter(events: seq<Event>, dst: nat) returns (ok: bool, trace: seq<Obs>)
      requires events != [] && !events[0].Register? && Valid() && KnownBoxes(events, |sizes|) && dst < |sizes|
      modifies this, table, memory, stack, vectors
      ensures var r := Enter(Boxes(), events, dst, old(State()));
              ok == r.ok && trace == r.trace && (ok ==> Valid() && initialized && State() == r.cpu)
      decreases events, 1
    {
      ghost var y := Boxes();
      ghost var g := Meaning(y, events[0].gap, State().(ps := ContextOf(y, dst)), dst);
      ok, trace := RunHalf(events, dst);
      if !ok {
        return;
      }
      assert trace == g.trace;
      var more;
      ok, more := RunRest(events[0].push, dst);
      trace := trace + more;
    }

    method RunVisit(events: seq<Event>, dst: nat, code: nat) returns (ok: bool, trace: seq<Obs>)
      requires events != [] && !events[0].Register? && Valid() && KnownBoxes(events, |sizes|) && dst < |sizes|
      modifies this, table, memory, stack, vectors
      ensures var r := Visit(Boxes(), events, dst, old(State()), code);
              ok == r.ok && trace == r.trace && (ok ==> Valid() && initialized && State() == r.cpu)
      decreases events, 2
    {
      ok, trace := RunEnter(events, dst);
      if ok {
        var more;
        ok, more := Run(events[0].inside, dst);
        trace := trace + more;
        if ok {
          ok := SwitchOut();
          trace := trace + [Back(code, ps)];
        }
      }
    }
  }
}
