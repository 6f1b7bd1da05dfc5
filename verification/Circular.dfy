/** The circular buffer loops of core/cmsis/inc/arm_math.h, for any strides. */
module Circular {

  const OFFSET_RANGE: int := 0x1_0000   // the write offset is stored as uint16_t

  // ---- scattering and gathering ------------------------------------------------------

  ghost predicate Within(places: seq<int>, length: nat) {
    forall i: nat :: i < |places| ==> 0 <= places[i] < length
  }

  ghost predicate Distinct(places: seq<int>) {
    forall i: nat, j: nat :: i < j < |places| ==> places[i] != places[j]
  }

  /** Storing the first n values at their places one after the other. */
  ghost function Stored(buffer: seq<int>, places: seq<int>, values: seq<int>, n: nat): (w: seq<int>)
    requires |values| == |places| && Within(places, |buffer|) && n <= |places|
    ensures |w| == |buffer|
  {
    if n == 0 then buffer else Stored(buffer, places, values, n - 1)[places[n - 1] := values[n - 1]]
  }

  ghost function Scatter(buffer: seq<int>, places: seq<int>, values: seq<int>): (w: seq<int>)
    requires |values| == |places| && Within(places, |buffer|)
    ensures |w| == |buffer|
  {
    Stored(buffer, places, values, |places|)
  }

  ghost function Gather(buffer: seq<int>, places: seq<int>): (g: seq<int>)
    requires Within(places, |buffer|)
    ensures |g| == |places| && forall i: nat :: i < |g| ==> g[i] == buffer[places[i]]
  {
    seq(|places|, i requires 0 <= i < |places| => buffer[places[i]])
  }

  /** No later place among the first n is the same. */
  ghost predicate Last(places: seq<int>, i: nat, n: nat)
    requires n <= |places|
  {
    i < n && forall j: nat :: i < j < n ==> places[j] != places[i]
  }

  lemma {:induction false} StoredIs(buffer: seq<int>, places: seq<int>, values: seq<int>, n: nat)
    requires |values| == |places| && Within(places, |buffer|) && n <= |places|
    ensures var w := Stored(buffer, places, values, n);
            && (forall i: nat {:trigger Last(places, i, n)} :: Last(places, i, n) ==> w[places[i]] == values[i])
            && (forall c: nat :: c < |buffer| && (forall i: nat :: i < n ==> places[i] != c) ==> w[c] == buffer[c])
  {
    if n > 0 {
      StoredIs(buffer, places, values, n - 1);
      forall i: nat | Last(places, i, n) && i < n - 1 ensures Last(places, i, n - 1) && places[n - 1] != places[i] {}
    }
  }

  /** A place keeps the last value stored there, and other places are untouched. */
  lemma ScatterIs(buffer: seq<int>, places: seq<int>, values: seq<int>)
    requires |values| == |places| && Within(places, |buffer|)
    ensures var w := Scatter(buffer, places, values);
            && (forall i: nat {:trigger Last(places, i, |places|)} :: Last(places, i, |places|) ==>
                  w[places[i]] == values[i])
            && (forall c: nat :: c < |buffer| && c !in places ==> w[c] == buffer[c])
  {
    StoredIs(buffer, places, values, |places|);
    forall c: nat | c < |buffer| && c !in places ensures forall i: nat :: i < |places| ==> places[i] != c {
      assert forall i: nat :: i < |places| ==> places[i] in places;
    }
  }

  ghost predicate ReadsBack(buffer: seq<int>, places: seq<int>, values: seq<int>)
    requires |values| == |places| && Within(places, |buffer|)
  {
    Gather(Scatter(buffer, places, values), places) == values
  }

  lemma ReadBack(buffer: seq<int>, places: seq<int>, values: seq<int>)
    requires |values| == |places| && Within(places, |buffer|) && Distinct(places)
    ensures ReadsBack(buffer, places, values)
  {
    ScatterIs(buffer, places, values);
    var w := Scatter(buffer, places, values);
    forall i: nat | i < |places| ensures w[places[i]] == values[i] { assert Last(places, i, |places|); }
  }

  lemma Collision(buffer: seq<int>, places: seq<int>, values: seq<int>, i: nat, j: nat)
    requires |values| == |places| && Within(places, |buffer|)
    requires i < j < |places| && places[i] == places[j] && values[i] != values[j]
    ensures !ReadsBack(buffer, places, values)
  {
    var g := Gather(Scatter(buffer, places, values), places);
    assert g[i] == g[j];
  }

  /** What is stored is what is read back, for every block, if and only if no place is
      used twice. */
  lemma ReadBackExactly(buffer: seq<int>, places: seq<int>)
    requires Within(places, |buffer|)
    ensures Distinct(places) <==> forall values | |values| == |places| :: ReadsBack(buffer, places, values)
  {
    if Distinct(places) {
      forall values | |values| == |places| ensures ReadsBack(buffer, places, values) {
        ReadBack(buffer, places, values);
      }
    } else {
      var i: nat, j: nat :| i < j < |places| && places[i] == places[j];
      var values := seq(|places|, k => k);
      Collision(buffer, places, values, i, j);
    }
  }

  // ---- the places --------------------------------------------------------------------------

  /** One step of the running offset: only an overrun at the upper end wraps around. */
  function Next(c: int, inc: int, length: int): int {
    if c + inc >= length then c + inc - length else c + inc
  }

  function Offset(start: int, inc: int, length: int, i: nat): int {
    if i == 0 then start else Next(Offset(start, inc, length, i - 1), inc, length)
  }

  ghost function Cells(start: int, inc: int, length: int, n: nat): (c: seq<int>)
    ensures |c| == n && forall i: nat :: i < n ==> c[i] == Offset(start, inc, length, i)
  {
    if n == 0 then [] else Cells(start, inc, length, n - 1) + [Offset(start, inc, length, n - 1)]
  }

  /** The destination goes back to its base only on meeting its end exactly. */
  function NextSpot(d: int, inc: int, length: int): int {
    if d + inc == length then 0 else d + inc
  }

  function Spot(start: int, inc: int, length: int, i: nat): int {
    if i == 0 then start else NextSpot(Spot(start, inc, length, i - 1), inc, length)
  }

  ghost function Spots(start: int, inc: int, length: int, n: nat): (c: seq<int>)
    ensures |c| == n && forall i: nat :: i < n ==> c[i] == Spot(start, inc, length, i)
  {
    if n == 0 then [] else Spots(start, inc, length, n - 1) + [Spot(start, inc, length, n - 1)]
  }

  /** A pointer that only advances. */
  ghost function Strided(inc: int, n: nat): (c: seq<int>)
    ensures |c| == n && forall i: nat :: i < n ==> c[i] == Steps(inc, i)
  {
    if n == 0 then [] else Strided(inc, n - 1) + [Steps(inc, n - 1)]
  }

  function Steps(inc: int, i: nat): int {
    if i == 0 then 0 else Steps(inc, i - 1) + inc
  }

  // ---- the loops ---------------------------------------------------------------------------

  /** arm_circularWrite_q15, for any strides that stay inside the two arrays. */
  method Write(buffer: array<int>, offset: int, bufferInc: int, src: seq<int>, srcInc: int, n: nat)
    returns (offset': int)
    requires Within(Cells(offset, bufferInc, buffer.Length, n), buffer.Length) && Within(Strided(srcInc, n), |src|)
    modifies buffer
    ensures buffer[..] == Scatter(old(buffer[..]), Cells(offset, bufferInc, buffer.Length, n),
                                  Gather(src, Strided(srcInc, n)))
    ensures offset' == Offset(offset, bufferInc, buffer.Length, n) % OFFSET_RANGE
  {
    var w, p := offset, 0;
    var i := n;
    ghost var was, block := buffer[..], Gather(src, Strided(srcInc, n));
    ghost var cells := Cells(offset, bufferInc, buffer.Length, n);
    while i > 0
      invariant 0 <= i <= n
      invariant w == Offset(offset, bufferInc, buffer.Length, n - i) && p == Steps(srcInc, n - i)
      invariant buffer[..] == Stored(was, cells, block, n - i)
    {
      assert cells[n - i] == w && Strided(srcInc, n)[n - i] == p;
      buffer[w] := src[p];
      p := p + srcInc;
      w := w + bufferInc;
      if w >= buffer.Length {
        w := w - buffer.Length;
      }
      i := i - 1;
    }
    offset' := w % OFFSET_RANGE;
  }

  /** arm_circularRead_q15, likewise. */
  method Read(buffer: array<int>, offset: int, bufferInc: int, dst: array<int>, dstInc: int, n: nat)
    returns (offset': int)
    requires buffer != dst
    requires Within(Cells(offset, bufferInc, buffer.Length, n), buffer.Length)
    requires Within(Spots(0, dstInc, dst.Length, n), dst.Length)
    modifies dst
    ensures dst[..] == Scatter(old(dst[..]), Spots(0, dstInc, dst.Length, n),
                               Gather(buffer[..], Cells(offset, bufferInc, buffer.Length, n)))
    ensures offset' == Offset(offset, bufferInc, buffer.Length, n)
  {
    var r, d := offset, 0;
    var i := n;
    ghost var was, spots := dst[..], Spots(0, dstInc, dst.Length, n);
    ghost var cells := Cells(offset, bufferInc, buffer.Length, n);
    ghost var block := Gather(buffer[..], cells);
    while i > 0
      invariant 0 <= i <= n
      invariant r == Offset(offset, bufferInc, buffer.Length, n - i) && d == Spot(0, dstInc, dst.Length, n - i)
      invariant dst[..] == Stored(was, spots, block, n - i)
    {
      assert spots[n - i] == d && cells[n - i] == r;
      dst[d] := buffer[r];
      d := d + dstInc;
      if d == dst.Length {
        d := 0;
      }
      r := r + bufferInc;
      if r >= buffer.Length {
        r := r - buffer.Length;
      }
      i := i - 1;
    }
    offset' := r;
  }

  // ---- where the strides lead -------------------------------------------------------------------

  /** The remainder by repeated subtraction. */
  function Wrap(x: nat, length: nat): (r: nat)
    requires length > 0
    ensures r < length
  {
    if x < length then x else Wrap(x - length, length)
  }

  /** It is the remainder: x is a multiple of the length more. */
  lemma {:induction false} WrapIsRemainder(x: nat, length: nat)
    requires length > 0
    ensures exists q: nat :: x == q * length + Wrap(x, length)
  {
    if x < length {
      assert x == 0 * length + Wrap(x, length);
    } else {
      WrapIsRemainder(x - length, length);
      var q: nat :| x - length == q * length + Wrap(x - length, length);
      assert x == (q + 1) * length + Wrap(x, length);
    }
  }

  lemma {:induction false} WrapAdd(x: nat, inc: nat, length: nat)
    requires 0 < length && inc <= length
    ensures Wrap(x + inc, length) == Next(Wrap(x, length), inc, length)
  {
    if x >= length { WrapAdd(x - length, inc, length); }
  }

  /** The source is read in steps of its stride. The offset into the ring advances by its
      stride and is wrapped around, for strides up to the length of the ring; a stride below
      0 only takes it down, since an underrun does not wrap around. */
  lemma {:induction false} StrideOffset(start: int, inc: int, length: nat, i: nat)
    requires start < length
    ensures Steps(inc, i) == i * inc
    ensures 0 <= start && 0 <= inc <= length ==> start + i * inc >= 0
    ensures 0 <= start && 0 <= inc <= length ==> Offset(start, inc, length, i) == Wrap(start + i * inc, length)
    ensures inc <= 0 ==> Offset(start, inc, length, i) == start + i * inc
  {
    if i > 0 {
      StrideOffset(start, inc, length, i - 1);
      assert i * inc == (i - 1) * inc + inc;
      if 0 <= start && 0 <= inc <= length {
        WrapAdd(start + (i - 1) * inc, inc, length);
      } else if inc <= 0 {
        NoRise(inc, i - 1);
      }
    }
  }

  lemma NoRise(inc: int, i: nat)
    requires inc <= 0
    ensures i * inc <= 0
  {
  }

  /** A destination of `m` strides is filled over and over, in steps of its stride. */
  lemma {:induction false} StrideSpot(inc: nat, m: nat, i: nat)
    requires inc > 0 && m > 0
    ensures Spot(0, inc, m * inc, i) == inc * Wrap(i, m)
  {
    if i > 0 {
      StrideSpot(inc, m, i - 1);
      WrapStep(i - 1, m);
      SpotStep(inc, m, Wrap(i - 1, m));
    }
  }

  lemma SpotStep(inc: nat, m: nat, w: nat)
    requires inc > 0 && w < m
    ensures NextSpot(inc * w, inc, m * inc) == inc * Next(w, 1, m)
  {
    SameProduct(inc, w + 1, m);
    assert inc * w + inc == inc * (w + 1);
  }

  lemma SameProduct(inc: nat, x: nat, y: nat)
    requires inc > 0
    ensures inc * x == y * inc <==> x == y
  {
    if x < y { assert inc * y == inc * x + inc * (y - x); }
    if y < x { assert inc * x == inc * y + inc * (x - y); }
  }

  // ---- unit strides ---------------------------------------------------------------------------

  lemma {:induction false} WrapStep(x: nat, length: nat)
    requires length > 0
    ensures Wrap(x + 1, length) == Next(Wrap(x, length), 1, length)
  {
    if x >= length { WrapStep(x - length, length); }
  }

  lemma {:induction false} WrapDistinct(x: nat, y: nat, length: nat)
    requires x < y < x + length
    ensures Wrap(x, length) != Wrap(y, length)
  {
    if x >= length { WrapDistinct(x - length, y - length, length); }
  }

  /** With unit stride the offset after n samples is the start plus n, wrapped around. */
  lemma {:induction false} UnitOffset(start: nat, length: nat, n: nat)
    requires start < length
    ensures Offset(start, 1, length, n) == Wrap(start + n, length)
  {
    if n > 0 {
      UnitOffset(start, length, n - 1);
      WrapStep(start + n - 1, length);
    }
  }

  /** With unit stride a block stays in the ring, and no cell is used twice if and only if
      the block is no longer than the buffer. */
  lemma UnitCells(start: nat, length: nat, n: nat)
    requires start < length
    ensures Within(Cells(start, 1, length, n), length)
    ensures Distinct(Cells(start, 1, length, n)) <==> n <= length
  {
    var cells := Cells(start, 1, length, n);
    forall i: nat | i < n ensures cells[i] == Wrap(start + i, length) { UnitOffset(start, length, i); }
    forall i: nat, j: nat | i < j < n && n <= length ensures cells[i] != cells[j] {
      WrapDistinct(start + i, start + j, length);
    }
    if n > length {
      assert cells[0] == Wrap(start, length) && cells[length] == Wrap(start + length, length);
    }
  }

  lemma {:induction false} UnitSpot(length: nat, i: nat)
    requires i < length
    ensures Spot(0, 1, length, i) == i && Steps(1, i) == i
  {
    if i > 0 { UnitSpot(length, i - 1); }
  }

  lemma UnitSpots(length: nat, n: nat)
    requires n <= length
    ensures forall i: nat :: i < n ==> Spot(0, 1, length, i) == i && Steps(1, i) == i
  {
    forall i: nat | i < n ensures Spot(0, 1, length, i) == i && Steps(1, i) == i { UnitSpot(length, i); }
  }

  /** Storing the first samples of a source in the first places replaces a prefix. */
  lemma CopyPrefix(target: seq<int>, src: seq<int>, spots: seq<int>, steps: seq<int>)
    requires |spots| == |steps| <= |target| && |steps| <= |src|
    requires forall i: nat :: i < |spots| ==> spots[i] == i && steps[i] == i
    ensures Within(spots, |target|) && Within(steps, |src|)
    ensures Scatter(target, spots, Gather(src, steps)) == src[..|steps|] + target[|steps|..]
  {
    var block := Gather(src, steps);
    var w := Scatter(target, spots, block);
    forall c: nat | c < |target| ensures w[c] == if c < |steps| then src[c] else target[c] {
      CopyAt(target, spots, block, c);
    }
  }

  lemma CopyAt(target: seq<int>, spots: seq<int>, block: seq<int>, c: nat)
    requires |block| == |spots| <= |target| && c < |target| && forall i: nat :: i < |spots| ==> spots[i] == i
    ensures Within(spots, |target|)
    ensures Scatter(target, spots, block)[c] == if c < |spots| then block[c] else target[c]
  {
    ScatterIs(target, spots, block);
    if c < |spots| { assert Last(spots, c, |spots|); }
  }

  /** At unit strides, what Write stores and Read then fetches from the same offset is the
      block itself, both offsets end at the start plus n wrapped around, and no cell
      outside the block changes. */
  lemma RoundTrip(buffer: seq<int>, target: seq<int>, start: nat, src: seq<int>, n: nat)
    requires start < |buffer| && n <= |src| && n <= |buffer| && n <= |target|
    ensures Within(Cells(start, 1, |buffer|, n), |buffer|) && Within(Strided(1, n), |src|)
    ensures Within(Spots(0, 1, |target|, n), |target|)
    ensures var cells := Cells(start, 1, |buffer|, n);
            var filled := Scatter(buffer, cells, Gather(src, Strided(1, n)));
            && Scatter(target, Spots(0, 1, |target|, n), Gather(filled, cells)) == src[..n] + target[n..]
            && forall c: nat :: c < |buffer| && c !in cells ==> filled[c] == buffer[c]
    ensures Offset(start, 1, |buffer|, n) == Wrap(start + n, |buffer|)
  {
    UnitCells(start, |buffer|, n);
    UnitSpots(|target|, n);
    CopyPrefix(target, src, Spots(0, 1, |target|, n), Strided(1, n));
    UnitOffset(start, |buffer|, n);
    var cells, block := Cells(start, 1, |buffer|, n), Gather(src, Strided(1, n));
    ScatterIs(buffer, cells, block);
    ReadBack(buffer, cells, block);
  }
}
