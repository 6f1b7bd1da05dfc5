/** The IPC token words of a box (api/src/ipc.c). A uint32_t that is only used as a
    bit field is modelled as its 32 bits, lowest first. A token is a word with one
    bit set; `Tokens(w)` is the set of bit positions of a word. */
module IpcTokens {

  type Word = w: seq<bool> | |w| == 32
    witness [
      false, false, false, false, false, false, false, false, false, false, false, false, false, false, false, false,
      false, false, false, false, false, false, false, false, false, false, false, false, false, false, false, false]

  const ZERO: Word := Bit(32)   // UVISOR_IPC_INVALID_TOKEN

  function Or(v: Word, w: Word): Word {
    seq(32, i requires 0 <= i < 32 => v[i] || w[i])
  }

  function And(v: Word, w: Word): Word {
    seq(32, i requires 0 <= i < 32 => v[i] && w[i])
  }

  function Not(w: Word): Word {
    seq(32, i requires 0 <= i < 32 => !w[i])
  }

  function ShiftLeft(w: Word): Word {
    [false] + w[..31]
  }

  /** The word 1 << i; shifting the bit out leaves zero. */
  function Bit(i: nat): Word {
    seq(32, j requires 0 <= j < 32 => j == i)
  }

  function Tokens(w: Word): set<nat> {
    set i: nat | i < 32 && w[i]
  }

  const AllTokens: set<nat> := Tokens(Not(ZERO))

  /** A word is determined by its tokens. */
  lemma TokensFaithful(v: Word, w: Word)
    ensures Tokens(v) == Tokens(w) <==> v == w
  {
    if Tokens(v) == Tokens(w) {
      forall i: nat | i < 32 ensures v[i] == w[i] { assert v[i] <==> i in Tokens(v); }
    }
  }

  /** The word operations are the set operations. */
  lemma TokensOps(v: Word, w: Word)
    ensures Tokens(Or(v, w)) == Tokens(v) + Tokens(w)
    ensures Tokens(And(v, w)) == Tokens(v) * Tokens(w)
    ensures Tokens(And(v, Not(w))) == Tokens(v) - Tokens(w)
    ensures w == ZERO <==> Tokens(w) == {}
  {
    TokensFaithful(w, ZERO);
  }

  // ---- allocation -----------------------------------------------------------------

  /** The lowest clear bit, or 32. */
  function FirstClear(w: Word): (i: nat)
    ensures i <= 32 && (i < 32 ==> !w[i])
    ensures forall j: nat :: j < i ==> w[j]
  {
    FirstClearFrom(w, 0)
  }

  function FirstClearFrom(w: Word, from: nat): (i: nat)
    requires from <= 32
    ensures from <= i <= 32 && (i < 32 ==> !w[i])
    ensures forall j: nat :: from <= j < i ==> w[j]
    decreases 32 - from
  {
    if from == 32 || !w[from] then from else FirstClearFrom(w, from + 1)
  }

  /** Allocation fails exactly when all 32 tokens are taken, and adds one otherwise. */
  lemma AllocateIs(w: Word)
    ensures Bit(FirstClear(w)) == ZERO <==> Tokens(w) == AllTokens
    ensures FirstClear(w) == 32 <==> Tokens(w) == AllTokens
    ensures Tokens(Bit(FirstClear(w))) == if FirstClear(w) < 32 then {FirstClear(w)} else {}
    ensures Tokens(Or(w, Bit(FirstClear(w)))) == Tokens(w) + (if FirstClear(w) < 32 then {FirstClear(w)} else {})
  {
    var i := FirstClear(w);
    TokensOps(w, Bit(i));
    assert Tokens(Bit(i)) == if i < 32 then {i} else {};
    if i < 32 { assert Not(ZERO)[i] && i in AllTokens && i !in Tokens(w); }
  }

  lemma AllocateAt(w: Word, i: nat)
    requires i <= 32 && (i < 32 ==> !w[i]) && forall j: nat :: j < i ==> w[j]
    ensures i == FirstClear(w)
    ensures Bit(i) == ZERO <==> Tokens(w) == AllTokens
    ensures Bit(i) == ZERO ==> Or(w, Bit(i)) == w
    ensures Tokens(Or(w, Bit(i))) == Tokens(w) + Tokens(Bit(i))
    ensures Bit(i) != ZERO ==> i < 32 && Tokens(Bit(i)) == {i}
  {
    AllocateIs(w);
    TokensOps(w, Bit(i));
    TokensFaithful(w, Or(w, Bit(i)));
  }

  // ---- waiting --------------------------------------------------------------------

  datatype Mode = Any | All

  predicate Met(mode: Mode, have: Word, wanted: Word) {
    match mode
    case Any => And(have, wanted) != ZERO
    case All => And(have, wanted) == wanted
  }

  lemma MetIs(mode: Mode, completed: Word, mask: Word)
    ensures Met(mode, And(completed, mask), mask) <==>
            if mode.Any? then Tokens(completed) * Tokens(mask) != {} else Tokens(mask) <= Tokens(completed)
    ensures mode.All? && Met(mode, And(completed, mask), mask) ==> And(completed, mask) == mask
    ensures Tokens(And(completed, mask)) == Tokens(completed) * Tokens(mask)
  {
    var have := And(completed, mask);
    assert And(have, mask) == have;
    TokensOps(completed, mask);
    TokensOps(completed, have);
    TokensFaithful(have, mask);
  }

  datatype Outcome = Success(done: Word) | TimedOut | StillWaiting

  /** `completed` just before poll number `i`, when uVisor adds news[j] after poll j. */
  function Seen(completed: Word, news: seq<Word>, i: nat): Word
    requires i <= |news|
  {
    if i == 0 then completed else Or(Seen(completed, news, i - 1), news[i - 1])
  }

  /** The two words of one box. */
  class TokenWords {
    var allocatedTokens: Word
    var completedTokens: Word

    constructor ()
      ensures Tokens(allocatedTokens) == {} && Tokens(completedTokens) == {}
    {
      allocatedTokens, completedTokens := ZERO, ZERO;
    }

    /** ipc_allocate_token on the word of allocated tokens. */
    method Allocate() returns (token: Word)
      modifies this`allocatedTokens
      ensures token == Bit(FirstClear(old(allocatedTokens)))
      ensures token == ZERO <==> Tokens(old(allocatedTokens)) == AllTokens
      ensures token == ZERO ==> allocatedTokens == old(allocatedTokens)
      ensures Tokens(allocatedTokens) == Tokens(old(allocatedTokens)) + Tokens(token)
      ensures token != ZERO ==>
                exists i: nat :: i < 32 && Tokens(token) == {i} && !old(allocatedTokens)[i]
                  && forall j: nat :: j < i ==> old(allocatedTokens)[j]
    {
      var bit := Bit(0);
      ghost var w, i: nat := allocatedTokens, 0;
      while And(allocatedTokens, bit) != ZERO
        invariant i <= 32 && bit == Bit(i) && allocatedTokens == w && forall j: nat :: j < i ==> w[j]
        decreases 32 - i
      {
        AndBit(w, i);
        bit := ShiftLeft(bit);
        i := i + 1;
      }
      AndBit(w, i);
      AllocateAt(w, i);
      token := bit;
      allocatedTokens := Or(allocatedTokens, token);
    }

    /** ipc_free_allocated_completed_tokens. */
    method Free(tokens: Word)
      modifies this
      ensures Tokens(allocatedTokens) == Tokens(old(allocatedTokens)) - Tokens(tokens)
      ensures Tokens(completedTokens) == Tokens(old(completedTokens)) - Tokens(tokens)
    {
      TokensOps(allocatedTokens, tokens);
      TokensOps(completedTokens, tokens);
      allocatedTokens := And(allocatedTokens, Not(tokens));
      completedTokens := And(completedTokens, Not(tokens));
    }

    /** ipc_waitfor. `news` is what uVisor completes between one poll and the next; a
        run that is still polling when they are used up is StillWaiting. */
    method WaitFor(mode: Mode, mask: Word, timeout: nat, news: seq<Word>) returns (r: Outcome, polls: nat)
      modifies this
      ensures polls <= |news|
      ensures forall i: nat :: i < polls ==> !Met(mode, And(Seen(old(completedTokens), news, i), mask), mask)
      ensures r.Success? <==> Met(mode, And(Seen(old(completedTokens), news, polls), mask), mask)
      ensures r.TimedOut? <==> !r.Success? && timeout == 0
      ensures r.TimedOut? ==> polls == 0
      ensures r.StillWaiting? ==> polls == |news|
      ensures !r.Success? ==>
                allocatedTokens == old(allocatedTokens) && completedTokens == Seen(old(completedTokens), news, polls)
      ensures r.Success? ==>
                && Tokens(r.done) == Tokens(Seen(old(completedTokens), news, polls)) * Tokens(mask)
                && (mode.All? ==> r.done == mask) && (mode.Any? ==> Tokens(r.done) != {})
                && Tokens(allocatedTokens) == Tokens(old(allocatedTokens)) - Tokens(r.done)
                && Tokens(completedTokens) == Tokens(Seen(old(completedTokens), news, polls)) - Tokens(r.done)
    {
      polls := 0;
      while true
        invariant polls <= |news|
        invariant allocatedTokens == old(allocatedTokens) && completedTokens == Seen(old(completedTokens), news, polls)
        invariant forall i: nat :: i < polls ==> !Met(mode, And(Seen(old(completedTokens), news, i), mask), mask)
        invariant polls > 0 ==> timeout != 0
        decreases |news| - polls
      {
        var have := And(completedTokens, mask);
        if Met(mode, have, mask) {
          MetIs(mode, completedTokens, mask);
          Free(have);
          return Success(have), polls;
        }
        if timeout == 0 {
          return TimedOut, polls;
        }
        if polls == |news| {
          return StillWaiting, polls;
        }
        completedTokens := Or(completedTokens, news[polls]);
        polls := polls + 1;
      }
    }
  }

  lemma AndBit(w: Word, i: nat)
    requires i <= 32
    ensures And(w, Bit(i)) != ZERO <==> i < 32 && w[i]
    ensures i < 32 ==> ShiftLeft(Bit(i)) == Bit(i + 1)
  {
    assert i < 32 && w[i] ==> And(w, Bit(i))[i];
    assert !(i < 32 && w[i]) ==> And(w, Bit(i)) == ZERO;
  }
}
