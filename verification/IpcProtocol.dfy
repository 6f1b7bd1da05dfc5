/** IPC between boxes as a step machine: ipc_io and ipc_waitfor run by any number of
    threads of each box (api/src/ipc.c), and the drain in which uVisor pairs sends with
    receives (core/system/src/ipc.c).

    Each step is one critical section or pool operation, so a run is an arbitrary
    interleaving. `holders`, `reports`, `partner` and `asked` are history: they record
    who holds a token, how often a completion was reported, which requests were paired
    and what was asked for. No guard reads them. */
module IpcProtocol {
  import opened IpcTokens
  import opened PoolSpec

  const SLOTS: nat := 16      // UVISOR_IPC_SEND_SLOTS and UVISOR_IPC_RECV_SLOTS
  const ANY_BOX: int := 255   // UVISOR_BOX_ID_ANY

  datatype Kind = SendIo | RecvIo

  datatype Stage =
    | Taken      // has a token, is about to claim a slot
    | Refused    // had a token when no slot was free
    | Claimed    // has a slot, is about to enqueue it
    | Queued
    | Lost       // dequeued by uVisor and not put back: the destination does not exist
    | Finished   // delivered, its token marked as completed
    | Reported   // a wait returned its token

  datatype Desc = Desc(box: int, port: nat, len: nat)

  datatype Request = Request(owner: nat, kind: Kind, bit: nat, asked: Desc, desc: Desc, text: seq<nat>,
                             stage: Stage, partner: nat, reports: nat)

  datatype Words = Words(allocatedTokens: Word, completedTokens: Word)

  datatype Line = Line(box: nat, kind: Kind)

  datatype Key = Key(box: nat, bit: nat)

  datatype State = State(boxes: nat, words: map<nat, Words>, queues: map<Line, seq<nat>>,
                         requests: map<nat, Request>, holders: map<Key, nat>)

  function Start(boxes: nat): State {
    State(boxes, map[], map[], map[], map[])
  }

  function WordsOf(s: State, box: nat): Words {
    if box in s.words then s.words[box] else Words(ZERO, ZERO)
  }

  function QueueOf(s: State, line: Line): seq<nat> {
    if line in s.queues then s.queues[line] else []
  }

  function LineOf(q: Request): Line {
    Line(q.owner, q.kind)
  }

  function KeyOf(q: Request): Key {
    Key(q.owner, q.bit)
  }

  /** The requests that occupy a slot of a pool. */
  function Occupants(s: State, line: Line): set<nat> {
    set r | r in s.requests && LineOf(s.requests[r]) == line && s.requests[r].stage in {Claimed, Queued, Lost}
  }

  datatype Action =
    | Take(r: nat, owner: nat, kind: Kind, desc: Desc, text: seq<nat>)
    | Claim(r: nat)
    | Post(r: nat)
    | Discard(box: nat)
    | PutBack(box: nat)
    | Contend(box: nat)
    | Deliver(box: nat)
    | Wait(box: nat, mode: Mode, mask: Word)

  // ---- the library -------------------------------------------------------------------

  predicate CanTake(s: State, r: nat, owner: nat, desc: Desc, text: seq<nat>) {
    && r !in s.requests && owner < s.boxes && |text| == desc.len
    && FirstClear(WordsOf(s, owner).allocatedTokens) < 32
  }

  /** ipc_allocate_token succeeds; with all bits set it would return 0 and change nothing. */
  function DoTake(s: State, r: nat, owner: nat, kind: Kind, desc: Desc, text: seq<nat>): State
    requires CanTake(s, r, owner, desc, text)
  {
    var w := WordsOf(s, owner);
    var i := FirstClear(w.allocatedTokens);
    s.(words := s.words[owner := w.(allocatedTokens := Or(w.allocatedTokens, Bit(i)))],
       requests := s.requests[r := Request(owner, kind, i, desc, desc, text, Taken, 0, 0)],
       holders := s.holders[Key(owner, i) := r])
  }

  predicate At(s: State, r: nat, stage: Stage) {
    r in s.requests && s.requests[r].stage == stage
  }

  function SetStage(s: State, r: nat, stage: Stage): State
    requires r in s.requests
  {
    s.(requests := s.requests[r := s.requests[r].(stage := stage)])
  }

  /** uvisor_pool_queue_allocate: without a free slot the request returns
      UVISOR_ERROR_OUT_OF_STRUCTURES and the token bit stays set. */
  function DoClaim(s: State, r: nat): State
    requires At(s, r, Taken)
  {
    SetStage(s, r, if |Occupants(s, LineOf(s.requests[r]))| < SLOTS then Claimed else Refused)
  }

  function DoPost(s: State, r: nat): State
    requires At(s, r, Claimed)
  {
    var line := LineOf(s.requests[r]);
    SetStage(s, r, Queued).(queues := s.queues[line := QueueOf(s, line) + [r]])
  }

  predicate CanWait(s: State, box: nat, mode: Mode, mask: Word) {
    Met(mode, And(WordsOf(s, box).completedTokens, mask), mask)
  }

  /** One successful poll of ipc_waitfor; an unsuccessful one changes nothing. */
  function DoWait(s: State, box: nat, mask: Word): State {
    var w := WordsOf(s, box);
    var done := And(w.completedTokens, mask);
    s.(words := s.words[box := Words(And(w.allocatedTokens, Not(done)), And(w.completedTokens, Not(done)))],
       requests := map r | r in s.requests :: Told(s, box, done, r),
       holders := map k | k in s.holders && !(k.box == box && k.bit < 32 && done[k.bit]) :: s.holders[k])
  }

  function Told(s: State, box: nat, done: Word, r: nat): Request
    requires r in s.requests
  {
    var q := s.requests[r];
    if q.stage == Finished && q.owner == box && q.bit < 32 && done[q.bit]
    then q.(stage := Reported, reports := q.reports + 1) else q
  }

  // ---- uVisor ------------------------------------------------------------------------

  /** recv_match, for a receive that is on the receive queue of the destination. */
  predicate Matches(from: nat, send: Request, recv: Request) {
    && (recv.desc.box == from || recv.desc.box == ANY_BOX)
    && send.desc.port == recv.desc.port
    && send.desc.len <= recv.desc.len
  }

  function FirstMatch(s: State, from: nat, send: Request, queue: seq<nat>): (i: nat)
    requires forall r :: r in queue ==> r in s.requests
    ensures i <= |queue|
    ensures i < |queue| ==> Matches(from, send, s.requests[queue[i]])
    ensures forall h: nat :: h < i ==> !Matches(from, send, s.requests[queue[h]])
  {
    if queue == [] || Matches(from, send, s.requests[queue[0]]) then 0
    else 1 + FirstMatch(s, from, send, queue[1..])
  }

  /** The queue holds requests only. */
  predicate Known(s: State, queue: seq<nat>) {
    forall r :: r in queue ==> r in s.requests
  }

  predicate HasHead(s: State, box: nat) {
    QueueOf(s, Line(box, SendIo)) != [] && Known(s, QueueOf(s, Line(box, SendIo)))
  }

  function Head(s: State, box: nat): nat
    requires HasHead(s, box)
  {
    QueueOf(s, Line(box, SendIo))[0]
  }

  predicate CanDiscard(s: State, box: nat) {
    HasHead(s, box) && !(0 <= s.requests[Head(s, box)].desc.box < s.boxes)
  }

  function DoDiscard(s: State, box: nat): State
    requires CanDiscard(s, box)
  {
    var line := Line(box, SendIo);
    SetStage(s, Head(s, box), Lost).(queues := s.queues[line := QueueOf(s, line)[1..]])
  }

  /** put_it_back: the head goes to the back of its queue. */
  function DoPutBack(s: State, box: nat): State
    requires HasHead(s, box)
  {
    var line := Line(box, SendIo);
    s.(queues := s.queues[line := QueueOf(s, line)[1..] + [Head(s, box)]])
  }

  function RecvLine(s: State, box: nat): Line
    requires HasHead(s, box)
  {
    var to := s.requests[Head(s, box)].desc.box;
    Line(if to < 0 then 0 else to, RecvIo)
  }

  predicate CanDeliver(s: State, box: nat) {
    && HasHead(s, box) && 0 <= s.requests[Head(s, box)].desc.box < s.boxes
    && Known(s, QueueOf(s, RecvLine(s, box)))
    && FirstMatch(s, box, s.requests[Head(s, box)], QueueOf(s, RecvLine(s, box))) < |QueueOf(s, RecvLine(s, box))|
  }

  /** The earliest receive that matches the first send. */
  function Receiver(s: State, box: nat): nat
    requires CanDeliver(s, box)
  {
    var queue := QueueOf(s, RecvLine(s, box));
    queue[FirstMatch(s, box, s.requests[Head(s, box)], queue)]
  }

  /** A token lock is busy: both requests go to the back of their queues. */
  function DoContend(s: State, box: nat): State
    requires CanDeliver(s, box)
  {
    var s1 := DoPutBack(s, box);
    var line, m := RecvLine(s, box), Receiver(s, box);
    s1.(queues := s1.queues[line := Without(QueueOf(s, line), m) + [m]])
  }

  function Complete(words: Words, bit: nat): Words {
    words.(completedTokens := Or(words.completedTokens, Bit(bit)))
  }

  function SendDone(send: Request, m: nat): Request {
    send.(stage := Finished, partner := m)
  }

  /** memcpy of the message and the update of the receive descriptor. */
  function RecvDone(send: Request, recv: Request, from: nat, h: nat): Request
    requires |send.text| <= |recv.text|
  {
    recv.(stage := Finished, partner := h, text := send.text + recv.text[|send.text|..],
          desc := recv.desc.(box := from, len := send.desc.len))
  }

  /** ipc_deliver, after which both slots are freed. */
  function DoDeliver(s: State, box: nat): State
    requires CanDeliver(s, box)
    requires |s.requests[Head(s, box)].text| <= |s.requests[Receiver(s, box)].text|
  {
    var h, m, to := Head(s, box), Receiver(s, box), RecvLine(s, box).box;
    var send, recv := s.requests[h], s.requests[m];
    var words1 := s.words[box := Complete(WordsOf(s, box), send.bit)];
    var w2 := if to in words1 then words1[to] else Words(ZERO, ZERO);
    s.(words := words1[to := Complete(w2, recv.bit)],
       queues := s.queues[Line(box, SendIo) := QueueOf(s, Line(box, SendIo))[1..]]
                         [RecvLine(s, box) := Without(QueueOf(s, RecvLine(s, box)), m)],
       requests := s.requests[h := SendDone(send, m)][m := RecvDone(send, recv, box, h)])
  }

  // ---- steps -------------------------------------------------------------------------

  predicate Enabled(s: State, a: Action) {
    match a
    case Take(r, owner, kind, desc, text) => CanTake(s, r, owner, desc, text)
    case Claim(r) => At(s, r, Taken)
    case Post(r) => At(s, r, Claimed)
    case Discard(box) => CanDiscard(s, box)
    case PutBack(box) => HasHead(s, box)
    case Contend(box) => CanDeliver(s, box)
    case Deliver(box) => CanDeliver(s, box) && |s.requests[Head(s, box)].text| <= |s.requests[Receiver(s, box)].text|
    case Wait(box, mode, mask) => CanWait(s, box, mode, mask)
  }

  function Apply(s: State, a: Action): State
    requires Enabled(s, a)
  {
    match a
    case Take(r, owner, kind, desc, text) => DoTake(s, r, owner, kind, desc, text)
    case Claim(r) => DoClaim(s, r)
    case Post(r) => DoPost(s, r)
    case Discard(box) => DoDiscard(s, box)
    case PutBack(box) => DoPutBack(s, box)
    case Contend(box) => DoContend(s, box)
    case Deliver(box) => DoDeliver(s, box)
    case Wait(box, _, mask) => DoWait(s, box, mask)
  }

  // ---- the invariant -----------------------------------------------------------------

  predicate DonePair(q: Request) {
    q.stage == Finished || q.stage == Reported
  }

  ghost predicate ReqOk(s: State, r: nat) {
    r in s.requests ==>
      var q := s.requests[r];
      && q.owner < s.boxes && q.bit < 32
      && (q.stage != Reported <==> KeyOf(q) in s.holders && s.holders[KeyOf(q)] == r)
      && q.reports == (if q.stage == Reported then 1 else 0)
      && (q.kind == SendIo ==> q.desc == q.asked && |q.text| == q.desc.len)
      && |q.text| == q.asked.len
      && (!DonePair(q) ==> q.desc == q.asked)
  }

  ghost predicate KeyOk(s: State, k: Key) {
    k in s.holders ==> s.holders[k] in s.requests && KeyOf(s.requests[s.holders[k]]) == k && k.bit < 32
  }

  ghost predicate WordsOk(s: State, b: nat) {
    forall i: nat {:trigger BitOk(s, b, i)} :: i < 32 ==> BitOk(s, b, i)
  }

  ghost predicate BitOk(s: State, b: nat, i: nat)
    requires i < 32
  {
    && (WordsOf(s, b).allocatedTokens[i] <==> Key(b, i) in s.holders)
    && (WordsOf(s, b).completedTokens[i] <==> Key(b, i) in s.holders && At(s, s.holders[Key(b, i)], Finished))
  }

  ghost predicate LineOk(s: State, line: Line) {
    && Distinct(QueueOf(s, line))
    && forall r :: r in QueueOf(s, line) <==> At(s, r, Queued) && LineOf(s.requests[r]) == line
  }

  /** A finished request and its partner were one send and one receive that matched,
      and the receive holds what was sent. */
  ghost predicate Paired(h: nat, send: Request, m: nat, recv: Request) {
    && send.kind == SendIo && recv.kind == RecvIo && DonePair(send) && DonePair(recv)
    && send.partner == m && recv.partner == h
    && send.asked.box == recv.owner && send.asked.port == recv.asked.port
    && (recv.asked.box == send.owner || recv.asked.box == ANY_BOX)
    && send.asked.len <= recv.asked.len == |recv.text|
    && recv.desc == Desc(send.owner, send.asked.port, send.asked.len)
    && recv.text[..send.asked.len] == send.text
  }

  ghost predicate PairOk(s: State, r: nat) {
    At(s, r, Finished) || At(s, r, Reported) ==>
      var q := s.requests[r];
      && q.partner in s.requests
      && (if q.kind == SendIo then Paired(r, q, q.partner, s.requests[q.partner])
                              else Paired(q.partner, s.requests[q.partner], r, q))
  }

  ghost predicate Inv(s: State) {
    && (forall r {:trigger ReqOk(s, r)} :: ReqOk(s, r))
    && (forall k {:trigger KeyOk(s, k)} :: KeyOk(s, k))
    && (forall b {:trigger WordsOk(s, b)} :: WordsOk(s, b))
    && (forall l {:trigger LineOk(s, l)} :: LineOk(s, l))
    && (forall r {:trigger PairOk(s, r)} :: PairOk(s, r))
  }

  // ---- every step keeps it -----------------------------------------------------------

  lemma StartInv(boxes: nat)
    ensures Inv(Start(boxes))
  {
    var s := Start(boxes);
    forall b ensures WordsOk(s, b) {
      forall i: nat | i < 32 ensures BitOk(s, b, i) {}
    }
  }

  lemma TakeInv(s: State, r: nat, owner: nat, kind: Kind, desc: Desc, text: seq<nat>)
    requires Inv(s) && CanTake(s, r, owner, desc, text)
    ensures Inv(DoTake(s, r, owner, kind, desc, text))
  {
    var s' := DoTake(s, r, owner, kind, desc, text);
    var k := KeyOf(s'.requests[r]);
    assert WordsOk(s, owner) && BitOk(s, owner, k.bit);
    assert k !in s.holders;
    forall x ensures ReqOk(s', x) { assert ReqOk(s, x); }
    forall x ensures KeyOk(s', x) { assert KeyOk(s, x); }
    forall b ensures WordsOk(s', b) {
      assert WordsOk(s, b);
      forall i: nat | i < 32 ensures BitOk(s', b, i) { assert BitOk(s, b, i) && KeyOk(s, Key(b, i)); }
    }
    forall l ensures LineOk(s', l) { assert LineOk(s, l); }
    forall x ensures PairOk(s', x) { assert PairOk(s, x); }
  }

  /** A request that moves between stages short of Finished, and perhaps a queue. */
  lemma StageInv(s: State, s': State, r: nat, stage: Stage)
    requires Inv(s) && r in s.requests && !DonePair(s.requests[r]) && stage != Stage.Finished && stage != Reported
    requires s' == SetStage(s, r, stage).(queues := s'.queues)
    requires forall l {:trigger LineOk(s', l)} :: LineOk(s', l)
    ensures Inv(s')
  {
    forall x ensures ReqOk(s', x) { assert ReqOk(s, x); }
    forall x ensures KeyOk(s', x) { assert KeyOk(s, x); }
    forall b ensures WordsOk(s', b) {
      assert WordsOk(s, b);
      forall i: nat | i < 32 ensures BitOk(s', b, i) { assert BitOk(s, b, i) && KeyOk(s, Key(b, i)); }
    }
    forall x ensures PairOk(s', x) {
      assert PairOk(s, x);
      if At(s, x, Finished) || At(s, x, Reported) { assert PairOk(s, s.requests[x].partner); }
    }
  }

  lemma ClaimInv(s: State, r: nat)
    requires Inv(s) && At(s, r, Taken)
    ensures Inv(DoClaim(s, r))
  {
    var s' := DoClaim(s, r);
    forall l ensures LineOk(s', l) { assert LineOk(s, l); }
    StageInv(s, s', r, s'.requests[r].stage);
  }

  lemma PostInv(s: State, r: nat)
    requires Inv(s) && At(s, r, Claimed)
    ensures Inv(DoPost(s, r))
  {
    var s' := DoPost(s, r);
    forall l ensures LineOk(s', l) { assert LineOk(s, l); }
    StageInv(s, s', r, Queued);
  }

  lemma HeadFacts(s: State, box: nat)
    requires Inv(s) && HasHead(s, box)
    ensures var h, q := Head(s, box), QueueOf(s, Line(box, SendIo));
            && At(s, h, Queued) && s.requests[h].owner == box && s.requests[h].kind == SendIo
            && Distinct(q[1..]) && h !in q[1..] && forall x :: x in q[1..] <==> x in q && x != h
  {
    var q := QueueOf(s, Line(box, SendIo));
    assert LineOk(s, Line(box, SendIo)) && q[0] in q;
    WithoutAt(q, 0);
    WithoutMembers(q, q[0]);
    assert q[..0] + q[1..] == q[1..];
  }

  lemma DiscardInv(s: State, box: nat)
    requires Inv(s) && CanDiscard(s, box)
    ensures Inv(DoDiscard(s, box))
  {
    HeadFacts(s, box);
    var s' := DoDiscard(s, box);
    forall l ensures LineOk(s', l) { assert LineOk(s, l); }
    StageInv(s, s', Head(s, box), Lost);
  }

  /** Steps that only reorder a queue. */
  lemma ReorderInv(s: State, s': State, line: Line)
    requires Inv(s) && s' == s.(queues := s.queues[line := QueueOf(s', line)])
    requires Distinct(QueueOf(s', line)) && forall x :: x in QueueOf(s', line) <==> x in QueueOf(s, line)
    ensures Inv(s')
  {
    forall x ensures ReqOk(s', x) { assert ReqOk(s, x); }
    forall x ensures KeyOk(s', x) { assert KeyOk(s, x); }
    forall b ensures WordsOk(s', b) {
      assert WordsOk(s, b);
      forall i: nat | i < 32 ensures BitOk(s', b, i) { assert BitOk(s, b, i); }
    }
    forall l ensures LineOk(s', l) { assert LineOk(s, l); }
    forall x ensures PairOk(s', x) { assert PairOk(s, x); }
  }

  lemma PutBackInv(s: State, box: nat)
    requires Inv(s) && HasHead(s, box)
    ensures Inv(DoPutBack(s, box))
  {
    HeadFacts(s, box);
    ReorderInv(s, DoPutBack(s, box), Line(box, SendIo));
  }

  lemma ReceiverFacts(s: State, box: nat)
    requires Inv(s) && CanDeliver(s, box)
    ensures var h, m, line := Head(s, box), Receiver(s, box), RecvLine(s, box);
            && At(s, m, Queued) && LineOf(s.requests[m]) == line && line.kind == RecvIo
            && line.box == s.requests[h].asked.box && line.box < s.boxes
            && m in QueueOf(s, line) && Matches(box, s.requests[h], s.requests[m])
            && |s.requests[h].text| == s.requests[h].asked.len <= s.requests[m].asked.len == |s.requests[m].text|
  {
    var line := RecvLine(s, box);
    assert LineOk(s, line) && LineOk(s, Line(box, SendIo));
    assert ReqOk(s, Head(s, box)) && ReqOk(s, Receiver(s, box));
    assert Head(s, box) in QueueOf(s, Line(box, SendIo)) && Receiver(s, box) in QueueOf(s, line);
  }

  lemma ContendInv(s: State, box: nat)
    requires Inv(s) && CanDeliver(s, box)
    ensures Inv(DoContend(s, box))
    ensures var send, recv := QueueOf(s, Line(box, SendIo)), QueueOf(s, RecvLine(s, box));
            && QueueOf(DoContend(s, box), Line(box, SendIo)) == send[1..] + [send[0]]
            && exists i :: && 0 <= i < |recv| && recv[i] == Receiver(s, box)
                           && QueueOf(DoContend(s, box), RecvLine(s, box)) == recv[..i] + recv[i + 1..] + [recv[i]]
  {
    var line, m := RecvLine(s, box), Receiver(s, box);
    ReceiverFacts(s, box);
    PutBackInv(s, box);
    var s1, s' := DoPutBack(s, box), DoContend(s, box);
    assert LineOk(s, line) && QueueOf(s1, line) == QueueOf(s, line);
    WithoutMembers(QueueOf(s, line), m);
    var i: nat :| i < |QueueOf(s, line)| && QueueOf(s, line)[i] == m;
    WithoutAt(QueueOf(s, line), i);
    ReorderInv(s1, s', line);
  }

  /** uVisor never copies past the end of the receiver's buffer. */
  lemma DeliverFits(s: State, box: nat)
    requires Inv(s) && CanDeliver(s, box)
    ensures |s.requests[Head(s, box)].text| <= |s.requests[Receiver(s, box)].text|
  {
    ReceiverFacts(s, box);
  }

  /** The receive accepts what the send asked for: its origin, its port and its length. */
  predicate Accepts(recv: Request, send: Request) {
    && (recv.asked.box == send.owner || recv.asked.box == ANY_BOX)
    && recv.asked.port == send.asked.port
    && recv.asked.len >= send.asked.len
  }

  /** A send at the head of its queue is dropped exactly when its destination does not exist.
      Otherwise it is delivered exactly when some queued receive of the destination accepts
      it, and then to the first of them: both are finished and name each other. */
  lemma DeliverableExactly(s: State, box: nat)
    requires Inv(s) && QueueOf(s, Line(box, SendIo)) != []
    ensures HasHead(s, box)
    ensures var h := s.requests[QueueOf(s, Line(box, SendIo))[0]];
            && (CanDiscard(s, box) <==> !(0 <= h.asked.box < s.boxes))
            && (CanDeliver(s, box) <==>
                  && 0 <= h.asked.box < s.boxes
                  && exists m :: && m in QueueOf(s, Line(h.asked.box, RecvIo)) && m in s.requests
                                 && Accepts(s.requests[m], h))
    ensures CanDeliver(s, box) ==>
              var h := Head(s, box);
              var recvs := QueueOf(s, Line(s.requests[h].asked.box, RecvIo));
              && Known(s, recvs) && Enabled(s, Deliver(box))
              && exists i :: && 0 <= i < |recvs| && Accepts(s.requests[recvs[i]], s.requests[h])
                             && (forall j :: 0 <= j < i ==> !Accepts(s.requests[recvs[j]], s.requests[h]))
                             && FinishedTogether(DoDeliver(s, box), h, recvs[i])
  {
    assert LineOk(s, Line(box, SendIo));
    var h := Head(s, box);
    assert ReqOk(s, h) && h in QueueOf(s, Line(box, SendIo));
    if 0 <= s.requests[h].asked.box < s.boxes {
      var recvs := QueueOf(s, RecvLine(s, box));
      assert LineOk(s, RecvLine(s, box));
      forall m | m in recvs
        ensures Matches(box, s.requests[h], s.requests[m]) <==> Accepts(s.requests[m], s.requests[h])
      {
        assert ReqOk(s, m);
      }
      if CanDeliver(s, box) {
        DeliverFits(s, box);
        var i := FirstMatch(s, box, s.requests[h], recvs);
        FirstFinished(s, box);
        assert recvs[i] == Receiver(s, box);
      }
    }
  }

  predicate FinishedTogether(s: State, h: nat, m: nat) {
    At(s, h, Finished) && At(s, m, Finished) && s.requests[h].partner == m && s.requests[m].partner == h
  }

  lemma FirstFinished(s: State, box: nat)
    requires Inv(s) && Enabled(s, Deliver(box))
    ensures FinishedTogether(DoDeliver(s, box), Head(s, box), Receiver(s, box))
  {
    ReceiverFacts(s, box);
    HeadFacts(s, box);
  }

  /** The two requests a delivery works on, and the two queues it takes them from. */
  lemma DeliverFacts(s: State, box: nat)
    requires Inv(s) && Enabled(s, Deliver(box))
    ensures var h, m, s' := Head(s, box), Receiver(s, box), DoDeliver(s, box);
            var send, recv := s.requests[h], s.requests[m];
            && h != m && At(s, h, Queued) && At(s, m, Queued) && KeyOf(send) != KeyOf(recv)
            && send.owner == box && recv.owner == RecvLine(s, box).box
            && s'.requests == s.requests[h := SendDone(send, m)][m := RecvDone(send, recv, box, h)]
            && s'.holders == s.holders && s'.boxes == s.boxes
            && (forall b :: WordsOf(s', b).allocatedTokens == WordsOf(s, b).allocatedTokens)
            && (forall b, i: nat | i < 32 ::
                  WordsOf(s', b).completedTokens[i] <==>
                    WordsOf(s, b).completedTokens[i] || Key(b, i) == KeyOf(send) || Key(b, i) == KeyOf(recv))
  {
    ReceiverFacts(s, box);
    HeadFacts(s, box);
    var h, m := Head(s, box), Receiver(s, box);
    assert ReqOk(s, h) && ReqOk(s, m);
  }

  lemma DeliverWords(s: State, s': State, h: nat, m: nat)
    requires Inv(s) && At(s, h, Queued) && At(s, m, Queued) && h != m && s'.holders == s.holders
    requires forall x :: x in s'.requests <==> x in s.requests
    requires forall x :: x in s.requests && x != h && x != m ==> s'.requests[x] == s.requests[x]
    requires At(s', h, Finished) && At(s', m, Finished)
    requires forall b :: WordsOf(s', b).allocatedTokens == WordsOf(s, b).allocatedTokens
    requires forall b, i: nat | i < 32 ::
               WordsOf(s', b).completedTokens[i] <==>
                 || WordsOf(s, b).completedTokens[i]
                 || Key(b, i) == KeyOf(s.requests[h]) || Key(b, i) == KeyOf(s.requests[m])
    ensures forall b {:trigger WordsOk(s', b)} :: WordsOk(s', b)
  {
    assert ReqOk(s, h) && ReqOk(s, m);
    forall b ensures WordsOk(s', b) {
      assert WordsOk(s, b);
      forall i: nat | i < 32 ensures BitOk(s', b, i) {
        assert BitOk(s, b, i) && KeyOk(s, Key(b, i));
      }
    }
  }

  lemma DeliverLines(s: State, box: nat)
    requires Inv(s) && Enabled(s, Deliver(box))
    ensures forall l {:trigger LineOk(DoDeliver(s, box), l)} :: LineOk(DoDeliver(s, box), l)
  {
    DeliverFacts(s, box);
    HeadFacts(s, box);
    ReceiverFacts(s, box);
    var line, m, s' := RecvLine(s, box), Receiver(s, box), DoDeliver(s, box);
    assert LineOk(s, line);
    WithoutMembers(QueueOf(s, line), m);
    forall l ensures LineOk(s', l) { assert LineOk(s, l); }
  }

  lemma DeliverPairs(s: State, box: nat)
    requires Inv(s) && Enabled(s, Deliver(box))
    ensures forall x {:trigger PairOk(DoDeliver(s, box), x)} :: PairOk(DoDeliver(s, box), x)
  {
    DeliverFacts(s, box);
    ReceiverFacts(s, box);
    HeadFacts(s, box);
    var h, m, s' := Head(s, box), Receiver(s, box), DoDeliver(s, box);
    assert ReqOk(s, h) && ReqOk(s, m);
    forall x ensures PairOk(s', x) {
      assert PairOk(s, x);
      if x != h && x != m && x in s.requests && DonePair(s.requests[x]) {
        assert PairOk(s, s.requests[x].partner);
      }
    }
  }

  lemma DeliverInv(s: State, box: nat)
    requires Inv(s) && Enabled(s, Deliver(box))
    ensures Inv(DoDeliver(s, box))
  {
    DeliverFacts(s, box);
    DeliverLines(s, box);
    DeliverPairs(s, box);
    ReceiverFacts(s, box);
    HeadFacts(s, box);
    var h, m, s' := Head(s, box), Receiver(s, box), DoDeliver(s, box);
    DeliverWords(s, s', h, m);
    assert ReqOk(s, h) && ReqOk(s, m);
    forall x ensures ReqOk(s', x) { assert ReqOk(s, x); }
    forall x ensures KeyOk(s', x) { assert KeyOk(s, x); }
  }

  lemma WaitInv(s: State, box: nat, mask: Word)
    requires Inv(s)
    ensures Inv(DoWait(s, box, mask))
  {
    var s' := DoWait(s, box, mask);
    var done := And(WordsOf(s, box).completedTokens, mask);
    forall x ensures ReqOk(s', x) {
      assert ReqOk(s, x) && WordsOk(s, box);
      if x in s.requests && s.requests[x].owner == box { assert BitOk(s, box, s.requests[x].bit); }
    }
    forall x ensures KeyOk(s', x) { assert KeyOk(s, x); }
    forall b ensures WordsOk(s', b) {
      assert WordsOk(s, b);
      forall i: nat | i < 32 ensures BitOk(s', b, i) {
        assert BitOk(s, b, i) && KeyOk(s, Key(b, i));
        if Key(b, i) in s.holders { assert ReqOk(s, s.holders[Key(b, i)]); }
      }
    }
    forall l ensures LineOk(s', l) { assert LineOk(s, l); }
    forall x ensures PairOk(s', x) {
      assert PairOk(s, x);
      if At(s, x, Finished) || At(s, x, Reported) { assert PairOk(s, s.requests[x].partner); }
    }
  }

  lemma StepInv(s: State, a: Action)
    requires Inv(s) && Enabled(s, a)
    ensures Inv(Apply(s, a))
  {
    match a
    case Take(r, owner, kind, desc, text) => TakeInv(s, r, owner, kind, desc, text);
    case Claim(r) => ClaimInv(s, r);
    case Post(r) => PostInv(s, r);
    case Discard(box) => DiscardInv(s, box);
    case PutBack(box) => PutBackInv(s, box);
    case Contend(box) => ContendInv(s, box);
    case Deliver(box) => DeliverInv(s, box);
    case Wait(box, _, mask) => WaitInv(s, box, mask);
  }

  // ---- runs --------------------------------------------------------------------------

  predicate Legal(s: State, run: seq<Action>)
    decreases |run|
  {
    run == [] || (Enabled(s, run[0]) && Legal(Apply(s, run[0]), run[1..]))
  }

  function After(s: State, run: seq<Action>): State
    requires Legal(s, run)
    decreases |run|
  {
    if run == [] then s else After(Apply(s, run[0]), run[1..])
  }

  lemma {:induction false} RunInv(s: State, run: seq<Action>)
    requires Inv(s) && Legal(s, run)
    ensures Inv(After(s, run))
    decreases |run|
  {
    if run != [] {
      StepInv(s, run[0]);
      RunInv(Apply(s, run[0]), run[1..]);
    }
  }

  /** The state after some run from the start. */
  ghost predicate Reachable(s: State) {
    exists boxes, run :: Legal(Start(boxes), run) && s == After(Start(boxes), run)
  }

  lemma ReachableInv(s: State)
    requires Reachable(s)
    ensures Inv(s)
  {
    var boxes, run :| Legal(Start(boxes), run) && s == After(Start(boxes), run);
    StartInv(boxes);
    RunInv(Start(boxes), run);
  }

  // ---- main results ------------------------------------------------------------------

  /** Whoever has not been told of its completion still holds its token alone. */
  lemma TokensNotShared(s: State, r1: nat, r2: nat)
    requires Reachable(s) && r1 in s.requests && r2 in s.requests
    requires s.requests[r1].stage != Reported && s.requests[r2].stage != Reported
    requires KeyOf(s.requests[r1]) == KeyOf(s.requests[r2])
    ensures r1 == r2
  {
    ReachableInv(s);
    assert ReqOk(s, r1) && ReqOk(s, r2);
  }

  lemma CompletedWithinAllocated(s: State, box: nat)
    requires Reachable(s)
    ensures Tokens(WordsOf(s, box).completedTokens) <= Tokens(WordsOf(s, box).allocatedTokens)
  {
    ReachableInv(s);
    assert WordsOk(s, box);
    forall i | i in Tokens(WordsOf(s, box).completedTokens) ensures i in Tokens(WordsOf(s, box).allocatedTokens) {
      assert BitOk(s, box, i);
    }
  }

  /** A successful wait reports exactly the completions under its mask, each for the
      first and only time, and no request reports twice in any run. */
  lemma WaitReportsExactly(s: State, box: nat, mode: Mode, mask: Word, r: nat)
    requires Reachable(s) && CanWait(s, box, mode, mask) && r in s.requests
    ensures var q, q' := s.requests[r], DoWait(s, box, mask).requests[r];
            && q'.reports <= 1
            && (q'.reports == q.reports + 1 <==> q.stage == Finished && q.owner == box && q.bit in Tokens(mask))
            && (mode.All? ==> q.owner == box && q.bit in Tokens(mask) && q.stage != Reported ==> q.stage == Finished)
  {
    ReachableInv(s);
    WaitInv(s, box, mask);
    var w := WordsOf(s, box);
    assert ReqOk(s, r) && ReqOk(DoWait(s, box, mask), r) && WordsOk(s, box);
    MetIs(mode, w.completedTokens, mask);
    var q := s.requests[r];
    if q.owner == box {
      assert BitOk(s, box, q.bit);
      assert q.bit in Tokens(mask) <==> mask[q.bit];
      assert q.bit in Tokens(w.completedTokens) <==> w.completedTokens[q.bit];
    }
  }

  /** A wait for any succeeds exactly when some request of the box under the mask is completed
      and not yet reported; a wait for all when every token of the mask is that of one. */
  lemma WaitSucceedsExactly(s: State, box: nat, mode: Mode, mask: Word)
    requires Reachable(s)
    ensures CanWait(s, box, mode, mask) <==>
              if mode.Any? then exists r :: && At(s, r, Finished) && s.requests[r].owner == box
                                            && s.requests[r].bit in Tokens(mask)
              else forall i :: i in Tokens(mask) ==>
                     exists r :: At(s, r, Finished) && s.requests[r].owner == box && s.requests[r].bit == i
  {
    ReachableInv(s);
    var w := WordsOf(s, box).completedTokens;
    MetIs(mode, w, mask);
    assert WordsOk(s, box);
    forall i | i in Tokens(w)
      ensures exists r :: At(s, r, Finished) && s.requests[r].owner == box && s.requests[r].bit == i
    {
      assert BitOk(s, box, i) && KeyOk(s, Key(box, i));
      assert At(s, s.holders[Key(box, i)], Finished);
    }
    forall r | At(s, r, Finished) && s.requests[r].owner == box ensures s.requests[r].bit in Tokens(w) {
      assert ReqOk(s, r) && BitOk(s, box, s.requests[r].bit);
    }
    if mode.Any? && Tokens(w) * Tokens(mask) != {} {
      var i :| i in Tokens(w) * Tokens(mask);
    }
    if r :| mode.Any? && At(s, r, Finished) && s.requests[r].owner == box && s.requests[r].bit in Tokens(mask) {
      assert s.requests[r].bit in Tokens(w) * Tokens(mask);
    }
  }

  /** Every delivered send was matched with one receive of its destination that asked
      for it, which holds its bytes and its origin; and every delivered receive with one
      send. */
  lemma DeliveredExactly(s: State, r: nat)
    requires Reachable(s) && r in s.requests && DonePair(s.requests[r])
    ensures s.requests[r].partner in s.requests
    ensures var p := s.requests[r].partner;
            if s.requests[r].kind == SendIo then Paired(r, s.requests[r], p, s.requests[p])
                                            else Paired(p, s.requests[p], r, s.requests[r])
  {
    ReachableInv(s);
    assert PairOk(s, r);
  }

  lemma DeliveredToOne(s: State, h1: nat, h2: nat)
    requires Reachable(s) && h1 in s.requests && h2 in s.requests
    requires DonePair(s.requests[h1]) && DonePair(s.requests[h2]) && s.requests[h1].partner == s.requests[h2].partner
    ensures h1 == h2
  {
    DeliveredExactly(s, h1);
    DeliveredExactly(s, h2);
  }

  // ---- counting tokens -----------------------------------------------------------------

  function InStage(s: State, box: nat, stage: Stage): set<nat> {
    set r | r in s.requests && s.requests[r].owner == box && s.requests[r].stage == stage
  }

  /** Accepted and not yet waited for. */
  function Outstanding(s: State, box: nat): set<nat> {
    set r | r in s.requests && s.requests[r].owner == box && IsOutstanding(s.requests[r])
  }

  predicate IsOutstanding(q: Request) {
    q.stage != Taken && q.stage != Refused && q.stage != Reported
  }

  lemma {:induction false} SameCount(a: set<nat>, b: set<nat>, f: map<nat, nat>)
    requires forall x :: x in a ==> x in f && f[x] in b
    requires forall x, y :: x in a && y in a && f[x] == f[y] ==> x == y
    requires forall y :: y in b ==> exists x :: x in a && f[x] == y
    ensures |a| == |b|
    decreases a
  {
    if a == {} {
      assert b == {};
    } else {
      var x :| x in a;
      SameCount(a - {x}, b - {f[x]}, f);
    }
  }

  /** The set bits of the allocated word are the outstanding requests, the refused ones
      and those between taking a token and claiming a slot. */
  lemma TokenCount(s: State, box: nat)
    requires Reachable(s)
    ensures |Tokens(WordsOf(s, box).allocatedTokens)|
         == |Outstanding(s, box)| + |InStage(s, box, Refused)| + |InStage(s, box, Taken)|
  {
    ReachableInv(s);
    HolderCount(s, box);
    var o, u, t := Outstanding(s, box), InStage(s, box, Refused), InStage(s, box, Taken);
    assert Holding(s, box) == o + u + t;
    assert o !! u && (o + u) !! t;
  }

  function Holding(s: State, box: nat): set<nat> {
    set r | r in s.requests && s.requests[r].owner == box && s.requests[r].stage != Reported
  }

  lemma HolderCount(s: State, box: nat)
    requires Inv(s)
    ensures |Tokens(WordsOf(s, box).allocatedTokens)| == |Holding(s, box)|
  {
    var bits, all := Tokens(WordsOf(s, box).allocatedTokens), Holding(s, box);
    var f := map r | r in all :: s.requests[r].bit;
    assert WordsOk(s, box);
    forall i | i in bits ensures exists r :: r in all && f[r] == i {
      assert BitOk(s, box, i) && KeyOk(s, Key(box, i)) && ReqOk(s, s.holders[Key(box, i)]);
      assert s.holders[Key(box, i)] in all;
    }
    forall r | r in all ensures f[r] in bits && Key(box, f[r]) in s.holders && s.holders[Key(box, f[r])] == r {
      assert ReqOk(s, r) && BitOk(s, box, f[r]);
    }
    SameCount(all, bits, f);
  }

  lemma {:induction false} CountBelow(a: set<nat>, n: nat)
    requires forall x :: x in a ==> x < n
    ensures |a| <= n
    decreases n
  {
    if n == 0 {
      assert a == {};
    } else {
      CountBelow(a - {n - 1}, n - 1);
    }
  }

  lemma {:induction false} SubsetCount(a: set<nat>, b: set<nat>)
    requires a <= b
    ensures |a| <= |b| && (|a| == |b| ==> a == b)
    decreases a
  {
    if a != {} {
      var x :| x in a;
      SubsetCount(a - {x}, b - {x});
    }
  }
}
