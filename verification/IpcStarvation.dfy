/** Tokens that never come back (api/src/ipc.c, core/system/src/ipc.c): how many there can
    be, and exactly when a box can make no IPC request ever again. */
module IpcStarvation {
  import opened IpcTokens
  import opened IpcProtocol

  // ---- counting -------------------------------------------------------------------------

  function UpTo(n: nat): (s: set<nat>)
    ensures |s| == n && forall i: nat :: i in s <==> i < n
  {
    if n == 0 then {} else UpTo(n - 1) + {n - 1}
  }

  lemma AllTokensAre()
    ensures AllTokens == UpTo(32)
  {
    forall i: nat ensures i in AllTokens <==> i < 32 { assert i < 32 ==> Not(ZERO)[i]; }
  }

  /** All 32 tokens are taken. */
  predicate Full(s: State, box: nat) {
    FirstClear(WordsOf(s, box).allocatedTokens) == 32
  }

  lemma FullIs(s: State, box: nat)
    requires Inv(s)
    ensures |Holding(s, box)| <= 32
    ensures Full(s, box) <==> |Holding(s, box)| == 32
  {
    var w := WordsOf(s, box).allocatedTokens;
    HolderCount(s, box);
    AllocateIs(w);
    AllTokensAre();
    assert Tokens(w) <= UpTo(32);
    SubsetCount(Tokens(w), AllTokens);
  }

  // ---- refused and lost requests ----------------------------------------------------------

  predicate Gone(q: Request) {
    q.stage == Refused || q.stage == Lost
  }

  lemma GoneStep(s: State, a: Action, r: nat)
    requires Inv(s) && Enabled(s, a) && r in s.requests && Gone(s.requests[r])
    ensures r in Apply(s, a).requests && Apply(s, a).requests[r] == s.requests[r]
  {
    match a
    case Discard(box) => HeadFacts(s, box);
    case Deliver(box) => DeliverFacts(s, box);
    case _ =>
  }

  /** A refused or lost request keeps its token for ever. */
  lemma {:induction false} GoneForever(s: State, run: seq<Action>, r: nat)
    requires Inv(s) && Legal(s, run) && r in s.requests && Gone(s.requests[r])
    ensures r in After(s, run).requests && After(s, run).requests[r] == s.requests[r]
    ensures s.requests[r].bit in Tokens(WordsOf(After(s, run), s.requests[r].owner).allocatedTokens)
    decreases |run|
  {
    if run == [] {
      var q := s.requests[r];
      assert ReqOk(s, r) && WordsOk(s, q.owner) && BitOk(s, q.owner, q.bit);
    } else {
      StepInv(s, run[0]);
      GoneStep(s, run[0], r);
      GoneForever(Apply(s, run[0]), run[1..], r);
    }
  }

  /** Only claiming a slot refuses a request. */
  lemma RefusedSame(s: State, a: Action, box: nat)
    requires Inv(s) && Enabled(s, a) && !a.Claim?
    ensures InStage(Apply(s, a), box, Refused) == InStage(s, box, Refused)
  {
    match a
    case Discard(b) => HeadFacts(s, b);
    case Deliver(b) => DeliverFacts(s, b);
    case _ =>
  }

  /** A refusal needs 16 occupants of the same pool, and they hold tokens too. */
  lemma RefusalBounded(s: State, r: nat, box: nat)
    requires Inv(s) && At(s, r, Taken) && |InStage(s, box, Refused)| <= 16
    ensures |InStage(DoClaim(s, r), box, Refused)| <= 16
  {
    var line := LineOf(s.requests[r]);
    FullIs(s, box);
    if line.box == box && |Occupants(s, line)| >= SLOTS { RefusalCount(s, r, line); }
    ClaimRefuses(s, r, box);
  }

  lemma ClaimRefuses(s: State, r: nat, box: nat)
    requires At(s, r, Taken)
    ensures var line := LineOf(s.requests[r]);
            InStage(DoClaim(s, r), box, Refused)
              == InStage(s, box, Refused) + if line.box == box && |Occupants(s, line)| >= SLOTS then {r} else {}
  {
  }

  lemma RefusalCount(s: State, r: nat, line: Line)
    requires At(s, r, Taken) && LineOf(s.requests[r]) == line
    ensures |InStage(s, line.box, Refused)| + |Occupants(s, line)| + 1 <= |Holding(s, line.box)|
  {
    var refused, busy := InStage(s, line.box, Refused), Occupants(s, line);
    assert refused !! busy && r !in refused + busy;
    SubsetCount(refused + busy + {r}, Holding(s, line.box));
  }

  lemma {:induction false} RefusedRun(s: State, run: seq<Action>, box: nat)
    requires Inv(s) && Legal(s, run) && |InStage(s, box, Refused)| <= 16
    ensures |InStage(After(s, run), box, Refused)| <= 16
    decreases |run|
  {
    if run != [] {
      if run[0].Claim? { RefusalBounded(s, run[0].r, box); } else { RefusedSame(s, run[0], box); }
      StepInv(s, run[0]);
      RefusedRun(Apply(s, run[0]), run[1..], box);
    }
  }

  /** No box ever has more than 16 refused requests. */
  lemma AtMostSixteenRefused(s: State, box: nat)
    requires Reachable(s)
    ensures |InStage(s, box, Refused)| <= 16
  {
    var boxes, run :| Legal(Start(boxes), run) && s == After(Start(boxes), run);
    StartInv(boxes);
    assert InStage(Start(boxes), box, Refused) == {};
    RefusedRun(Start(boxes), run, box);
  }

  // ---- when a box is starved for good -------------------------------------------------------

  /** No request of the box can be taken in any later state. */
  ghost predicate NeverAgain(s: State, box: nat) {
    forall run :: Legal(s, run) ==> Full(After(s, run), box)
  }

  /** For an existing box, full means that no request whatsoever can be taken. */
  lemma FullMeansNoRequest(s: State, box: nat)
    requires box < s.boxes
    ensures Full(s, box) <==> forall r, desc, text :: !CanTake(s, r, box, desc, text)
  {
    if !Full(s, box) {
      var r := FreshId(s.requests.Keys);
      assert CanTake(s, r, box, Desc(0, 0, 0), []);
    }
  }

  lemma FreshId(ids: set<nat>) returns (r: nat)
    ensures forall x :: x in ids ==> x < r
    decreases ids
  {
    if ids == {} {
      r := 0;
    } else {
      var x :| x in ids;
      var n := FreshId(ids - {x});
      r := if n <= x then x + 1 else n;
      assert forall y :: y in ids ==> y == x || y in ids - {x};
    }
  }

  /** No call of ipc_send or ipc_recv is under way in the box. */
  ghost predicate Settled(s: State, box: nat) {
    forall r :: r in s.requests && s.requests[r].owner == box ==>
      s.requests[r].stage != Taken && s.requests[r].stage != Claimed
  }

  /** The request was delivered, or still can be: a send needs an existing destination,
      another one that can post a receive, or one of its own that is already posted; a
      receive needs another box that it listens to. */
  ghost predicate Helpable(s: State, box: nat, r: nat) {
    r in s.requests && s.requests[r].owner == box &&
      var q := s.requests[r];
      || q.stage == Finished
      || (&& q.stage == Queued && q.kind == SendIo && 0 <= q.desc.box < s.boxes
          && (q.desc.box == box ==> HasMatch(s, box, q)))
      || (q.stage == Queued && q.kind == RecvIo && exists x :: Listens(s, box, q, x))
  }

  ghost predicate HasMatch(s: State, box: nat, q: Request) {
    exists m :: m in QueueOf(s, Line(box, RecvIo)) && m in s.requests && Matches(box, q, s.requests[m])
  }

  predicate Listens(s: State, box: nat, q: Request, x: nat) {
    x < s.boxes && x != box && (q.desc.box == x || q.desc.box == ANY_BOX)
  }

  /** Full, with nothing under way and nothing that anybody can complete. */
  ghost predicate Stuck(s: State, box: nat) {
    && |Holding(s, box)| == 32 && Settled(s, box)
    && forall r :: !Helpable(s, box, r)
  }

  /** Between `s` and `s'` nothing happens to the box but that sends get lost. */
  ghost predicate Idle(s: State, s': State, box: nat) {
    && s'.boxes == s.boxes
    && (forall r :: r in s.requests && s.requests[r].owner == box ==> r in s'.requests && IdleRequest(s, s', r))
    && (forall r :: r in s'.requests && s'.requests[r].owner == box ==> r in s.requests && s.requests[r].owner == box)
    && (forall m :: m in QueueOf(s', Line(box, RecvIo)) ==> m in QueueOf(s, Line(box, RecvIo)))
  }

  predicate IdleRequest(s: State, s': State, r: nat)
    requires r in s.requests && r in s'.requests
  {
    || s'.requests[r] == s.requests[r]
    || (s.requests[r].stage == Queued && s'.requests[r] == s.requests[r].(stage := Lost))
  }

  lemma MatchBack(s: State, s': State, box: nat, q: Request)
    requires Inv(s') && Idle(s, s', box) && HasMatch(s', box, q)
    ensures HasMatch(s, box, q)
  {
    var m :| m in QueueOf(s', Line(box, RecvIo)) && m in s'.requests && Matches(box, q, s'.requests[m]);
    assert LineOk(s', Line(box, RecvIo));
    assert m in s.requests && s'.requests[m] == s.requests[m];
  }

  lemma HelpableBack(s: State, s': State, box: nat, r: nat)
    requires Inv(s') && Idle(s, s', box) && Helpable(s', box, r)
    ensures Helpable(s, box, r)
  {
    var q := s.requests[r];
    assert s'.requests[r] == q;
    if q.stage == Queued && q.kind == SendIo && q.desc.box == box { MatchBack(s, s', box, q); }
    if q.stage == Queued && q.kind == RecvIo {
      var x :| Listens(s', box, q, x);
      assert Listens(s, box, q, x);
    }
  }

  lemma IdleStuck(s: State, s': State, box: nat)
    requires Inv(s') && Stuck(s, box) && Idle(s, s', box)
    ensures Stuck(s', box)
  {
    assert Holding(s', box) == Holding(s, box);
    forall r ensures !Helpable(s', box, r) {
      if Helpable(s', box, r) { HelpableBack(s, s', box, r); }
    }
  }

  /** A box that takes part in a delivery has a request that can be helped. */
  lemma DeliveryHelps(s: State, box: nat, b: nat)
    requires Inv(s) && CanDeliver(s, b)
    ensures s.requests[Head(s, b)].owner == b && s.requests[Receiver(s, b)].owner == RecvLine(s, b).box
    ensures b == box ==> Helpable(s, box, Head(s, b))
    ensures b != box && RecvLine(s, b).box == box ==> Helpable(s, box, Receiver(s, b))
  {
    HeadFacts(s, b);
    ReceiverFacts(s, b);
    var h, m := Head(s, b), Receiver(s, b);
    assert ReqOk(s, h) && ReqOk(s, m);
    if b == box {
      assert RecvLine(s, b).box == box ==> HasMatch(s, box, s.requests[h]);
    } else if RecvLine(s, b).box == box {
      HeadExists(s, b);
      assert Listens(s, box, s.requests[m], b);
    }
  }

  lemma HeadExists(s: State, b: nat)
    requires Inv(s) && HasHead(s, b)
    ensures b < s.boxes
  {
    HeadFacts(s, b);
    assert ReqOk(s, Head(s, b));
  }

  /** A stuck box takes part in no delivery. */
  lemma NoDelivery(s: State, box: nat, b: nat)
    requires Inv(s) && Stuck(s, box) && CanDeliver(s, b)
    ensures b != box && RecvLine(s, b).box != box && s.requests[Head(s, b)].owner == b
    ensures s.requests[Receiver(s, b)].owner == RecvLine(s, b).box
  {
    DeliveryHelps(s, box, b);
  }

  /** Steps of the library in a stuck box, or elsewhere. */
  lemma IdleLibrary(s: State, a: Action, box: nat)
    requires Inv(s) && Stuck(s, box) && Enabled(s, a) && (a.Take? || a.Claim? || a.Post?)
    ensures Idle(s, Apply(s, a), box)
  {
    FullIs(s, box);
  }

  lemma IdleWait(s: State, b: nat, mask: Word, box: nat)
    requires Inv(s) && Stuck(s, box)
    ensures Idle(s, DoWait(s, b, mask), box)
  {
    var s' := DoWait(s, b, mask);
    forall r | r in s.requests && s.requests[r].owner == box ensures s'.requests[r] == s.requests[r] {
      assert !Helpable(s, box, r);
    }
  }

  lemma IdleReorder(s: State, b: nat, box: nat)
    requires Inv(s) && HasHead(s, b)
    ensures Idle(s, DoPutBack(s, b), box) && (CanDiscard(s, b) ==> Idle(s, DoDiscard(s, b), box))
  {
    HeadFacts(s, b);
  }

  lemma IdleDeliver(s: State, b: nat, box: nat)
    requires Inv(s) && Stuck(s, box) && CanDeliver(s, b)
    ensures Idle(s, DoContend(s, b), box)
    ensures Enabled(s, Deliver(b)) ==> Idle(s, DoDeliver(s, b), box)
  {
    NoDelivery(s, box, b);
    if Enabled(s, Deliver(b)) { DeliverFacts(s, b); }
  }

  lemma StuckStep(s: State, a: Action, box: nat)
    requires Inv(s) && Stuck(s, box) && Enabled(s, a) && Inv(Apply(s, a))
    ensures Stuck(Apply(s, a), box)
  {
    if a.Take? || a.Claim? || a.Post? { IdleLibrary(s, a, box); }
    if a.Wait? { IdleWait(s, a.box, a.mask, box); }
    if a.Discard? || a.PutBack? { IdleReorder(s, a.box, box); }
    if a.Contend? || a.Deliver? { IdleDeliver(s, a.box, box); }
    IdleStuck(s, Apply(s, a), box);
  }

  lemma {:induction false} StuckRun(s: State, run: seq<Action>, box: nat)
    requires Inv(s) && Stuck(s, box) && Legal(s, run)
    ensures Full(After(s, run), box)
    decreases |run|
  {
    if run == [] {
      FullIs(s, box);
    } else {
      StepInv(s, run[0]);
      StuckStep(s, run[0], box);
      StuckRun(Apply(s, run[0]), run[1..], box);
    }
  }

  // ---- helping a box out ----------------------------------------------------------------------

  ghost predicate Leads(s: State, s': State) {
    exists run :: Legal(s, run) && After(s, run) == s'
  }

  lemma LeadsStep(s: State, a: Action)
    requires Enabled(s, a)
    ensures Leads(s, Apply(s, a))
  {
    var run := [a];
    assert run[1..] == [] && Legal(Apply(s, a), []);
    assert Legal(s, run) && After(s, run) == Apply(s, a);
  }

  lemma {:induction false} Append(s: State, run: seq<Action>, more: seq<Action>)
    requires Legal(s, run) && Legal(After(s, run), more)
    ensures Legal(s, run + more) && After(s, run + more) == After(After(s, run), more)
    decreases |run|
  {
    if run == [] {
      assert run + more == more;
    } else {
      assert (run + more)[1..] == run[1..] + more;
      Append(Apply(s, run[0]), run[1..], more);
    }
  }

  lemma LeadsOn(s: State, s1: State, s2: State)
    requires Leads(s, s1) && Leads(s1, s2)
    ensures Leads(s, s2)
  {
    var a :| Legal(s, a) && After(s, a) == s1;
    var b :| Legal(s1, b) && After(s1, b) == s2;
    Append(s, a, b);
  }

  lemma LeadsInv(s: State, s': State)
    requires Inv(s) && Leads(s, s')
    ensures Inv(s')
  {
    var run :| Legal(s, run) && After(s, run) == s';
    RunInv(s, run);
  }

  lemma LeadsNowhere(s: State)
    ensures Leads(s, s)
  {
    assert Legal(s, []) && After(s, []) == s;
  }

  /** Some continuation has a token for the box. */
  ghost predicate Relieved(s: State, box: nat) {
    exists s' :: Leads(s, s') && !Full(s', box)
  }

  lemma RelievedOn(s: State, s1: State, box: nat)
    requires Leads(s, s1) && Relieved(s1, box)
    ensures Relieved(s, box)
  {
    var s2 :| Leads(s1, s2) && !Full(s2, box);
    LeadsOn(s, s1, s2);
  }

  /** Waiting for a finished request gives its token back. */
  lemma FinishedRelieves(s: State, box: nat, r: nat)
    requires Inv(s) && At(s, r, Finished) && s.requests[r].owner == box
    ensures Relieved(s, box)
  {
    var i := s.requests[r].bit;
    assert ReqOk(s, r) && WordsOk(s, box) && BitOk(s, box, i);
    var w, a := WordsOf(s, box), Wait(box, Any, Bit(i));
    assert And(w.completedTokens, Bit(i))[i] && And(And(w.completedTokens, Bit(i)), Bit(i))[i];
    assert !ZERO[i];
    assert Enabled(s, a);
    LeadsStep(s, a);
    var s' := Apply(s, a);
    assert !WordsOf(s', box).allocatedTokens[i];
    assert !Full(s', box);
  }

  lemma DeliveryRelieves(s: State, x: nat, box: nat)
    requires Inv(s) && CanDeliver(s, x) && (x == box || RecvLine(s, x).box == box)
    ensures Relieved(s, box)
  {
    DeliverFits(s, x);
    DeliverFacts(s, x);
    var s' := DoDeliver(s, x);
    assert Apply(s, Deliver(x)) == s';
    LeadsStep(s, Deliver(x));
    DeliverInv(s, x);
    FinishedRelieves(s', box, if x == box then Head(s, x) else Receiver(s, x));
    RelievedOn(s, s', box);
  }

  /** A queued send can be brought to the head of its queue; nothing else changes. */
  lemma {:induction false} Rotate(s: State, x: nat, i: nat) returns (s': State)
    requires Inv(s) && i < |QueueOf(s, Line(x, SendIo))|
    ensures Leads(s, s') && Inv(s') && HasHead(s', x) && Head(s', x) == QueueOf(s, Line(x, SendIo))[i]
    ensures s'.boxes == s.boxes && s'.requests == s.requests
    ensures forall l :: l != Line(x, SendIo) ==> QueueOf(s', l) == QueueOf(s, l)
    decreases i
  {
    var q := QueueOf(s, Line(x, SendIo));
    assert LineOk(s, Line(x, SendIo));
    if i == 0 {
      LeadsNowhere(s);
      s' := s;
    } else {
      PutBackInv(s, x);
      assert Enabled(s, PutBack(x));
      LeadsStep(s, PutBack(x));
      var s1 := DoPutBack(s, x);
      assert QueueOf(s1, Line(x, SendIo)) == q[1..] + [q[0]];
      s' := Rotate(s1, x, i - 1);
      LeadsOn(s, s1, s');
    }
  }

  /** The box has a free token and a free slot of either kind. */
  ghost predicate Room(s: State, x: nat) {
    && x < s.boxes && !Full(s, x)
    && |Occupants(s, Line(x, SendIo))| < SLOTS && |Occupants(s, Line(x, RecvIo))| < SLOTS
  }

  function Fresh(s: State, x: nat, kind: Kind, desc: Desc, text: seq<nat>, stage: Stage): Request {
    Request(x, kind, FirstClear(WordsOf(s, x).allocatedTokens), desc, desc, text, stage, 0, 0)
  }

  lemma Taking(s: State, r: nat, x: nat, kind: Kind, desc: Desc, text: seq<nat>) returns (s': State)
    requires CanTake(s, r, x, desc, text)
    ensures Leads(s, s') && s'.boxes == s.boxes && forall l :: QueueOf(s', l) == QueueOf(s, l)
    ensures s'.requests == s.requests[r := Fresh(s, x, kind, desc, text, Taken)]
    ensures forall l :: Occupants(s', l) == Occupants(s, l)
  {
    var a := Take(r, x, kind, desc, text);
    assert Enabled(s, a);
    s' := DoTake(s, r, x, kind, desc, text);
    assert Apply(s, a) == s';
    LeadsStep(s, a);
    forall l ensures Occupants(s', l) == Occupants(s, l) {}
  }

  lemma Claiming(s: State, r: nat) returns (s': State)
    requires At(s, r, Taken)
    ensures Leads(s, s') && s'.boxes == s.boxes && forall l :: QueueOf(s', l) == QueueOf(s, l)
    ensures var stage := if |Occupants(s, LineOf(s.requests[r]))| < SLOTS then Claimed else Refused;
            s'.requests == s.requests[r := s.requests[r].(stage := stage)]
  {
    assert Enabled(s, Claim(r));
    s' := DoClaim(s, r);
    assert Apply(s, Claim(r)) == s';
    LeadsStep(s, Claim(r));
  }

  lemma Posting(s: State, r: nat) returns (s': State)
    requires At(s, r, Claimed)
    ensures Leads(s, s') && s'.boxes == s.boxes
    ensures s'.requests == s.requests[r := s.requests[r].(stage := Queued)]
    ensures var line := LineOf(s.requests[r]);
            forall l :: QueueOf(s', l) == if l == line then QueueOf(s, l) + [r] else QueueOf(s, l)
  {
    assert Enabled(s, Post(r));
    s' := DoPost(s, r);
    assert Apply(s, Post(r)) == s';
    LeadsStep(s, Post(r));
  }

  /** A box with a token and a slot can post any request. */
  lemma Offer(s: State, x: nat, kind: Kind, desc: Desc, text: seq<nat>) returns (s': State, r: nat)
    requires Inv(s) && x < s.boxes && !Full(s, x) && |Occupants(s, Line(x, kind))| < SLOTS && |text| == desc.len
    ensures Leads(s, s') && Inv(s') && s'.boxes == s.boxes
    ensures r !in s.requests && s'.requests == s.requests[r := Fresh(s, x, kind, desc, text, Queued)]
    ensures QueueOf(s', Line(x, kind)) == QueueOf(s, Line(x, kind)) + [r]
    ensures forall l :: l != Line(x, kind) ==> QueueOf(s', l) == QueueOf(s, l)
  {
    r := FreshId(s.requests.Keys);
    var s1 := Taking(s, r, x, kind, desc, text);
    s' := ClaimPost(s1, r);
    LeadsOn(s, s1, s');
    LeadsInv(s, s');
  }

  lemma ClaimPost(s: State, r: nat) returns (s': State)
    requires At(s, r, Taken) && |Occupants(s, LineOf(s.requests[r]))| < SLOTS
    ensures Leads(s, s') && s'.boxes == s.boxes
    ensures s'.requests == s.requests[r := s.requests[r].(stage := Queued)]
    ensures var line := LineOf(s.requests[r]);
            forall l :: QueueOf(s', l) == if l == line then QueueOf(s, l) + [r] else QueueOf(s, l)
  {
    var s1 := Claiming(s, r);
    s' := Posting(s1, r);
    LeadsOn(s, s1, s');
  }

  /** A send at the head with a match posted at its destination is delivered. */
  lemma MatchDelivers(s: State, x: nat, m: nat, box: nat)
    requires Inv(s) && HasHead(s, x) && 0 <= s.requests[Head(s, x)].desc.box < s.boxes
    requires m in QueueOf(s, RecvLine(s, x)) && m in s.requests && Matches(x, s.requests[Head(s, x)], s.requests[m])
    requires x == box || RecvLine(s, x).box == box
    ensures Relieved(s, box)
  {
    var queue := QueueOf(s, RecvLine(s, x));
    assert LineOk(s, RecvLine(s, x)) && Known(s, queue);
    var i: nat :| i < |queue| && queue[i] == m;
    assert FirstMatch(s, x, s.requests[Head(s, x)], queue) <= i;
    DeliveryRelieves(s, x, box);
  }

  lemma SendRelieves(s: State, box: nat, r: nat)
    requires Inv(s) && At(s, r, Queued) && LineOf(s.requests[r]) == Line(box, SendIo)
    requires var d := s.requests[r].desc.box;
             0 <= d < s.boxes && (if d == box then HasMatch(s, box, s.requests[r]) else Room(s, d))
    ensures Relieved(s, box)
  {
    var q, line := s.requests[r], Line(box, SendIo);
    var s1, m := s, 0;
    if q.desc.box == box {
      m :| m in QueueOf(s, Line(box, RecvIo)) && m in s.requests && Matches(box, q, s.requests[m]);
      LeadsNowhere(s);
    } else {
      s1, m := Offer(s, q.desc.box, RecvIo, Desc(ANY_BOX, q.desc.port, q.desc.len), seq(q.desc.len, _ => 0));
    }
    assert ReqOk(s, r);
    assert LineOk(s1, line) && r in QueueOf(s1, line);
    var i: nat :| i < |QueueOf(s1, line)| && QueueOf(s1, line)[i] == r;
    var s2 := Rotate(s1, box, i);
    MatchDelivers(s2, box, m, box);
    RelievedOn(s1, s2, box);
    RelievedOn(s, s1, box);
  }

  lemma RecvRelieves(s: State, box: nat, r: nat, x: nat)
    requires Inv(s) && At(s, r, Queued) && LineOf(s.requests[r]) == Line(box, RecvIo) && box < s.boxes
    requires Listens(s, box, s.requests[r], x) && Room(s, x)
    ensures Relieved(s, box)
  {
    var q := s.requests[r];
    assert LineOk(s, Line(box, RecvIo)) && r in QueueOf(s, Line(box, RecvIo));
    var s1, h := Offer(s, x, SendIo, Desc(box, q.desc.port, 0), []);
    var queue := QueueOf(s1, Line(x, SendIo));
    var i: nat :| i < |queue| && queue[i] == h;
    var s2 := Rotate(s1, x, i);
    MatchDelivers(s2, x, r, box);
    RelievedOn(s1, s2, box);
    RelievedOn(s, s1, box);
  }

  lemma HelpableRelieves(s: State, box: nat, r: nat)
    requires Inv(s) && Helpable(s, box, r) && box < s.boxes
    requires forall x: nat :: x < s.boxes && x != box ==> Room(s, x)
    ensures Relieved(s, box)
  {
    var q := s.requests[r];
    if q.stage == Finished {
      FinishedRelieves(s, box, r);
    } else if q.kind == SendIo {
      SendRelieves(s, box, r);
    } else {
      var x :| Listens(s, box, q, x);
      RecvRelieves(s, box, r, x);
    }
  }

  /** When no call is under way in a box and the others have room, the box is starved for
      good if and only if its tokens are all taken by requests that nobody can complete. */
  lemma StarvedExactly(s: State, box: nat)
    requires Reachable(s) && box < s.boxes && Settled(s, box)
    requires forall x: nat :: x < s.boxes && x != box ==> Room(s, x)
    ensures NeverAgain(s, box) <==> Full(s, box) && forall r :: !Helpable(s, box, r)
  {
    ReachableInv(s);
    FullIs(s, box);
    if Full(s, box) && forall r :: !Helpable(s, box, r) {
      forall run | Legal(s, run) ensures Full(After(s, run), box) { StuckRun(s, run, box); }
    } else if !Full(s, box) {
      assert Legal(s, []) && After(s, []) == s;
    } else {
      var r :| Helpable(s, box, r);
      HelpableRelieves(s, box, r);
      var s' :| Leads(s, s') && !Full(s', box);
      var run :| Legal(s, run) && After(s, run) == s';
    }
  }

  /** In particular, refused and lost requests that use up the tokens starve a box for
      good, whatever the other boxes do. */
  lemma LeakedOut(s: State, box: nat)
    requires Reachable(s) && |InStage(s, box, Refused)| + |InStage(s, box, Lost)| >= 32
    ensures NeverAgain(s, box)
  {
    ReachableInv(s);
    FullIs(s, box);
    AllGone(s, box);
    forall run | Legal(s, run) ensures Full(After(s, run), box) { StuckRun(s, run, box); }
  }

  lemma AllGone(s: State, box: nat)
    requires |InStage(s, box, Refused)| + |InStage(s, box, Lost)| >= 32 && |Holding(s, box)| <= 32
    ensures Stuck(s, box)
  {
    var gone, all := InStage(s, box, Refused) + InStage(s, box, Lost), Holding(s, box);
    assert InStage(s, box, Refused) !! InStage(s, box, Lost);
    SubsetCount(gone, all);
    assert forall r :: r in all ==> r in gone;
    forall r | r in s.requests && s.requests[r].owner == box && s.requests[r].stage != Reported
      ensures Gone(s.requests[r])
    {
      assert r in all;
    }
  }

  // ---- a starved box ---------------------------------------------------------------------------

  /** One box in which `lost` sends went to a box that does not exist and `refused` more
      found no slot; nothing else was ever asked for. */
  ghost predicate Wasted(s: State, lost: nat, refused: nat) {
    && s.boxes == 1 && QueueOf(s, Line(0, SendIo)) == []
    && |InStage(s, 0, Lost)| == lost && |InStage(s, 0, Refused)| == refused
    && forall r :: r in s.requests ==> LineOf(s.requests[r]) == Line(0, SendIo) && Gone(s.requests[r])
  }

  lemma WastedFacts(s: State, lost: nat, refused: nat)
    requires Inv(s) && Wasted(s, lost, refused)
    ensures Occupants(s, Line(0, SendIo)) == InStage(s, 0, Lost)
    ensures lost + refused < 32 ==> !Full(s, 0)
  {
    var a, b := InStage(s, 0, Lost), InStage(s, 0, Refused);
    assert Holding(s, 0) == a + b && a !! b;
    FullIs(s, 0);
  }

  lemma StageAdds(s: State, s': State, r: nat, q: Request, stage: Stage)
    requires r !in s.requests && s'.requests == s.requests[r := q] && q.owner == 0
    ensures |InStage(s', 0, stage)| == |InStage(s, 0, stage)| + if q.stage == stage then 1 else 0
  {
    if q.stage == stage {
      assert InStage(s', 0, stage) == InStage(s, 0, stage) + {r};
    } else {
      assert InStage(s', 0, stage) == InStage(s, 0, stage);
    }
  }

  lemma OneMoreWasted(s: State, s': State, lost: nat, refused: nat, r: nat, q: Request)
    requires Wasted(s, lost, refused) && s'.boxes == 1 && QueueOf(s', Line(0, SendIo)) == []
    requires r !in s.requests && s'.requests == s.requests[r := q] && LineOf(q) == Line(0, SendIo) && Gone(q)
    ensures if q.stage == Lost then Wasted(s', lost + 1, refused) else Wasted(s', lost, refused + 1)
  {
    StageAdds(s, s', r, q, Lost);
    StageAdds(s, s', r, q, Refused);
  }

  lemma Discarding(s: State, r: nat) returns (s': State)
    requires Inv(s) && At(s, r, Queued) && QueueOf(s, Line(0, SendIo)) == [r] && s.requests[r].desc.box >= s.boxes
    ensures Leads(s, s') && s'.boxes == s.boxes && QueueOf(s', Line(0, SendIo)) == []
    ensures s'.requests == s.requests[r := s.requests[r].(stage := Lost)]
  {
    assert Head(s, 0) == r && Enabled(s, Discard(0));
    s' := DoDiscard(s, 0);
    assert Apply(s, Discard(0)) == s';
    LeadsStep(s, Discard(0));
  }

  /** A send to a box that does not exist takes a token that never comes back. */
  lemma WasteSend(s: State, lost: nat) returns (s': State)
    requires Inv(s) && Wasted(s, lost, 0) && lost < 16
    ensures Leads(s, s') && Inv(s') && Wasted(s', lost + 1, 0)
  {
    WastedFacts(s, lost, 0);
    var s1, r := Offer(s, 0, SendIo, Desc(1, 0, 0), []);
    s' := Discarding(s1, r);
    LeadsOn(s, s1, s');
    LeadsInv(s, s');
    OneMoreWasted(s, s', lost, 0, r, s'.requests[r]);
  }

  lemma WasteRefusal(s: State, refused: nat) returns (s': State)
    requires Inv(s) && Wasted(s, 16, refused) && refused < 16
    ensures Leads(s, s') && Inv(s') && Wasted(s', 16, refused + 1)
  {
    WastedFacts(s, 16, refused);
    var r := FreshId(s.requests.Keys);
    var s1 := Taking(s, r, 0, SendIo, Desc(1, 0, 0), []);
    s' := Claiming(s1, r);
    LeadsOn(s, s1, s');
    LeadsInv(s, s');
    OneMoreWasted(s, s', 16, refused, r, s'.requests[r]);
  }

  lemma {:induction false} WasteReached(lost: nat, refused: nat) returns (s: State)
    requires lost <= 16 && refused <= 16 && (refused > 0 ==> lost == 16)
    ensures Leads(Start(1), s) && Inv(s) && Wasted(s, lost, refused)
    decreases lost + refused
  {
    if refused > 0 {
      var s1 := WasteReached(lost, refused - 1);
      s := WasteRefusal(s1, refused - 1);
      LeadsOn(Start(1), s1, s);
    } else if lost > 0 {
      var s1 := WasteReached(lost - 1, 0);
      s := WasteSend(s1, lost - 1);
      LeadsOn(Start(1), s1, s);
    } else {
      s := Start(1);
      StartInv(1);
      LeadsNowhere(s);
      assert InStage(s, 0, Lost) == {} && InStage(s, 0, Refused) == {};
    }
  }

  /** Sixteen sends to a box that does not exist and sixteen that find no slot starve a box
      for good, so both bounds are reached. */
  lemma StarvationReached()
    ensures exists s :: && Reachable(s) && |InStage(s, 0, Lost)| == 16 && |InStage(s, 0, Refused)| == 16
                        && NeverAgain(s, 0)
  {
    var s := WasteReached(16, 16);
    var run :| Legal(Start(1), run) && After(Start(1), run) == s;
    assert Reachable(s);
    LeakedOut(s, 0);
  }

  // ---- starved without a loss --------------------------------------------------------------------

  /** One box in which `queued` receives listen to a box that does not exist and `refused`
      more found no slot. */
  ghost predicate Parked(s: State, queued: nat, refused: nat) {
    && s.boxes == 1
    && |InStage(s, 0, Stage.Queued)| == queued && |InStage(s, 0, Refused)| == refused
    && forall r :: r in s.requests ==> ParkedRequest(s.requests[r])
  }

  predicate ParkedRequest(q: Request) {
    LineOf(q) == Line(0, RecvIo) && q.desc.box == 1 && (q.stage == Queued || q.stage == Refused)
  }

  lemma ParkedFacts(s: State, queued: nat, refused: nat)
    requires Inv(s) && Parked(s, queued, refused)
    ensures Occupants(s, Line(0, RecvIo)) == InStage(s, 0, Queued) && |Holding(s, 0)| == queued + refused
    ensures queued + refused < 32 ==> !Full(s, 0)
  {
    var a, b := InStage(s, 0, Queued), InStage(s, 0, Refused);
    assert Holding(s, 0) == a + b && a !! b;
    FullIs(s, 0);
  }

  lemma OneMoreParked(s: State, s': State, queued: nat, refused: nat, r: nat, q: Request)
    requires Parked(s, queued, refused) && s'.boxes == 1
    requires r !in s.requests && s'.requests == s.requests[r := q] && ParkedRequest(q)
    ensures if q.stage == Queued then Parked(s', queued + 1, refused) else Parked(s', queued, refused + 1)
  {
    StageAdds(s, s', r, q, Queued);
    StageAdds(s, s', r, q, Refused);
  }

  lemma Parking(s: State, queued: nat, refused: nat) returns (s': State)
    requires Inv(s) && Parked(s, queued, refused) && queued + refused < 32
    ensures Leads(s, s') && Inv(s')
    ensures if queued < 16 then Parked(s', queued + 1, refused) else Parked(s', queued, refused + 1)
  {
    var r := FreshId(s.requests.Keys);
    s' := Requesting(s, r, queued, refused);
    LeadsInv(s, s');
    OneMoreParked(s, s', queued, refused, r, s'.requests[r]);
  }

  /** One more receive, which is queued or refused. */
  lemma Requesting(s: State, r: nat, queued: nat, refused: nat) returns (s': State)
    requires Inv(s) && Parked(s, queued, refused) && queued + refused < 32 && r !in s.requests
    ensures Leads(s, s') && s'.boxes == 1
    ensures r in s'.requests && s'.requests == s.requests[r := s'.requests[r]] && ParkedRequest(s'.requests[r])
    ensures s'.requests[r].stage == if queued < 16 then Queued else Refused
  {
    ParkedFacts(s, queued, refused);
    var s1 := Taking(s, r, 0, RecvIo, Desc(1, 0, 0), []);
    if queued < 16 { s' := ClaimPost(s1, r); } else { s' := Claiming(s1, r); }
    LeadsOn(s, s1, s');
  }

  lemma {:induction false} ParkedReached(n: nat) returns (s: State)
    requires n <= 32
    ensures Leads(Start(1), s) && Inv(s) && Parked(s, if n < 16 then n else 16, if n < 16 then 0 else n - 16)
  {
    if n == 0 {
      s := Start(1);
      StartInv(1);
      LeadsNowhere(s);
      assert InStage(s, 0, Queued) == {} && InStage(s, 0, Refused) == {};
    } else {
      var s1 := ParkedReached(n - 1);
      s := Parking(s1, if n - 1 < 16 then n - 1 else 16, if n - 1 < 16 then 0 else n - 17);
      LeadsOn(Start(1), s1, s);
    }
  }

  /** A box can be starved for good with no request lost: sixteen receives wait for a box
      that does not exist and sixteen more were refused. So counting refused and lost
      requests does not tell when a box is starved; StarvedExactly does. */
  lemma StarvedWithoutLoss()
    ensures exists s :: Reachable(s) && InStage(s, 0, Lost) == {} && |InStage(s, 0, Refused)| == 16 && NeverAgain(s, 0)
  {
    var s := ParkedReached(32);
    ParkedFacts(s, 16, 16);
    var run :| Legal(Start(1), run) && After(Start(1), run) == s;
    assert Reachable(s) && InStage(s, 0, Lost) == {};
    forall r ensures !Helpable(s, 0, r) {
      if r in s.requests { assert ParkedRequest(s.requests[r]); }
    }
    assert Stuck(s, 0);
    forall more | Legal(s, more) ensures Full(After(s, more), 0) { StuckRun(s, more, 0); }
  }
}
