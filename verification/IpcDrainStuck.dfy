/** A drain that never ends does happen: one box sends to a box that does not exist and then
    to itself, where nobody listens. */
module IpcDrainStuck {
  import opened IpcProtocol
  import opened IpcDrain
  import IpcStarvation

  const NOWHERE := Desc(1, 0, 0)
  const SELF := Desc(0, 0, 0)
  const NONE := Locks({}, {})

  function Members(sends: seq<nat>): set<nat> {
    set x | x in sends
  }

  /** What box 0 of a system of one box has asked for so far. */
  ghost predicate Asked(s: State, sends: seq<nat>) {
    && s.boxes == 1 && s.requests.Keys == Members(sends)
    && Outbox(s, 0) == sends && Inbox(s, 0) == []
  }

  lemma {:induction false} CountSends(sends: seq<nat>)
    ensures |Members(sends)| <= |sends|
    decreases sends
  {
    if sends != [] {
      CountSends(sends[1..]);
      assert Members(sends) == {sends[0]} + Members(sends[1..]);
    }
  }

  lemma Sending(s: State, sends: seq<nat>, desc: Desc) returns (s': State, r: nat)
    requires Inv(s) && Asked(s, sends) && |sends| < 16 && desc.len == 0
    ensures IpcStarvation.Leads(s, s') && Inv(s') && Asked(s', sends + [r])
    ensures r !in s.requests && s'.requests[r].desc == desc
    ensures forall x :: x in s.requests ==> SameRequest(s, s', x)
  {
    CountSends(sends);
    SubsetCount(Holding(s, 0), s.requests.Keys);
    SubsetCount(Occupants(s, Line(0, SendIo)), s.requests.Keys);
    IpcStarvation.FullIs(s, 0);
    s', r := IpcStarvation.Offer(s, 0, SendIo, desc, []);
  }

  lemma StuckNeverEnds(s: State, a: nat, b: nat)
    requires Inv(s) && Asked(s, [a, b]) && s.requests[a].desc == NOWHERE && s.requests[b].desc == SELF
    ensures !DrainEnds(s, 0, NONE)
  {
    DrainEndsExactly(s, 0, NONE);
    var q := Outbox(s, 0);
    assert !HasDestination(s, q[0]) && HasDestination(s, q[1]);
    assert q[..1] == [a];
    assert Stays(s, 0, NONE, q, 1);
    assert !Stays(s, 0, NONE, q, 0);
  }

  lemma NeverEndsHappens()
    ensures exists s :: Reachable(s) && s.boxes == 1 && Inv(s) && !DrainEnds(s, 0, NONE)
  {
    var s0 := Start(1);
    StartInv(1);
    var s1, a := Sending(s0, [], NOWHERE);
    var s2, b := Sending(s1, [a], SELF);
    assert SameRequest(s1, s2, a);
    IpcStarvation.LeadsOn(s0, s1, s2);
    var run :| Legal(s0, run) && After(s0, run) == s2;
    assert Reachable(s2);
    assert [a] + [b] == [a, b];
    StuckNeverEnds(s2, a, b);
  }
}
