/** The lock around every pool operation (core/system/src/spinlock.c) and its use by
    core/system/src/pool_queue.c. `find_first` releases the lock when it matches and
    its caller releases it again, so the second release may be of another thread's
    lock. */
module Spinlock {

  datatype Point = Inside | Again

  /** `at` holds the threads that are in a pool operation: Inside while they may touch
      the management array, Again between the two releases of a matching find. */
  datatype State = State(acquired: bool, at: map<nat, Point>)

  datatype Action =
    | Lock(t: nat)         // a successful compare-and-swap
    | Unlock(t: nat)       // the single release at the end of an operation
    | Match(t: nat)        // the release inside find_first
    | UnlockAgain(t: nat)  // the release in its caller

  const Start := State(false, map[])

  predicate Enabled(threads: set<nat>, finders: set<nat>, s: State, a: Action) {
    match a
    case Lock(t) => t in threads && t !in s.at && !s.acquired
    case Unlock(t) => t in s.at && s.at[t].Inside?
    case Match(t) => t in finders && t in s.at && s.at[t].Inside?
    case UnlockAgain(t) => t in s.at && s.at[t].Again?
  }

  function Apply(s: State, a: Action): State {
    match a
    case Lock(t) => State(true, s.at[t := Inside])
    case Unlock(t) => State(false, s.at - {t})
    case Match(t) => State(false, s.at[t := Again])
    case UnlockAgain(t) => State(false, s.at - {t})
  }

  predicate Legal(threads: set<nat>, finders: set<nat>, s: State, run: seq<Action>)
    decreases |run|
  {
    run == [] || (Enabled(threads, finders, s, run[0]) && Legal(threads, finders, Apply(s, run[0]), run[1..]))
  }

  function After(s: State, run: seq<Action>): State
    decreases |run|
  {
    if run == [] then s else After(Apply(s, run[0]), run[1..])
  }

  predicate InOperation(s: State, t: nat) {
    t in s.at && s.at[t].Inside?
  }

  ghost predicate Exclusive(s: State) {
    forall t, u :: InOperation(s, t) && InOperation(s, u) ==> t == u
  }

  /** No thread takes the lock while another is between its two releases. */
  predicate WindowFree(s: State, run: seq<Action>)
    decreases |run|
  {
    run == [] ||
    ((run[0].Lock? ==> forall t :: t in s.at ==> s.at[t].Inside?) && WindowFree(Apply(s, run[0]), run[1..]))
  }

  /** What holds as long as the window is not used: the lock is taken exactly while one
      thread is inside, and nobody is inside while a second release is due. */
  ghost predicate Guarded(s: State) {
    && Exclusive(s)
    && (s.acquired <==> exists t :: InOperation(s, t))
    && (s.acquired ==> forall t :: t in s.at ==> InOperation(s, t))
  }

  lemma GuardedStep(threads: set<nat>, finders: set<nat>, s: State, a: Action)
    requires Guarded(s) && Enabled(threads, finders, s, a)
    requires a.Lock? ==> forall t :: t in s.at ==> s.at[t].Inside?
    ensures Guarded(Apply(s, a))
  {
    var s' := Apply(s, a);
    match a
    case Lock(t) =>
      assert InOperation(s', t);
      assert forall u :: InOperation(s', u) && u != t ==> InOperation(s, u);
    case Unlock(t) => assert InOperation(s, t);
    case Match(t) => assert InOperation(s, t);
    case UnlockAgain(t) =>
      assert !InOperation(s, t);
      assert forall u :: InOperation(s', u) ==> InOperation(s, u);
  }

  /** Runs that keep clear of the window are mutually exclusive. */
  lemma {:induction false} WindowFreeExclusive(threads: set<nat>, finders: set<nat>, s: State, run: seq<Action>)
    requires Guarded(s) && Legal(threads, finders, s, run) && WindowFree(s, run)
    ensures Guarded(After(s, run))
    decreases |run|
  {
    if run != [] {
      GuardedStep(threads, finders, s, run[0]);
      WindowFreeExclusive(threads, finders, Apply(s, run[0]), run[1..]);
    }
  }

  lemma {:induction false} NoFindersNoWindow(threads: set<nat>, s: State, run: seq<Action>)
    requires Legal(threads, {}, s, run) && forall t :: t in s.at ==> s.at[t].Inside?
    ensures WindowFree(s, run)
    decreases |run|
  {
    if run != [] {
      NoFindersNoWindow(threads, Apply(s, run[0]), run[1..]);
    }
  }

  lemma {:induction false} LoneThread(threads: set<nat>, finders: set<nat>, s: State, run: seq<Action>)
    requires Legal(threads, finders, s, run) && (forall t :: t in s.at ==> t in threads)
    requires forall t, u :: t in threads && u in threads ==> t == u
    ensures Exclusive(After(s, run))
    decreases |run|
  {
    if run != [] {
      LoneThread(threads, finders, Apply(s, run[0]), run[1..]);
    }
  }

  /** One matching find and one other thread are enough to put two threads inside. */
  function Overlap(finder: nat, other: nat): seq<Action> {
    [Lock(finder), Match(finder), Lock(other), UnlockAgain(finder), Lock(finder)]
  }

  lemma OverlapHappens(threads: set<nat>, finders: set<nat>, finder: nat, other: nat)
    requires finder in finders && finder in threads && other in threads && other != finder
    ensures Legal(threads, finders, Start, Overlap(finder, other))
    ensures !Exclusive(After(Start, Overlap(finder, other)))
  {
    var run := Overlap(finder, other);
    var s1 := Apply(Start, run[0]);
    var s2 := Apply(s1, run[1]);
    var s3 := Apply(s2, run[2]);
    var s4 := Apply(s3, run[3]);
    var s5 := Apply(s4, run[4]);
    assert run[1..][1..] == run[2..] && run[2..][1..] == run[3..] && run[3..][1..] == run[4..] && run[4..][1..] == [];
    assert After(Start, run) == After(s1, run[1..]) == After(s2, run[2..]) == After(s3, run[3..])
        == After(s4, run[4..]) == s5;
    assert Legal(threads, finders, s4, run[4..]);
    assert Legal(threads, finders, s3, run[3..]);
    assert Legal(threads, finders, s2, run[2..]);
    assert Legal(threads, finders, s1, run[1..]);
    assert InOperation(s5, finder) && InOperation(s5, other);
  }

  /** The lock keeps pool operations apart in every run if and only if no find ever
      matches or there is only one thread. */
  lemma ExclusiveExactly(threads: set<nat>, finders: set<nat>)
    requires finders <= threads
    ensures (forall run :: Legal(threads, finders, Start, run) ==> Exclusive(After(Start, run)))
       <==> (finders == {} || forall t, u :: t in threads && u in threads ==> t == u)
  {
    if finders == {} {
      forall run | Legal(threads, finders, Start, run) ensures Exclusive(After(Start, run)) {
        NoFindersNoWindow(threads, Start, run);
        WindowFreeExclusive(threads, finders, Start, run);
      }
    } else if forall t, u :: t in threads && u in threads ==> t == u {
      forall run | Legal(threads, finders, Start, run) ensures Exclusive(After(Start, run)) {
        LoneThread(threads, finders, Start, run);
      }
    } else {
      var f :| f in finders;
      var t, u :| t in threads && u in threads && t != u;
      OverlapHappens(threads, finders, f, if t == f then u else t);
    }
  }
}
