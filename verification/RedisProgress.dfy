/**
 No reachable state of the register plugin is deadlocked.

 A goroutine that cannot move waits for the holder of a lock or for the
 goroutine that will close a channel.  `Rank` orders the things one can wait
 for: readers leaving the state lock below the state lock below the store lock
 below the lifecycle lock below an attempt's result.  Whoever is waited for
 ranks lower, so every chain of waiting ends in a goroutine that can move
 without any timer's help.
 */
module RedisProgress {
  import opened Wrappers
  import opened RedisRegistry
  import opened RedisInvariant
  import opened RedisTheorems

  predicate Finished(pc: Pc) {
    pc.Returned? || pc.Exited?
  }

  /** The refresh goroutine between two ticks of a plugin that has not been stopped. */
  predicate Idle(g: Shared, pc: Pc) {
    pc.Refreshing? && pc.f.FSelect? && pc.dying !in g.closedChans
  }

  /** The goroutine can step, no timer firing, its store call returning. */
  predicate CanMove(s: State, t: Tid)
    requires t < |s.threads|
  {
    ThreadStep(s.g, |s.threads|, s.threads[t], Proceed).Moved?
  }

  predicate WaitsForLifecycle(pc: Pc) {
    || (pc.Starting? && pc.s.SLock?) || (pc.Registering? && pc.g.GLock?) || (pc.Unregistering? && pc.u.ULock?)
    || (pc.Stopping? && pc.p.TTryLock?) || (pc.Cleaning? && pc.c.CLockLife?)
  }

  predicate WaitsForStore(pc: Pc) {
    || (pc.Registering? && pc.g.GLockStore?) || (pc.Unregistering? && pc.u.ULockStore?)
    || (pc.Refreshing? && pc.f.FLockStore?) || (pc.Cleaning? && pc.c.CLockStore?)
  }

  predicate WaitsForState(pc: Pc) {
    || (pc.Registering? && pc.g.GLockState?) || (pc.Unregistering? && (pc.u.ULockCount? || pc.u.ULockState?))
    || (pc.Refreshing? && pc.f.FLockState?) || (pc.Cleaning? && pc.c.CLockState?)
  }

  /** A writer that has announced itself and waits for the readers. */
  predicate WaitsForReaders(pc: Pc) {
    (pc.Registering? && pc.g.GDrain?) || (pc.Unregistering? && pc.u.UDrain?)
  }

  predicate WaitsForRefresh(pc: Pc) {
    pc.Cleaning? && pc.c.CWait?
  }

  predicate WaitsForAttempt(pc: Pc) {
    pc.Stopping? && pc.p.TWait?
  }

  /** Goroutine t waits for goroutine u. */
  predicate WaitsFor(g: Shared, pc: Pc, u: Tid) {
    || (WaitsForLifecycle(pc) && g.lifecycleLock == Some(u))
    || (WaitsForStore(pc) && g.storeLock == Some(u))
    || (WaitsForState(pc) && g.stateWriter == Some(u))
    || (WaitsForReaders(pc) && u in g.stateReaders)
    || (WaitsForRefresh(pc) && g.refresher == Some(u))
    || (WaitsForAttempt(pc) && u == pc.p.a.worker)
  }

  function Rank(pc: Pc): nat {
    if WaitsForAttempt(pc) then 5
    else if WaitsForLifecycle(pc) || WaitsForRefresh(pc) then 4
    else if WaitsForStore(pc) then 3
    else if WaitsForState(pc) then 2
    else if WaitsForReaders(pc) then 1
    else 0
  }

  lemma OwnersRankLower(g: Shared, u: Tid, pc: Pc)
    requires Local(g, u, pc)
    ensures g.lifecycleLock == Some(u) ==> Rank(pc) <= 3 && !Finished(pc) && !pc.Refreshing?
    ensures g.storeLock == Some(u) ==> Rank(pc) <= 2 && !Finished(pc) && !Idle(g, pc)
    ensures g.stateWriter == Some(u) ==> Rank(pc) <= 1 && !Finished(pc) && !Idle(g, pc)
    ensures u in g.stateReaders ==> Rank(pc) == 0 && !Finished(pc) && !Idle(g, pc)
    ensures g.refresher == Some(u) ==> Rank(pc) <= 3 && !Finished(pc)
  {
  }

  /** What a goroutine that cannot move waits for, and that it is taken. */
  lemma BlockedOn(g: Shared, n: Tid, t: Tid, pc: Pc)
    requires Good(g, t, n, t) && Local(g, t, pc)
    requires ThreadStep(g, n, pc, Proceed).Blocked? && !Finished(pc) && !Idle(g, pc)
    ensures WaitsForLifecycle(pc) || WaitsForStore(pc) || WaitsForState(pc) || WaitsForReaders(pc)
         || WaitsForRefresh(pc) || WaitsForAttempt(pc)
    ensures WaitsForLifecycle(pc) ==> g.lifecycleLock.Some?
    ensures WaitsForStore(pc) ==> g.storeLock.Some?
    ensures WaitsForState(pc) ==> g.stateWriter.Some?
    ensures WaitsForReaders(pc) ==> g.stateReaders != {}
    ensures WaitsForRefresh(pc) ==> g.refresher.Some?
    ensures WaitsForAttempt(pc) ==> g.stopAttempt == Some(pc.p.a) || g.signalling == Some(pc.p.a)
  {
    match pc
    case Starting(_) => return;
    case _ => return;
  }

  /** A goroutine that cannot move waits for one that ranks lower and has not finished. */
  lemma BlockedWaits(s: State, t: Tid) returns (u: Tid)
    requires Inv(s) && t < |s.threads| && !CanMove(s, t) && !Finished(s.threads[t]) && !Idle(s.g, s.threads[t])
    ensures u < |s.threads| && WaitsFor(s.g, s.threads[t], u)
    ensures Rank(s.threads[u]) < Rank(s.threads[t]) && !Finished(s.threads[u]) && !Idle(s.g, s.threads[u])
  {
    var g, pc := s.g, s.threads[t];
    assert Local(g, t, pc);
    StepProper(g, t, |s.threads|, pc, Proceed);
    BlockedOn(g, |s.threads|, t, pc);
    if WaitsForLifecycle(pc) {
      u := g.lifecycleLock.value;
    } else if WaitsForStore(pc) {
      u := g.storeLock.value;
    } else if WaitsForState(pc) {
      u := g.stateWriter.value;
    } else if WaitsForReaders(pc) {
      u :| u in g.stateReaders;
    } else if WaitsForRefresh(pc) {
      u := g.refresher.value;
    } else {
      u := pc.p.a.worker;
    }
    OwnersRankLower(g, u, s.threads[u]);
  }

  /** Each goroutine in the chain waits for the next, which ranks lower. */
  predicate Chain(s: State, chain: seq<Tid>) {
    && (forall i :: 0 <= i < |chain| ==> chain[i] < |s.threads|)
    && (forall i :: 0 <= i < |chain| - 1 ==>
          && WaitsFor(s.g, s.threads[chain[i]], chain[i + 1])
          && Rank(s.threads[chain[i + 1]]) < Rank(s.threads[chain[i]]))
  }

  lemma {:induction false} WaitEndsInAMove(s: State, t: Tid) returns (chain: seq<Tid>)
    requires Inv(s) && t < |s.threads| && !Finished(s.threads[t]) && !Idle(s.g, s.threads[t])
    ensures chain != [] && chain[0] == t && Chain(s, chain) && CanMove(s, chain[|chain| - 1])
    decreases Rank(s.threads[t])
  {
    if CanMove(s, t) {
      chain := [t];
    } else {
      var u := BlockedWaits(s, t);
      var rest := WaitEndsInAMove(s, u);
      chain := [t] + rest;
      forall i | 0 <= i < |chain| - 1
        ensures WaitsFor(s.g, s.threads[chain[i]], chain[i + 1])
        ensures Rank(s.threads[chain[i + 1]]) < Rank(s.threads[chain[i]])
      {
        if i > 0 { assert chain[i] == rest[i - 1] && chain[i + 1] == rest[i]; }
      }
    }
  }

  /** In every reachable state, following whoever an unfinished goroutine waits for leads to a
      goroutine that can move: no lock order or channel wait ever closes into a circle. */
  lemma NoDeadlock(s: State, t: Tid)
    requires Reachable(s) && t < |s.threads| && !Finished(s.threads[t]) && !Idle(s.g, s.threads[t])
    ensures exists chain: seq<Tid> ::
              chain != [] && chain[0] == t && Chain(s, chain) && CanMove(s, chain[|chain| - 1])
  {
    ReachableInv(s);
    var chain := WaitEndsInAMove(s, t);
  }
}
