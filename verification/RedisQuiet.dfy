/**
 Left to itself, the register plugin comes to rest: from every reachable state
 some schedule, in which no timer fires and every store call works, has all
 calls return and all stop attempts end.  `Weight` bounds the steps a goroutine
 still has to take.  A goroutine that has yet to list the services weighs as if
 all Registers under way had added theirs.
 */
module RedisQuiet {
  import opened Wrappers
  import opened RedisRegistry
  import opened RedisInvariant
  import opened RedisTheorems
  import opened RedisProgress
  import opened RedisLeftover
  import opened RedisRetry

  // ---------------------------------------------------------------- sums over goroutines

  ghost function Sum(f: Pc -> nat, threads: seq<Pc>): nat {
    if threads == [] then 0 else Sum(f, threads[..|threads| - 1]) + f(threads[|threads| - 1])
  }

  lemma {:induction false} SumUpdate(f: Pc -> nat, threads: seq<Pc>, t: Tid, pc: Pc)
    requires t < |threads|
    ensures Sum(f, threads[t := pc]) + f(threads[t]) == Sum(f, threads) + f(pc)
    decreases |threads|
  {
    var n := |threads| - 1;
    if t < n {
      SumUpdate(f, threads[..n], t, pc);
      assert threads[t := pc][..n] == threads[..n][t := pc];
    } else {
      assert threads[t := pc][..n] == threads[..n];
    }
  }

  lemma SumAppend(f: Pc -> nat, threads: seq<Pc>, pc: Pc)
    ensures Sum(f, threads + [pc]) == Sum(f, threads) + f(pc)
  {
    assert (threads + [pc])[..|threads|] == threads;
  }

  lemma {:induction false} SumGrows(f: Pc -> nat, f': Pc -> nat, threads: seq<Pc>)
    requires forall pc :: f(pc) <= f'(pc)
    ensures Sum(f, threads) <= Sum(f', threads)
    decreases |threads|
  {
    if threads != [] { SumGrows(f, f', threads[..|threads| - 1]); }
  }

  // ---------------------------------------------------------------- what is left to do

  function Rest(names: seq<string>, i: nat): nat {
    if i < |names| then 2 * (|names| - i) else 0
  }

  function StartWeight(s: StartPc): nat {
    match s
    case SBegin => 9
    case SLock => 8
    case SCheck => 7
    case SConnect => 6
    case SPutRoot => 5
    case SDropHandle => 3
    case SAbort => 2
    case SLaunch => 4
    case SReturn(_) => 1
  }

  function RegisterWeight(r: RegisterPc): nat {
    match r
    case GBegin => 14
    case GLock => 13
    case GCheck => 12
    case GConnect => 11
    case GLockStore => 10
    case GPutRoot => 9
    case GPutDir => 8
    case GPutNode => 7
    case GLockState => 6
    case GDrain => 5
    case GRecord => 4
    case GUnlockState => 3
    case GUnlockStore(_) => 2
    case GReturn(_) => 1
  }

  function UnregisterWeight(u: UnregisterPc): nat {
    match u
    case UBegin => 17
    case ULock => 16
    case UCheck => 15
    case ULockCount => 14
    case UCount => 13
    case UUnlockCount(_) => 12
    case UConnect => 11
    case ULockStore => 10
    case UPutRoot => 9
    case UPutDir => 8
    case UDelete => 7
    case ULockState => 6
    case UDrain => 5
    case UForget => 4
    case UUnlockState => 3
    case UUnlockStore(_, _) => 2
    case UReturn(_, _) => 1
  }

  /** bound is at least the number of services there will be. */
  function StopWeight(p: StopPc, bound: nat): nat {
    match p
    case TBegin => 2 * bound + 18
    case TTryLock => 2 * bound + 17
    case TCheck => 2 * bound + 16
    case TJoin => 2 * bound + 15
    case TUnlock(_) => 2
    case TWait(_) => 1
    case TReturnNil => 1
  }

  function RefreshWeight(f: RefreshPc, bound: nat): nat {
    match f
    case FSelect => 2
    case FLockStore => 2 * bound + 7
    case FLockState => 2 * bound + 6
    case FSnapshot => 2 * bound + 5
    case FUnlockState(names, _) => 2 * |names| + 4
    case FGet(names, _, i) => Rest(names, i) + 3
    case FPut(names, _, i, _) => Rest(names, i) + 2
    case FExit => 1
  }

  function CleanWeight(k: CleanPc, bound: nat): nat {
    match k
    case CWait => 2 * bound + 12
    case CLockStore => 2 * bound + 11
    case CLockState => 2 * bound + 10
    case CSnapshot => 2 * bound + 9
    case CUnlockState(names) => 2 * |names| + 8
    case CExists(names, i, _) => Rest(names, i) + 7
    case CDelete(names, i, _) => Rest(names, i) + 6
    case CClose => 6
    case CUnlockStore(_) => 5
    case CLockLife(_) => 4
    case CPublish(_) => 3
    case CSignal(_) => 2
    case CUnlockLife(_) => 1
  }

  function Weight(pc: Pc, bound: nat): nat {
    match pc
    case Starting(s) => StartWeight(s)
    case Registering(_, _, r) => RegisterWeight(r)
    case Unregistering(_, u) => UnregisterWeight(u)
    case Stopping(p) => StopWeight(p, bound)
    case Refreshing(_, _, _, f) => RefreshWeight(f, bound)
    case Cleaning(_, _, k) => CleanWeight(k, bound)
    case Returned(_, _, _) => 0
    case Exited => 0
  }

  /** A Register that may still add its service. */
  function Adding(pc: Pc): nat {
    if pc.Registering? && !pc.g.GUnlockState? && !pc.g.GUnlockStore? && !pc.g.GReturn? then 1 else 0
  }

  ghost function Bound(s: State): nat {
    |s.g.services| + Sum(Adding, s.threads)
  }

  ghost function Weigh(bound: nat): Pc -> nat {
    (pc: Pc) => Weight(pc, bound)
  }

  ghost function Load(s: State): nat {
    Sum(Weigh(Bound(s)), s.threads)
  }

  // ---------------------------------------------------------------- every step makes it less

  function Spawned(spawned: seq<Pc>, bound: nat): nat {
    if spawned == [] then 0 else Weight(spawned[0], bound)
  }

  ghost predicate Lighter(o: Outcome, pc: Pc, bound: nat) {
    o.Moved? ==> |o.spawned| <= 1 && Weight(o.pc, bound) + Spawned(o.spawned, bound) < Weight(pc, bound)
  }

  lemma StartLighter(g: Shared, s: StartPc, bound: nat)
    ensures Lighter(StartStep(g, s, Proceed), Starting(s), bound)
  {
  }

  lemma RegisterLighter(g: Shared, name: string, meta: string, r: RegisterPc, bound: nat)
    ensures Lighter(RegisterStep(g, name, meta, r, Proceed), Registering(name, meta, r), bound)
  {
  }

  lemma UnregisterLighter(g: Shared, name: string, u: UnregisterPc, bound: nat)
    ensures Lighter(UnregisterStep(g, name, u, Proceed), Unregistering(name, u), bound)
  {
  }

  lemma StopLighter(g: Shared, n: Tid, p: StopPc, bound: nat)
    ensures Lighter(StopStep(g, n, p, Proceed), Stopping(p), bound)
  {
  }

  lemma RefreshLighter(g: Shared, kv: Handle, dying: Chan, done: Chan, f: RefreshPc, bound: nat)
    requires |g.services| <= bound
    ensures Lighter(RefreshStep(g, kv, dying, done, f, Proceed), Refreshing(kv, dying, done, f), bound)
  {
  }

  lemma CleanLighter(g: Shared, a: Chan, refreshDone: Option<Chan>, k: CleanPc, bound: nat)
    requires |g.services| <= bound
    ensures Lighter(CleanStep(g, a, refreshDone, k, Proceed), Cleaning(a, refreshDone, k), bound)
  {
  }

  lemma StepLighter(g: Shared, n: Tid, pc: Pc, bound: nat)
    requires |g.services| <= bound
    ensures Lighter(ThreadStep(g, n, pc, Proceed), pc, bound)
  {
    match pc
    case Starting(s) => StartLighter(g, s, bound);
    case Registering(name, meta, r) => RegisterLighter(g, name, meta, r, bound);
    case Unregistering(name, u) => UnregisterLighter(g, name, u, bound);
    case Stopping(p) => StopLighter(g, n, p, bound);
    case Refreshing(kv, dying, done, f) => RefreshLighter(g, kv, dying, done, f, bound);
    case Cleaning(a, refreshDone, k) => CleanLighter(g, a, refreshDone, k, bound);
    case Returned(_, _, _) =>
    case Exited =>
  }

  lemma {:induction false} WithoutShorter(names: seq<string>, name: string)
    ensures |Without(names, name)| <= |names|
    decreases |names|
  {
    if names != [] { WithoutShorter(names[1..], name); }
  }

  /** The services after an effect. */
  lemma ServicesAfter(g: Shared, t: Tid, n: Tid, e: Effect)
    ensures |Apply(g, t, n, e).services| <= |g.services| + if e.Record? then 1 else 0
  {
    match e
    case Forget(name) => WithoutShorter(g.services, name); return;
    case _ => return;
  }

  lemma AddingAfter(g: Shared, n: Tid, pc: Pc)
    ensures var o := ThreadStep(g, n, pc, Proceed);
            o.Moved? ==>
              && Adding(o.pc) + (if o.e.Record? then 1 else 0) <= Adding(pc)
              && (o.spawned != [] ==> Adding(o.spawned[0]) == 0)
  {
  }

  lemma BoundShrinks(s: State, t: Tid)
    requires t < |s.threads| && CanMove(s, t)
    ensures Bound(Next(s, Run(t, Proceed)).value) <= Bound(s)
  {
    var o := ThreadStep(s.g, |s.threads|, s.threads[t], Proceed);
    ServicesAfter(s.g, t, |s.threads|, o.e);
    AddingAfter(s.g, |s.threads|, s.threads[t]);
    StepLighter(s.g, |s.threads|, s.threads[t], |s.g.services|);
    SumUpdate(Adding, s.threads, t, o.pc);
    if o.spawned != [] {
      assert o.spawned == [o.spawned[0]];
      SumAppend(Adding, s.threads[t := o.pc], o.spawned[0]);
    } else {
      assert s.threads[t := o.pc] + o.spawned == s.threads[t := o.pc];
    }
  }

  lemma WeightGrows(pc: Pc, bound: nat, bound': nat)
    requires bound <= bound'
    ensures Weight(pc, bound) <= Weight(pc, bound')
  {
  }

  lemma LoadFalls(s: State, t: Tid)
    requires t < |s.threads| && CanMove(s, t)
    ensures Load(Next(s, Run(t, Proceed)).value) < Load(s)
  {
    var b, s' := Bound(s), Next(s, Run(t, Proceed)).value;
    var o := ThreadStep(s.g, |s.threads|, s.threads[t], Proceed);
    BoundShrinks(s, t);
    StepLighter(s.g, |s.threads|, s.threads[t], b);
    SumUpdate(Weigh(b), s.threads, t, o.pc);
    if o.spawned != [] {
      assert o.spawned == [o.spawned[0]];
      SumAppend(Weigh(b), s.threads[t := o.pc], o.spawned[0]);
    } else {
      assert s.threads[t := o.pc] + o.spawned == s.threads[t := o.pc];
    }
    forall pc ensures Weigh(Bound(s'))(pc) <= Weigh(b)(pc) { WeightGrows(pc, Bound(s'), b); }
    SumGrows(Weigh(Bound(s')), Weigh(b), s'.threads);
  }

  // ---------------------------------------------------------------- coming to rest

  /** Every call has returned, every attempt has ended, and the refresh goroutine waits for its tick. */
  predicate Quiet(s: State) {
    forall t :: 0 <= t < |s.threads| ==> Finished(s.threads[t]) || Idle(s.g, s.threads[t])
  }

  /** Only steps of goroutines, in which no timer fires and every store call works. */
  predicate Undisturbed(moves: seq<Move>) {
    forall i :: 0 <= i < |moves| ==> moves[i].Run? && moves[i].c.Proceed?
  }

  /** Every undisturbed schedule ends: each of its steps uses up some of the load. */
  lemma {:induction false} RunsOut(s: State, moves: seq<Move>)
    requires Undisturbed(moves) && RunAll(s, moves).Some?
    ensures |moves| + Load(RunAll(s, moves).value) <= Load(s)
    decreases |moves|
  {
    if moves != [] {
      LoadFalls(s, moves[0].t);
      RunsOut(Next(s, moves[0]).value, moves[1..]);
    }
  }

  /** It ends exactly when the plugin is at rest. */
  lemma RestsIff(s: State)
    requires Inv(s)
    ensures Quiet(s) <==> forall t: Tid :: t < |s.threads| ==> !CanMove(s, t)
  {
    if t: Tid :| t < |s.threads| && !Finished(s.threads[t]) && !Idle(s.g, s.threads[t]) {
      var chain := WaitEndsInAMove(s, t);
      assert CanMove(s, chain[|chain| - 1]);
    }
  }

  /** From every reachable state, every undisturbed schedule takes at most a number of steps that the
      state alone determines; and where it cannot go on, every call has returned, every stop attempt has
      ended, and the refresh goroutine, if there is one, waits for its tick. */
  lemma EveryRunRests(s: State, moves: seq<Move>)
    requires Reachable(s) && Undisturbed(moves) && RunAll(s, moves).Some?
    ensures |moves| <= Load(s)
    ensures var s' := RunAll(s, moves).value;
            (forall t: Tid :: t < |s'.threads| ==> !CanMove(s', t)) <==> Quiet(s')
  {
    ReachableInv(s);
    RunKeepsInvariant(s, moves);
    RunsOut(s, moves);
    RestsIff(RunAll(s, moves).value);
  }

  /** So one of them comes to rest. */
  lemma {:induction false} ComesToRest(s: State) returns (moves: seq<Move>)
    requires Inv(s)
    ensures Undisturbed(moves) && RunAll(s, moves).Some?
    ensures var s' := RunAll(s, moves).value; Inv(s') && Quiet(s') && |s.threads| <= |s'.threads|
    decreases Load(s)
  {
    RestsIff(s);
    if t: Tid :| t < |s.threads| && CanMove(s, t) {
      NextKeepsInv(s, Run(t, Proceed));
      LoadFalls(s, t);
      var rest := ComesToRest(Next(s, Run(t, Proceed)).value);
      moves := [Run(t, Proceed)] + rest;
      assert moves[1..] == rest;
    } else {
      moves := [];
    }
  }

  // ---------------------------------------------------------------- a Stop from there

  /** Nobody holds a lock or runs an attempt. */
  predicate AtRest(g: Shared) {
    && g.lifecycleLock.None? && Unused(g) && g.stopAttempt.None? && !g.doneOwed
    && (g.stopComplete ==> g.stopped) && (g.kv.Some? ==> !g.dropped)
    && (forall c :: c in g.closedChans ==> c < g.nextChan)
    && (g.dying.Some? ==> g.dying.value < g.nextChan && (g.dying.value in g.closedChans <==> g.stopped))
  }

  lemma HoldsNothing(s: State, t: Tid)
    requires Inv(s) && Quiet(s) && t < |s.threads|
    ensures s.g.lifecycleLock != Some(t) && s.g.storeLock != Some(t) && s.g.stateWriter != Some(t)
    ensures t !in s.g.stateReaders && (s.g.stopAttempt.Some? ==> s.g.stopAttempt.value.worker != t)
  {
    assert Local(s.g, t, s.threads[t]);
  }

  lemma QuietIsAtRest(s: State)
    requires Inv(s) && Quiet(s)
    ensures AtRest(s.g)
  {
    forall t: Tid | t < |s.threads|
      ensures s.g.lifecycleLock != Some(t) && s.g.storeLock != Some(t) && s.g.stateWriter != Some(t)
      ensures t !in s.g.stateReaders && (s.g.stopAttempt.Some? ==> s.g.stopAttempt.value.worker != t)
    {
      HoldsNothing(s, t);
    }
    if s.g.stopAttempt.Some? { HoldsNothing(s, s.g.stopAttempt.value.worker); }
  }

  /** A new Stop gets as far as looking at the plugin. */
  lemma Looks(p: State -> bool, s: State) returns (s': State)
    requires Closed(p) && p(s) && s.g.lifecycleLock.None?
    ensures p(s') && s'.threads == s.threads + [Stopping(TCheck)]
    ensures s'.g == s.g.(stopRequested := true, lifecycleLock := Some(|s.threads|))
  {
    var n := |s.threads|;
    s' := Calls(p, s, OpStop);
    s' := Does(p, s', n, Proceed, RequestStop, Stopping(TTryLock));
    s' := Does(p, s', n, Proceed, TakeLifecycle, Stopping(TCheck));
  }

  /** It marks the plugin stopped, if nobody has ... */
  lemma Marks(p: State -> bool, s: State) returns (s': State)
    requires Closed(p) && p(s) && AtRest(s.g) && !s.g.stopComplete
    ensures p(s') && s'.threads == s.threads + [Stopping(TJoin)] && s'.g.stopped
    ensures AtRest(s'.g.(lifecycleLock := None)) && s'.g.lifecycleLock == Some(|s.threads|)
    ensures !s'.g.stopComplete && s'.g.nextChan == s.g.nextChan
    ensures s'.g.done == s.g.done && s'.g.refresher == s.g.refresher
  {
    s' := Looks(p, s);
    var e := if s.g.stopped then Nothing else MarkStopped;
    s' := Does(p, s', |s.threads|, Proceed, e, Stopping(TJoin));
  }

  /** A new Stop has begun an attempt and waits for it. */
  predicate Attempted(s: State, s': State) {
    var a := Attempt(s.g.nextChan, |s.threads| + 1);
    && s'.threads == s.threads + [Stopping(TWait(a)), Cleaning(a.done, s.g.done, CWait)]
    && AtRest(s'.g.(stopAttempt := None)) && s'.g.stopped && !s'.g.stopComplete
    && s'.g.done == s.g.done && s'.g.refresher == s.g.refresher && a.done !in s'.g.closedChans
    && (s.g.done.Some? ==> s.g.done.value < s.g.nextChan)
  }

  /** ... and begins an attempt. */
  lemma Attempts(p: State -> bool, s: State) returns (s': State)
    requires Closed(p) && p(s) && AtRest(s.g) && !s.g.stopComplete
    requires s.g.done.Some? ==> s.g.done.value < s.g.nextChan
    ensures p(s') && Attempted(s, s')
  {
    var n, a := |s.threads|, Attempt(s.g.nextChan, |s.threads| + 1);
    s' := Marks(p, s);
    s' := Begins(p, s', n, NewAttempt, Stopping(TUnlock(a)), Cleaning(a.done, s.g.done, CWait));
    s' := Does(p, s', n, Proceed, DropLifecycle, Stopping(TWait(a)));
  }

  /** The refresh goroutine sees that the plugin is stopped ... */
  lemma RefreshExits(p: State -> bool, s: State, r: Tid) returns (s': State)
    requires Closed(p) && p(s) && r < |s.threads| && s.threads[r].Refreshing? && s.threads[r].f.FSelect?
    requires s.threads[r].dying in s.g.closedChans && s.threads[r].done !in s.g.closedChans
    ensures p(s') && s'.threads == s.threads[r := Exited]
    ensures s'.g == s.g.(refresher := None, closedChans := s.g.closedChans + {s.threads[r].done})
  {
    s' := Does(p, s, r, Proceed, Nothing, s.threads[r].(f := FExit));
    s' := Does(p, s', r, Proceed, EndRefresh(s.threads[r].done), Exited);
  }

  /** ... and ends, if there is one. */
  lemma RefreshEnds(p: State -> bool, s: State) returns (s': State)
    requires Closed(p) && p(s) && Inv(s) && s.g.stopped
    requires s.g.refresher.Some? ==>
               s.threads[s.g.refresher.value].Refreshing? && s.threads[s.g.refresher.value].f.FSelect?
    ensures p(s') && |s'.threads| == |s.threads|
    ensures forall t :: 0 <= t < |s.threads| && s.g.refresher != Some(t) ==> s'.threads[t] == s.threads[t]
    ensures s'.g == s.g.(refresher := None, closedChans := s'.g.closedChans) && s.g.closedChans <= s'.g.closedChans
    ensures forall c :: c in s'.g.closedChans ==> c in s.g.closedChans || s.g.done == Some(c)
    ensures s.g.done.Some? && !s.g.doneOwed ==> s.g.done.value in s'.g.closedChans
  {
    if s.g.refresher.None? { return s; }
    var r := s.g.refresher.value;
    assert Local(s.g, r, s.threads[r]);
    s' := RefreshExits(p, s, r);
  }

  lemma RefresherIdles(s: State)
    requires Inv(s) && Quiet(s) && s.g.refresher.Some?
    ensures var r := s.g.refresher.value; r < |s.threads| && s.threads[r].Refreshing? && s.threads[r].f.FSelect?
  {
    assert Local(s.g, s.g.refresher.value, s.threads[s.g.refresher.value]);
  }

  /** After a completed stop another one returns at once. */
  lemma StopsAgain(p: State -> bool, s: State) returns (s': State)
    requires Closed(p) && p(s) && s.g.lifecycleLock.None? && s.g.stopComplete
    ensures p(s') && s'.threads == s.threads + [Returned(OpStop, Nil, false)]
  {
    var n := |s.threads|;
    s' := Looks(p, s);
    s' := Does(p, s', n, Proceed, Nothing, Stopping(TReturnNil));
    s' := Does(p, s', n, Proceed, DropLifecycle, Returned(OpStop, Nil, false));
  }

  /** The attempt of a Stop that waits for it as goroutine n succeeds. */
  lemma Finishes(p: State -> bool, s: State, n: Tid) returns (s': State)
    requires Closed(p) && p(s) && Inv(s) && n + 1 < |s.threads| && s.g.stopped && !s.g.doneOwed
    requires AtRest(s.g.(stopAttempt := None))
    requires s.g.refresher.Some? ==>
               s.threads[s.g.refresher.value].Refreshing? && s.threads[s.g.refresher.value].f.FSelect?
    requires s.threads[n].Stopping? && s.threads[n].p.TWait?
    requires s.threads[n + 1] == Cleaning(s.threads[n].p.a.done, s.g.done, CWait)
    requires s.threads[n].p.a.done !in s.g.closedChans && s.g.done != Some(s.threads[n].p.a.done)
    ensures p(s') && |s'.threads| == |s.threads| && s'.threads[n] == Returned(OpStop, Nil, false)
  {
    s' := RefreshEnds(p, s);
    s' := CleansUp(p, s', n + 1);
    s' := Does(p, s', n, Proceed, Nothing, Returned(OpStop, Nil, false));
  }

  /** From rest a Stop returns nil. */
  lemma StopsFromRest(p: State -> bool, s: State, s1: State) returns (s': State)
    requires Closed(p) && p(s) && Inv(s) && Quiet(s) && !s.g.stopComplete && p(s1) && Inv(s1)
    requires Attempted(s, s1)
    ensures p(s') && |s'.threads| > |s.threads| && s'.threads[|s.threads|] == Returned(OpStop, Nil, false)
  {
    if s.g.refresher.Some? { RefresherIdles(s); }
    s' := Finishes(p, s1, |s.threads|);
  }

  /** The states that a schedule reaches from s, which keep the invariant, lead to no others. */
  lemma LedToIsClosed(s: State, p: State -> bool)
    requires Inv(s) && forall x :: p(x) <==> LeadsTo(s, x) && Inv(x)
    ensures Closed(p) && p(s)
  {
    forall x, m | p(x) && Next(x, m).Some? ensures p(Next(x, m).value) {
      LeadsOn(s, x, m);
      NextKeepsInv(x, m);
    }
    assert RunAll(s, []) == Some(s);
  }

  lemma NewStopReturnsNil(s: State, s1: State) returns (s': State)
    requires Inv(s) && LeadsTo(s, s1) && Inv(s1) && Quiet(s1)
    ensures LeadsTo(s, s') && Inv(s')
    ensures |s'.threads| > |s1.threads| && s'.threads[|s1.threads|] == Returned(OpStop, Nil, false)
  {
    var p: State -> bool := x => LeadsTo(s, x) && Inv(x);
    LedToIsClosed(s, p);
    QuietIsAtRest(s1);
    if s1.g.stopComplete {
      s' := StopsAgain(p, s1);
    } else {
      s' := Attempts(p, s1);
      s' := StopsFromRest(p, s1, s');
    }
  }

  /** From every reachable state some schedule has a Stop called from there on return nil; unless a
      failed Start had dropped the handle, no node is left then. */
  lemma StopCanAlwaysSucceed(s: State)
    requires Reachable(s)
    ensures exists s': State, t: Tid ::
              && LeadsTo(s, s') && |s.threads| <= t < |s'.threads| && s'.threads[t] == Returned(OpStop, Nil, false)
              && (!s'.g.dropped ==> s'.g.nodes == map[] && s'.g.kv.None?)
  {
    ReachableInv(s);
    var moves := ComesToRest(s);
    var s1 := RunAll(s, moves).value;
    assert LeadsTo(s, s1);
    var s' := NewStopReturnsNil(s, s1);
    assert Local(s'.g, |s1.threads|, s'.threads[|s1.threads|]);
  }
}
