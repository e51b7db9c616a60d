/**
 The corner in which Stop returns nil and a node stays behind: a Register has
 put its node, a later Start fails on the base path and closes the handle, and
 the cleanup finds no handle to delete with.
 */
module RedisLeftover {
  import opened Wrappers
  import opened RedisRegistry

  /** A set of states that no move leads out of. */
  ghost predicate Closed(p: State -> bool) {
    forall s, m :: p(s) && Next(s, m).Some? ==> p(Next(s, m).value)
  }

  lemma Calls(p: State -> bool, s: State, op: Op) returns (s': State)
    requires Closed(p) && p(s)
    ensures p(s') && s'.g == s.g && s'.threads == s.threads + [Entry(op)]
  {
    s' := Next(s, Call(op)).value;
  }

  /** Goroutine t steps with effect e and stands at pc' then. */
  lemma Does(p: State -> bool, s: State, t: Tid, c: Choice, e: Effect, pc': Pc) returns (s': State)
    requires Closed(p) && p(s)
    requires t < |s.threads| && ThreadStep(s.g, |s.threads|, s.threads[t], c) == Go(e, pc')
    ensures p(s') && s'.g == Apply(s.g, t, |s.threads|, e) && s'.threads == s.threads[t := pc']
  {
    s' := Next(s, Run(t, c)).value;
  }

  /** The shared state of a plugin that was given a store, has no refresh goroutine, and has
      service "a" recorded and its node in the store. */
  function Populated(): Shared {
    Init(Config(true, false), true).g.(
      dirs := {Root, Service("a")}, nodes := map["a" := "m"], services := ["a"], metas := map["a" := "m"])
  }

  lemma Puts(p: State -> bool) returns (s: State)
    requires Closed(p) && p(Init(Config(true, false), true))
    ensures p(s) && s.threads == [Registering("a", "m", GLockState)]
    ensures s.g == Init(Config(true, false), true).g.(
              dirs := {Root, Service("a")}, nodes := map["a" := "m"], unrecorded := Some((0, "a")),
              lifecycleLock := Some(0), storeLock := Some(0))
  {
    s := Calls(p, Init(Config(true, false), true), OpRegister("a", "m"));
    assert "a"[0] == 'a';
    s := Does(p, s, 0, Proceed, Nothing, Registering("a", "m", GLock));
    s := Does(p, s, 0, Proceed, TakeLifecycle, Registering("a", "m", GCheck));
    s := Does(p, s, 0, Proceed, Nothing, Registering("a", "m", GLockStore));
    s := Does(p, s, 0, Proceed, TakeStore, Registering("a", "m", GPutRoot));
    s := Does(p, s, 0, Proceed, MarkDir(Root), Registering("a", "m", GPutDir));
    s := Does(p, s, 0, Proceed, MarkDir(Service("a")), Registering("a", "m", GPutNode));
    s := Does(p, s, 0, Proceed, WriteNode("a", "m"), Registering("a", "m", GLockState));
  }

  lemma Registers(p: State -> bool) returns (s: State)
    requires Closed(p) && p(Init(Config(true, false), true))
    ensures p(s) && s.g == Populated() && |s.threads| == 1
  {
    s := Puts(p);
    s := Does(p, s, 0, Proceed, TakeWriter, Registering("a", "m", GDrain));
    s := Does(p, s, 0, Proceed, Nothing, Registering("a", "m", GRecord));
    s := Does(p, s, 0, Proceed, Record("a", "m"), Registering("a", "m", GUnlockState));
    s := Does(p, s, 0, Proceed, DropWriter, Registering("a", "m", GUnlockStore(Nil)));
    s := Does(p, s, 0, Proceed, DropStore, Registering("a", "m", GReturn(Nil)));
    s := Does(p, s, 0, Proceed, DropLifecycle, Returned(OpRegister("a", "m"), Nil, false));
  }

  /** A Start whose write of the base path fails closes the handle. */
  lemma StartFails(p: State -> bool) returns (s: State)
    requires Closed(p) && p(Init(Config(true, false), true))
    ensures p(s) && |s.threads| == 2
    ensures s.g == Populated().(kv := None, closedHandles := {0}, dropped := true,
                                done := Some(0), dying := Some(1), nextChan := 2, closedChans := {0})
  {
    s := Registers(p);
    s := Calls(p, s, OpStart);
    s := Does(p, s, 1, Proceed, Nothing, Starting(SLock));
    s := Does(p, s, 1, Proceed, TakeLifecycle, Starting(SCheck));
    s := Does(p, s, 1, Proceed, MakeChans, Starting(SPutRoot));
    s := Does(p, s, 1, StoreFails, Nothing, Starting(SDropHandle));
    s := Does(p, s, 1, Proceed, CloseKv(true), Starting(SAbort));
    s := Does(p, s, 1, Proceed, CloseDone(false), Starting(SReturn(Failed)));
    s := Does(p, s, 1, Proceed, DropLifecycle, Returned(OpStart, Failed, false));
  }

  lemma Begins(p: State -> bool, s: State, t: Tid, e: Effect, pc': Pc, child: Pc) returns (s': State)
    requires Closed(p) && p(s)
    requires t < |s.threads| && ThreadStep(s.g, |s.threads|, s.threads[t], Proceed) == Moved(e, pc', [child])
    ensures p(s') && s'.g == Apply(s.g, t, |s.threads|, e) && s'.threads == s.threads[t := pc'] + [child]
  {
    s' := Next(s, Run(t, Proceed)).value;
  }

  /** A Stop begins an attempt, which finds the refresh channel closed ... */
  lemma StopBegins(p: State -> bool) returns (s: State)
    requires Closed(p) && p(Init(Config(true, false), true))
    ensures p(s) && |s.threads| == 4
    ensures s.threads[2] == Stopping(TWait(Attempt(2, 3))) && s.threads[3] == Cleaning(2, Some(0), CWait)
    ensures s.g == Populated().(kv := None, closedHandles := {0}, dropped := true,
                                done := Some(0), dying := Some(1), nextChan := 3, closedChans := {0, 1},
                                stopRequested := true, stopped := true, stopAttempt := Some(Attempt(2, 3)))
  {
    s := StartFails(p);
    s := Calls(p, s, OpStop);
    s := Does(p, s, 2, Proceed, RequestStop, Stopping(TTryLock));
    s := Does(p, s, 2, Proceed, TakeLifecycle, Stopping(TCheck));
    s := Does(p, s, 2, Proceed, MarkStopped, Stopping(TJoin));
    s := Begins(p, s, 2, NewAttempt, Stopping(TUnlock(Attempt(2, 3))), Cleaning(2, Some(0), CWait));
    s := Does(p, s, 2, Proceed, DropLifecycle, Stopping(TWait(Attempt(2, 3))));
    assert s.g.closedChans == {0, 1};
  }

  /** ... and no handle, so that it ends without touching the store ... */
  lemma CleanupSkips(p: State -> bool) returns (s: State)
    requires Closed(p) && p(Init(Config(true, false), true))
    ensures p(s) && |s.threads| == 4
    ensures s.threads[2] == Stopping(TWait(Attempt(2, 3))) && s.threads[3] == Cleaning(2, Some(0), CLockLife(Nil))
    ensures s.g.lifecycleLock.None? && s.g.nodes == map["a" := "m"] && s.g.dropped
    ensures s.g.attemptErr == map[2 := Nil] && s.g.closedChans == {0, 1}
  {
    s := StopBegins(p);
    s := Does(p, s, 3, Proceed, Nothing, Cleaning(2, Some(0), CLockStore));
    s := Does(p, s, 3, Proceed, TakeStore, Cleaning(2, Some(0), CLockState));
    s := Does(p, s, 3, Proceed, TakeReader, Cleaning(2, Some(0), CSnapshot));
    s := Does(p, s, 3, Proceed, Nothing, Cleaning(2, Some(0), CUnlockState(["a"])));
    s := Does(p, s, 3, Proceed, DropReader, Cleaning(2, Some(0), CUnlockStore(Nil)));
    s := Does(p, s, 3, Proceed, Report(2, Nil), Cleaning(2, Some(0), CLockLife(Nil)));
  }

  /** ... publishes that it succeeded ... */
  lemma CleanupPublishes(p: State -> bool) returns (s: State)
    requires Closed(p) && p(Init(Config(true, false), true))
    ensures p(s) && |s.threads| == 4
    ensures s.threads[2] == Stopping(TWait(Attempt(2, 3))) && s.threads[3] == Cleaning(2, Some(0), CSignal(Nil))
    ensures s.g.nodes == map["a" := "m"] && s.g.dropped && s.g.attemptErr == map[2 := Nil] && s.g.closedChans == {0, 1}
  {
    s := CleanupSkips(p);
    s := Does(p, s, 3, Proceed, TakeLifecycle, Cleaning(2, Some(0), CPublish(Nil)));
    s := Does(p, s, 3, Proceed, Publish(2, Nil), Cleaning(2, Some(0), CSignal(Nil)));
  }

  /** ... and the Stop returns nil, the node still there. */
  lemma StopReturns(p: State -> bool) returns (s: State)
    requires Closed(p) && p(Init(Config(true, false), true))
    ensures p(s) && |s.threads| == 4 && s.threads[2] == Returned(OpStop, Nil, false)
    ensures s.g.nodes == map["a" := "m"] && s.g.dropped
  {
    s := CleanupPublishes(p);
    s := Does(p, s, 3, Proceed, Signal(2), Cleaning(2, Some(0), CUnlockLife(Nil)));
    s := Does(p, s, 2, Proceed, Nothing, Returned(OpStop, Nil, false));
  }

  lemma {:induction false} RunAppend(s: State, moves: seq<Move>, m: Move)
    requires RunAll(s, moves).Some?
    ensures RunAll(s, moves + [m]) == Next(RunAll(s, moves).value, m)
    decreases |moves|
  {
    if moves == [] {
      assert (moves + [m])[1..] == [];
    } else {
      assert (moves + [m])[1..] == moves[1..] + [m];
      RunAppend(Next(s, moves[0]).value, moves[1..], m);
    }
  }

  lemma NextReachable(s: State, m: Move)
    requires Reachable(s) && Next(s, m).Some?
    ensures Reachable(Next(s, m).value)
  {
    var cfg, connected, moves :| RunAll(Init(cfg, connected), moves) == Some(s);
    RunAppend(Init(cfg, connected), moves, m);
  }

  /** A Stop can return nil while a node this plugin put is still in the store. */
  lemma StopNilCanLeaveANode()
    ensures exists s: State, t: Tid :: Reachable(s) && t < |s.threads|
              && s.threads[t] == Returned(OpStop, Nil, false) && s.g.nodes == map["a" := "m"]
  {
    var p: State -> bool := s => Reachable(s);
    forall s, m | p(s) && Next(s, m).Some? ensures p(Next(s, m).value) {
      NextReachable(s, m);
    }
    assert RunAll(Init(Config(true, false), true), []) == Some(Init(Config(true, false), true));
    var s := StopReturns(p);
    assert s.threads[2] == Returned(OpStop, Nil, false);
  }
}
