/**
 A stop attempt that failed can be made good: from every state in which one is
 about to publish its failure, or has just done so, some schedule of the
 goroutines at hand and of one more Stop has that Stop return nil with no node
 of the plugin left in the store.
 */
module RedisRetry {
  import opened Wrappers
  import opened RedisRegistry
  import opened RedisInvariant
  import opened RedisTheorems
  import opened RedisLeftover

  /** Goroutine t runs an attempt that failed, at the point where the result is published. */
  predicate Fails(pc: Pc) {
    pc.Cleaning? && (pc.c == CPublish(Failed) || pc.c == CSignal(Failed))
  }

  /** Nobody is inside the store or the list of services. */
  predicate Unused(g: Shared) {
    g.storeLock.None? && g.stateWriter.None? && g.stateReaders == {}
  }

  /** The refresh goroutine, if there was one, has ended. */
  predicate RefreshOver(g: Shared) {
    g.done.Some? ==> g.done.value in g.closedChans
  }

  /** A stopped plugin that still has its handle and whose refresh goroutine, if any, has ended. */
  predicate Retriable(g: Shared) {
    && g.stopped && !g.stopComplete && g.kv.Some? && !g.dropped && RefreshOver(g)
    && (forall c :: c in g.closedChans ==> c < g.nextChan)
  }

  lemma NobodyInside(s: State, t: Tid, u: Tid)
    requires Inv(s) && t < |s.threads| && u < |s.threads| && Fails(s.threads[t])
    ensures s.g.storeLock != Some(u) && s.g.stateWriter != Some(u) && u !in s.g.stateReaders
  {
    assert Local(s.g, t, s.threads[t]) && Local(s.g, u, s.threads[u]);
  }

  lemma FailureIsRetriable(s: State, t: Tid)
    requires Inv(s) && t < |s.threads| && Fails(s.threads[t])
    ensures Unused(s.g) && Retriable(s.g) && s.g.lifecycleLock == Some(t)
    ensures s.threads[t].attempt !in s.g.closedChans && s.threads[t].attempt < s.g.nextChan
    ensures s.threads[t].c.CSignal? ==> s.g.stopAttempt.None?
    ensures s.threads[t].c.CPublish? ==> s.g.stopAttempt == Some(Attempt(s.threads[t].attempt, t))
  {
    assert Local(s.g, t, s.threads[t]);
    forall u: Tid | u < |s.threads|
      ensures s.g.storeLock != Some(u) && s.g.stateWriter != Some(u) && u !in s.g.stateReaders
    {
      NobodyInside(s, t, u);
    }
  }

  /** An attempt closes its channel and gives the lifecycle lock back. */
  lemma Signals(p: State -> bool, s: State, w: Tid, r: Result) returns (s': State)
    requires Closed(p) && p(s) && w < |s.threads| && s.g.lifecycleLock.Some?
    requires s.threads[w].Cleaning? && s.threads[w].c == CSignal(r) && s.threads[w].attempt !in s.g.closedChans
    ensures p(s') && s'.threads == s.threads[w := Exited]
    ensures s'.g == s.g.(signalling := None, lifecycleLock := None,
                         closedChans := s.g.closedChans + {s.threads[w].attempt})
  {
    var a, d := s.threads[w].attempt, s.threads[w].refreshDone;
    s' := Does(p, s, w, Proceed, Signal(a), Cleaning(a, d, CUnlockLife(r)));
    s' := Does(p, s', w, Proceed, DropLifecycle, Exited);
  }

  /** The failed attempt publishes its failure, if it has not done so ... */
  lemma Publishes(p: State -> bool, s: State, t: Tid) returns (s': State)
    requires Closed(p) && p(s) && t < |s.threads| && Fails(s.threads[t])
    ensures p(s') && s'.threads == s.threads[t := s.threads[t].(c := CSignal(Failed))]
    ensures var own := s.threads[t].c.CPublish? && s.g.stopAttempt == Some(Attempt(s.threads[t].attempt, t));
            s'.g == s.g.(signalling := s'.g.signalling, stopAttempt := if own then None else s.g.stopAttempt)
  {
    if s.threads[t].c.CSignal? { return s; }
    s' := Does(p, s, t, Proceed, Publish(s.threads[t].attempt, Failed), s.threads[t].(c := CSignal(Failed)));
  }

  /** ... and does so. */
  lemma Releases(p: State -> bool, s: State, t: Tid) returns (s': State)
    requires Closed(p) && p(s) && Inv(s) && t < |s.threads| && Fails(s.threads[t])
    ensures p(s') && |s'.threads| == |s.threads|
    ensures Unused(s'.g) && Retriable(s'.g) && s'.g.lifecycleLock.None? && s'.g.stopAttempt.None?
  {
    FailureIsRetriable(s, t);
    s' := Publishes(p, s, t);
    s' := Signals(p, s', t, Failed);
  }

  /** Another Stop gets to see that the plugin is stopped and not cleaned up ... */
  lemma Asks(p: State -> bool, s: State) returns (s': State)
    requires Closed(p) && p(s) && s.g.lifecycleLock.None? && s.g.stopped && !s.g.stopComplete
    ensures p(s') && s'.threads == s.threads + [Stopping(TJoin)]
    ensures s'.g == s.g.(stopRequested := true, lifecycleLock := Some(|s.threads|))
  {
    var n := |s.threads|;
    s' := Calls(p, s, OpStop);
    s' := Does(p, s', n, Proceed, RequestStop, Stopping(TTryLock));
    s' := Does(p, s', n, Proceed, TakeLifecycle, Stopping(TCheck));
    s' := Does(p, s', n, Proceed, Nothing, Stopping(TJoin));
  }

  /** ... finds no attempt to join and begins one. */
  lemma BeginsAnother(p: State -> bool, s: State) returns (s': State)
    requires Closed(p) && p(s)
    requires Unused(s.g) && Retriable(s.g) && s.g.lifecycleLock.None? && s.g.stopAttempt.None?
    ensures var a := Attempt(s.g.nextChan, |s.threads| + 1);
            && p(s') && s'.threads == s.threads + [Stopping(TWait(a)), Cleaning(a.done, s.g.done, CWait)]
            && s'.g == s.g.(stopRequested := true, stopAttempt := Some(a), nextChan := s.g.nextChan + 1)
  {
    var n, a := |s.threads|, Attempt(s.g.nextChan, |s.threads| + 1);
    s' := Asks(p, s);
    s' := Begins(p, s', n, NewAttempt, Stopping(TUnlock(a)), Cleaning(a.done, s.g.done, CWait));
    s' := Does(p, s', n, Proceed, DropLifecycle, Stopping(TWait(a)));
  }

  /** The attempt takes the store ... */
  lemma Enters(p: State -> bool, s: State, w: Tid) returns (s': State)
    requires Closed(p) && p(s) && w < |s.threads| && Unused(s.g) && RefreshOver(s.g)
    requires s.threads[w].Cleaning? && s.threads[w].c.CWait? && s.threads[w].refreshDone == s.g.done
    ensures p(s') && s'.g == s.g.(storeLock := Some(w)) && s'.threads == s.threads[w := s.threads[w].(c := CLockState)]
  {
    s' := Does(p, s, w, Proceed, Nothing, s.threads[w].(c := CLockStore));
    s' := Does(p, s', w, Proceed, TakeStore, s.threads[w].(c := CLockState));
  }

  /** What an attempt does with the list of services: without a handle there is nothing to delete. */
  function Listed(g: Shared): CleanPc {
    if g.kv.None? then CUnlockStore(Nil) else CExists(g.services, 0, false)
  }

  /** ... lists the services ... */
  lemma Lists(p: State -> bool, s: State, w: Tid) returns (s': State)
    requires Closed(p) && p(s) && w < |s.threads| && Unused(s.g) && RefreshOver(s.g)
    requires s.threads[w].Cleaning? && s.threads[w].c.CWait? && s.threads[w].refreshDone == s.g.done
    ensures p(s') && s'.g == s.g.(storeLock := Some(w))
    ensures s'.threads == s.threads[w := s.threads[w].(c := Listed(s.g))]
  {
    var a, d := s.threads[w].attempt, s.g.done;
    s' := Enters(p, s, w);
    s' := Does(p, s', w, Proceed, TakeReader, Cleaning(a, d, CSnapshot));
    s' := Does(p, s', w, Proceed, Nothing, Cleaning(a, d, CUnlockState(s.g.services)));
    s' := Does(p, s', w, Proceed, DropReader, Cleaning(a, d, Listed(s.g)));
    assert s'.g.stateReaders == {};
  }

  lemma DeletesOne(p: State -> bool, s: State, w: Tid, names: seq<string>, i: nat) returns (s': State)
    requires Closed(p) && p(s) && w < |s.threads| && s.g.kv.Some? && i < |names|
    requires s.threads[w].Cleaning? && s.threads[w].c == CDelete(names, i, false)
    ensures p(s') && s'.g == s.g.(nodes := s'.g.nodes)
    ensures s'.threads == s.threads[w := s.threads[w].(c := CExists(names, i + 1, false))]
  {
    s' := Does(p, s, w, Proceed, DeleteNode(names[i]), s.threads[w].(c := CExists(names, i + 1, false)));
  }

  /** ... deletes their nodes ... */
  lemma Deletes(p: State -> bool, s: State, w: Tid, names: seq<string>, i: nat) returns (s': State)
    requires Closed(p) && p(s) && w < |s.threads| && s.g.kv.Some? && i < |names|
    requires s.threads[w].Cleaning? && s.threads[w].c == CExists(names, i, false)
    ensures p(s') && s'.g == s.g.(nodes := s'.g.nodes)
    ensures s'.threads == s.threads[w := s.threads[w].(c := CExists(names, i + 1, false))]
  {
    var a, d := s.threads[w].attempt, s.threads[w].refreshDone;
    if names[i] !in s.g.nodes {
      s' := Does(p, s, w, Proceed, Nothing, Cleaning(a, d, CExists(names, i + 1, false)));
      return;
    }
    s' := Does(p, s, w, Proceed, Nothing, Cleaning(a, d, CDelete(names, i, false)));
    s' := DeletesOne(p, s', w, names, i);
  }

  /** ... one after the other ... */
  lemma {:induction false} Scans(p: State -> bool, s: State, w: Tid, names: seq<string>, i: nat) returns (s': State)
    requires Closed(p) && p(s) && w < |s.threads| && s.g.kv.Some? && i <= |names|
    requires s.threads[w].Cleaning? && s.threads[w].c == CExists(names, i, false)
    ensures p(s') && s'.g == s.g.(nodes := s'.g.nodes) && s'.threads == s.threads[w := s.threads[w].(c := CClose)]
    decreases |names| - i
  {
    if i == |names| {
      s' := Does(p, s, w, Proceed, Nothing, s.threads[w].(c := CClose));
    } else {
      s' := Deletes(p, s, w, names, i);
      s' := Scans(p, s', w, names, i + 1);
    }
  }

  /** ... closes the handle ... */
  lemma Closes(p: State -> bool, s: State, w: Tid) returns (s': State)
    requires Closed(p) && p(s) && w < |s.threads| && s.g.kv.Some?
    requires s.threads[w].Cleaning? && s.threads[w].c.CClose?
    ensures p(s') && s'.threads == s.threads[w := s.threads[w].(c := CUnlockStore(Nil))]
    ensures !s'.g.dropped && s'.g.lifecycleLock == s.g.lifecycleLock && s'.g.storeLock == s.g.storeLock
    ensures s'.g.closedChans == s.g.closedChans
  {
    s' := Does(p, s, w, Proceed, CloseKv(false), s.threads[w].(c := CUnlockStore(Nil)));
  }

  /** ... leaves its result ... */
  lemma Reports(p: State -> bool, s: State, w: Tid) returns (s': State)
    requires Closed(p) && p(s) && w < |s.threads| && s.g.storeLock == Some(w) && s.g.lifecycleLock.None?
    requires s.threads[w].Cleaning? && s.threads[w].c == CUnlockStore(Nil)
    ensures p(s') && s'.threads == s.threads[w := s.threads[w].(c := CPublish(Nil))]
    ensures s'.g == s.g.(storeLock := None, lifecycleLock := Some(w),
                         attemptErr := s.g.attemptErr[s.threads[w].attempt := Nil])
  {
    s' := Does(p, s, w, Proceed, Report(s.threads[w].attempt, Nil), s.threads[w].(c := CLockLife(Nil)));
    s' := Does(p, s', w, Proceed, TakeLifecycle, s.threads[w].(c := CPublish(Nil)));
  }

  /** ... and publishes it and closes its channel. */
  lemma Succeeds(p: State -> bool, s: State, w: Tid) returns (s': State)
    requires Closed(p) && p(s) && w < |s.threads| && s.g.storeLock == Some(w) && s.g.lifecycleLock.None?
    requires s.threads[w].Cleaning? && s.threads[w].c == CUnlockStore(Nil)
    requires s.threads[w].attempt !in s.g.closedChans
    ensures p(s') && s'.threads == s.threads[w := Exited]
    ensures var a := s.threads[w].attempt;
            && a in s'.g.closedChans && a in s'.g.attemptErr && s'.g.attemptErr[a].Nil?
            && s'.g.stopComplete && s'.g.dropped == s.g.dropped
  {
    s' := Reports(p, s, w);
    s' := Does(p, s', w, Proceed, Publish(s.threads[w].attempt, Nil), s.threads[w].(c := CSignal(Nil)));
    s' := Signals(p, s', w, Nil);
  }

  /** An attempt succeeds when every store call works. */
  lemma CleansUp(p: State -> bool, s: State, w: Tid) returns (s': State)
    requires Closed(p) && p(s) && w < |s.threads| && Unused(s.g) && RefreshOver(s.g) && s.g.lifecycleLock.None?
    requires s.threads[w].Cleaning? && s.threads[w].c.CWait? && s.threads[w].refreshDone == s.g.done
    requires s.threads[w].attempt !in s.g.closedChans
    ensures p(s') && s'.threads == s.threads[w := Exited]
    ensures var a := s.threads[w].attempt;
            && a in s'.g.closedChans && a in s'.g.attemptErr && s'.g.attemptErr[a].Nil?
            && s'.g.stopComplete && (s.g.kv.Some? ==> !s'.g.dropped)
  {
    s' := Lists(p, s, w);
    if s.g.kv.Some? {
      s' := Scans(p, s', w, s'.g.services, 0);
      s' := Closes(p, s', w);
    }
    s' := Succeeds(p, s', w);
  }

  lemma Retries(p: State -> bool, s: State, t: Tid) returns (s': State)
    requires Closed(p) && p(s) && Inv(s) && t < |s.threads| && Fails(s.threads[t])
    ensures p(s') && |s'.threads| == |s.threads| + 2 && s'.threads[|s.threads|] == Returned(OpStop, Nil, false)
    ensures s'.g.stopComplete && !s'.g.dropped
  {
    var n, w := |s.threads|, |s.threads| + 1;
    s' := Releases(p, s, t);
    s' := BeginsAnother(p, s');
    s' := CleansUp(p, s', w);
    s' := Does(p, s', n, Proceed, Nothing, Returned(OpStop, Nil, false));
  }

  /** Some schedule leads from s to s'. */
  ghost predicate LeadsTo(s: State, s': State) {
    exists moves :: RunAll(s, moves) == Some(s')
  }

  lemma LeadsOn(s: State, s': State, m: Move)
    requires LeadsTo(s, s') && Next(s', m).Some?
    ensures LeadsTo(s, Next(s', m).value)
  {
    var moves :| RunAll(s, moves) == Some(s');
    RunAppend(s, moves, m);
  }

  /** After a failed attempt the next Stop can return nil, with every node deleted and every
      handle closed. */
  lemma FailedStopCanBeRepeated(s: State, t: Tid)
    requires Reachable(s) && t < |s.threads| && Fails(s.threads[t])
    ensures exists s': State ::
              && LeadsTo(s, s') && |s'.threads| > |s.threads|
              && s'.threads[|s.threads|] == Returned(OpStop, Nil, false)
              && s'.g.nodes == map[] && s'.g.kv.None?
  {
    ReachableInv(s);
    var p: State -> bool := s' => LeadsTo(s, s');
    forall s', m | p(s') && Next(s', m).Some? ensures p(Next(s', m).value) {
      LeadsOn(s, s', m);
    }
    assert RunAll(s, []) == Some(s);
    var s' := Retries(p, s, t);
    var moves :| RunAll(s, moves) == Some(s');
    RunKeepsInvariant(s, moves);
  }
}
