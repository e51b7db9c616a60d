/** What the register plugin guarantees over every schedule, from the invariant. */
module RedisTheorems {
  import opened Wrappers
  import opened RedisRegistry
  import opened RedisInvariant

  lemma {:induction false} RunKeepsInvariant(s: State, moves: seq<Move>)
    requires Inv(s) && RunAll(s, moves).Some?
    ensures Inv(RunAll(s, moves).value)
    decreases |moves|
  {
    if moves != [] {
      NextKeepsInv(s, moves[0]);
      RunKeepsInvariant(Next(s, moves[0]).value, moves[1..]);
    }
  }

  lemma ReachableInv(s: State)
    requires Reachable(s)
    ensures Inv(s)
  {
    var cfg, connected, moves :| RunAll(Init(cfg, connected), moves) == Some(s);
    assert Inv(Init(cfg, connected));
    RunKeepsInvariant(Init(cfg, connected), moves);
  }

  // ---------------------------------------------------------------- safety of single steps

  /** No reachable step panics: no channel is closed twice or while nil, no nil store is called,
      no free lock is unlocked and no slice gets a negative capacity. */
  lemma NoStepPanics(s: State, t: Tid, c: Choice)
    requires Reachable(s) && t < |s.threads|
    ensures !ThreadStep(s.g, |s.threads|, s.threads[t], c).Panics?
  {
    ReachableInv(s);
    StepProper(s.g, t, |s.threads|, s.threads[t], c);
  }

  /** A store handle is called, and closed, only while it is open. */
  lemma HandlesUsedWhileOpen(s: State, t: Tid)
    requires Reachable(s) && t < |s.threads| && Uses(s.g, s.threads[t]).Some?
    ensures Uses(s.g, s.threads[t]) == s.g.kv
    ensures s.g.kv.value !in s.g.closedHandles && s.g.kv.value < s.g.nextHandle
  {
    ReachableInv(s);
    assert Local(s.g, t, s.threads[t]);
  }

  /** It never leaks: at all times the handles opened so far are closed, but for the one the plugin
      holds, which is open. */
  lemma OpenHandleIsHeld(s: State, h: Handle)
    requires Reachable(s)
    ensures h < s.g.nextHandle && h !in s.g.closedHandles <==> s.g.kv == Some(h)
  {
    ReachableInv(s);
  }

  /** At most one cleanup attempt is in flight, and once it is past its wait the refresh goroutine
      has ended. */
  lemma OneCleanupAfterRefresh(s: State, t: Tid, u: Tid)
    requires Reachable(s) && t < |s.threads| && u < |s.threads| && s.threads[t].Cleaning?
    ensures s.threads[u].Cleaning? ==> t == u
    ensures !s.threads[t].c.CWait? ==> !s.threads[u].Refreshing?
  {
    ReachableInv(s);
    assert Local(s.g, t, s.threads[t]) && Local(s.g, u, s.threads[u]);
  }

  /** A failed attempt leaves the handle open ... */
  lemma FailedAttemptKeepsHandle(s: State, t: Tid)
    requires Reachable(s) && t < |s.threads|
    requires s.threads[t].Cleaning? && s.threads[t].c == CPublish(Failed)
    ensures s.g.kv.Some? && s.g.kv.value !in s.g.closedHandles && s.g.stopped && !s.g.stopComplete
    ensures s.g.stopAttempt == Some(Attempt(s.threads[t].attempt, t))
  {
    ReachableInv(s);
    assert Local(s.g, t, s.threads[t]);
  }

  /** ... and, its failure published, the next Stop to get there begins a new attempt with it. */
  lemma FailedAttemptCanBeRetried(s: State, t: Tid, n: Tid, c: Choice)
    requires Reachable(s) && t < |s.threads|
    requires s.threads[t].Cleaning? && s.threads[t].c == CPublish(Failed)
    ensures var g := Apply(s.g, t, |s.threads|, Publish(s.threads[t].attempt, Failed));
            && CleanStep(s.g, s.threads[t].attempt, s.threads[t].refreshDone, s.threads[t].c, c).e
               == Publish(s.threads[t].attempt, Failed)
            && g.kv == s.g.kv && g.stopped && !g.stopComplete
            && StopStep(g, n, TJoin, c).Moved? && StopStep(g, n, TJoin, c).e.NewAttempt?
  {
    FailedAttemptKeepsHandle(s, t);
  }

  // ---------------------------------------------------------------- steps seen as effects

  /** A step is one allowed effect on the shared state. */
  lemma StepEffect(s: State, t: Tid, c: Choice) returns (e: Effect)
    requires Inv(s) && t < |s.threads| && Next(s, Run(t, c)).Some?
    ensures e == ThreadStep(s.g, |s.threads|, s.threads[t], c).e
    ensures Allowed(s.g, t, e)
    ensures Next(s, Run(t, c)).value.g == Apply(s.g, t, |s.threads|, e)
  {
    e := ThreadStep(s.g, |s.threads|, s.threads[t], c).e;
    StepProper(s.g, t, |s.threads|, s.threads[t], c);
  }

  /** What no effect changes once the plugin is stopped, and once its stop is complete. */
  lemma EffectWhenStopped(g: Shared, t: Tid, n: Tid, e: Effect)
    requires Global(g) && Allowed(g, t, e) && g.stopped
    ensures var g' := Apply(g, t, n, e);
            && g'.stopped && g'.services == g.services && g'.metas == g.metas
            && g'.dropped == g.dropped && g'.nextHandle == g.nextHandle
            && (g.dropped ==> g'.nodes == g.nodes)
            && (g.stopComplete ==> g'.stopComplete && g'.nodes == g.nodes && g'.kv == g.kv)
  {
  }

  /** No moves in the schedule are expiries. */
  predicate NoExpiry(moves: seq<Move>) {
    forall i :: 0 <= i < |moves| ==> !moves[i].Expire?
  }

  /** What stays of a stopped plugin; quiet if no node expires meanwhile. */
  ghost predicate Frozen(g: Shared, g': Shared, quiet: bool) {
    && g'.stopped && g'.services == g.services && g'.metas == g.metas
    && g'.dropped == g.dropped && g'.nextHandle == g.nextHandle
    && (g.dropped && quiet ==> g'.nodes == g.nodes)
    && (g.stopComplete ==> g'.stopComplete && g'.nodes.Keys <= g.nodes.Keys && g'.kv == g.kv)
  }

  lemma MoveWhenStopped(s: State, m: Move)
    requires Inv(s) && s.g.stopped && Next(s, m).Some?
    ensures Frozen(s.g, Next(s, m).value.g, !m.Expire?)
  {
    if m.Run? {
      var e := StepEffect(s, m.t, m.c);
      EffectWhenStopped(s.g, m.t, |s.threads|, e);
    }
  }

  lemma {:induction false} RunWhenStopped(s: State, moves: seq<Move>)
    requires Inv(s) && s.g.stopped && RunAll(s, moves).Some?
    ensures Frozen(s.g, RunAll(s, moves).value.g, NoExpiry(moves))
    decreases |moves|
  {
    if moves != [] {
      NextKeepsInv(s, moves[0]);
      MoveWhenStopped(s, moves[0]);
      RunWhenStopped(Next(s, moves[0]).value, moves[1..]);
      assert NoExpiry(moves) ==> !moves[0].Expire? && NoExpiry(moves[1..]);
    }
  }

  // ---------------------------------------------------------------- Stop

  /** Services and metas never change once `stopped` is set. */
  lemma ServicesFrozenOnceStopped(s: State, moves: seq<Move>)
    requires Reachable(s) && s.g.stopped && RunAll(s, moves).Some?
    ensures RunAll(s, moves).value.g.services == s.g.services
    ensures RunAll(s, moves).value.g.metas == s.g.metas
  {
    ReachableInv(s);
    RunWhenStopped(s, moves);
  }

  /** When some Stop has returned nil and no failed Start had given the handle up, no node of this
      plugin is in the store, every handle is closed, and no continuation writes a node again. */
  lemma StopNilIsFinal(s: State, t: Tid, moves: seq<Move>)
    requires Reachable(s) && t < |s.threads| && RunAll(s, moves).Some?
    requires s.threads[t].Returned? && s.threads[t].op.OpStop? && s.threads[t].r.Nil?
    requires !s.g.dropped
    ensures var g' := RunAll(s, moves).value.g;
            && g'.nodes == map[] && g'.kv.None? && g'.nextHandle == s.g.nextHandle
            && forall h: Handle :: h < g'.nextHandle ==> h in g'.closedHandles
  {
    ReachableInv(s);
    assert Local(s.g, t, s.threads[t]);
    RunWhenStopped(s, moves);
    RunKeepsInvariant(s, moves);
    var g' := RunAll(s, moves).value.g;
    assert g'.nodes.Keys == {};
  }

  /** Exactly when a completed stop leaves the store without nodes: unless a node was there and a
      failed Start had closed the handle without another being opened since. */
  lemma StopCleansIff(s: State, moves: seq<Move>)
    requires Reachable(s) && s.g.stopped && NoExpiry(moves) && RunAll(s, moves).Some?
    requires RunAll(s, moves).value.g.stopComplete
    ensures RunAll(s, moves).value.g.nodes == map[] <==> !s.g.dropped || s.g.nodes == map[]
  {
    ReachableInv(s);
    RunWhenStopped(s, moves);
    RunKeepsInvariant(s, moves);
  }

  // ---------------------------------------------------------------- Unregister

  /** The schedule never gets a Register of name to write its node. */
  predicate NeverWrites(s: State, moves: seq<Move>, name: string)
    decreases |moves|
  {
    moves == [] ||
    (var r := Next(s, moves[0]);
     r.Some? ==>
       && (moves[0].Run? ==>
             var o := ThreadStep(s.g, |s.threads|, s.threads[moves[0].t], moves[0].c);
             !(o.e.WriteNode? && o.e.name == name))
       && NeverWrites(r.value, moves[1..], name))
  }

  ghost predicate Absent(g: Shared, name: string) {
    name !in g.services && name !in g.nodes && (g.unrecorded.Some? ==> g.unrecorded.value.1 != name)
  }

  lemma EffectKeepsAbsent(g: Shared, t: Tid, n: Tid, e: Effect, name: string)
    requires Global(g) && Allowed(g, t, e) && Absent(g, name) && !(e.WriteNode? && e.name == name)
    ensures Absent(Apply(g, t, n, e), name)
  {
    match e
    case DeleteNode(_) => return;
    case Forget(_) => return;
    case Record(_, _) => return;
    case RefreshNode(_, _) => return;
    case _ => return;
  }

  lemma {:induction false} RunKeepsAbsent(s: State, moves: seq<Move>, name: string)
    requires Inv(s) && Absent(s.g, name) && RunAll(s, moves).Some? && NeverWrites(s, moves, name)
    ensures Absent(RunAll(s, moves).value.g, name)
    decreases |moves|
  {
    if moves != [] {
      var s1 := Next(s, moves[0]).value;
      NextKeepsInv(s, moves[0]);
      if moves[0].Run? {
        var e := StepEffect(s, moves[0].t, moves[0].c);
        EffectKeepsAbsent(s.g, moves[0].t, |s.threads|, e, name);
      }
      RunKeepsAbsent(s1, moves[1..], name);
    }
  }

  lemma DeletedIsAbsent(s: State, t: Tid)
    requires Inv(s) && t < |s.threads|
    requires s.threads[t].Unregistering? && s.threads[t].u.UReturn? && s.threads[t].u.deleted
    ensures Absent(s.g, s.threads[t].name)
  {
    assert Local(s.g, t, s.threads[t]);
  }

  /** From the moment an Unregister that deleted the node is about to return, however the other
      goroutines go on - a refresh already under way included - the node stays away, until a
      Register of that name writes it again. */
  lemma UnregisteredStaysAway(s: State, t: Tid, moves: seq<Move>)
    requires Reachable(s) && t < |s.threads| && RunAll(s, moves).Some?
    requires s.threads[t].Unregistering? && s.threads[t].u.UReturn? && s.threads[t].u.deleted
    requires NeverWrites(s, moves, s.threads[t].name)
    ensures s.threads[t].name !in RunAll(s, moves).value.g.nodes
    ensures s.threads[t].name !in RunAll(s, moves).value.g.services
  {
    ReachableInv(s);
    DeletedIsAbsent(s, t);
    RunKeepsAbsent(s, moves, s.threads[t].name);
  }

  /** A refresh writes only nodes of services that are recorded at that moment, so never the node
      of an unregistered one. */
  lemma RefreshWritesRecordedOnly(s: State, t: Tid, c: Choice)
    requires Reachable(s) && t < |s.threads| && Next(s, Run(t, c)).Some?
    requires ThreadStep(s.g, |s.threads|, s.threads[t], c).e.RefreshNode?
    ensures ThreadStep(s.g, |s.threads|, s.threads[t], c).e.name in s.g.services
    ensures !s.g.stopComplete && s.g.kv.Some?
  {
    ReachableInv(s);
    var e := StepEffect(s, t, c);
  }
}
