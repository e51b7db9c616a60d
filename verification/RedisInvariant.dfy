/**
 The inductive invariant of the register plugin, proved rely-guarantee style.

 `Global` speaks about the shared state alone, `Local` about one goroutine
 against the shared state.  `Spares` is what a step of goroutine t promises to
 leave alone for another goroutine u; `Stable` shows that it keeps u's `Local`.
 One lemma per operation shows that each of its steps cannot panic, keeps
 `Global`, re-establishes `Local` for the goroutine that moved and for one it
 starts, and honours `Spares` towards everybody else.
 */
module RedisInvariant {
  import opened Wrappers
  import opened RedisRegistry

  // ---------------------------------------------------------------- who holds which lock

  predicate HoldsLifecycle(pc: Pc) {
    match pc
    case Starting(s) => !s.SBegin? && !s.SLock?
    case Registering(_, _, r) => !r.GBegin? && !r.GLock?
    case Unregistering(_, u) => !u.UBegin? && !u.ULock?
    case Stopping(p) => p.TCheck? || p.TJoin? || p.TUnlock? || p.TReturnNil?
    case Cleaning(_, _, c) => c.CPublish? || c.CSignal? || c.CUnlockLife?
    case _ => false
  }

  predicate HoldsStore(pc: Pc) {
    match pc
    case Registering(_, _, r) =>
      r.GPutRoot? || r.GPutDir? || r.GPutNode? || r.GLockState? || r.GDrain? || r.GRecord?
      || r.GUnlockState? || r.GUnlockStore?
    case Unregistering(_, u) =>
      u.UPutRoot? || u.UPutDir? || u.UDelete? || u.ULockState? || u.UDrain? || u.UForget?
      || u.UUnlockState? || u.UUnlockStore?
    case Refreshing(_, _, _, f) => !f.FSelect? && !f.FLockStore? && !f.FExit?
    case Cleaning(_, _, c) =>
      c.CLockState? || c.CSnapshot? || c.CUnlockState? || c.CExists? || c.CDelete? || c.CClose? || c.CUnlockStore?
    case _ => false
  }

  predicate HoldsReader(pc: Pc) {
    match pc
    case Unregistering(_, u) => u.UCount? || u.UUnlockCount?
    case Refreshing(_, _, _, f) => f.FSnapshot? || f.FUnlockState?
    case Cleaning(_, _, c) => c.CSnapshot? || c.CUnlockState?
    case _ => false
  }

  predicate HoldsWriter(pc: Pc) {
    match pc
    case Registering(_, _, r) => r.GDrain? || r.GRecord? || r.GUnlockState?
    case Unregistering(_, u) => u.UDrain? || u.UForget? || u.UUnlockState?
    case _ => false
  }

  /** A writer that the readers have made way for. */
  predicate Writing(pc: Pc) {
    || (pc.Registering? && (pc.g.GRecord? || pc.g.GUnlockState?))
    || (pc.Unregistering? && (pc.u.UForget? || pc.u.UUnlockState?))
  }

  // ---------------------------------------------------------------- phases of an operation

  /** A Start that has made its channels and has not yet closed or handed over `done`. */
  predicate Building(pc: Pc) {
    pc.Starting? && (pc.s.SConnect? || pc.s.SPutRoot? || pc.s.SDropHandle? || pc.s.SAbort? || pc.s.SLaunch?)
  }

  /** Past the check that the plugin has not been stopped, with the lifecycle lock held since. */
  predicate Admitted(pc: Pc) {
    || Building(pc)
    || (pc.Registering? && HoldsLifecycle(pc) && !pc.g.GCheck? && !pc.g.GReturn?)
    || (pc.Unregistering? && HoldsLifecycle(pc) && !pc.u.UCheck? && !pc.u.UReturn?)
  }

  /** About to call the store handle in p.kv. */
  predicate NeedsHandle(pc: Pc) {
    match pc
    case Starting(s) => s.SPutRoot? || s.SDropHandle? || s.SLaunch?
    case Registering(_, _, r) =>
      r.GLockStore? || r.GPutRoot? || r.GPutDir? || r.GPutNode? || r.GLockState? || r.GDrain? || r.GRecord?
    case Unregistering(_, u) => u.ULockStore? || u.UPutRoot? || u.UPutDir? || u.UDelete?
    case Cleaning(_, _, c) => c.CExists? || c.CDelete? || c.CClose?
    case _ => false
  }

  predicate Connecting(pc: Pc) {
    || (pc.Starting? && pc.s.SConnect?)
    || (pc.Registering? && pc.g.GConnect?)
    || (pc.Unregistering? && pc.u.UConnect?)
  }

  /** A Register whose node is written and whose service is not recorded yet. */
  predicate Unrecorded(pc: Pc) {
    pc.Registering? && (pc.g.GLockState? || pc.g.GDrain? || pc.g.GRecord?)
  }

  /** An attempt that p.stopAttempt still points to. */
  predicate Attempting(pc: Pc) {
    pc.Cleaning? && !pc.c.CSignal? && !pc.c.CUnlockLife?
  }

  /** An attempt that has published its result and not yet closed its channel. */
  predicate Signalling(pc: Pc) {
    pc.Cleaning? && pc.c.CSignal?
  }

  // ---------------------------------------------------------------- the shared state

  ghost predicate Global(g: Shared) {
    && (g.stopped ==> g.stopRequested && !g.started)
    && (g.stopComplete ==> g.stopped && g.kv.None? && g.refresher.None? && g.stopAttempt.None?)
    && GlobalChans(g)
    && GlobalStore(g)
  }

  ghost predicate GlobalChans(g: Shared) {
    && (forall c :: c in g.closedChans ==> c < g.nextChan)
    && (g.dying.Some? <==> g.done.Some?)
    && (g.dying.Some? ==>
          && g.dying.value < g.nextChan && g.done.value < g.nextChan && g.dying != g.done
          && (g.dying.value in g.closedChans <==> g.stopped))
    && (g.refresher.Some? ==>
          (g.started || g.stopped) && g.done.Some? && g.done.value !in g.closedChans && g.cfg.refreshing)
    && (g.done.Some? && g.done.value !in g.closedChans ==> g.refresher.Some? || g.doneOwed)
    && (g.doneOwed ==> g.lifecycleLock.Some? && g.refresher.None? && !g.stopped)
    && (g.stopAttempt.Some? ==> g.stopped && OpenAttempt(g, g.stopAttempt.value))
    && (g.signalling.Some? ==>
          && g.stopped && OpenAttempt(g, g.signalling.value)
          && g.lifecycleLock == Some(g.signalling.value.worker) && g.stopAttempt.None?)
    && (forall c :: c in g.attemptErr ==>
          && c < g.nextChan && g.dying != Some(c) && g.done != Some(c)
          && (c in g.closedChans && g.attemptErr[c].Nil? ==> g.stopComplete))
  }

  ghost predicate OpenAttempt(g: Shared, a: Attempt) {
    a.done < g.nextChan && a.done !in g.closedChans && g.dying != Some(a.done) && g.done != Some(a.done)
  }

  ghost predicate GlobalStore(g: Shared) {
    && (forall h :: h in g.closedHandles ==> h < g.nextHandle)
    && (forall h: Handle :: h < g.nextHandle && h !in g.closedHandles ==> g.kv == Some(h))
    && (g.kv.Some? ==> g.kv.value < g.nextHandle && g.kv.value !in g.closedHandles && !g.dropped)
    && (g.kv.None? ==> g.refresher.None? && (g.dropped || g.nodes == map[]))
    && (forall n :: n in g.nodes ==> n in g.services || (g.unrecorded.Some? && g.unrecorded.value.1 == n))
    && (g.unrecorded.Some? ==>
          && g.lifecycleLock == Some(g.unrecorded.value.0) && g.storeLock == Some(g.unrecorded.value.0)
          && !g.stopped)
  }

  // ---------------------------------------------------------------- one goroutine

  ghost predicate Local(g: Shared, t: Tid, pc: Pc) {
    Fits(g, t, ProfileOf(pc)) && Phase(g, t, pc)
  }

  /** The locks a goroutine holds and the jobs it is in the middle of. */
  datatype Profile = Profile(
    lifecycle: bool, store: bool, reader: bool, writer: bool,
    building: bool, unrecorded: Option<string>, refreshing: bool,
    attempting: Option<Chan>, signalling: Option<Chan>)

  function ProfileOf(pc: Pc): Profile {
    Profile(HoldsLifecycle(pc), HoldsStore(pc), HoldsReader(pc), HoldsWriter(pc),
            Building(pc), if Unrecorded(pc) then Some(pc.name) else None, pc.Refreshing?,
            if Attempting(pc) then Some(pc.attempt) else None,
            if Signalling(pc) then Some(pc.attempt) else None)
  }

  /** The shared state agrees with goroutine t having profile p. */
  ghost predicate Fits(g: Shared, t: Tid, p: Profile) {
    FitsLocks(g, t, p) && FitsJobs(g, t, p) && FitsAttempts(g, t, p)
  }

  ghost predicate FitsLocks(g: Shared, t: Tid, p: Profile) {
    && (p.lifecycle <==> g.lifecycleLock == Some(t))
    && (p.store <==> g.storeLock == Some(t))
    && (p.writer <==> g.stateWriter == Some(t))
    && (p.reader <==> t in g.stateReaders)
  }

  ghost predicate FitsJobs(g: Shared, t: Tid, p: Profile) {
    && (p.lifecycle ==> (g.doneOwed <==> p.building))
    && (if p.unrecorded.Some? then g.unrecorded == Some((t, p.unrecorded.value))
        else g.unrecorded.Some? ==> g.unrecorded.value.0 != t)
    && (p.refreshing <==> g.refresher == Some(t))
  }

  ghost predicate FitsAttempts(g: Shared, t: Tid, p: Profile) {
    && (if p.attempting.Some? then g.stopAttempt == Some(Attempt(p.attempting.value, t))
        else g.stopAttempt.Some? ==> g.stopAttempt.value.worker != t)
    && (if p.signalling.Some? then g.signalling == Some(Attempt(p.signalling.value, t))
        else g.signalling.Some? ==> g.signalling.value.worker != t)
  }

  /** What the goroutine may rely on at this point of its operation. */
  ghost predicate Phase(g: Shared, t: Tid, pc: Pc) {
    && (Admitted(pc) ==> !g.stopped)
    && (NeedsHandle(pc) ==> g.kv.Some?)
    && (Connecting(pc) ==> g.kv.None?)
    && (Writing(pc) ==> g.stateReaders == {})
    && match pc
       case Starting(_) =>
         Building(pc) ==> !g.started && g.refresher.None? && g.done.Some? && g.done.value !in g.closedChans
       case Registering(_, _, _) => true
       case Unregistering(name, u) => LocalUnregister(g, name, u)
       case Stopping(p) => LocalStop(g, p)
       case Refreshing(kv, dying, done, f) =>
         g.kv == Some(kv) && g.dying == Some(dying) && g.done == Some(done) && LocalRefresh(g, f)
       case Cleaning(a, refreshDone, k) => g.stopped && refreshDone == g.done && LocalClean(g, a, k)
       case Returned(op, r, _) => op.OpStop? && r.Nil? ==> g.stopComplete
       case Exited => true
  }

  ghost predicate LocalUnregister(g: Shared, name: string, u: UnregisterPc) {
    match u
    case UUnlockCount(count) => count == |g.services|
    case UConnect => g.services != []
    case ULockStore => g.services != []
    case UPutRoot => g.services != []
    case UPutDir => g.services != []
    case UDelete => g.services != []
    case ULockState => g.services != [] && name !in g.nodes
    case UDrain => g.services != [] && name !in g.nodes
    case UForget => g.services != [] && name !in g.nodes
    case UUnlockState => name !in g.services
    case UUnlockStore(_, deleted) => deleted ==> name !in g.services
    case UReturn(_, deleted) => deleted ==> name !in g.services
    case _ => true
  }

  /** The attempt a Stop waits for is still at work, or has closed its channel and left its result. */
  ghost predicate Awaited(g: Shared, a: Attempt) {
    && g.stopped && a.done < g.nextChan
    && g.dying != Some(a.done) && g.done != Some(a.done)
    && (a.done in g.closedChans ==> a.done in g.attemptErr)
    && (a.done in g.closedChans || g.stopAttempt == Some(a) || g.signalling == Some(a))
  }

  ghost predicate LocalStop(g: Shared, p: StopPc) {
    match p
    case TCheck => g.stopRequested
    case TTryLock => g.stopRequested
    case TJoin => g.stopped && !g.stopComplete
    case TUnlock(a) => Awaited(g, a)
    case TWait(a) => Awaited(g, a)
    case TReturnNil => g.stopComplete
    case _ => true
  }

  ghost predicate LocalRefresh(g: Shared, f: RefreshPc) {
    match f
    case FUnlockState(names, metas) => names == g.services && metas == g.metas
    case FGet(names, metas, i) => names == g.services && metas == g.metas
    case FPut(names, metas, i, _) => names == g.services && metas == g.metas && i < |names|
    case FExit => g.stopped
    case _ => true
  }

  /** names[..i] have been dealt with; unless something failed, their nodes are gone. */
  ghost predicate Scanned(g: Shared, names: seq<string>, i: nat, failed: bool) {
    && names == g.services && i <= |names|
    && (!failed ==> forall j :: 0 <= j < i ==> names[j] !in g.nodes)
  }

  /** A cleanup that succeeded gave the handle up; one that failed kept it for a retry. */
  ghost predicate Cleaned(g: Shared, r: Result) {
    (r.Nil? && g.kv.None?) || (r.Failed? && g.kv.Some?)
  }

  ghost predicate LocalClean(g: Shared, a: Chan, k: CleanPc) {
    && (!k.CWait? ==> g.refresher.None?)
    && match k
       case CUnlockState(names) => names == g.services
       case CExists(names, i, failed) => Scanned(g, names, i, failed)
       case CDelete(names, i, failed) => Scanned(g, names, i, failed) && i < |names|
       case CClose => Scanned(g, g.services, |g.services|, false)
       case CUnlockStore(r) => Cleaned(g, r)
       case CLockLife(r) => Cleaned(g, r) && a in g.attemptErr && g.attemptErr[a] == r
       case CPublish(r) => Cleaned(g, r) && a in g.attemptErr && g.attemptErr[a] == r
       case CUnlockLife(_) => g.stopAttempt.None?
       case CSignal(r) => Cleaned(g, r) && a in g.attemptErr && g.attemptErr[a] == r && (r.Nil? ==> g.stopComplete)
       case _ => true
  }

  // ---------------------------------------------------------------- interference

  /** Every goroutine id stored in the shared state is below n. */
  ghost predicate Bounds(g: Shared, n: Tid) {
    && (g.lifecycleLock.Some? ==> g.lifecycleLock.value < n)
    && (g.storeLock.Some? ==> g.storeLock.value < n)
    && (g.stateWriter.Some? ==> g.stateWriter.value < n)
    && (forall r :: r in g.stateReaders ==> r < n)
    && (g.refresher.Some? ==> g.refresher.value < n)
    && (g.stopAttempt.Some? ==> g.stopAttempt.value.worker < n)
    && (g.signalling.Some? ==> g.signalling.value.worker < n)
    && (g.unrecorded.Some? ==> g.unrecorded.value.0 < n)
  }

  /** What a step from g to g' by goroutine t leaves alone for goroutine u. */
  ghost predicate Spares(g: Shared, g': Shared, t: Tid, u: Tid) {
    && g'.cfg == g.cfg && (g.stopRequested ==> g'.stopRequested)
    && (g.stopped ==> g'.stopped && g'.services == g.services && g'.metas == g.metas
                      && g'.dying == g.dying && g'.done == g.done)
    && (g.stopComplete ==> g'.stopComplete)
    && g.closedChans <= g'.closedChans && g.nextChan <= g'.nextChan
    && (g.lifecycleLock == Some(u) <==> g'.lifecycleLock == Some(u))
    && (g.storeLock == Some(u) <==> g'.storeLock == Some(u))
    && (g.stateWriter == Some(u) <==> g'.stateWriter == Some(u))
    && (u in g.stateReaders <==> u in g'.stateReaders)
    && (g.stateWriter == Some(u) && g.stateReaders == {} ==> g'.stateReaders == {})
    && (g.refresher == Some(u) <==> g'.refresher == Some(u))
    && (g.stopped && g.refresher.None? ==> g'.refresher.None?)
    && (g.refresher == Some(u) ==> g'.kv == g.kv && g'.dying == g.dying && g'.done == g.done)
    && (g.lifecycleLock == Some(u) ==> SparesLifecycle(g, g', t))
    && (g.storeLock == Some(u) ==>
          g'.services == g.services && g'.metas == g.metas && g'.nodes == g.nodes)
    && (g.unrecorded.Some? && g.unrecorded.value.0 == u ==> g'.unrecorded == g.unrecorded)
    && (g'.unrecorded.Some? && g'.unrecorded.value.0 == u ==> g'.unrecorded == g.unrecorded)
    && SparesAttempts(g, g', t, u)
  }

  /** What stays when u holds the lifecycle lock. */
  ghost predicate SparesLifecycle(g: Shared, g': Shared, t: Tid) {
    && g'.stopped == g.stopped && g'.started == g.started && g'.stopComplete == g.stopComplete
    && g'.dying == g.dying && g'.done == g.done && g'.doneOwed == g.doneOwed
    && g'.services == g.services && g'.stopAttempt == g.stopAttempt
    && (!g.stopped ==> g'.kv == g.kv)
    && (g.refresher.None? ==> g'.refresher.None? && g'.closedChans == g.closedChans)
  }

  ghost predicate SparesAttempts(g: Shared, g': Shared, t: Tid, u: Tid) {
    && (g.stopAttempt.Some? && g.stopAttempt.value.worker == u ==>
          g'.stopAttempt == g.stopAttempt && g'.kv == g.kv)
    && (g'.stopAttempt.Some? && g'.stopAttempt.value.worker == u ==> g'.stopAttempt == g.stopAttempt)
    && (g.signalling.Some? && g.signalling.value.worker == u ==>
          g'.signalling == g.signalling && g'.kv == g.kv)
    && (g'.signalling.Some? && g'.signalling.value.worker == u ==> g'.signalling == g.signalling)
    && (g.stopAttempt.Some? ==> g'.stopAttempt == g.stopAttempt || g'.signalling == g.stopAttempt)
    && (g.signalling.Some? ==> g'.signalling == g.signalling || g.signalling.value.done in g'.closedChans)
    && g.attemptErr.Keys <= g'.attemptErr.Keys
    && (forall c :: c in g'.closedChans && c !in g.closedChans ==>
          g.dying == Some(c) || g.done == Some(c) || c in g'.attemptErr)
    && (g.stopAttempt.Some? && g.stopAttempt.value.worker == u && g.stopAttempt.value.done in g.attemptErr ==>
          g'.attemptErr[g.stopAttempt.value.done] == g.attemptErr[g.stopAttempt.value.done])
    && (g.signalling.Some? && g.signalling.value.worker == u && g.signalling.value.done in g.attemptErr ==>
          g'.attemptErr[g.signalling.value.done] == g.attemptErr[g.signalling.value.done])
  }

  lemma StableFits(g: Shared, g': Shared, t: Tid, u: Tid, p: Profile)
    requires Fits(g, u, p) && t != u && Spares(g, g', t, u)
    ensures Fits(g', u, p)
  {
  }

  lemma StablePhase(g: Shared, g': Shared, t: Tid, u: Tid, pc: Pc)
    requires Global(g) && Global(g') && Local(g, u, pc) && t != u && Spares(g, g', t, u)
    ensures Phase(g', u, pc)
  {
  }

  lemma Stable(g: Shared, g': Shared, t: Tid, u: Tid, pc: Pc)
    requires Global(g) && Global(g') && Local(g, u, pc) && t != u && Spares(g, g', t, u)
    ensures Local(g', u, pc)
  {
    StableFits(g, g', t, u, ProfileOf(pc));
    StablePhase(g, g', t, u, pc);
  }

  // ---------------------------------------------------------------- each effect on the shared state

  ghost predicate Good(g: Shared, t: Tid, n: Tid, u: Tid) {
    Global(g) && Bounds(g, n) && t < n && u < n
  }

  ghost predicate Keeps(g: Shared, g': Shared, t: Tid, n: Tid, u: Tid) {
    Global(g') && Bounds(g', n) && (u != t ==> Spares(g, g', t, u))
  }

  predicate Owns(lock: Option<Tid>, t: Tid) {
    lock == Some(t)
  }

  /** When goroutine t may have effect e on the shared state. */
  ghost predicate Allowed(g: Shared, t: Tid, e: Effect) {
    match e
    case Nothing => true
    case TakeLifecycle => g.lifecycleLock.None?
    case DropLifecycle =>
      && Owns(g.lifecycleLock, t) && !g.doneOwed
      && (g.signalling.Some? ==> g.signalling.value.worker != t) && (g.unrecorded.Some? ==> g.unrecorded.value.0 != t)
    case TakeStore => g.storeLock.None?
    case DropStore => Owns(g.storeLock, t) && (g.unrecorded.Some? ==> g.unrecorded.value.0 != t)
    case TakeReader => g.stateWriter.None?
    case DropReader => t in g.stateReaders
    case TakeWriter => g.stateWriter.None?
    case DropWriter => Owns(g.stateWriter, t)
    case RequestStop => true
    case MakeChans => Owns(g.lifecycleLock, t) && !g.stopped && !g.started && !g.doneOwed
    case MarkDir(_) => true
    case OpenHandle => Owns(g.lifecycleLock, t) && !g.stopped && g.kv.None?
    case CloseKv(byStart) =>
      && g.kv.Some? && g.refresher.None?
      && if byStart then Owns(g.lifecycleLock, t) && !g.stopped
         else g.stopAttempt.Some? && g.stopAttempt.value.worker == t && Scanned(g, g.services, |g.services|, false)
    case CloseDone(_) => Owns(g.lifecycleLock, t) && g.doneOwed && g.done.Some?
    case Launch =>
      && Owns(g.lifecycleLock, t) && g.doneOwed && g.kv.Some? && g.cfg.refreshing
      && g.done.Some? && g.done.value !in g.closedChans
    case WriteNode(_, _) =>
      && Owns(g.lifecycleLock, t) && Owns(g.storeLock, t) && !g.stopped && g.kv.Some?
      && (g.unrecorded.Some? ==> g.unrecorded.value.0 != t)
    case Record(name, _) => g.unrecorded == Some((t, name))
    case DeleteNode(_) => Owns(g.storeLock, t) && g.kv.Some?
    case Forget(name) => Owns(g.lifecycleLock, t) && Owns(g.storeLock, t) && !g.stopped && name !in g.nodes
    case MarkStopped =>
      && Owns(g.lifecycleLock, t) && g.stopRequested && !g.stopped && !g.doneOwed
      && (g.unrecorded.Some? ==> g.unrecorded.value.0 != t)
    case NewAttempt =>
      && Owns(g.lifecycleLock, t) && g.stopped && !g.stopComplete && g.stopAttempt.None?
      && (g.signalling.Some? ==> g.signalling.value.worker != t)
    case RefreshNode(name, _) => Owns(g.refresher, t) && Owns(g.storeLock, t) && name in g.services
    case EndRefresh(done) => Owns(g.refresher, t) && g.done == Some(done)
    case Report(a, _) => g.stopAttempt == Some(Attempt(a, t)) && Owns(g.storeLock, t)
    case Publish(a, r) =>
      g.stopAttempt == Some(Attempt(a, t)) && Owns(g.lifecycleLock, t) && g.refresher.None? && Cleaned(g, r)
    case Signal(a) =>
      && g.signalling == Some(Attempt(a, t)) && a in g.attemptErr && (g.attemptErr[a].Nil? ==> g.stopComplete)
  }

  /** The goroutines an effect starts. */
  function Starts(e: Effect): nat {
    if e.Launch? || e.NewAttempt? then 1 else 0
  }

  lemma LifecycleKept(g: Shared, t: Tid, n: Tid, e: Effect, u: Tid)
    requires Good(g, t, n, u) && Allowed(g, t, e)
    requires e.TakeLifecycle? || e.DropLifecycle?
    ensures Keeps(g, Apply(g, t, n, e), t, n, u)
  {
  }

  lemma StoreKept(g: Shared, t: Tid, n: Tid, e: Effect, u: Tid)
    requires Good(g, t, n, u) && Allowed(g, t, e)
    requires e.TakeStore? || e.DropStore?
    ensures Keeps(g, Apply(g, t, n, e), t, n, u)
  {
  }

  lemma MarkKept(g: Shared, t: Tid, n: Tid, e: Effect, u: Tid)
    requires Good(g, t, n, u) && Allowed(g, t, e)
    requires e.Nothing? || e.MarkDir?
    ensures Keeps(g, Apply(g, t, n, e), t, n, u)
  {
  }

  lemma ReaderKept(g: Shared, t: Tid, n: Tid, e: Effect, u: Tid)
    requires Good(g, t, n, u) && Allowed(g, t, e)
    requires e.TakeReader? || e.DropReader?
    ensures Keeps(g, Apply(g, t, n, e), t, n, u)
  {
    match e
    case TakeReader => return;
    case DropReader => return;
  }

  lemma WriterKept(g: Shared, t: Tid, n: Tid, e: Effect, u: Tid)
    requires Good(g, t, n, u) && Allowed(g, t, e)
    requires e.TakeWriter? || e.DropWriter?
    ensures Keeps(g, Apply(g, t, n, e), t, n, u)
  {
  }

  lemma HandleKept(g: Shared, t: Tid, n: Tid, e: Effect, u: Tid)
    requires Good(g, t, n, u) && Allowed(g, t, e)
    requires e.OpenHandle? || e.CloseKv?
    ensures Keeps(g, Apply(g, t, n, e), t, n, u)
  {
    if e.CloseKv? && !e.byStart { assert g.nodes == map[]; }
  }

  lemma LaunchKept(g: Shared, t: Tid, n: Tid, e: Effect, u: Tid)
    requires Good(g, t, n, u) && Allowed(g, t, e)
    requires e.MakeChans? || e.Launch?
    ensures Keeps(g, Apply(g, t, n, e), t, n + Starts(e), u)
  {
  }

  lemma DoneKept(g: Shared, t: Tid, n: Tid, e: Effect, u: Tid)
    requires Good(g, t, n, u) && Allowed(g, t, e) && e.CloseDone?
    ensures Keeps(g, Apply(g, t, n, e), t, n, u)
  {
  }

  lemma EndRefreshKept(g: Shared, t: Tid, n: Tid, e: Effect, u: Tid)
    requires Good(g, t, n, u) && Allowed(g, t, e) && e.EndRefresh?
    ensures Keeps(g, Apply(g, t, n, e), t, n, u)
  {
  }

  lemma NodesKept(g: Shared, t: Tid, n: Tid, e: Effect, u: Tid)
    requires Good(g, t, n, u) && Allowed(g, t, e)
    requires e.WriteNode? || e.RefreshNode?
    ensures Keeps(g, Apply(g, t, n, e), t, n, u)
  {
  }

  lemma DeletionKept(g: Shared, t: Tid, n: Tid, e: Effect, u: Tid)
    requires Good(g, t, n, u) && Allowed(g, t, e) && e.DeleteNode?
    ensures Keeps(g, Apply(g, t, n, e), t, n, u)
  {
  }

  lemma ServicesKept(g: Shared, t: Tid, n: Tid, e: Effect, u: Tid)
    requires Good(g, t, n, u) && Allowed(g, t, e)
    requires e.Record? || e.Forget?
    ensures Keeps(g, Apply(g, t, n, e), t, n, u)
  {
  }

  lemma RequestKept(g: Shared, t: Tid, n: Tid, e: Effect, u: Tid)
    requires Good(g, t, n, u) && Allowed(g, t, e)
    requires e.RequestStop? || e.NewAttempt?
    ensures Keeps(g, Apply(g, t, n, e), t, n + Starts(e), u)
  {
  }

  lemma StopKept(g: Shared, t: Tid, n: Tid, e: Effect, u: Tid)
    requires Good(g, t, n, u) && Allowed(g, t, e) && e.MarkStopped?
    ensures Keeps(g, Apply(g, t, n, e), t, n, u)
  {
  }

  lemma ReportKept(g: Shared, t: Tid, n: Tid, e: Effect, u: Tid)
    requires Good(g, t, n, u) && Allowed(g, t, e) && e.Report?
    ensures Keeps(g, Apply(g, t, n, e), t, n, u)
  {
  }

  lemma PublishKept(g: Shared, t: Tid, n: Tid, e: Effect, u: Tid)
    requires Good(g, t, n, u) && Allowed(g, t, e) && e.Publish?
    ensures Keeps(g, Apply(g, t, n, e), t, n, u)
  {
  }

  lemma SignalKept(g: Shared, t: Tid, n: Tid, e: Effect, u: Tid)
    requires Good(g, t, n, u) && Allowed(g, t, e) && e.Signal?
    ensures Keeps(g, Apply(g, t, n, e), t, n, u)
  {
  }

  lemma EffectKept(g: Shared, t: Tid, n: Tid, e: Effect, u: Tid)
    requires Good(g, t, n, u) && Allowed(g, t, e)
    ensures Keeps(g, Apply(g, t, n, e), t, n + Starts(e), u)
  {
    if e.OpenHandle? || e.CloseKv? { HandleKept(g, t, n, e, u); }
    else if e.MakeChans? || e.Launch? { LaunchKept(g, t, n, e, u); }
    else if e.CloseDone? { DoneKept(g, t, n, e, u); }
    else if e.EndRefresh? { EndRefreshKept(g, t, n, e, u); }
    else if e.DeleteNode? { DeletionKept(g, t, n, e, u); }
    else if e.WriteNode? || e.RefreshNode? { NodesKept(g, t, n, e, u); }
    else if e.Record? || e.Forget? { ServicesKept(g, t, n, e, u); }
    else if e.TakeWriter? || e.DropWriter? { WriterKept(g, t, n, e, u); }
    else if e.TakeReader? || e.DropReader? { ReaderKept(g, t, n, e, u); }
    else if e.MarkStopped? { StopKept(g, t, n, e, u); }
    else if e.RequestStop? || e.NewAttempt? { RequestKept(g, t, n, e, u); }
    else if e.Report? { ReportKept(g, t, n, e, u); }
    else if e.Publish? { PublishKept(g, t, n, e, u); }
    else if e.Signal? { SignalKept(g, t, n, e, u); }
    else if e.TakeLifecycle? || e.DropLifecycle? { LifecycleKept(g, t, n, e, u); }
    else if e.TakeStore? || e.DropStore? { StoreKept(g, t, n, e, u); }
    else { MarkKept(g, t, n, e, u); }
  }

  // ---------------------------------------------------------------- the steps of each operation

  /** The step does not panic and its effect is one the goroutine may have. */
  ghost predicate Proper(g: Shared, t: Tid, o: Outcome) {
    && !o.Panics?
    && (o.Moved? ==> Allowed(g, t, o.e) && |o.spawned| == Starts(o.e))
  }

  lemma StartProper(g: Shared, t: Tid, n: Tid, s: StartPc, c: Choice)
    requires Good(g, t, n, t) && Local(g, t, Starting(s))
    ensures Proper(g, t, StartStep(g, s, c))
  {
  }

  /** A Register before it takes the store. */
  predicate Entering(r: RegisterPc) {
    r.GBegin? || r.GLock? || r.GCheck? || r.GConnect? || r.GLockStore?
  }

  lemma RegisterEnterProper(g: Shared, t: Tid, n: Tid, name: string, meta: string, r: RegisterPc, c: Choice)
    requires Good(g, t, n, t) && Local(g, t, Registering(name, meta, r)) && Entering(r)
    ensures Proper(g, t, RegisterStep(g, name, meta, r, c))
  {
  }

  lemma RegisterStoreProper(g: Shared, t: Tid, n: Tid, name: string, meta: string, r: RegisterPc, c: Choice)
    requires Good(g, t, n, t) && Local(g, t, Registering(name, meta, r))
    requires r.GPutRoot? || r.GPutDir? || r.GPutNode?
    ensures Proper(g, t, RegisterStep(g, name, meta, r, c))
  {
  }

  lemma RegisterEndProper(g: Shared, t: Tid, n: Tid, name: string, meta: string, r: RegisterPc, c: Choice)
    requires Good(g, t, n, t) && Local(g, t, Registering(name, meta, r))
    requires r.GLockState? || r.GDrain? || r.GRecord? || r.GUnlockState? || r.GUnlockStore? || r.GReturn?
    ensures Proper(g, t, RegisterStep(g, name, meta, r, c))
  {
  }

  lemma RegisterProper(g: Shared, t: Tid, n: Tid, name: string, meta: string, r: RegisterPc, c: Choice)
    requires Good(g, t, n, t) && Local(g, t, Registering(name, meta, r))
    ensures Proper(g, t, RegisterStep(g, name, meta, r, c))
  {
    if Entering(r) { RegisterEnterProper(g, t, n, name, meta, r, c); }
    else if r.GPutRoot? || r.GPutDir? || r.GPutNode? { RegisterStoreProper(g, t, n, name, meta, r, c); }
    else { RegisterEndProper(g, t, n, name, meta, r, c); }
  }

  /** An Unregister before it takes the store. */
  predicate Counting(w: UnregisterPc) {
    w.UBegin? || w.ULock? || w.UCheck? || w.ULockCount? || w.UCount? || w.UUnlockCount? || w.UConnect?
  }

  lemma UnregisterCountProper(g: Shared, t: Tid, n: Tid, name: string, w: UnregisterPc, c: Choice)
    requires Good(g, t, n, t) && Local(g, t, Unregistering(name, w))
    requires Counting(w)
    ensures Proper(g, t, UnregisterStep(g, name, w, c))
  {
  }

  lemma UnregisterProper(g: Shared, t: Tid, n: Tid, name: string, w: UnregisterPc, c: Choice)
    requires Good(g, t, n, t) && Local(g, t, Unregistering(name, w))
    ensures Proper(g, t, UnregisterStep(g, name, w, c))
  {
    if Counting(w) { UnregisterCountProper(g, t, n, name, w, c); }
    else if w.ULockStore? || w.UPutRoot? || w.UPutDir? || w.UDelete? { UnregisterStoreProper(g, t, n, name, w, c); }
    else { UnregisterEndProper(g, t, n, name, w, c); }
  }

  lemma UnregisterStoreProper(g: Shared, t: Tid, n: Tid, name: string, w: UnregisterPc, c: Choice)
    requires Good(g, t, n, t) && Local(g, t, Unregistering(name, w))
    requires w.ULockStore? || w.UPutRoot? || w.UPutDir? || w.UDelete?
    ensures Proper(g, t, UnregisterStep(g, name, w, c))
  {
  }

  lemma UnregisterEndProper(g: Shared, t: Tid, n: Tid, name: string, w: UnregisterPc, c: Choice)
    requires Good(g, t, n, t) && Local(g, t, Unregistering(name, w))
    requires w.ULockState? || w.UDrain? || w.UForget? || w.UUnlockState? || w.UUnlockStore? || w.UReturn?
    ensures Proper(g, t, UnregisterStep(g, name, w, c))
  {
  }

  lemma StopProper(g: Shared, t: Tid, n: Tid, p: StopPc, c: Choice)
    requires Good(g, t, n, t) && Local(g, t, Stopping(p))
    ensures Proper(g, t, StopStep(g, n, p, c))
  {
  }

  lemma RefreshProper(g: Shared, t: Tid, n: Tid, kv: Handle, dying: Chan, done: Chan, f: RefreshPc, c: Choice)
    requires Good(g, t, n, t) && Local(g, t, Refreshing(kv, dying, done, f))
    ensures Proper(g, t, RefreshStep(g, kv, dying, done, f, c))
  {
  }

  /** A stop attempt before it goes over the services ... */
  predicate Listing(k: CleanPc) {
    k.CWait? || k.CLockStore? || k.CLockState? || k.CSnapshot? || k.CUnlockState?
  }

  /** ... and while it does so. */
  predicate Scanning(k: CleanPc) {
    k.CExists? || k.CDelete? || k.CClose?
  }

  lemma CleanScanProper(g: Shared, t: Tid, n: Tid, a: Chan, refreshDone: Option<Chan>, k: CleanPc, c: Choice)
    requires Good(g, t, n, t) && Local(g, t, Cleaning(a, refreshDone, k)) && Scanning(k)
    ensures Proper(g, t, CleanStep(g, a, refreshDone, k, c))
  {
  }

  lemma CleanLockProper(g: Shared, t: Tid, n: Tid, a: Chan, refreshDone: Option<Chan>, k: CleanPc, c: Choice)
    requires Good(g, t, n, t) && Local(g, t, Cleaning(a, refreshDone, k))
    requires Listing(k)
    ensures Proper(g, t, CleanStep(g, a, refreshDone, k, c))
  {
  }

  lemma CleanProper(g: Shared, t: Tid, n: Tid, a: Chan, refreshDone: Option<Chan>, k: CleanPc, c: Choice)
    requires Good(g, t, n, t) && Local(g, t, Cleaning(a, refreshDone, k))
    ensures Proper(g, t, CleanStep(g, a, refreshDone, k, c))
  {
    if Scanning(k) { CleanScanProper(g, t, n, a, refreshDone, k, c); }
    else if Listing(k) { CleanLockProper(g, t, n, a, refreshDone, k, c); }
    else { CleanEndProper(g, t, n, a, refreshDone, k, c); }
  }

  lemma CleanEndProper(g: Shared, t: Tid, n: Tid, a: Chan, refreshDone: Option<Chan>, k: CleanPc, c: Choice)
    requires Good(g, t, n, t) && Local(g, t, Cleaning(a, refreshDone, k))
    requires k.CUnlockStore? || k.CLockLife? || k.CPublish? || k.CSignal? || k.CUnlockLife?
    ensures Proper(g, t, CleanStep(g, a, refreshDone, k, c))
  {
  }

  /** How an effect changes the profile of the goroutine that has it. */
  function Advance(p: Profile, e: Effect): Profile {
    Profile(e.TakeLifecycle? || (p.lifecycle && !e.DropLifecycle?),
            e.TakeStore? || (p.store && !e.DropStore? && !e.Report?),
            e.TakeReader? || (p.reader && !e.DropReader?),
            e.TakeWriter? || (p.writer && !e.DropWriter?),
            e.MakeChans? || (p.building && !e.CloseDone? && !e.Launch?),
            if e.WriteNode? then Some(e.name) else if e.Record? then None else p.unrecorded,
            p.refreshing && !e.EndRefresh?,
            if e.Publish? then None else p.attempting,
            if e.Publish? then Some(e.a) else if e.Signal? then None else p.signalling)
  }

  lemma StartFollows(g: Shared, s: StartPc, c: Choice)
    ensures var o := StartStep(g, s, c);
            o.Moved? ==> ProfileOf(o.pc) == Advance(ProfileOf(Starting(s)), o.e)
  {
  }

  lemma RegisterFollows(g: Shared, name: string, meta: string, r: RegisterPc, c: Choice)
    ensures var o := RegisterStep(g, name, meta, r, c);
            o.Moved? ==> ProfileOf(o.pc) == Advance(ProfileOf(Registering(name, meta, r)), o.e)
  {
  }

  lemma UnregisterEnterFollows(g: Shared, name: string, w: UnregisterPc, c: Choice)
    requires w.UBegin? || w.ULock? || w.UCheck?
    ensures var o := UnregisterStep(g, name, w, c);
            o.Moved? ==> ProfileOf(o.pc) == Advance(ProfileOf(Unregistering(name, w)), o.e)
  {
  }

  lemma UnregisterCountFollows(g: Shared, name: string, w: UnregisterPc, c: Choice)
    requires w.ULockCount? || w.UCount? || w.UUnlockCount? || w.UConnect?
    ensures var o := UnregisterStep(g, name, w, c);
            o.Moved? ==> ProfileOf(o.pc) == Advance(ProfileOf(Unregistering(name, w)), o.e)
  {
  }

  lemma UnregisterStoreFollows(g: Shared, name: string, w: UnregisterPc, c: Choice)
    requires !Counting(w)
    ensures var o := UnregisterStep(g, name, w, c);
            o.Moved? ==> ProfileOf(o.pc) == Advance(ProfileOf(Unregistering(name, w)), o.e)
  {
  }

  lemma UnregisterFollows(g: Shared, name: string, w: UnregisterPc, c: Choice)
    ensures var o := UnregisterStep(g, name, w, c);
            o.Moved? ==> ProfileOf(o.pc) == Advance(ProfileOf(Unregistering(name, w)), o.e)
  {
    if w.UBegin? || w.ULock? || w.UCheck? { UnregisterEnterFollows(g, name, w, c); }
    else if Counting(w) { UnregisterCountFollows(g, name, w, c); }
    else { UnregisterStoreFollows(g, name, w, c); }
  }

  lemma StopFollows(g: Shared, n: Tid, p: StopPc, c: Choice)
    ensures var o := StopStep(g, n, p, c);
            o.Moved? ==> ProfileOf(o.pc) == Advance(ProfileOf(Stopping(p)), o.e)
  {
  }

  lemma RefreshFollows(g: Shared, kv: Handle, dying: Chan, done: Chan, f: RefreshPc, c: Choice)
    ensures var o := RefreshStep(g, kv, dying, done, f, c);
            o.Moved? ==> ProfileOf(o.pc) == Advance(ProfileOf(Refreshing(kv, dying, done, f)), o.e)
  {
  }

  lemma CleanListFollows(g: Shared, a: Chan, refreshDone: Option<Chan>, k: CleanPc, c: Choice)
    requires Listing(k)
    ensures var o := CleanStep(g, a, refreshDone, k, c);
            o.Moved? ==> ProfileOf(o.pc) == Advance(ProfileOf(Cleaning(a, refreshDone, k)), o.e)
  {
  }

  lemma CleanCheckFollows(g: Shared, a: Chan, refreshDone: Option<Chan>, k: CleanPc, c: Choice)
    requires k.CExists?
    ensures var o := CleanStep(g, a, refreshDone, k, c);
            o.Moved? ==> ProfileOf(o.pc) == Advance(ProfileOf(Cleaning(a, refreshDone, k)), o.e)
  {
  }

  lemma CleanScanFollows(g: Shared, a: Chan, refreshDone: Option<Chan>, k: CleanPc, c: Choice)
    requires k.CDelete? || k.CClose?
    ensures var o := CleanStep(g, a, refreshDone, k, c);
            o.Moved? ==> ProfileOf(o.pc) == Advance(ProfileOf(Cleaning(a, refreshDone, k)), o.e)
  {
  }

  lemma CleanEndFollows(g: Shared, a: Chan, refreshDone: Option<Chan>, k: CleanPc, c: Choice)
    requires !Listing(k) && !Scanning(k)
    ensures var o := CleanStep(g, a, refreshDone, k, c);
            o.Moved? ==> ProfileOf(o.pc) == Advance(ProfileOf(Cleaning(a, refreshDone, k)), o.e)
  {
  }

  lemma CleanFollows(g: Shared, a: Chan, refreshDone: Option<Chan>, k: CleanPc, c: Choice)
    ensures var o := CleanStep(g, a, refreshDone, k, c);
            o.Moved? ==> ProfileOf(o.pc) == Advance(ProfileOf(Cleaning(a, refreshDone, k)), o.e)
  {
    if Listing(k) { CleanListFollows(g, a, refreshDone, k, c); }
    else if k.CExists? { CleanCheckFollows(g, a, refreshDone, k, c); }
    else if Scanning(k) { CleanScanFollows(g, a, refreshDone, k, c); }
    else { CleanEndFollows(g, a, refreshDone, k, c); }
  }

  predicate OnLocks(e: Effect) {
    || e.TakeLifecycle? || e.DropLifecycle? || e.TakeStore? || e.DropStore? || e.Report?
    || e.TakeReader? || e.DropReader? || e.TakeWriter? || e.DropWriter?
  }

  lemma LocksUntouched(g: Shared, t: Tid, n: Tid, e: Effect)
    requires !OnLocks(e)
    ensures var g' := Apply(g, t, n, e);
            && g'.lifecycleLock == g.lifecycleLock && g'.storeLock == g.storeLock
            && g'.stateWriter == g.stateWriter && g'.stateReaders == g.stateReaders
  {
    match e
    case Nothing => return;
    case _ => return;
  }

  lemma AdvanceFitsLocks(g: Shared, t: Tid, n: Tid, p: Profile, e: Effect)
    requires FitsLocks(g, t, p) && Allowed(g, t, e)
    ensures FitsLocks(Apply(g, t, n, e), t, Advance(p, e))
  {
    if !OnLocks(e) { LocksUntouched(g, t, n, e); return; }
    match e
    case TakeLifecycle => return;
    case _ => return;
  }

  predicate OnJobs(e: Effect) {
    || e.TakeLifecycle? || e.DropLifecycle? || e.MakeChans? || e.CloseDone? || e.Launch?
    || e.WriteNode? || e.Record? || e.EndRefresh?
  }

  lemma JobsUntouched(g: Shared, t: Tid, n: Tid, e: Effect)
    requires !OnJobs(e)
    ensures var g' := Apply(g, t, n, e);
            g'.doneOwed == g.doneOwed && g'.unrecorded == g.unrecorded && g'.refresher == g.refresher
  {
    match e
    case Nothing => return;
    case _ => return;
  }

  lemma AdvanceFitsJobs(g: Shared, t: Tid, n: Tid, p: Profile, e: Effect)
    requires FitsLocks(g, t, p) && FitsJobs(g, t, p) && Allowed(g, t, e) && t < n
    requires g.doneOwed ==> g.lifecycleLock.Some? && g.refresher.None?
    requires p.building ==> p.lifecycle
    ensures FitsJobs(Apply(g, t, n, e), t, Advance(p, e))
  {
    if !OnJobs(e) { JobsUntouched(g, t, n, e); return; }
    match e
    case TakeLifecycle => return;
    case _ => return;
  }

  lemma AttemptsUntouched(g: Shared, t: Tid, n: Tid, e: Effect)
    requires !e.NewAttempt? && !e.Publish? && !e.Signal?
    ensures var g' := Apply(g, t, n, e); g'.stopAttempt == g.stopAttempt && g'.signalling == g.signalling
  {
    match e
    case Nothing => return;
    case _ => return;
  }

  lemma AdvanceFitsAttempts(g: Shared, t: Tid, n: Tid, p: Profile, e: Effect)
    requires FitsAttempts(g, t, p) && Allowed(g, t, e) && t < n
    ensures FitsAttempts(Apply(g, t, n, e), t, Advance(p, e))
  {
    if !e.NewAttempt? && !e.Publish? && !e.Signal? { AttemptsUntouched(g, t, n, e); return; }
    match e
    case NewAttempt => return;
    case Publish(_, _) => return;
    case Signal(_) => return;
  }

  lemma StartEnters(g: Shared, t: Tid, n: Tid, s: StartPc, c: Choice)
    requires Phase(g, t, Starting(s)) && Global(g)
    requires s.SBegin? || s.SLock?
    ensures var o := StartStep(g, s, c); o.Moved? ==> Phase(Apply(g, t, n, o.e), t, o.pc)
  {
  }

  lemma StartChecks(g: Shared, t: Tid, n: Tid, s: StartPc, c: Choice)
    requires Phase(g, t, Starting(s)) && Global(g) && s.SCheck?
    ensures var o := StartStep(g, s, c); o.Moved? ==> Phase(Apply(g, t, n, o.e), t, o.pc)
  {
  }

  lemma StartBuilds(g: Shared, t: Tid, n: Tid, s: StartPc, c: Choice)
    requires Phase(g, t, Starting(s)) && t < n
    requires s.SConnect? || s.SPutRoot? || s.SDropHandle?
    ensures var o := StartStep(g, s, c); o.Moved? ==> Phase(Apply(g, t, n, o.e), t, o.pc)
  {
  }

  lemma StartEnds(g: Shared, t: Tid, n: Tid, s: StartPc, c: Choice)
    requires Phase(g, t, Starting(s)) && t < n
    requires s.SAbort? || s.SLaunch? || s.SReturn?
    ensures var o := StartStep(g, s, c); o.Moved? ==> Phase(Apply(g, t, n, o.e), t, o.pc)
  {
  }

  lemma StartPhase(g: Shared, t: Tid, n: Tid, s: StartPc, c: Choice)
    requires Local(g, t, Starting(s)) && Good(g, t, n, t)
    ensures var o := StartStep(g, s, c); o.Moved? ==> Phase(Apply(g, t, n, o.e), t, o.pc)
  {
    if s.SBegin? || s.SLock? { StartEnters(g, t, n, s, c); }
    else if s.SCheck? { StartChecks(g, t, n, s, c); }
    else if s.SConnect? || s.SPutRoot? || s.SDropHandle? { StartBuilds(g, t, n, s, c); }
    else { StartEnds(g, t, n, s, c); }
  }

  lemma RegisterEnters(g: Shared, t: Tid, n: Tid, name: string, meta: string, r: RegisterPc, c: Choice)
    requires Phase(g, t, Registering(name, meta, r)) && t < n
    requires r.GBegin? || r.GLock? || r.GCheck? || r.GConnect?
    ensures var o := RegisterStep(g, name, meta, r, c); o.Moved? ==> Phase(Apply(g, t, n, o.e), t, o.pc)
  {
  }

  lemma RegisterPuts(g: Shared, t: Tid, n: Tid, name: string, meta: string, r: RegisterPc, c: Choice)
    requires Phase(g, t, Registering(name, meta, r)) && t < n
    requires r.GLockStore? || r.GPutRoot? || r.GPutDir? || r.GPutNode?
    ensures var o := RegisterStep(g, name, meta, r, c); o.Moved? ==> Phase(Apply(g, t, n, o.e), t, o.pc)
  {
  }

  lemma RegisterEnds(g: Shared, t: Tid, n: Tid, name: string, meta: string, r: RegisterPc, c: Choice)
    requires Phase(g, t, Registering(name, meta, r)) && t < n
    requires r.GUnlockState? || r.GUnlockStore? || r.GReturn?
    ensures var o := RegisterStep(g, name, meta, r, c); o.Moved? ==> Phase(Apply(g, t, n, o.e), t, o.pc)
  {
  }

  lemma RegisterRecords(g: Shared, t: Tid, n: Tid, name: string, meta: string, r: RegisterPc, c: Choice)
    requires Phase(g, t, Registering(name, meta, r)) && t < n
    requires r.GLockState? || r.GDrain? || r.GRecord?
    ensures var o := RegisterStep(g, name, meta, r, c); o.Moved? ==> Phase(Apply(g, t, n, o.e), t, o.pc)
  {
  }

  lemma RegisterPhase(g: Shared, t: Tid, n: Tid, name: string, meta: string, r: RegisterPc, c: Choice)
    requires Local(g, t, Registering(name, meta, r)) && Good(g, t, n, t)
    ensures var o := RegisterStep(g, name, meta, r, c); o.Moved? ==> Phase(Apply(g, t, n, o.e), t, o.pc)
  {
    if r.GBegin? || r.GLock? || r.GCheck? || r.GConnect? { RegisterEnters(g, t, n, name, meta, r, c); }
    else if r.GLockStore? || r.GPutRoot? || r.GPutDir? || r.GPutNode? { RegisterPuts(g, t, n, name, meta, r, c); }
    else if r.GLockState? || r.GDrain? || r.GRecord? { RegisterRecords(g, t, n, name, meta, r, c); }
    else { RegisterEnds(g, t, n, name, meta, r, c); }
  }

  lemma UnregisterEnters(g: Shared, t: Tid, n: Tid, name: string, w: UnregisterPc, c: Choice)
    requires Phase(g, t, Unregistering(name, w)) && t < n
    requires w.UBegin? || w.ULock? || w.UCheck? || w.ULockCount? || w.UCount?
    ensures var o := UnregisterStep(g, name, w, c); o.Moved? ==> Phase(Apply(g, t, n, o.e), t, o.pc)
  {
  }

  lemma UnregisterCounts(g: Shared, t: Tid, n: Tid, name: string, w: UnregisterPc, c: Choice)
    requires Phase(g, t, Unregistering(name, w)) && Global(g)
    requires w.UUnlockCount?
    ensures var o := UnregisterStep(g, name, w, c); o.Moved? ==> Phase(Apply(g, t, n, o.e), t, o.pc)
  {
  }

  lemma UnregisterConnects(g: Shared, t: Tid, n: Tid, name: string, w: UnregisterPc, c: Choice)
    requires Phase(g, t, Unregistering(name, w)) && Global(g)
    requires w.UConnect? || w.ULockStore?
    ensures var o := UnregisterStep(g, name, w, c); o.Moved? ==> Phase(Apply(g, t, n, o.e), t, o.pc)
  {
    match w
    case UConnect => return;
    case ULockStore => return;
  }

  lemma UnregisterDeletes(g: Shared, t: Tid, n: Tid, name: string, w: UnregisterPc, c: Choice)
    requires Phase(g, t, Unregistering(name, w)) && t < n
    requires w.UDelete?
    ensures var o := UnregisterStep(g, name, w, c); o.Moved? ==> Phase(Apply(g, t, n, o.e), t, o.pc)
  {
  }

  lemma UnregisterPuts(g: Shared, t: Tid, n: Tid, name: string, w: UnregisterPc, c: Choice)
    requires Phase(g, t, Unregistering(name, w)) && t < n
    requires w.UPutRoot? || w.UPutDir?
    ensures var o := UnregisterStep(g, name, w, c); o.Moved? ==> Phase(Apply(g, t, n, o.e), t, o.pc)
  {
  }

  lemma UnregisterForgets(g: Shared, t: Tid, n: Tid, name: string, w: UnregisterPc, c: Choice)
    requires Phase(g, t, Unregistering(name, w)) && t < n
    requires w.ULockState? || w.UDrain? || w.UForget?
    ensures var o := UnregisterStep(g, name, w, c); o.Moved? ==> Phase(Apply(g, t, n, o.e), t, o.pc)
  {
  }

  lemma UnregisterEnds(g: Shared, t: Tid, n: Tid, name: string, w: UnregisterPc, c: Choice)
    requires Phase(g, t, Unregistering(name, w)) && t < n
    requires w.UUnlockState? || w.UUnlockStore? || w.UReturn?
    ensures var o := UnregisterStep(g, name, w, c); o.Moved? ==> Phase(Apply(g, t, n, o.e), t, o.pc)
  {
  }

  lemma UnregisterPhase(g: Shared, t: Tid, n: Tid, name: string, w: UnregisterPc, c: Choice)
    requires Local(g, t, Unregistering(name, w)) && Good(g, t, n, t)
    ensures var o := UnregisterStep(g, name, w, c); o.Moved? ==> Phase(Apply(g, t, n, o.e), t, o.pc)
  {
    if w.UBegin? || w.ULock? || w.UCheck? || w.ULockCount? || w.UCount? { UnregisterEnters(g, t, n, name, w, c); }
    else if w.UUnlockCount? { UnregisterCounts(g, t, n, name, w, c); }
    else if w.UConnect? || w.ULockStore? { UnregisterConnects(g, t, n, name, w, c); }
    else if w.UPutRoot? || w.UPutDir? { UnregisterPuts(g, t, n, name, w, c); }
    else if w.UDelete? { UnregisterDeletes(g, t, n, name, w, c); }
    else if w.ULockState? || w.UDrain? || w.UForget? { UnregisterForgets(g, t, n, name, w, c); }
    else { UnregisterEnds(g, t, n, name, w, c); }
  }

  lemma StopEnters(g: Shared, t: Tid, n: Tid, p: StopPc, c: Choice)
    requires Phase(g, t, Stopping(p)) && t < n
    requires p.TBegin? || p.TTryLock?
    ensures var o := StopStep(g, n, p, c); o.Moved? ==> Phase(Apply(g, t, n, o.e), t, o.pc)
  {
    match p
    case TBegin => return;
    case TTryLock => return;
  }

  lemma StopMarks(g: Shared, t: Tid, n: Tid, p: StopPc, c: Choice)
    requires Phase(g, t, Stopping(p)) && Global(g)
    requires p.TCheck?
    ensures var o := StopStep(g, n, p, c); o.Moved? ==> Phase(Apply(g, t, n, o.e), t, o.pc)
  {
  }

  lemma StopJoins(g: Shared, t: Tid, n: Tid, p: StopPc, c: Choice)
    requires Phase(g, t, Stopping(p)) && Global(g)
    requires p.TJoin?
    ensures var o := StopStep(g, n, p, c); o.Moved? ==> Phase(Apply(g, t, n, o.e), t, o.pc)
  {
    if g.stopAttempt.Some? { return; }
  }

  lemma StopEnds(g: Shared, t: Tid, n: Tid, p: StopPc, c: Choice)
    requires Phase(g, t, Stopping(p)) && Global(g)
    requires p.TUnlock? || p.TWait? || p.TReturnNil?
    ensures var o := StopStep(g, n, p, c); o.Moved? ==> Phase(Apply(g, t, n, o.e), t, o.pc)
  {
  }

  lemma StopPhase(g: Shared, t: Tid, n: Tid, p: StopPc, c: Choice)
    requires Local(g, t, Stopping(p)) && Good(g, t, n, t)
    ensures var o := StopStep(g, n, p, c); o.Moved? ==> Phase(Apply(g, t, n, o.e), t, o.pc)
  {
    if p.TBegin? || p.TTryLock? { StopEnters(g, t, n, p, c); }
    else if p.TCheck? { StopMarks(g, t, n, p, c); }
    else if p.TJoin? { StopJoins(g, t, n, p, c); }
    else { StopEnds(g, t, n, p, c); }
  }

  lemma RefreshWaits(g: Shared, t: Tid, n: Tid, kv: Handle, dying: Chan, done: Chan, f: RefreshPc, c: Choice)
    requires Phase(g, t, Refreshing(kv, dying, done, f)) && Global(g)
    requires f.FSelect? || f.FLockStore? || f.FLockState? || f.FSnapshot? || f.FExit?
    ensures var o := RefreshStep(g, kv, dying, done, f, c); o.Moved? ==> Phase(Apply(g, t, n, o.e), t, o.pc)
  {
  }

  lemma RefreshUnlocks(g: Shared, t: Tid, n: Tid, kv: Handle, dying: Chan, done: Chan, f: RefreshPc, c: Choice)
    requires Phase(g, t, Refreshing(kv, dying, done, f)) && f.FUnlockState?
    ensures var o := RefreshStep(g, kv, dying, done, f, c); o.Moved? ==> Phase(Apply(g, t, n, o.e), t, o.pc)
  {
  }

  lemma RefreshGets(g: Shared, t: Tid, n: Tid, kv: Handle, dying: Chan, done: Chan, f: RefreshPc, c: Choice)
    requires Phase(g, t, Refreshing(kv, dying, done, f)) && f.FGet?
    ensures var o := RefreshStep(g, kv, dying, done, f, c); o.Moved? ==> Phase(Apply(g, t, n, o.e), t, o.pc)
  {
    if f.i >= |f.names| {
      assert Phase(Apply(g, t, n, DropStore), t, Refreshing(kv, dying, done, FSelect));
      return;
    }
  }

  lemma RefreshPuts(g: Shared, t: Tid, n: Tid, kv: Handle, dying: Chan, done: Chan, f: RefreshPc, c: Choice)
    requires Phase(g, t, Refreshing(kv, dying, done, f)) && Global(g)
    requires f.FPut?
    ensures var o := RefreshStep(g, kv, dying, done, f, c); o.Moved? ==> Phase(Apply(g, t, n, o.e), t, o.pc)
  {
    if c.StoreFails? || c.NotAFile? { return; }
  }

  lemma RefreshPhase(g: Shared, t: Tid, n: Tid, kv: Handle, dying: Chan, done: Chan, f: RefreshPc, c: Choice)
    requires Local(g, t, Refreshing(kv, dying, done, f)) && Good(g, t, n, t)
    ensures var o := RefreshStep(g, kv, dying, done, f, c); o.Moved? ==> Phase(Apply(g, t, n, o.e), t, o.pc)
  {
    if f.FSelect? || f.FLockStore? || f.FLockState? || f.FSnapshot? || f.FExit? {
      RefreshWaits(g, t, n, kv, dying, done, f, c);
    }
    else if f.FUnlockState? { RefreshUnlocks(g, t, n, kv, dying, done, f, c); }
    else if f.FGet? { RefreshGets(g, t, n, kv, dying, done, f, c); }
    else { RefreshPuts(g, t, n, kv, dying, done, f, c); }
  }

  lemma CleanWaits(g: Shared, t: Tid, n: Tid, a: Chan, refreshDone: Option<Chan>, k: CleanPc, c: Choice)
    requires Phase(g, t, Cleaning(a, refreshDone, k)) && Global(g)
    requires k.CWait? || k.CLockStore? || k.CLockState? || k.CSnapshot?
    ensures var o := CleanStep(g, a, refreshDone, k, c); o.Moved? ==> Phase(Apply(g, t, n, o.e), t, o.pc)
  {
  }

  lemma CleanSnapshots(g: Shared, t: Tid, n: Tid, a: Chan, refreshDone: Option<Chan>, k: CleanPc, c: Choice)
    requires Phase(g, t, Cleaning(a, refreshDone, k)) && Global(g)
    requires k.CUnlockState?
    ensures var o := CleanStep(g, a, refreshDone, k, c); o.Moved? ==> Phase(Apply(g, t, n, o.e), t, o.pc)
  {
  }

  lemma CleanChecks(g: Shared, t: Tid, n: Tid, a: Chan, refreshDone: Option<Chan>, k: CleanPc, c: Choice)
    requires Phase(g, t, Cleaning(a, refreshDone, k)) && t < n
    requires k.CExists?
    ensures var o := CleanStep(g, a, refreshDone, k, c); o.Moved? ==> Phase(Apply(g, t, n, o.e), t, o.pc)
  {
  }

  lemma DeleteScans(g: Shared, t: Tid, n: Tid, names: seq<string>, i: nat, failed: bool)
    requires Scanned(g, names, i, failed) && i < |names|
    ensures Scanned(Apply(g, t, n, DeleteNode(names[i])), names, i + 1, failed)
  {
  }

  lemma CleanDeletes(g: Shared, t: Tid, n: Tid, a: Chan, refreshDone: Option<Chan>, k: CleanPc, c: Choice)
    requires Phase(g, t, Cleaning(a, refreshDone, k)) && t < n
    requires k.CDelete?
    ensures var o := CleanStep(g, a, refreshDone, k, c); o.Moved? ==> Phase(Apply(g, t, n, o.e), t, o.pc)
  {
    DeleteScans(g, t, n, k.names, k.i, k.failed);
    if c.StoreFails? || c.NotAFile? {
      assert Scanned(g, k.names, k.i + 1, true);
      return;
    }
  }

  lemma CleanCloses(g: Shared, t: Tid, n: Tid, a: Chan, refreshDone: Option<Chan>, k: CleanPc, c: Choice)
    requires Phase(g, t, Cleaning(a, refreshDone, k)) && t < n
    requires k.CClose?
    ensures var o := CleanStep(g, a, refreshDone, k, c); o.Moved? ==> Phase(Apply(g, t, n, o.e), t, o.pc)
  {
  }

  lemma CleanReports(g: Shared, t: Tid, n: Tid, a: Chan, refreshDone: Option<Chan>, k: CleanPc, c: Choice)
    requires Phase(g, t, Cleaning(a, refreshDone, k)) && t < n
    requires k.CUnlockStore? || k.CLockLife?
    ensures var o := CleanStep(g, a, refreshDone, k, c); o.Moved? ==> Phase(Apply(g, t, n, o.e), t, o.pc)
  {
  }

  lemma CleanPublishes(g: Shared, t: Tid, n: Tid, a: Chan, refreshDone: Option<Chan>, k: CleanPc, c: Choice)
    requires Phase(g, t, Cleaning(a, refreshDone, k)) && Global(g)
    requires k.CPublish?
    ensures var o := CleanStep(g, a, refreshDone, k, c); o.Moved? ==> Phase(Apply(g, t, n, o.e), t, o.pc)
  {
  }

  lemma CleanSignals(g: Shared, t: Tid, n: Tid, a: Chan, refreshDone: Option<Chan>, k: CleanPc, c: Choice)
    requires Phase(g, t, Cleaning(a, refreshDone, k)) && k.CSignal? && g.stopAttempt.None?
    ensures var o := CleanStep(g, a, refreshDone, k, c); o.Moved? ==> Phase(Apply(g, t, n, o.e), t, o.pc)
  {
  }

  lemma CleanEnds(g: Shared, t: Tid, n: Tid, a: Chan, refreshDone: Option<Chan>, k: CleanPc, c: Choice)
    requires Local(g, t, Cleaning(a, refreshDone, k)) && Global(g) && k.CUnlockLife?
    ensures var o := CleanStep(g, a, refreshDone, k, c); o.Moved? ==> Phase(Apply(g, t, n, o.e), t, o.pc)
  {
  }

  lemma CleanPhase(g: Shared, t: Tid, n: Tid, a: Chan, refreshDone: Option<Chan>, k: CleanPc, c: Choice)
    requires Local(g, t, Cleaning(a, refreshDone, k)) && Good(g, t, n, t)
    ensures var o := CleanStep(g, a, refreshDone, k, c); o.Moved? ==> Phase(Apply(g, t, n, o.e), t, o.pc)
  {
    if k.CWait? || k.CLockStore? || k.CLockState? || k.CSnapshot? { CleanWaits(g, t, n, a, refreshDone, k, c); }
    else if k.CUnlockState? { CleanSnapshots(g, t, n, a, refreshDone, k, c); }
    else if k.CExists? { CleanChecks(g, t, n, a, refreshDone, k, c); }
    else if k.CDelete? { CleanDeletes(g, t, n, a, refreshDone, k, c); }
    else if k.CClose? { CleanCloses(g, t, n, a, refreshDone, k, c); }
    else if k.CUnlockStore? || k.CLockLife? { CleanReports(g, t, n, a, refreshDone, k, c); }
    else if k.CPublish? { CleanPublishes(g, t, n, a, refreshDone, k, c); }
    else if k.CSignal? { CleanSignals(g, t, n, a, refreshDone, k, c); }
    else { CleanEnds(g, t, n, a, refreshDone, k, c); }
  }

  // ---------------------------------------------------------------- the whole system

  ghost predicate Inv(s: State) {
    && Global(s.g) && Bounds(s.g, |s.threads|)
    && forall t :: 0 <= t < |s.threads| ==> Local(s.g, t, s.threads[t])
  }

  /** A step of goroutine t at pc does not panic, and its effect is one it may have. */
  lemma StepProper(g: Shared, t: Tid, n: Tid, pc: Pc, c: Choice)
    requires Good(g, t, n, t) && Local(g, t, pc)
    ensures Proper(g, t, ThreadStep(g, n, pc, c))
  {
    match pc {
      case Starting(s) => StartProper(g, t, n, s, c);
      case Registering(name, meta, r) => RegisterProper(g, t, n, name, meta, r, c);
      case Unregistering(name, w) => UnregisterProper(g, t, n, name, w, c);
      case Stopping(p) => StopProper(g, t, n, p, c);
      case Refreshing(kv, dying, done, f) => RefreshProper(g, t, n, kv, dying, done, f, c);
      case Cleaning(a, refreshDone, k) => CleanProper(g, t, n, a, refreshDone, k, c);
      case _ =>
    }
  }

  lemma StepFollows(g: Shared, n: Tid, pc: Pc, c: Choice)
    ensures var o := ThreadStep(g, n, pc, c);
            o.Moved? ==> ProfileOf(o.pc) == Advance(ProfileOf(pc), o.e)
  {
    match pc {
      case Starting(s) => StartFollows(g, s, c);
      case Registering(name, meta, r) => RegisterFollows(g, name, meta, r, c);
      case Unregistering(name, w) => UnregisterFollows(g, name, w, c);
      case Stopping(p) => StopFollows(g, n, p, c);
      case Refreshing(kv, dying, done, f) => RefreshFollows(g, kv, dying, done, f, c);
      case Cleaning(a, refreshDone, k) => CleanFollows(g, a, refreshDone, k, c);
      case _ =>
    }
  }

  lemma StepPhase(g: Shared, t: Tid, n: Tid, pc: Pc, c: Choice)
    requires Good(g, t, n, t) && Local(g, t, pc)
    ensures var o := ThreadStep(g, n, pc, c); o.Moved? ==> Phase(Apply(g, t, n, o.e), t, o.pc)
  {
    match pc {
      case Starting(s) => StartPhase(g, t, n, s, c);
      case Registering(name, meta, r) => RegisterPhase(g, t, n, name, meta, r, c);
      case Unregistering(name, w) => UnregisterPhase(g, t, n, name, w, c);
      case Stopping(p) => StopPhase(g, t, n, p, c);
      case Refreshing(kv, dying, done, f) => RefreshPhase(g, t, n, kv, dying, done, f, c);
      case Cleaning(a, refreshDone, k) => CleanPhase(g, t, n, a, refreshDone, k, c);
      case _ =>
    }
  }

  /** The goroutine that moved stands where it should. */
  lemma MoverPlaced(g: Shared, t: Tid, n: Tid, pc: Pc, c: Choice)
    requires Good(g, t, n, t) && Local(g, t, pc)
    ensures var o := ThreadStep(g, n, pc, c); o.Moved? ==> Local(Apply(g, t, n, o.e), t, o.pc)
  {
    var o := ThreadStep(g, n, pc, c);
    if o.Moved? {
      StepProper(g, t, n, pc, c);
      StepFollows(g, n, pc, c);
      AdvanceFitsLocks(g, t, n, ProfileOf(pc), o.e);
      AdvanceFitsJobs(g, t, n, ProfileOf(pc), o.e);
      AdvanceFitsAttempts(g, t, n, ProfileOf(pc), o.e);
      StepPhase(g, t, n, pc, c);
    }
  }

  /** So does the refresh goroutine a Start launches ... */
  lemma RefresherPlaced(g: Shared, t: Tid, n: Tid, c: Choice)
    requires Good(g, t, n, t) && Local(g, t, Starting(SLaunch)) && g.cfg.refreshing
    requires g.kv.Some? && g.dying.Some? && g.done.Some?
    ensures Local(Apply(g, t, n, Launch), n, Refreshing(g.kv.value, g.dying.value, g.done.value, FSelect))
  {
  }

  /** ... and the attempt a Stop begins. */
  lemma WorkerPlaced(g: Shared, t: Tid, n: Tid, c: Choice)
    requires Good(g, t, n, t) && Local(g, t, Stopping(TJoin)) && g.stopAttempt.None?
    ensures Local(Apply(g, t, n, NewAttempt), n, Cleaning(g.nextChan, g.done, CWait))
  {
  }

  /** Only a Start's launch and a Stop that joins no attempt start a goroutine. */
  lemma WhoSpawns(g: Shared, n: Tid, pc: Pc, c: Choice)
    requires ThreadStep(g, n, pc, c).Moved? && ThreadStep(g, n, pc, c).spawned != []
    ensures pc == Starting(SLaunch) || pc == Stopping(TJoin)
  {
    match pc {
      case Starting(_) =>
      case Registering(_, _, _) =>
      case Unregistering(_, _) =>
      case Stopping(_) =>
      case Refreshing(_, _, _, _) =>
      case Cleaning(_, _, _) =>
    }
  }

  lemma ChildPlaced(g: Shared, t: Tid, n: Tid, pc: Pc, c: Choice)
    requires Good(g, t, n, t) && Local(g, t, pc)
    requires ThreadStep(g, n, pc, c).Moved? && ThreadStep(g, n, pc, c).spawned != []
    ensures var o := ThreadStep(g, n, pc, c); Local(Apply(g, t, n, o.e), n, o.spawned[0])
  {
    WhoSpawns(g, n, pc, c);
    if pc == Starting(SLaunch) { RefresherPlaced(g, t, n, c); } else { WorkerPlaced(g, t, n, c); }
  }

  lemma OtherPlaced(g: Shared, t: Tid, n: Tid, e: Effect, u: Tid, pc: Pc)
    requires Good(g, t, n, u) && Allowed(g, t, e) && u != t && Local(g, u, pc)
    ensures Local(Apply(g, t, n, e), u, pc)
  {
    EffectKept(g, t, n, e, u);
    Stable(g, Apply(g, t, n, e), t, u, pc);
  }

  lemma OthersPlaced(s: State, t: Tid, e: Effect)
    requires Inv(s) && t < |s.threads| && Allowed(s.g, t, e)
    ensures forall u :: 0 <= u < |s.threads| && u != t ==> Local(Apply(s.g, t, |s.threads|, e), u, s.threads[u])
  {
    forall u | 0 <= u < |s.threads| && u != t ensures Local(Apply(s.g, t, |s.threads|, e), u, s.threads[u]) {
      OtherPlaced(s.g, t, |s.threads|, e, u, s.threads[u]);
    }
  }

  /** Everybody fits: the mover, the goroutine it started, the others. */
  lemma ThreadsPlaced(g: Shared, threads: seq<Pc>, t: Tid, pc: Pc, spawned: seq<Pc>)
    requires t < |threads| && |spawned| <= 1 && Local(g, t, pc)
    requires spawned != [] ==> Local(g, |threads|, spawned[0])
    requires forall u :: 0 <= u < |threads| && u != t ==> Local(g, u, threads[u])
    ensures var threads' := threads[t := pc] + spawned; forall u :: 0 <= u < |threads'| ==> Local(g, u, threads'[u])
  {
  }

  lemma RunKeepsInv(s: State, t: Tid, c: Choice)
    requires Inv(s) && t < |s.threads| && Next(s, Run(t, c)).Some?
    ensures Inv(Next(s, Run(t, c)).value)
  {
    var n := |s.threads|;
    var o := ThreadStep(s.g, n, s.threads[t], c);
    assert Local(s.g, t, s.threads[t]);
    StepProper(s.g, t, n, s.threads[t], c);
    EffectKept(s.g, t, n, o.e, t);
    MoverPlaced(s.g, t, n, s.threads[t], c);
    if o.spawned != [] { ChildPlaced(s.g, t, n, s.threads[t], c); }
    var g' := Apply(s.g, t, n, o.e);
    OthersPlaced(s, t, o.e);
    ThreadsPlaced(g', s.threads, t, o.pc, o.spawned);
  }

  /** A caller that has just arrived holds nothing. */
  lemma CallerPlaced(g: Shared, n: Tid, op: Op)
    requires Global(g) && Bounds(g, n)
    ensures Local(g, n, Entry(op))
  {
    match op
    case OpStart => return;
    case OpStop => return;
    case OpRegister(_, _) => return;
    case OpUnregister(_) => return;
  }

  lemma CallKeepsInv(s: State, op: Op)
    requires Inv(s)
    ensures Inv(Next(s, Call(op)).value)
  {
    CallerPlaced(s.g, |s.threads|, op);
  }

  /** An expiring node disturbs nobody. */
  lemma ExpireStable(g: Shared, name: string, u: Tid, pc: Pc)
    requires Global(g) && Local(g, u, pc)
    ensures Global(g.(nodes := g.nodes - {name})) && Local(g.(nodes := g.nodes - {name}), u, pc)
  {
  }

  lemma ExpireKeepsInv(s: State, name: string)
    requires Inv(s)
    ensures Inv(Next(s, Expire(name)).value)
  {
    var g' := s.g.(nodes := s.g.nodes - {name});
    assert Global(g') by {
      assert forall n :: n in g'.nodes ==> n in s.g.nodes;
    }
    forall u | 0 <= u < |s.threads| ensures Local(g', u, s.threads[u]) {
      ExpireStable(s.g, name, u, s.threads[u]);
    }
  }

  lemma NextKeepsInv(s: State, m: Move)
    requires Inv(s) && Next(s, m).Some?
    ensures Inv(Next(s, m).value)
  {
    match m {
      case Call(op) => CallKeepsInv(s, op);
      case Run(t, c) => RunKeepsInv(s, t, c);
      case Expire(name) => ExpireKeepsInv(s, name);
    }
  }
}
