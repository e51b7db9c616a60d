/**
 The lifecycle of the Redis register plugin, as a step system.

 A state is what the plugin's goroutines share (`Shared`) plus one program
 counter per goroutine.  Every goroutine - a caller of Start, Register,
 Unregister or Stop, the refresh goroutine, a background stop attempt - moves
 one small step at a time: it takes or gives back one lock, performs one store
 operation, or closes one channel.  A schedule interleaves the goroutines in
 any order and picks the outcome of every store call and timer.

 Service nodes are keyed by service name; the directory markers that Register
 and Start write live in a separate set.
 */
module RedisRegistry {
  import opened Wrappers

  type Tid = nat
  type Chan = nat
  type Handle = nat

  /** What the plugin was configured with: a non-blank BasePath, a positive UpdateInterval. */
  datatype Config = Config(validBasePath: bool, refreshing: bool)

  datatype Op = OpStart | OpStop | OpRegister(name: string, meta: string) | OpUnregister(name: string)

  datatype Result = Nil | Stopped | TimedOut | Failed

  datatype Dir = Root | Service(name: string)

  /** A stop attempt: its done channel and the goroutine that runs it. */
  datatype Attempt = Attempt(done: Chan, worker: Tid)

  datatype StartPc =
    | SBegin | SLock | SCheck | SConnect | SPutRoot | SDropHandle | SAbort | SLaunch
    | SReturn(r: Result)

  datatype RegisterPc =
    | GBegin | GLock | GCheck | GConnect | GLockStore | GPutRoot | GPutDir | GPutNode
    | GLockState | GDrain | GRecord | GUnlockState
    | GUnlockStore(r: Result) | GReturn(r: Result)

  datatype UnregisterPc =
    | UBegin | ULock | UCheck | ULockCount | UCount | UUnlockCount(count: nat)
    | UConnect | ULockStore | UPutRoot | UPutDir | UDelete
    | ULockState | UDrain | UForget | UUnlockState
    | UUnlockStore(r: Result, deleted: bool) | UReturn(r: Result, deleted: bool)

  datatype StopPc =
    | TBegin | TTryLock | TCheck | TJoin
    | TUnlock(a: Attempt) | TWait(a: Attempt) | TReturnNil

  datatype RefreshPc =
    | FSelect | FLockStore | FLockState | FSnapshot
    | FUnlockState(names: seq<string>, metas: map<string, string>)
    | FGet(names: seq<string>, metas: map<string, string>, i: nat)
    | FPut(names: seq<string>, metas: map<string, string>, i: nat, value: string)
    | FExit

  datatype CleanPc =
    | CWait | CLockStore | CLockState | CSnapshot
    | CUnlockState(names: seq<string>)
    | CExists(names: seq<string>, i: nat, failed: bool)
    | CDelete(names: seq<string>, i: nat, failed: bool)
    | CClose
    | CUnlockStore(r: Result) | CLockLife(r: Result) | CPublish(r: Result) | CSignal(r: Result)
    | CUnlockLife(r: Result)

  datatype Pc =
    | Starting(s: StartPc)
    | Registering(name: string, meta: string, g: RegisterPc)
    | Unregistering(name: string, u: UnregisterPc)
    | Stopping(p: StopPc)
    | Refreshing(kv: Handle, dying: Chan, done: Chan, f: RefreshPc)
    | Cleaning(attempt: Chan, refreshDone: Option<Chan>, c: CleanPc)
    | Returned(op: Op, r: Result, deleted: bool)
    | Exited

  /**
   The fields of the plugin, the three locks with their owners, the channels
   closed so far and the store.  The last five fields are bookkeeping that no
   step reads: who the refresh goroutine is, whether a failed Start closed the
   last handle, whether a Start still owes a close of `done`, which attempt has
   published its result without having closed its channel yet, and which
   Register has written its node without having recorded the service yet.
   */
  datatype Shared = Shared(
    cfg: Config,
    stopRequested: bool,
    started: bool,
    stopped: bool,
    stopComplete: bool,
    stopAttempt: Option<Attempt>,
    attemptErr: map<Chan, Result>,
    kv: Option<Handle>,
    dying: Option<Chan>,
    done: Option<Chan>,
    services: seq<string>,
    metas: map<string, string>,
    lifecycleLock: Option<Tid>,
    storeLock: Option<Tid>,
    stateWriter: Option<Tid>,
    stateReaders: set<Tid>,
    nextChan: Chan,
    closedChans: set<Chan>,
    nextHandle: Handle,
    closedHandles: set<Handle>,
    dirs: set<Dir>,
    nodes: map<string, string>,
    refresher: Option<Tid>,
    dropped: bool,
    doneOwed: bool,
    signalling: Option<Attempt>,
    unrecorded: Option<(Tid, string)>)

  datatype State = State(g: Shared, threads: seq<Pc>)

  /** How the environment answers a step: the store call works or fails, a timer fires. */
  datatype Choice = Proceed | StoreFails | NotAFile | TimerFires | Value(v: string)

  /** What one step does to the shared state. */
  datatype Effect =
    | Nothing
    | TakeLifecycle | DropLifecycle | TakeStore | DropStore
    | TakeReader | DropReader | TakeWriter | DropWriter
    | RequestStop
    | MakeChans
    | MarkDir(d: Dir)
    | OpenHandle
    | CloseKv(byStart: bool)
    | CloseDone(starts: bool)
    | Launch
    | WriteNode(name: string, meta: string)
    | Record(name: string, meta: string)
    | DeleteNode(name: string)
    | Forget(name: string)
    | MarkStopped
    | NewAttempt
    | RefreshNode(name: string, value: string)
    | EndRefresh(done: Chan)
    | Report(a: Chan, r: Result)
    | Publish(a: Chan, r: Result)
    | Signal(a: Chan)

  /** One step of one goroutine; Panics covers what Go panics on: closing a closed or nil
      channel, calling a nil store, unlocking a free mutex, a negative slice capacity. */
  datatype Outcome =
    | Blocked
    | Panics
    | Moved(e: Effect, pc: Pc, spawned: seq<Pc>)

  // ---------------------------------------------------------------- effects on the shared state

  /** The services other than name, in order. */
  function Without(names: seq<string>, name: string): (r: seq<string>)
    ensures forall n :: n in r <==> n in names && n != name
  {
    if names == [] then []
    else
      var rest := Without(names[1..], name);
      if names[0] == name then rest else [names[0]] + rest
  }

  function Closing(g: Shared, c: Option<Chan>): set<Chan> {
    if c.None? then g.closedChans else g.closedChans + {c.value}
  }

  /** The shared state after goroutine t had effect e; child is the id of a goroutine it started. */
  function Apply(g: Shared, t: Tid, child: Tid, e: Effect): Shared {
    match e
    case Nothing => g
    case TakeLifecycle => g.(lifecycleLock := Some(t))
    case DropLifecycle => g.(lifecycleLock := None)
    case TakeStore => g.(storeLock := Some(t))
    case DropStore => g.(storeLock := None)
    case TakeReader => g.(stateReaders := g.stateReaders + {t})
    case DropReader => g.(stateReaders := g.stateReaders - {t})
    case TakeWriter => g.(stateWriter := Some(t))
    case DropWriter => g.(stateWriter := None)
    case RequestStop => g.(stopRequested := true)
    case MakeChans =>
      g.(done := Some(g.nextChan), dying := Some(g.nextChan + 1), nextChan := g.nextChan + 2, doneOwed := true)
    case MarkDir(d) => g.(dirs := g.dirs + {d})
    case OpenHandle => g.(kv := Some(g.nextHandle), nextHandle := g.nextHandle + 1, dropped := false)
    case CloseKv(byStart) =>
      g.(kv := None, dropped := byStart,
         closedHandles := if g.kv.None? then g.closedHandles else g.closedHandles + {g.kv.value})
    case CloseDone(starts) =>
      g.(started := g.started || starts, doneOwed := false, closedChans := Closing(g, g.done))
    case Launch => g.(started := true, refresher := Some(child), doneOwed := false)
    case WriteNode(name, meta) => g.(nodes := g.nodes[name := meta], unrecorded := Some((t, name)))
    case Record(name, meta) =>
      g.(services := g.services + [name], metas := g.metas[name := meta], unrecorded := None)
    case DeleteNode(name) => g.(nodes := g.nodes - {name})
    case Forget(name) => g.(services := Without(g.services, name), metas := g.metas - {name})
    case MarkStopped => g.(stopped := true, started := false, closedChans := Closing(g, g.dying))
    case NewAttempt => g.(stopAttempt := Some(Attempt(g.nextChan, child)), nextChan := g.nextChan + 1)
    case RefreshNode(name, value) => g.(nodes := g.nodes[name := value])
    case EndRefresh(done) => g.(refresher := None, closedChans := g.closedChans + {done})
    case Report(a, r) => g.(attemptErr := g.attemptErr[a := r], storeLock := None)
    case Publish(a, r) =>
      g.(stopComplete := g.stopComplete || r.Nil?,
         stopAttempt := if g.stopAttempt == Some(Attempt(a, t)) then None else g.stopAttempt,
         signalling := Some(Attempt(a, t)))
    case Signal(a) => g.(signalling := None, closedChans := g.closedChans + {a})
  }

  // ---------------------------------------------------------------- steps the operations share

  predicate IsSpace(c: char) {
    c == ' ' || '\t' <= c <= '\r' || c == '\U{85}' || c == '\U{A0}' || c == '\U{1680}' ||
    '\U{2000}' <= c <= '\U{200A}' || c == '\U{2028}' || c == '\U{2029}' || c == '\U{202F}' ||
    c == '\U{205F}' || c == '\U{3000}'
  }

  /** strings.TrimSpace(name) == "" */
  predicate Blank(name: string) {
    forall i :: 0 <= i < |name| ==> IsSpace(name[i])
  }

  function Go(e: Effect, pc: Pc): Outcome {
    Moved(e, pc, [])
  }

  function LockLifecycle(g: Shared, pc: Pc): Outcome {
    if g.lifecycleLock.Some? then Blocked else Go(TakeLifecycle, pc)
  }

  function UnlockLifecycle(g: Shared, pc: Pc): Outcome {
    if g.lifecycleLock.None? then Panics else Go(DropLifecycle, pc)
  }

  function LockStore(g: Shared, pc: Pc): Outcome {
    if g.storeLock.Some? then Blocked else Go(TakeStore, pc)
  }

  function UnlockStore(g: Shared, pc: Pc): Outcome {
    if g.storeLock.None? then Panics else Go(DropStore, pc)
  }

  function RLock(g: Shared, pc: Pc): Outcome {
    if g.stateWriter.Some? then Blocked else Go(TakeReader, pc)
  }

  function RUnlock(g: Shared, pc: Pc): Outcome {
    if g.stateReaders == {} then Panics else Go(DropReader, pc)
  }

  /** Lock, first half: the writer announces itself, and from then on nobody else gets in ... */
  function WLock(g: Shared, pc: Pc): Outcome {
    if g.stateWriter.Some? then Blocked else Go(TakeWriter, pc)
  }

  /** ... second half: it waits until the readers that were in have left. */
  function Drain(g: Shared, pc: Pc): Outcome {
    if g.stateReaders != {} then Blocked else Go(Nothing, pc)
  }

  function WUnlock(g: Shared, pc: Pc): Outcome {
    if g.stateWriter.None? then Panics else Go(DropWriter, pc)
  }

  /** close(c) as part of effect e */
  function CloseChan(g: Shared, c: Option<Chan>, e: Effect, pc: Pc): Outcome {
    if c.None? || c.value in g.closedChans then Panics else Go(e, pc)
  }

  /** libkv.NewStore */
  function Connect(c: Choice, ok: Pc, fail: Pc): Outcome {
    if c.StoreFails? then Go(Nothing, fail) else Go(OpenHandle, ok)
  }

  /** kv.Put of a directory marker; the error "Not a file" counts as success. */
  function PutDir(g: Shared, d: Dir, c: Choice, ok: Pc, fail: Pc): Outcome {
    if g.kv.None? then Panics
    else if c.StoreFails? then Go(Nothing, fail)
    else if c.NotAFile? then Go(Nothing, ok)
    else Go(MarkDir(d), ok)
  }

  /** A call of p.kv that has effect e when it works. */
  function CallStore(g: Shared, c: Choice, e: Effect, ok: Pc, fail: Pc): Outcome {
    if g.kv.None? then Panics
    else if c.StoreFails? || c.NotAFile? then Go(Nothing, fail)
    else Go(e, ok)
  }

  // ---------------------------------------------------------------- Start

  function StartStep(g: Shared, s: StartPc, c: Choice): Outcome {
    match s
    case SBegin =>
      Go(Nothing, if g.stopRequested then Returned(OpStart, Stopped, false) else Starting(SLock))
    case SLock => LockLifecycle(g, Starting(SCheck))
    case SCheck =>
      if g.stopRequested || g.stopped then Go(Nothing, Starting(SReturn(Stopped)))
      else if g.started then Go(Nothing, Starting(SReturn(Nil)))
      else if !g.cfg.validBasePath then Go(Nothing, Starting(SReturn(Failed)))
      else Go(MakeChans, Starting(if g.kv.None? then SConnect else SPutRoot))
    case SConnect => Connect(c, Starting(SPutRoot), Starting(SAbort))
    case SPutRoot => PutDir(g, Root, c, Starting(SLaunch), Starting(SDropHandle))
    case SDropHandle => if g.kv.None? then Panics else Go(CloseKv(true), Starting(SAbort))
    case SAbort => CloseChan(g, g.done, CloseDone(false), Starting(SReturn(Failed)))
    case SLaunch =>
      if !g.cfg.refreshing then CloseChan(g, g.done, CloseDone(true), Starting(SReturn(Nil)))
      else if g.kv.None? || g.dying.None? || g.done.None? then Panics
      else Moved(Launch, Starting(SReturn(Nil)),
                 [Refreshing(g.kv.value, g.dying.value, g.done.value, FSelect)])
    case SReturn(r) => UnlockLifecycle(g, Returned(OpStart, r, false))
  }

  // ---------------------------------------------------------------- Register

  function RegisterStep(g: Shared, name: string, meta: string, r: RegisterPc, c: Choice): Outcome {
    match r
    case GBegin =>
      Go(Nothing,
         if Blank(name) then Returned(OpRegister(name, meta), Failed, false)
         else if g.stopRequested then Returned(OpRegister(name, meta), Stopped, false)
         else Registering(name, meta, GLock))
    case GLock => LockLifecycle(g, Registering(name, meta, GCheck))
    case GCheck =>
      Go(Nothing, Registering(name, meta,
         if g.stopRequested || g.stopped then GReturn(Stopped)
         else if !g.cfg.validBasePath then GReturn(Failed)
         else if g.kv.None? then GConnect else GLockStore))
    case GConnect => Connect(c, Registering(name, meta, GLockStore), Registering(name, meta, GReturn(Failed)))
    case GLockStore => LockStore(g, Registering(name, meta, GPutRoot))
    case GPutRoot =>
      PutDir(g, Root, c, Registering(name, meta, GPutDir), Registering(name, meta, GUnlockStore(Failed)))
    case GPutDir =>
      PutDir(g, Service(name), c, Registering(name, meta, GPutNode), Registering(name, meta, GUnlockStore(Failed)))
    case GPutNode =>
      CallStore(g, c, WriteNode(name, meta),
                Registering(name, meta, GLockState), Registering(name, meta, GUnlockStore(Failed)))
    case GLockState => WLock(g, Registering(name, meta, GDrain))
    case GDrain => Drain(g, Registering(name, meta, GRecord))
    case GRecord => Go(Record(name, meta), Registering(name, meta, GUnlockState))
    case GUnlockState => WUnlock(g, Registering(name, meta, GUnlockStore(Nil)))
    case GUnlockStore(r) => UnlockStore(g, Registering(name, meta, GReturn(r)))
    case GReturn(r) => UnlockLifecycle(g, Returned(OpRegister(name, meta), r, false))
  }

  // ---------------------------------------------------------------- Unregister

  function UnregisterStep(g: Shared, name: string, u: UnregisterPc, c: Choice): Outcome {
    match u
    case UBegin =>
      Go(Nothing, if g.stopRequested then Returned(OpUnregister(name), Nil, false) else Unregistering(name, ULock))
    case ULock => LockLifecycle(g, Unregistering(name, UCheck))
    case UCheck =>
      Go(Nothing, Unregistering(name, if g.stopRequested || g.stopped then UReturn(Nil, false) else ULockCount))
    case ULockCount => RLock(g, Unregistering(name, UCount))
    case UCount => Go(Nothing, Unregistering(name, UUnlockCount(|g.services|)))
    case UUnlockCount(count) =>
      RUnlock(g, Unregistering(name,
        if count == 0 then UReturn(Nil, false)
        else if Blank(name) then UReturn(Failed, false)
        else if g.kv.None? then UConnect else ULockStore))
    case UConnect => Connect(c, Unregistering(name, ULockStore), Unregistering(name, UReturn(Failed, false)))
    case ULockStore => LockStore(g, Unregistering(name, UPutRoot))
    case UPutRoot =>
      PutDir(g, Root, c, Unregistering(name, UPutDir), Unregistering(name, UUnlockStore(Failed, false)))
    case UPutDir =>
      PutDir(g, Service(name), c, Unregistering(name, UDelete), Unregistering(name, UUnlockStore(Failed, false)))
    case UDelete =>
      CallStore(g, c, DeleteNode(name),
                Unregistering(name, ULockState), Unregistering(name, UUnlockStore(Failed, false)))
    case ULockState => WLock(g, Unregistering(name, UDrain))
    case UDrain => Drain(g, Unregistering(name, UForget))
    case UForget => if |g.services| == 0 then Panics else Go(Forget(name), Unregistering(name, UUnlockState))
    case UUnlockState => WUnlock(g, Unregistering(name, UUnlockStore(Nil, true)))
    case UUnlockStore(r, deleted) => UnlockStore(g, Unregistering(name, UReturn(r, deleted)))
    case UReturn(r, deleted) => UnlockLifecycle(g, Returned(OpUnregister(name), r, deleted))
  }

  // ---------------------------------------------------------------- Stop

  function StopStep(g: Shared, child: Tid, p: StopPc, c: Choice): Outcome {
    match p
    case TBegin => Go(RequestStop, Stopping(TTryLock))
    case TTryLock =>
      if g.lifecycleLock.None? then Go(TakeLifecycle, Stopping(TCheck))
      else if c.TimerFires? then Go(Nothing, Returned(OpStop, TimedOut, false))
      else Blocked
    case TCheck =>
      if g.stopComplete then Go(Nothing, Stopping(TReturnNil))
      else if g.stopped then Go(Nothing, Stopping(TJoin))
      else if g.dying.None? then Go(MarkStopped, Stopping(TJoin))
      else CloseChan(g, g.dying, MarkStopped, Stopping(TJoin))
    case TJoin =>
      if g.stopAttempt.Some? then Go(Nothing, Stopping(TUnlock(g.stopAttempt.value)))
      else Moved(NewAttempt, Stopping(TUnlock(Attempt(g.nextChan, child))), [Cleaning(g.nextChan, g.done, CWait)])
    case TUnlock(a) => UnlockLifecycle(g, Stopping(TWait(a)))
    case TWait(a) =>
      if a.done in g.closedChans then
        Go(Nothing, Returned(OpStop, if a.done in g.attemptErr then g.attemptErr[a.done] else Nil, false))
      else if c.TimerFires? then Go(Nothing, Returned(OpStop, TimedOut, false))
      else Blocked
    case TReturnNil => UnlockLifecycle(g, Returned(OpStop, Nil, false))
  }

  // ---------------------------------------------------------------- the refresh goroutine

  /** What a refresh writes: the value read back with fresh metrics, or the registered metadata
      when the node could not be read. */
  function RefreshValue(g: Shared, name: string, metas: map<string, string>, c: Choice): string {
    if c.Value? && name in g.nodes then c.v
    else if name in metas then metas[name] else ""
  }

  function RefreshStep(g: Shared, kv: Handle, dying: Chan, done: Chan, f: RefreshPc, c: Choice): Outcome {
    match f
    case FSelect =>
      if c.TimerFires? then Go(Nothing, Refreshing(kv, dying, done, FLockStore))
      else if dying in g.closedChans then Go(Nothing, Refreshing(kv, dying, done, FExit))
      else Blocked
    case FLockStore => LockStore(g, Refreshing(kv, dying, done, FLockState))
    case FLockState => RLock(g, Refreshing(kv, dying, done, FSnapshot))
    case FSnapshot => Go(Nothing, Refreshing(kv, dying, done, FUnlockState(g.services, g.metas)))
    case FUnlockState(names, metas) => RUnlock(g, Refreshing(kv, dying, done, FGet(names, metas, 0)))
    case FGet(names, metas, i) =>
      if i >= |names| then UnlockStore(g, Refreshing(kv, dying, done, FSelect))
      else Go(Nothing, Refreshing(kv, dying, done, FPut(names, metas, i, RefreshValue(g, names[i], metas, c))))
    case FPut(names, metas, i, value) =>
      if i >= |names| then Panics
      else Go(if c.StoreFails? || c.NotAFile? then Nothing else RefreshNode(names[i], value),
              Refreshing(kv, dying, done, FGet(names, metas, i + 1)))
    case FExit => CloseChan(g, Some(done), EndRefresh(done), Exited)
  }

  // ---------------------------------------------------------------- a stop attempt

  function CleanStep(g: Shared, a: Chan, refreshDone: Option<Chan>, k: CleanPc, c: Choice): Outcome {
    match k
    case CWait =>
      if refreshDone.None? || refreshDone.value in g.closedChans
      then Go(Nothing, Cleaning(a, refreshDone, CLockStore)) else Blocked
    case CLockStore => LockStore(g, Cleaning(a, refreshDone, CLockState))
    case CLockState => RLock(g, Cleaning(a, refreshDone, CSnapshot))
    case CSnapshot => Go(Nothing, Cleaning(a, refreshDone, CUnlockState(g.services)))
    case CUnlockState(names) =>
      RUnlock(g, Cleaning(a, refreshDone, if g.kv.None? then CUnlockStore(Nil) else CExists(names, 0, false)))
    case CExists(names, i, failed) =>
      if i >= |names| then Go(Nothing, Cleaning(a, refreshDone, if failed then CUnlockStore(Failed) else CClose))
      else
        CallStore(g, c, Nothing,
                  Cleaning(a, refreshDone,
                           if names[i] in g.nodes then CDelete(names, i, failed) else CExists(names, i + 1, failed)),
                  Cleaning(a, refreshDone, CExists(names, i + 1, true)))
    case CDelete(names, i, failed) =>
      if i >= |names| then Panics
      else
        CallStore(g, c, DeleteNode(names[i]),
                  Cleaning(a, refreshDone, CExists(names, i + 1, failed)),
                  Cleaning(a, refreshDone, CExists(names, i + 1, true)))
    case CClose => if g.kv.None? then Panics else Go(CloseKv(false), Cleaning(a, refreshDone, CUnlockStore(Nil)))
    case CUnlockStore(r) =>
      if g.storeLock.None? then Panics else Go(Report(a, r), Cleaning(a, refreshDone, CLockLife(r)))
    case CLockLife(r) => LockLifecycle(g, Cleaning(a, refreshDone, CPublish(r)))
    case CPublish(r) => Go(Publish(a, r), Cleaning(a, refreshDone, CSignal(r)))
    case CSignal(r) => CloseChan(g, Some(a), Signal(a), Cleaning(a, refreshDone, CUnlockLife(r)))
    case CUnlockLife(_) => UnlockLifecycle(g, Exited)
  }

  // ---------------------------------------------------------------- the whole system

  /** What the goroutine standing at pc does next; child is the id a goroutine it starts would get. */
  function ThreadStep(g: Shared, child: Tid, pc: Pc, c: Choice): Outcome {
    match pc
    case Starting(s) => StartStep(g, s, c)
    case Registering(name, meta, r) => RegisterStep(g, name, meta, r, c)
    case Unregistering(name, u) => UnregisterStep(g, name, u, c)
    case Stopping(p) => StopStep(g, child, p, c)
    case Refreshing(kv, dying, done, f) => RefreshStep(g, kv, dying, done, f, c)
    case Cleaning(a, refreshDone, k) => CleanStep(g, a, refreshDone, k, c)
    case Returned(_, _, _) => Blocked
    case Exited => Blocked
  }

  /** The store handle that the step the goroutine at pc is about to take calls, if it calls one. */
  function Uses(g: Shared, pc: Pc): Option<Handle> {
    match pc
    case Starting(s) => if s.SPutRoot? || s.SDropHandle? then g.kv else None
    case Registering(_, _, r) => if r.GPutRoot? || r.GPutDir? || r.GPutNode? then g.kv else None
    case Unregistering(_, u) => if u.UPutRoot? || u.UPutDir? || u.UDelete? then g.kv else None
    case Refreshing(kv, _, _, f) =>
      if (f.FGet? && f.i < |f.names|) || f.FPut? then Some(kv) else None
    case Cleaning(_, _, k) => if (k.CExists? && k.i < |k.names|) || k.CDelete? || k.CClose? then g.kv else None
    case _ => None
  }

  function Entry(op: Op): Pc {
    match op
    case OpStart => Starting(SBegin)
    case OpStop => Stopping(TBegin)
    case OpRegister(name, meta) => Registering(name, meta, GBegin)
    case OpUnregister(name) => Unregistering(name, UBegin)
  }

  /** A schedule entry: someone calls the plugin, a goroutine steps, a node's TTL runs out. */
  datatype Move = Call(op: Op) | Run(t: Tid, c: Choice) | Expire(name: string)

  function Init(cfg: Config, connected: bool): State {
    State(Shared(cfg, false, false, false, false, None, map[],
                 if connected then Some(0) else None, None, None, [], map[],
                 None, None, None, {}, 0, {}, if connected then 1 else 0, {}, {}, map[],
                 None, false, false, None, None), [])
  }

  /** The outcome of a move; None when the move is not possible (blocked, or no such goroutine). */
  function Next(s: State, m: Move): Option<State> {
    match m
    case Call(op) => Some(State(s.g, s.threads + [Entry(op)]))
    case Expire(name) => Some(State(s.g.(nodes := s.g.nodes - {name}), s.threads))
    case Run(t, c) =>
      if t >= |s.threads| then None
      else
        var o := ThreadStep(s.g, |s.threads|, s.threads[t], c);
        if o.Moved? then Some(State(Apply(s.g, t, |s.threads|, o.e), s.threads[t := o.pc] + o.spawned)) else None
  }

  /** Runs a schedule; None when one of its moves is not possible. */
  function RunAll(s: State, moves: seq<Move>): Option<State>
    decreases |moves|
  {
    if moves == [] then Some(s)
    else
      var r := Next(s, moves[0]);
      if r.None? then None else RunAll(r.value, moves[1..])
  }

  /** The states some schedule reaches from a freshly made plugin. */
  ghost predicate Reachable(s: State) {
    exists cfg, connected, moves :: RunAll(Init(cfg, connected), moves) == Some(s)
  }
}
