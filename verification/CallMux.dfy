/**
 The client's call multiplexer, as a step system.

 Calls wait in `pending` under a sequence number.  The goroutine that sends a
 call, the caller that may cancel it, the read loop, Close and SendRaw all race
 to take entries out and to signal calls on their Done channel.  A section the
 code runs under the client's mutex without blocking is one step; Close and the
 end of the read loop, which walk over `pending` under the mutex, hold it for
 one step per entry.
 */
module CallMux {
  import opened Wrappers

  type Tid = nat
  type CallId = nat

  /** client.seq is a uint64. */
  const SEQ_SPAN: nat := 0x1_0000_0000_0000_0000

  /** What Decode returns, as far as the read loop looks at it. */
  datatype Msg = Msg(id: nat, request: bool, heartbeat: bool, oneway: bool, body: nat)

  predicate IsPush(m: Msg) {
    m.request && !m.heartbeat && m.oneway
  }

  /** Where a call's pending entry is: not inserted yet, in the map, taken out by goroutine t which
      will signal the call, signalled by its taker, deleted by its own failed encode, or gone. */
  datatype Place = NotYet | Pending | Held(t: Tid) | Taken | Deleted | Lost

  datatype Stage = Sending | Ended

  /**
   A Call: the capacity of its Done channel (None when Done is nil), what went
   through the channel, and who signalled it.  `place`, `key`, `sender`, `stage`
   and the three marks are bookkeeping.
   */
  datatype CallRec = CallRec(
    raw: bool, oneway: bool, cap: Option<nat>, cseq: nat,
    signals: nat, buffered: nat, received: nat, discarded: nat,
    place: Place, key: nat, sender: Tid, stage: Stage,
    byReject: bool, byEncode: bool, byTermination: bool)

  datatype SendPc =
    | NRegister | NReject | NPublish(key: nat) | NEncode(key: nat)
    | NForget(key: nat) | NSignalEncode
    | NWrite(key: nat) | NTake(key: nat) | NSignal(held: CallId) | NEnd

  datatype WaitPc = WWait | WCancel | WSignal(held: CallId)

  datatype RawPc = RInsert | RWrite | RTake | RSignal(held: CallId) | RWait

  datatype ReadPc =
    | DDecode | DTake(key: nat) | DHandle(held: CallId) | DDeliver(m: Msg)
    | DNotice | DLock | DEach

  datatype ClosePc = KLock | KEach

  datatype Pc =
    | Send(c: CallId, n: SendPc)
    | Wait(c: CallId, w: WaitPc)
    | Raw(c: CallId, key: nat, r: RawPc)
    | Read(d: ReadPc)
    | Close(k: ClosePc)
    | Done

  /** client.ServerMessageChan: nil, open, or closed by its consumer. */
  datatype ChanState = NilChan | OpenChan | ShutChan

  /**
   The client, the pushes its read loop decoded, those it put on the channel, and all that it put
   there, the notice of its end being None.
   The fields after `log` are bookkeeping: whether the notice has been put there,
   which push each delivered one is, whether the last push is still to be
   delivered, whether the read loop has ended, whether a Close has run,
   whether an insertion or deletion hit the entry of another call, whether a
   response handler panicked, whether the push channel was ever not open.
   */
  datatype Shared = Shared(
    blocking: bool,
    seqNo: nat,
    pending: map<nat, CallId>,
    closing: bool,
    shutdown: bool,
    mutex: Option<Tid>,
    calls: seq<CallRec>,
    chan: ChanState,
    pushes: seq<Msg>,
    delivered: seq<Msg>,
    log: seq<Option<Msg>>,
    noticed: bool,
    slots: seq<nat>,
    delivering: bool,
    terminated: bool,
    closeRan: bool,
    clash: bool,
    panicked: bool,
    interrupted: bool)

  datatype State = State(g: Shared, threads: seq<Pc>)

  /** The environment's part in a step: it works, it fails, the context is cancelled, a handler
      panics, the channel is full, a message arrives, a message arrives on which the after-decode
      plugin panics, a loop visits a key. */
  datatype Choice =
    | Proceed | Fails | Cancelled | HandlerPanics | Full | Arrives(m: Msg) | Spoiled(m: Msg) | Visits(key: nat)

  datatype Effect =
    | Nothing
    | Insert(c: CallId)
    | InsertRaw(c: CallId, key: nat)
    | Publish(c: CallId, key: nat)
    | Take(key: nat)
    | Forget(c: CallId, key: nat)
    | SignalTaken(c: CallId)
    | SignalReject(c: CallId)
    | SignalEncode(c: CallId)
    | SignalTermination(c: CallId)
    | Lose(c: CallId)
    | EndSend(c: CallId)
    | Receive(c: CallId)
    | LockClose | CloseEntry(key: nat) | FinishClose
    | LockShutdown | FinishTermination
    | DecodePush(m: Msg) | Deliver(m: Msg) | Notify | SkipPush | DropChan

  datatype Outcome = Blocked | Moved(e: Effect, pc: Pc)

  // ---------------------------------------------------------------- effects

  /** Call.done: a non-blocking send on the Done channel. */
  function Signalled(r: CallRec): CallRec {
    var room := r.cap.Some? && r.buffered < r.cap.value;
    r.(signals := r.signals + 1,
       buffered := if room then r.buffered + 1 else r.buffered,
       discarded := if r.cap.Some? && !room then r.discarded + 1 else r.discarded)
  }

  /** A receive from the Done channel. */
  function Received(r: CallRec): CallRec {
    r.(buffered := if r.buffered > 0 then r.buffered - 1 else 0,
       received := if r.buffered > 0 then r.received + 1 else r.received)
  }

  function NewCall(raw: bool, oneway: bool, cap: Option<nat>, sender: Tid): CallRec {
    CallRec(raw, oneway, cap, 0, 0, 0, 0, 0, NotYet, 0, sender, Sending, false, false, false)
  }

  function Rec(g: Shared, c: CallId): CallRec {
    if c < |g.calls| then g.calls[c] else NewCall(false, false, None, 0)
  }

  function Put(calls: seq<CallRec>, c: CallId, r: CallRec): seq<CallRec> {
    if c < |calls| then calls[c := r] else calls
  }

  function Update(g: Shared, c: CallId, r: CallRec): Shared {
    g.(calls := Put(g.calls, c, r))
  }

  /** delete(pending, key), the call that sat there becoming r. */
  function Removed(g: Shared, key: nat, r: CallRec, clash: bool): Shared {
    g.(calls := if key in g.pending then Put(g.calls, g.pending[key], r) else g.calls,
       pending := g.pending - {key},
       clash := g.clash || clash)
  }

  /** The call under key, if there is one. */
  function Entry(g: Shared, key: nat): CallRec {
    if key in g.pending then Rec(g, g.pending[key]) else NewCall(false, false, None, 0)
  }

  /** The entry under key goes away without its call being told. */
  function Evicted(g: Shared, key: nat): Shared {
    Removed(g, key, Entry(g, key).(place := Lost), key in g.pending)
  }

  /** pending[key] = c; a call that sat there before is lost. */
  function Inserted(g: Shared, c: CallId, key: nat): Shared {
    var g1 := Evicted(g, key);
    g1.(calls := Put(g1.calls, c, Rec(g1, c).(place := Pending, key := key)), pending := g1.pending[key := c])
  }

  function Apply(g: Shared, t: Tid, e: Effect): Shared {
    match e
    case Nothing => g
    case Insert(c) => Inserted(g, c, g.seqNo % SEQ_SPAN).(seqNo := g.seqNo + 1)
    case InsertRaw(c, key) => Inserted(g, c, key)
    case Publish(c, key) => Update(g, c, Rec(g, c).(cseq := key))
    case Take(key) => Removed(g, key, Entry(g, key).(place := Held(t)), false)
    case Forget(c, key) =>
      var mine := key in g.pending && g.pending[key] == c;
      Removed(g, key, Entry(g, key).(place := if mine then Deleted else Lost), key in g.pending && !mine)
    case SignalTaken(c) => Update(g, c, Signalled(Rec(g, c)).(place := Taken))
    case SignalReject(c) => Update(g, c, Signalled(Rec(g, c)).(byReject := true))
    case SignalEncode(c) => Update(g, c, Signalled(Rec(g, c)).(byEncode := true))
    case SignalTermination(c) => Update(g, c, Signalled(Rec(g, c)).(byTermination := true))
    case Lose(c) => Update(g, c, Rec(g, c).(place := Lost)).(panicked := true)
    case EndSend(c) => Update(g, c, Rec(g, c).(stage := Ended))
    case Receive(c) => Update(g, c, Received(Rec(g, c)))
    case LockClose => g.(mutex := Some(t))
    case CloseEntry(key) => Removed(g, key, Signalled(Entry(g, key)).(place := Taken), false)
    case FinishClose => g.(mutex := None, closing := g.closing || !g.shutdown, closeRan := true)
    case LockShutdown => g.(mutex := Some(t), shutdown := true)
    case FinishTermination => g.(mutex := None, terminated := true)
    case DecodePush(m) => g.(pushes := g.pushes + [m], delivering := true)
    case Deliver(m) =>
      g.(delivered := g.delivered + [m], log := g.log + [Some(m)],
         slots := g.slots + [if g.pushes == [] then 0 else |g.pushes| - 1], delivering := false)
    case Notify => g.(log := g.log + [None], noticed := true)
    case SkipPush => g.(delivering := false)
    case DropChan => g.(chan := NilChan, interrupted := true, delivering := false)
  }

  // ---------------------------------------------------------------- goroutines

  /** lock; call = pending[key]; delete(pending, key); unlock */
  function TakeEntry(g: Shared, key: nat, pc: Pc): Outcome {
    if g.mutex.Some? then Blocked else Moved(Take(key), pc)
  }

  function SendStep(g: Shared, c: CallId, n: SendPc, x: Choice): Outcome {
    match n
    case NRegister =>
      if g.mutex.Some? then Blocked
      else if g.shutdown || g.closing || x.Fails? then Moved(Nothing, Send(c, NReject))
      else Moved(Insert(c), Send(c, NPublish(g.seqNo % SEQ_SPAN)))
    case NReject => Moved(SignalReject(c), Send(c, NEnd))
    case NPublish(key) => Moved(Publish(c, key), Send(c, NEncode(key)))
    case NEncode(key) => Moved(Nothing, Send(c, if x.Fails? then NForget(key) else NWrite(key)))
    case NForget(key) => if g.mutex.Some? then Blocked else Moved(Forget(c, key), Send(c, NSignalEncode))
    case NSignalEncode => Moved(SignalEncode(c), Send(c, NEnd))
    case NWrite(key) =>
      Moved(Nothing, Send(c, if x.Fails? || Rec(g, c).oneway then NTake(key) else NEnd))
    case NTake(key) => TakeEntry(g, key, Send(c, if key in g.pending then NSignal(g.pending[key]) else NEnd))
    case NSignal(h) => Moved(SignalTaken(h), Send(c, NEnd))
    case NEnd => Moved(EndSend(c), Done)
  }

  function WaitStep(g: Shared, c: CallId, w: WaitPc, x: Choice): Outcome {
    match w
    case WWait =>
      if x.Cancelled? then Moved(Nothing, Wait(c, WCancel))
      else if 0 < Rec(g, c).buffered then Moved(Receive(c), Done)
      else Blocked
    case WCancel => 
      var key := Rec(g, c).cseq;
      TakeEntry(g, key, if key in g.pending then Wait(c, WSignal(g.pending[key])) else Done)
    case WSignal(h) => Moved(SignalTaken(h), Done)
  }

  function RawStep(g: Shared, c: CallId, key: nat, r: RawPc, x: Choice): Outcome {
    match r
    case RInsert => if g.mutex.Some? then Blocked else Moved(InsertRaw(c, key), Raw(c, key, RWrite))
    case RWrite =>
      Moved(Nothing, Raw(c, key, if x.Fails? || Rec(g, c).oneway then RTake else RWait))
    case RTake => TakeEntry(g, key, if key in g.pending then Raw(c, key, RSignal(g.pending[key])) else Done)
    case RSignal(h) => Moved(SignalTaken(h), Done)
    case RWait =>
      if x.Cancelled? then Moved(Nothing, Raw(c, key, RTake))
      else if 0 < Rec(g, c).buffered then Moved(Receive(c), Done)
      else Blocked
  }

  /** handleServerRequest: e is what a successful send on the channel does */
  function Offer(g: Shared, e: Effect, x: Choice, next: Pc): Outcome {
    match g.chan
    case NilChan => Moved(SkipPush, next)
    case ShutChan => Moved(DropChan, next)
    case OpenChan => if !x.Full? then Moved(e, next) else if g.blocking then Blocked else Moved(SkipPush, next)
  }

  function ReadStep(g: Shared, d: ReadPc, x: Choice): Outcome {
    match d
    case DDecode =>
      if x.Arrives? then
        if IsPush(x.m) then Moved(DecodePush(x.m), Read(DDeliver(x.m))) else Moved(Nothing, Read(DTake(x.m.id)))
      else if x.Spoiled? then Moved(if IsPush(x.m) then DecodePush(x.m) else Nothing, Read(DNotice))
      else if x.Fails? then Moved(Nothing, Read(DNotice))
      else Blocked
    case DTake(key) => TakeEntry(g, key, Read(if key in g.pending then DHandle(g.pending[key]) else DDecode))
    case DHandle(h) =>
      if x.HandlerPanics? then Moved(Lose(h), Read(DNotice))
      else Moved(SignalTaken(h), Read(if x.Fails? then DNotice else DDecode))
    case DDeliver(m) => Offer(g, Deliver(m), x, Read(DDecode))
    case DNotice => Offer(g, Notify, x, Read(DLock))
    case DLock => if g.mutex.Some? then Blocked else Moved(LockShutdown, Read(DEach))
    case DEach =>
      if forall k :: k in g.pending ==> Rec(g, g.pending[k]).byTermination
      then Moved(FinishTermination, Done)
      else if x.Visits? && x.key in g.pending && !Rec(g, g.pending[x.key]).byTermination
      then Moved(SignalTermination(g.pending[x.key]), Read(DEach))
      else Blocked
  }

  function CloseStep(g: Shared, k: ClosePc, x: Choice): Outcome {
    match k
    case KLock => if g.mutex.Some? then Blocked else Moved(LockClose, Close(KEach))
    case KEach =>
      if g.pending == map[] then Moved(FinishClose, Done)
      else if x.Visits? && x.key in g.pending then Moved(CloseEntry(x.key), Close(KEach))
      else Blocked
  }

  function ThreadStep(g: Shared, pc: Pc, x: Choice): Outcome {
    match pc
    case Send(c, n) => SendStep(g, c, n, x)
    case Wait(c, w) => WaitStep(g, c, w, x)
    case Raw(c, key, r) => RawStep(g, c, key, r, x)
    case Read(d) => ReadStep(g, d, x)
    case Close(k) => CloseStep(g, k, x)
    case Done => Blocked
  }

  // ---------------------------------------------------------------- the whole system

  /** Someone uses the client, a goroutine steps, or the consumer changes the push channel. */
  datatype Move =
    | Call(oneway: bool)
    | GoCall(oneway: bool, cap: Option<nat>)
    | SendRaw(key: nat, oneway: bool)
    | CloseClient
    | Run(t: Tid, x: Choice)
    | SetChan(chan: ChanState)

  /** A connected client: its read loop runs. */
  function Init(blocking: bool, chan: ChanState): State {
    State(Shared(blocking, 0, map[], false, false, None, [], chan, [], [], [], false, [],
                 false, false, false, false, false, !chan.OpenChan?), [Read(DDecode)])
  }

  function AddCall(g: Shared, r: CallRec): Shared {
    g.(calls := g.calls + [r])
  }

  function Next(s: State, m: Move): Option<State> {
    var c := |s.g.calls|;
    match m
    case Call(oneway) =>
      Some(State(AddCall(s.g, NewCall(false, oneway, Some(10), |s.threads|)),
                 s.threads + [Send(c, NRegister), Wait(c, WWait)]))
    case GoCall(oneway, cap) =>
      Some(State(AddCall(s.g, NewCall(false, oneway, cap, |s.threads|)), s.threads + [Send(c, NRegister)]))
    case SendRaw(key, oneway) =>
      Some(State(AddCall(s.g, NewCall(true, oneway, Some(10), |s.threads|)), s.threads + [Raw(c, key, RInsert)]))
    case CloseClient => Some(State(s.g, s.threads + [Close(KLock)]))
    case SetChan(chan) => Some(State(s.g.(chan := chan, interrupted := s.g.interrupted || !chan.OpenChan?), s.threads))
    case Run(t, x) =>
      if t >= |s.threads| then None
      else
        var o := ThreadStep(s.g, s.threads[t], x);
        if o.Moved? then Some(State(Apply(s.g, t, o.e), s.threads[t := o.pc])) else None
  }

  function RunAll(s: State, moves: seq<Move>): Option<State>
    decreases |moves|
  {
    if moves == [] then Some(s)
    else
      var r := Next(s, moves[0]);
      if r.None? then None else RunAll(r.value, moves[1..])
  }

  ghost predicate Reachable(s: State) {
    exists blocking, chan, moves :: RunAll(Init(blocking, chan), moves) == Some(s)
  }
}
