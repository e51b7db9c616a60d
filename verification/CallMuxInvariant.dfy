/** The inductive invariant of the call multiplexer, proved rely-guarantee style. */
module CallMuxInvariant {
  import opened Wrappers
  import opened CallMux

  /** The goroutine that runs the read loop. */
  const READER: Tid := 0

  // ---------------------------------------------------------------- the client

  function One(b: bool): nat {
    if b then 1 else 0
  }

  /** Each source signals a call at most once, and only a full Done channel discards a signal. */
  ghost predicate CallOk(r: CallRec) {
    && r.signals == One(r.place.Taken?) + One(r.byReject) + One(r.byEncode) + One(r.byTermination)
    && (r.byReject ==> r.place.NotYet?)
    && (r.place.NotYet? ==> !r.byEncode && !r.byTermination)
    && (r.cap.Some? ==> r.signals == r.buffered + r.received + r.discarded)
    && (r.cap.Some? && 0 < r.discarded ==> r.cap.value <= r.buffered + r.received)
    && (r.stage.Ended? ==> (r.place.NotYet? ==> r.byReject) && (r.place.Deleted? ==> r.byEncode))
    && (r.stage.Ended? && !r.place.NotYet? ==> Published(r))
    && (!Published(r) ==> r.cseq == 0)
    && (r.raw ==> r.stage.Sending? && !r.place.Deleted? && !r.byReject && !r.byEncode)
  }

  /** The caller has been told the call's sequence number. */
  predicate Published(r: CallRec) {
    !r.place.NotYet? && r.cseq == r.key
  }

  /** An entry leads to a call that knows its key; once the read loop or a Close has run, entries
      that are left belong to signalled calls or to SendRaw. */
  ghost predicate KeyOk(g: Shared, k: nat) {
    k in g.pending ==>
      && g.pending[k] < |g.calls|
      && var r := g.calls[g.pending[k]];
      && r.place.Pending? && r.key == k
      && (g.terminated ==> r.raw || r.byTermination)
      && (g.closeRan ==> r.raw)
  }

  ghost predicate CallAt(g: Shared, c: CallId) {
    c < |g.calls| ==>
      && CallOk(g.calls[c])
      && (g.calls[c].place.Pending? ==> g.calls[c].key in g.pending && g.pending[g.calls[c].key] == c)
      && (g.calls[c].place.Lost? ==> g.clash || g.panicked)
  }

  ghost predicate Global(g: Shared) {
    && (forall k: nat :: KeyOk(g, k))
    && (forall c: CallId :: CallAt(g, c))
    && (g.terminated ==> g.shutdown)
    && (g.closeRan ==> g.closing || g.shutdown)
    && GlobalPushes(g)
  }

  /** How many pushes the channel has been offered. */
  function Offered(g: Shared): int {
    |g.pushes| - (if g.delivering then 1 else 0)
  }

  /** The delivered pushes are offered ones in wire order; all of them, if the channel blocks and
      was always open. */
  ghost predicate GlobalPushes(g: Shared) {
    && 0 <= Offered(g)
    && (!g.chan.OpenChan? ==> g.interrupted)
    && |g.slots| == |g.delivered|
    && (forall i :: 0 <= i < |g.slots| ==> g.slots[i] < Offered(g) && g.delivered[i] == g.pushes[g.slots[i]])
    && (forall i, j :: 0 <= i < j < |g.slots| ==> g.slots[i] < g.slots[j])
    && (g.blocking && !g.interrupted ==> g.delivered == g.pushes[..Offered(g)])
    && Logged(g)
  }

  /** The channel got the delivered pushes and, after them all, at most one notice. */
  ghost predicate Logged(g: Shared) {
    && |g.log| == |g.delivered| + One(g.noticed)
    && (forall i :: 0 <= i < |g.delivered| ==> g.log[i] == Some(g.delivered[i]))
    && (g.noticed ==> g.log[|g.delivered|] == None)
  }

  // ---------------------------------------------------------------- one goroutine

  /** The call a goroutine has taken out of pending and is about to signal. */
  function HeldBy(pc: Pc): Option<CallId> {
    match pc
    case Send(_, n) => if n.NSignal? then Some(n.held) else None
    case Wait(_, w) => if w.WSignal? then Some(w.held) else None
    case Raw(_, _, r) => if r.RSignal? then Some(r.held) else None
    case Read(d) => if d.DHandle? then Some(d.held) else None
    case _ => None
  }

  predicate HoldsMutex(pc: Pc) {
    (pc.Read? && pc.d.DEach?) || (pc.Close? && pc.k.KEach?)
  }

  ghost predicate HeldOnly(g: Shared, t: Tid, held: Option<CallId>, c: CallId) {
    c < |g.calls| && g.calls[c].place == Held(t) ==> held == Some(c)
  }

  ghost predicate Local(g: Shared, t: Tid, pc: Pc) {
    && (HoldsMutex(pc) <==> g.mutex == Some(t))
    && (forall c: CallId :: HeldOnly(g, t, HeldBy(pc), c))
    && (HeldBy(pc).Some? ==> HeldBy(pc).value < |g.calls| && g.calls[HeldBy(pc).value].place == Held(t))
    && Phase(g, t, pc)
  }

  ghost predicate Phase(g: Shared, t: Tid, pc: Pc) {
    match pc
    case Send(c, n) => c < |g.calls| && g.calls[c].sender == t && !g.calls[c].raw && SendPhase(g.calls[c], n)
    case Wait(c, _) => c < |g.calls| && Waits(g.calls[c], t)
    case Raw(c, _, r) =>
      c < |g.calls| && g.calls[c].sender == t && g.calls[c].raw && (r.RInsert? <==> g.calls[c].place.NotYet?)
    case Read(d) => t == READER && ReadPhase(d, g.shutdown, g.delivering, g.pushes, g.noticed)
    case Close(_) => true
    case Done => true
  }

  /** Goroutine t is the caller of Call that waits for a call nothing has been received from. */
  ghost predicate Waits(r: CallRec, t: Tid) {
    !r.raw && t == r.sender + 1 && r.cap == Some(10) && r.received == 0
  }

  ghost predicate ReadPhase(d: ReadPc, shutdown: bool, delivering: bool, pushes: seq<Msg>, noticed: bool) {
    && (noticed ==> d.DLock? || d.DEach?)
    && (d.DEach? ==> shutdown)
    && (d.DDeliver? ==> delivering) && (delivering ==> !d.DDecode? && !d.DTake? && !d.DHandle?)
    && (d.DDeliver? ==> pushes != [] && pushes[|pushes| - 1] == d.m)
  }

  ghost predicate SendPhase(r: CallRec, n: SendPc) {
    && r.stage.Sending?
    && match n
       case NRegister => r.place.NotYet? && !r.byReject
       case NReject => r.place.NotYet? && !r.byReject
       case NPublish(key) => !r.place.NotYet? && !r.place.Deleted? && !r.byEncode && r.key == key
       case NEncode(key) => Published(r) && !r.place.Deleted? && !r.byEncode && r.key == key
       case NForget(key) => Published(r) && !r.place.Deleted? && !r.byEncode && r.key == key
       case NSignalEncode => Published(r) && !r.place.Pending? && !r.byEncode
       case NWrite(key) => Published(r) && !r.place.Deleted? && r.key == key
       case NTake(key) => Published(r) && !r.place.Deleted? && r.key == key
       case NSignal(h) => Published(r) && !r.place.Deleted?
       case NEnd =>
         && (r.place.NotYet? ==> r.byReject) && (r.place.Deleted? ==> r.byEncode)
         && (!r.place.NotYet? ==> Published(r))
  }

  // ---------------------------------------------------------------- interference

  /** What a step of t leaves of a call that goroutine u sends. */
  ghost predicate SparesCall(r: CallRec, r': CallRec) {
    && r'.sender == r.sender && r'.raw == r.raw && r'.stage == r.stage
    && r'.key == r.key && r'.cseq == r.cseq && r'.byReject == r.byReject && r'.byEncode == r.byEncode
    && (r'.place.NotYet? <==> r.place.NotYet?)
    && (r'.place.Deleted? ==> r.place.Deleted?)
    && (r'.place.Pending? ==> r.place.Pending?)
  }

  ghost predicate SparesAt(g: Shared, g': Shared, u: Tid, c: CallId) {
    c < |g.calls| == |g'.calls| ==>
      && (g'.calls[c].place == Held(u) <==> g.calls[c].place == Held(u))
      && (g.calls[c].sender == u ==> SparesCall(g.calls[c], g'.calls[c]))
      && (Waits(g.calls[c], u) ==> Waits(g'.calls[c], u))
  }

  ghost predicate Spares(g: Shared, g': Shared, t: Tid, u: Tid) {
    && (g.mutex == Some(u) <==> g'.mutex == Some(u))
    && |g'.calls| == |g.calls|
    && (forall c: CallId :: SparesAt(g, g', u, c))
    && (g.shutdown ==> g'.shutdown)
    && (u == READER ==> g'.delivering == g.delivering && g'.pushes == g.pushes && g'.noticed == g.noticed)
  }

  lemma Stable(g: Shared, g': Shared, t: Tid, u: Tid, pc: Pc)
    requires Local(g, u, pc) && Spares(g, g', t, u)
    ensures Local(g', u, pc)
  {
    forall c: CallId ensures HeldOnly(g', u, HeldBy(pc), c) {
      assert SparesAt(g, g', u, c) && HeldOnly(g, u, HeldBy(pc), c);
    }
    if HeldBy(pc).Some? { assert SparesAt(g, g', u, HeldBy(pc).value); }
    if pc.Send? || pc.Raw? || pc.Wait? { assert SparesAt(g, g', u, pc.c); }
  }

  // ---------------------------------------------------------------- effects

  ghost predicate Own(g: Shared, t: Tid, c: CallId, raw: bool) {
    c < |g.calls| && g.calls[c].sender == t && g.calls[c].raw == raw
  }

  /** When goroutine t may have effect e. */
  ghost predicate Allowed(g: Shared, t: Tid, e: Effect) {
    match e
    case Nothing => true
    case Insert(c) =>
      && Own(g, t, c, false) && g.calls[c].place.NotYet? && !g.calls[c].byReject
      && g.mutex.None? && !g.shutdown && !g.closing
    case InsertRaw(c, _) => Own(g, t, c, true) && g.calls[c].place.NotYet? && g.mutex.None?
    case Publish(c, key) => Own(g, t, c, false) && !g.calls[c].place.NotYet? && g.calls[c].key == key
    case Take(_) => g.mutex.None?
    case Forget(c, key) =>
      Own(g, t, c, false) && g.calls[c].stage.Sending? && g.calls[c].key == key && g.mutex.None?
    case SignalTaken(c) => c < |g.calls| && g.calls[c].place == Held(t)
    case SignalReject(c) => Own(g, t, c, false) && g.calls[c].place.NotYet? && !g.calls[c].byReject
    case SignalEncode(c) =>
      && Own(g, t, c, false) && g.calls[c].stage.Sending?
      && !g.calls[c].byEncode && !g.calls[c].place.NotYet? && !g.calls[c].place.Pending?
    case SignalTermination(c) =>
      c < |g.calls| && g.calls[c].place.Pending? && !g.calls[c].byTermination
    case Lose(c) => c < |g.calls| && g.calls[c].place == Held(t)
    case EndSend(c) =>
      && Own(g, t, c, false)
      && (g.calls[c].place.NotYet? ==> g.calls[c].byReject) && (g.calls[c].place.Deleted? ==> g.calls[c].byEncode)
      && (!g.calls[c].place.NotYet? ==> Published(g.calls[c]))
    case Receive(c) => c < |g.calls| && (Own(g, t, c, true) || (!g.calls[c].raw && t == g.calls[c].sender + 1))
    case LockClose => g.mutex.None?
    case CloseEntry(_) => g.mutex == Some(t)
    case FinishClose => g.mutex == Some(t) && g.pending == map[]
    case LockShutdown => g.mutex.None?
    case FinishTermination =>
      g.mutex == Some(t) && g.shutdown && forall k :: k in g.pending ==> Rec(g, g.pending[k]).byTermination
    case DecodePush(_) => t == READER && !g.delivering
    case Deliver(m) => t == READER && !g.noticed && g.delivering && g.pushes != [] && g.pushes[|g.pushes| - 1] == m
    case Notify => t == READER && !g.noticed
    case SkipPush => t == READER && (g.blocking && !g.interrupted ==> !g.delivering)
    case DropChan => t == READER
  }

  ghost predicate Keeps(g: Shared, g': Shared, t: Tid, u: Tid) {
    Global(g') && (u != t ==> Spares(g, g', t, u))
  }

  /** r' may replace r without any entry noticing. */
  ghost predicate Replaces(g: Shared, r: CallRec, r': CallRec) {
    && CallOk(r') && r'.raw == r.raw
    && (r.place.Pending? <==> r'.place.Pending?) && (r.place.Pending? ==> r'.key == r.key)
    && (r.byTermination ==> r'.byTermination)
    && (r'.place.Lost? ==> g.clash || g.panicked)
  }

  lemma UpdateKept(g: Shared, c: CallId, r: CallRec)
    requires Global(g) && c < |g.calls| && Replaces(g, g.calls[c], r)
    ensures Global(Update(g, c, r))
  {
    var g' := Update(g, c, r);
    forall k: nat ensures KeyOk(g', k) {
      assert KeyOk(g, k);
    }
    forall d: CallId ensures CallAt(g', d) {
      assert CallAt(g, d);
    }
  }

  lemma RemoveKept(g: Shared, key: nat, r: CallRec, clash: bool)
    requires Global(g)
    requires key in g.pending ==> CallOk(r) && !r.place.Pending? && (r.place.Lost? ==> clash)
    ensures Global(Removed(g, key, r, clash))
  {
    var g' := Removed(g, key, r, clash);
    assert KeyOk(g, key);
    forall k: nat ensures KeyOk(g', k) {
      assert KeyOk(g, k);
    }
    forall d: CallId ensures CallAt(g', d) {
      assert CallAt(g, d);
    }
  }

  lemma AddKept(g: Shared, c: CallId, key: nat)
    requires Global(g) && c < |g.calls| && g.calls[c].place.NotYet? && !g.calls[c].byReject && key !in g.pending
    requires g.calls[c].raw || (!g.terminated && !g.closeRan)
    ensures Global(Update(g, c, g.calls[c].(place := Pending, key := key)).(pending := g.pending[key := c]))
  {
    var g' := Update(g, c, g.calls[c].(place := Pending, key := key)).(pending := g.pending[key := c]);
    assert CallAt(g, c);
    forall k: nat ensures KeyOk(g', k) {
      assert KeyOk(g, k);
    }
    forall d: CallId ensures CallAt(g', d) {
      assert CallAt(g, d);
    }
  }

  lemma PanickedKept(g: Shared)
    requires Global(g)
    ensures Global(g.(panicked := true))
  {
    var g' := g.(panicked := true);
    forall k: nat ensures KeyOk(g', k) { assert KeyOk(g, k); }
    forall c: CallId ensures CallAt(g', c) { assert CallAt(g, c); }
  }

  lemma EvictedKept(g: Shared, key: nat)
    requires Global(g)
    ensures Global(Evicted(g, key))
  {
    assert KeyOk(g, key);
    if key in g.pending { assert CallAt(g, g.pending[key]); }
    RemoveKept(g, key, Entry(g, key).(place := Lost), key in g.pending);
  }

  /** Eviction frees the key and touches no call but the one whose entry it was. */
  lemma EvictedAt(g: Shared, key: nat, c: CallId)
    requires KeyOk(g, key)
    ensures var g' := Evicted(g, key);
            && key !in g'.pending && |g'.calls| == |g.calls|
            && g'.terminated == g.terminated && g'.closeRan == g.closeRan
            && (c < |g.calls| ==>
                  || g'.calls[c] == g.calls[c]
                  || (g.calls[c].place.Pending? && g'.calls[c] == g.calls[c].(place := Lost)))
  {
  }

  lemma InsertedKept(g: Shared, c: CallId, key: nat)
    requires Global(g) && c < |g.calls| && g.calls[c].place.NotYet? && !g.calls[c].byReject
    requires g.calls[c].raw || (!g.terminated && !g.closeRan)
    ensures Global(Inserted(g, c, key))
  {
    EvictedKept(g, key);
    assert KeyOk(g, key);
    EvictedAt(g, key, c);
    AddKept(Evicted(g, key), c, key);
  }

  // ---------------------------------------------------------------- every effect keeps Global

  lemma InsertKept(g: Shared, t: Tid, e: Effect)
    requires Global(g) && Allowed(g, t, e) && (e.Insert? || e.InsertRaw?)
    ensures Global(Apply(g, t, e))
  {
    assert CallAt(g, e.c);
    if e.Insert? {
      InsertedKept(g, e.c, g.seqNo % SEQ_SPAN);
      SeqNoKept(Inserted(g, e.c, g.seqNo % SEQ_SPAN), g.seqNo + 1);
    } else {
      InsertedKept(g, e.c, e.key);
    }
  }

  lemma ForgetKept(g: Shared, t: Tid, e: Effect)
    requires Global(g) && Allowed(g, t, e) && e.Forget?
    ensures Global(Apply(g, t, e))
  {
    var mine := e.key in g.pending && g.pending[e.key] == e.c;
    assert KeyOk(g, e.key);
    if e.key in g.pending { assert CallAt(g, g.pending[e.key]); }
    RemoveKept(g, e.key, Entry(g, e.key).(place := if mine then Deleted else Lost), e.key in g.pending && !mine);
  }

  lemma TakeKept(g: Shared, t: Tid, e: Effect)
    requires Global(g) && Allowed(g, t, e) && (e.Take? || e.CloseEntry?)
    ensures Global(Apply(g, t, e))
  {
    assert KeyOk(g, e.key);
    if e.key in g.pending { assert CallAt(g, g.pending[e.key]); }
    if e.Take? {
      RemoveKept(g, e.key, Entry(g, e.key).(place := Held(t)), false);
    } else {
      RemoveKept(g, e.key, Signalled(Entry(g, e.key)).(place := Taken), false);
    }
  }

  lemma SeqNoKept(g: Shared, n: nat)
    requires Global(g)
    ensures Global(g.(seqNo := n))
  {
    var g' := g.(seqNo := n);
    forall k: nat ensures KeyOk(g', k) { assert KeyOk(g, k); }
    forall c: CallId ensures CallAt(g', c) { assert CallAt(g, c); }
  }

  // What a signal makes of a call's own record.

  lemma TakenOk(r: CallRec)
    requires CallOk(r) && r.place.Held?
    ensures CallOk(Signalled(r).(place := Taken))
  {
  }

  lemma RejectOk(r: CallRec)
    requires CallOk(r) && r.place.NotYet? && !r.byReject && !r.raw
    ensures CallOk(Signalled(r).(byReject := true))
  {
  }

  lemma EncodeOk(r: CallRec)
    requires CallOk(r) && !r.byEncode && !r.place.NotYet? && !r.raw
    ensures CallOk(Signalled(r).(byEncode := true))
  {
  }

  lemma TerminationOk(r: CallRec)
    requires CallOk(r) && r.place.Pending? && !r.byTermination
    ensures CallOk(Signalled(r).(byTermination := true))
  {
  }

  lemma PublishedOk(r: CallRec, key: nat)
    requires CallOk(r) && !r.place.NotYet? && r.key == key
    ensures CallOk(r.(cseq := key))
  {
  }

  lemma EndedOk(r: CallRec)
    requires CallOk(r) && !r.raw && (r.place.NotYet? ==> r.byReject) && (r.place.Deleted? ==> r.byEncode)
    requires !r.place.NotYet? ==> Published(r)
    ensures CallOk(r.(stage := Ended))
  {
  }

  lemma TakenKept(g: Shared, t: Tid, c: CallId)
    requires Global(g) && Allowed(g, t, SignalTaken(c))
    ensures Global(Apply(g, t, SignalTaken(c)))
  {
    assert CallAt(g, c);
    TakenOk(g.calls[c]);
    UpdateKept(g, c, Signalled(g.calls[c]).(place := Taken));
  }

  lemma RejectKept(g: Shared, t: Tid, c: CallId)
    requires Global(g) && Allowed(g, t, SignalReject(c))
    ensures Global(Apply(g, t, SignalReject(c)))
  {
    assert CallAt(g, c);
    RejectOk(g.calls[c]);
    UpdateKept(g, c, Signalled(g.calls[c]).(byReject := true));
  }

  lemma EncodeKept(g: Shared, t: Tid, c: CallId)
    requires Global(g) && Allowed(g, t, SignalEncode(c))
    ensures Global(Apply(g, t, SignalEncode(c)))
  {
    assert CallAt(g, c);
    EncodeOk(g.calls[c]);
    UpdateKept(g, c, Signalled(g.calls[c]).(byEncode := true));
  }

  lemma TerminationKept(g: Shared, t: Tid, c: CallId)
    requires Global(g) && Allowed(g, t, SignalTermination(c))
    ensures Global(Apply(g, t, SignalTermination(c)))
  {
    assert CallAt(g, c);
    TerminationOk(g.calls[c]);
    UpdateKept(g, c, Signalled(g.calls[c]).(byTermination := true));
  }

  lemma RecordReplaces(g: Shared, t: Tid, e: Effect)
    requires Allowed(g, t, e) && (e.Publish? || e.EndSend?) && CallAt(g, e.c)
    ensures e.Publish? ==> Replaces(g, g.calls[e.c], g.calls[e.c].(cseq := e.key))
    ensures e.EndSend? ==> Replaces(g, g.calls[e.c], g.calls[e.c].(stage := Ended))
  {
    if e.Publish? { PublishedOk(g.calls[e.c], e.key); } else { EndedOk(g.calls[e.c]); }
  }

  lemma RecordKept(g: Shared, t: Tid, e: Effect)
    requires Global(g) && Allowed(g, t, e) && (e.Publish? || e.EndSend?)
    ensures Global(Apply(g, t, e))
  {
    assert CallAt(g, e.c);
    RecordReplaces(g, t, e);
    UpdateKept(g, e.c, if e.Publish? then g.calls[e.c].(cseq := e.key) else g.calls[e.c].(stage := Ended));
  }

  lemma ReceiveKept(g: Shared, c: CallId)
    requires Global(g)
    ensures Global(Update(g, c, Received(Rec(g, c))))
  {
    assert CallAt(g, c);
    if c < |g.calls| { UpdateKept(g, c, Received(g.calls[c])); }
  }

  lemma LoseKept(g: Shared, c: CallId)
    requires Global(g) && c < |g.calls| && g.calls[c].place.Held?
    ensures Global(Update(g, c, g.calls[c].(place := Lost)).(panicked := true))
  {
    assert CallAt(g, c);
    PanickedKept(g);
    UpdateKept(g.(panicked := true), c, g.calls[c].(place := Lost));
  }

  /** Effects on the client's own fields. */
  predicate OnFields(e: Effect) {
    || e.Nothing? || e.LockClose? || e.FinishClose? || e.LockShutdown? || e.FinishTermination?
    || e.DecodePush? || e.Deliver? || e.Notify? || e.SkipPush? || e.DropChan?
  }

  lemma DeliveryKept(g: Shared, t: Tid, e: Effect)
    requires GlobalPushes(g) && Allowed(g, t, e) && (e.DecodePush? || e.Deliver?)
    ensures GlobalPushes(Apply(g, t, e))
  {
    match e
    case DecodePush(_) => return;
    case Deliver(_) => return;
  }

  lemma PushesKept(g: Shared, t: Tid, e: Effect)
    requires GlobalPushes(g) && Allowed(g, t, e) && OnFields(e)
    ensures GlobalPushes(Apply(g, t, e))
  {
    if e.DecodePush? || e.Deliver? { DeliveryKept(g, t, e); }
  }

  /** The entries and the calls stay, and the ends of the connection are as they were or true of them. */
  ghost predicate EntriesStay(g: Shared, g': Shared) {
    && g'.calls == g.calls && g'.pending == g.pending && g'.clash == g.clash && g'.panicked == g.panicked
    && (g'.terminated ==> g'.shutdown) && (g'.closeRan ==> g'.closing || g'.shutdown)
    && (g'.terminated && !g.terminated ==> forall k :: k in g.pending ==> Rec(g, g.pending[k]).byTermination)
    && (g'.closeRan && !g.closeRan ==> g.pending == map[])
  }

  lemma FieldsStay(g: Shared, t: Tid, e: Effect)
    requires Global(g) && Allowed(g, t, e) && OnFields(e)
    ensures EntriesStay(g, Apply(g, t, e))
  {
    match e
    case Nothing => return;
    case _ => return;
  }

  lemma EntriesStayKept(g: Shared, g': Shared)
    requires Global(g) && EntriesStay(g, g') && GlobalPushes(g')
    ensures Global(g')
  {
    forall k: nat ensures KeyOk(g', k) { assert KeyOk(g, k); }
    forall c: CallId ensures CallAt(g', c) { assert CallAt(g, c); }
  }

  lemma FieldsKept(g: Shared, t: Tid, e: Effect)
    requires Global(g) && Allowed(g, t, e) && OnFields(e)
    ensures Global(Apply(g, t, e))
  {
    PushesKept(g, t, e);
    FieldsStay(g, t, e);
    EntriesStayKept(g, Apply(g, t, e));
  }

  lemma GlobalKept(g: Shared, t: Tid, e: Effect)
    requires Global(g) && Allowed(g, t, e)
    ensures Global(Apply(g, t, e))
  {
    if e.Insert? || e.InsertRaw? { InsertKept(g, t, e); }
    else if e.Take? || e.CloseEntry? { TakeKept(g, t, e); }
    else if e.Forget? { ForgetKept(g, t, e); }
    else if e.SignalTaken? { TakenKept(g, t, e.c); }
    else if e.SignalReject? { RejectKept(g, t, e.c); }
    else if e.SignalEncode? { EncodeKept(g, t, e.c); }
    else if e.SignalTermination? { TerminationKept(g, t, e.c); }
    else if e.Publish? || e.EndSend? { RecordKept(g, t, e); }
    else if e.Receive? { ReceiveKept(g, e.c); }
    else if e.Lose? { LoseKept(g, e.c); }
    else { FieldsKept(g, t, e); }
  }

  // ---------------------------------------------------------------- every effect spares the others

  /** Effect e makes an entry for call c. */
  predicate Inserts(e: Effect, c: CallId) {
    (e.Insert? || e.InsertRaw?) && e.c == c
  }

  /** Effect e takes call c's entry. */
  predicate Takes(g: Shared, e: Effect, c: CallId) {
    e.Take? && e.key in g.pending && g.pending[e.key] == c
  }

  /** Effect e ends the holding of call c. */
  predicate Drops(e: Effect, c: CallId) {
    (e.SignalTaken? || e.Lose?) && e.c == c
  }

  /** How an effect of goroutine t may change a call: its sender owns most of it, and only
      inserting makes an entry, only taking and dropping change what t holds. */
  ghost predicate Shifts(r: CallRec, r': CallRec, t: Tid, inserts: bool, takes: bool, drops: bool) {
    && r'.raw == r.raw && r'.sender == r.sender && r'.cap == r.cap
    && (r'.received == r.received || (r.raw && r.sender == t) || (!r.raw && t == r.sender + 1))
    && (r.sender != t ==>
          r'.stage == r.stage && r'.cseq == r.cseq && r'.byReject == r.byReject && r'.byEncode == r.byEncode)
    && (r'.key == r.key || inserts)
    && if inserts then r.sender == t && r.place.NotYet? && r'.place.Pending?
       else if takes then r.place.Pending? && r'.place == Held(t)
       else if drops then r.place == Held(t) && (r'.place.Lost? || r'.place.Taken?)
       else || r'.place == r.place
            || (r.place.Pending? && (r'.place.Lost? || r'.place.Taken?))
            || (r.sender == t && r.place.Pending? && r'.place.Deleted?)
  }

  ghost predicate ShiftsTo(g: Shared, g': Shared, t: Tid, e: Effect, c: CallId) {
    && |g'.calls| == |g.calls|
    && (c < |g.calls| ==> Shifts(g.calls[c], g'.calls[c], t, Inserts(e, c), Takes(g, e, c), Drops(e, c)))
  }

  ghost predicate ShiftsAt(g: Shared, t: Tid, e: Effect, c: CallId) {
    ShiftsTo(g, Apply(g, t, e), t, e, c)
  }

  lemma RemovedAt(g: Shared, key: nat, r: CallRec, clash: bool, c: CallId)
    requires KeyOk(g, key)
    ensures var g' := Removed(g, key, r, clash);
            && |g'.calls| == |g.calls|
            && (c < |g.calls| ==> g'.calls[c] == if key in g.pending && g.pending[key] == c then r else g.calls[c])
  {
  }

  lemma TakeShifts(g: Shared, t: Tid, e: Effect, c: CallId)
    requires (e.Take? || e.CloseEntry?) && KeyOk(g, e.key)
    ensures ShiftsAt(g, t, e, c)
  {
    if e.Take? {
      RemovedAt(g, e.key, Entry(g, e.key).(place := Held(t)), false, c);
    } else {
      RemovedAt(g, e.key, Signalled(Entry(g, e.key)).(place := Taken), false, c);
    }
  }

  lemma ForgetShifts(g: Shared, t: Tid, e: Effect, c: CallId)
    requires e.Forget? && KeyOk(g, e.key) && Allowed(g, t, e)
    ensures ShiftsAt(g, t, e, c)
  {
  }

  lemma InsertedAt(g: Shared, d: CallId, key: nat, c: CallId)
    requires KeyOk(g, key) && d < |g.calls| && g.calls[d].place.NotYet?
    ensures var g' := Inserted(g, d, key);
            && |g'.calls| == |g.calls|
            && (c < |g.calls| ==>
                  if c == d then g'.calls[c] == g.calls[c].(place := Pending, key := key)
                  else || g'.calls[c] == g.calls[c]
                       || (g.calls[c].place.Pending? && g'.calls[c] == g.calls[c].(place := Lost)))
  {
    EvictedAt(g, key, c);
    EvictedAt(g, key, d);
  }

  lemma InsertedShifts(g: Shared, g': Shared, t: Tid, e: Effect, key: nat, c: CallId)
    requires (e.Insert? || e.InsertRaw?) && e.c < |g.calls| && |g'.calls| == |g.calls|
    requires g.calls[e.c].sender == t && g.calls[e.c].place.NotYet?
    requires c < |g.calls| ==>
               if c == e.c then g'.calls[c] == g.calls[c].(place := Pending, key := key)
               else || g'.calls[c] == g.calls[c]
                    || (g.calls[c].place.Pending? && g'.calls[c] == g.calls[c].(place := Lost))
    ensures ShiftsTo(g, g', t, e, c)
  {
  }

  lemma InsertShifts(g: Shared, t: Tid, e: Effect, c: CallId)
    requires Global(g) && Allowed(g, t, e) && (e.Insert? || e.InsertRaw?)
    ensures ShiftsAt(g, t, e, c)
  {
    var key := if e.Insert? then g.seqNo % SEQ_SPAN else e.key;
    assert KeyOk(g, key);
    InsertedAt(g, e.c, key, c);
    InsertedShifts(g, Inserted(g, e.c, key), t, e, key, c);
  }

  lemma UpdatedAt(g: Shared, d: CallId, r: CallRec, c: CallId)
    ensures var g' := Update(g, d, r);
      && |g'.calls| == |g.calls|
      && (c < |g.calls| ==> g'.calls[c] == if c == d then r else g.calls[c])
  {
  }

  lemma SignalledKeeps(r: CallRec)
    ensures var r' := Signalled(r);
      && r'.raw == r.raw && r'.sender == r.sender && r'.cap == r.cap && r'.received == r.received
      && r'.stage == r.stage && r'.cseq == r.cseq && r'.byReject == r.byReject && r'.byEncode == r.byEncode
      && r'.key == r.key && r'.place == r.place
  {
  }

  lemma SignalShifts(g: Shared, t: Tid, e: Effect, c: CallId)
    requires Allowed(g, t, e)
    requires e.SignalTaken? || e.SignalReject? || e.SignalEncode? || e.SignalTermination?
    ensures ShiftsAt(g, t, e, c)
  {
    var r := Signalled(Rec(g, e.c));
    SignalledKeeps(Rec(g, e.c));
    if e.SignalTaken? { UpdatedAt(g, e.c, r.(place := Taken), c); }
    else if e.SignalReject? { UpdatedAt(g, e.c, r.(byReject := true), c); }
    else if e.SignalEncode? { UpdatedAt(g, e.c, r.(byEncode := true), c); }
    else { UpdatedAt(g, e.c, r.(byTermination := true), c); }
  }

  lemma RecordShifts(g: Shared, t: Tid, e: Effect, c: CallId)
    requires Allowed(g, t, e) && (e.Publish? || e.EndSend? || e.Receive? || e.Lose?)
    ensures ShiftsAt(g, t, e, c)
  {
    match e
    case Publish(_, _) => return;
    case EndSend(_) => return;
    case Receive(_) => return;
    case Lose(_) => return;
  }

  lemma FieldShifts(g: Shared, t: Tid, e: Effect, c: CallId)
    requires OnFields(e)
    ensures ShiftsAt(g, t, e, c)
  {
    match e
    case Nothing => return;
    case _ => return;
  }

  lemma EffectShifts(g: Shared, t: Tid, e: Effect, c: CallId)
    requires Global(g) && Allowed(g, t, e)
    ensures ShiftsAt(g, t, e, c)
  {
    if e.Take? || e.CloseEntry? { assert KeyOk(g, e.key); TakeShifts(g, t, e, c); }
    else if e.Forget? { assert KeyOk(g, e.key); ForgetShifts(g, t, e, c); }
    else if e.Insert? || e.InsertRaw? { InsertShifts(g, t, e, c); }
    else if e.Publish? || e.EndSend? || e.Receive? || e.Lose? { RecordShifts(g, t, e, c); }
    else if OnFields(e) { FieldShifts(g, t, e, c); }
    else { SignalShifts(g, t, e, c); }
  }

  lemma ShiftSpares(g: Shared, t: Tid, e: Effect, u: Tid, c: CallId)
    requires ShiftsAt(g, t, e, c) && t != u
    ensures SparesAt(g, Apply(g, t, e), u, c)
  {
  }

  /** The fields, besides the entries and the calls, that a goroutine relies on. */
  ghost predicate SameFields(g: Shared, g': Shared) {
    && g'.mutex == g.mutex && g'.shutdown == g.shutdown && g'.closing == g.closing
    && g'.delivering == g.delivering && g'.pushes == g.pushes && g'.noticed == g.noticed
  }

  lemma EntryFrame(g: Shared, t: Tid, e: Effect)
    requires e.Take? || e.CloseEntry? || e.Forget?
    ensures SameFields(g, Apply(g, t, e))
  {
  }

  lemma InsertedFrame(g: Shared, c: CallId, key: nat)
    ensures SameFields(g, Inserted(g, c, key))
  {
    assert SameFields(g, Evicted(g, key));
  }

  lemma InsertFrame(g: Shared, t: Tid, e: Effect)
    requires e.Insert? || e.InsertRaw?
    ensures SameFields(g, Apply(g, t, e))
  {
    if e.Insert? { InsertedFrame(g, e.c, g.seqNo % SEQ_SPAN); } else { InsertedFrame(g, e.c, e.key); }
  }

  lemma RecordFrame(g: Shared, t: Tid, e: Effect)
    requires e.Publish? || e.EndSend? || e.Receive? || e.Lose?
          || e.SignalTaken? || e.SignalReject? || e.SignalEncode? || e.SignalTermination?
    ensures SameFields(g, Apply(g, t, e))
  {
  }

  ghost predicate FieldsSpared(g: Shared, g': Shared, u: Tid) {
    && (g.mutex == Some(u) <==> g'.mutex == Some(u)) && (g.shutdown ==> g'.shutdown)
    && (u == READER ==> g'.delivering == g.delivering && g'.pushes == g.pushes && g'.noticed == g.noticed)
  }

  lemma FieldFrame(g: Shared, t: Tid, e: Effect, u: Tid)
    requires Allowed(g, t, e) && u != t && OnFields(e)
    ensures FieldsSpared(g, Apply(g, t, e), u)
  {
  }

  lemma EffectFrame(g: Shared, t: Tid, e: Effect, u: Tid)
    requires Allowed(g, t, e) && u != t
    ensures FieldsSpared(g, Apply(g, t, e), u)
  {
    if OnFields(e) { FieldFrame(g, t, e, u); }
    else if e.Take? || e.CloseEntry? || e.Forget? { EntryFrame(g, t, e); }
    else if e.Insert? || e.InsertRaw? { InsertFrame(g, t, e); }
    else { RecordFrame(g, t, e); }
  }

  lemma SparesKept(g: Shared, t: Tid, e: Effect, u: Tid)
    requires Global(g) && Allowed(g, t, e) && u != t
    ensures Spares(g, Apply(g, t, e), t, u)
  {
    EffectFrame(g, t, e, u);
    EffectShifts(g, t, e, 0);
    forall c: CallId ensures SparesAt(g, Apply(g, t, e), u, c) {
      EffectShifts(g, t, e, c);
      ShiftSpares(g, t, e, u, c);
    }
  }

  // ---------------------------------------------------------------- the steps of each goroutine

  ghost predicate Proper(g: Shared, t: Tid, o: Outcome) {
    o.Moved? ==> Allowed(g, t, o.e)
  }

  lemma SendProper(g: Shared, t: Tid, c: CallId, n: SendPc, x: Choice)
    requires Global(g) && Local(g, t, Send(c, n))
    ensures Proper(g, t, SendStep(g, c, n, x))
  {
  }

  lemma WaitProper(g: Shared, t: Tid, c: CallId, w: WaitPc, x: Choice)
    requires Global(g) && Local(g, t, Wait(c, w))
    ensures Proper(g, t, WaitStep(g, c, w, x))
  {
  }

  lemma RawProper(g: Shared, t: Tid, c: CallId, key: nat, r: RawPc, x: Choice)
    requires Global(g) && Local(g, t, Raw(c, key, r))
    ensures Proper(g, t, RawStep(g, c, key, r, x))
  {
  }

  lemma ReadProper(g: Shared, t: Tid, d: ReadPc, x: Choice)
    requires Global(g) && Local(g, t, Read(d))
    ensures Proper(g, t, ReadStep(g, d, x))
  {
    if d.DEach? && x.Visits? { assert KeyOk(g, x.key); }
  }

  lemma CloseProper(g: Shared, t: Tid, k: ClosePc, x: Choice)
    requires Global(g) && Local(g, t, Close(k))
    ensures Proper(g, t, CloseStep(g, k, x))
  {
  }

  /** What a goroutine holds after effect e. */
  function HeldAfter(g: Shared, pc: Pc, e: Effect): Option<CallId> {
    if e.Take? then (if e.key in g.pending then Some(g.pending[e.key]) else None)
    else if e.SignalTaken? || e.Lose? then None
    else HeldBy(pc)
  }

  lemma StepFollows(g: Shared, pc: Pc, x: Choice)
    ensures var o := ThreadStep(g, pc, x); o.Moved? ==>
      && HeldBy(o.pc) == HeldAfter(g, pc, o.e)
      && (HoldsMutex(o.pc) <==>
            o.e.LockClose? || o.e.LockShutdown? || (HoldsMutex(pc) && !o.e.FinishClose? && !o.e.FinishTermination?))
      && (o.e.Take? ==> HeldBy(pc).None?)
      && (o.e.SignalTaken? || o.e.Lose? ==> HeldBy(pc) == Some(o.e.c))
  {
  }

  /** The mover holds exactly what its new position says. */
  lemma HeldPlaced(g: Shared, g': Shared, t: Tid, pc: Pc, e: Effect, c: CallId)
    requires ShiftsTo(g, g', t, e, c) && HeldOnly(g, t, HeldBy(pc), c)
    requires e.Take? ==> HeldBy(pc).None?
    requires e.SignalTaken? || e.Lose? ==> HeldBy(pc) == Some(e.c)
    ensures HeldOnly(g', t, HeldAfter(g, pc, e), c)
    ensures HeldBy(pc) == Some(c) && c < |g.calls| && g.calls[c].place == Held(t) && HeldAfter(g, pc, e) == Some(c)
            ==> g'.calls[c].place == Held(t)
    ensures e.Take? && HeldAfter(g, pc, e) == Some(c) && c < |g.calls| ==> g'.calls[c].place == Held(t)
  {
  }

  lemma MutexPlaced(g: Shared, t: Tid, pc: Pc, e: Effect)
    requires Allowed(g, t, e) && (HoldsMutex(pc) <==> g.mutex == Some(t))
    ensures Apply(g, t, e).mutex == Some(t) <==>
              e.LockClose? || e.LockShutdown? || (HoldsMutex(pc) && !e.FinishClose? && !e.FinishTermination?)
  {
    if OnFields(e) {
    } else if e.Take? || e.CloseEntry? || e.Forget? { EntryFrame(g, t, e); }
    else if e.Insert? || e.InsertRaw? { InsertFrame(g, t, e); }
    else { RecordFrame(g, t, e); }
  }

  // ---------------------------------------------------------------- where a step leads

  ghost predicate Leads(g: Shared, t: Tid, o: Outcome) {
    o.Moved? ==> Phase(Apply(g, t, o.e), t, o.pc)
  }

  lemma RegisterPhased(g: Shared, t: Tid, c: CallId)
    requires Global(g) && Phase(g, t, Send(c, NRegister)) && Allowed(g, t, Insert(c))
    ensures Phase(Apply(g, t, Insert(c)), t, Send(c, NPublish(g.seqNo % SEQ_SPAN)))
  {
    assert CallAt(g, c) && KeyOk(g, g.seqNo % SEQ_SPAN);
    EvictedAt(g, g.seqNo % SEQ_SPAN, c);
  }

  lemma ForgetPhased(g: Shared, t: Tid, c: CallId, key: nat)
    requires Global(g) && Phase(g, t, Send(c, NForget(key)))
    ensures Phase(Apply(g, t, Forget(c, key)), t, Send(c, NSignalEncode))
  {
    assert CallAt(g, c) && KeyOk(g, key);
  }

  lemma TakePhased(g: Shared, t: Tid, c: CallId, key: nat, n: SendPc)
    requires Global(g) && Phase(g, t, Send(c, NTake(key))) && (n.NSignal? || n.NEnd?)
    ensures Phase(Apply(g, t, Take(key)), t, Send(c, n))
  {
    assert KeyOk(g, key);
    TakeShifts(g, t, Take(key), c);
  }

  lemma SignalPhased(g: Shared, t: Tid, c: CallId, n: SendPc)
    requires Phase(g, t, Send(c, n)) && (n.NSignal? ==> n.held < |g.calls| && g.calls[n.held].place == Held(t))
    ensures n.NReject? ==> Phase(Apply(g, t, SignalReject(c)), t, Send(c, NEnd))
    ensures n.NSignalEncode? ==> Phase(Apply(g, t, SignalEncode(c)), t, Send(c, NEnd))
    ensures n.NSignal? ==> Phase(Apply(g, t, SignalTaken(n.held)), t, Send(c, NEnd))
  {
  }

  lemma SendPhased(g: Shared, t: Tid, c: CallId, n: SendPc, x: Choice)
    requires Global(g) && Phase(g, t, Send(c, n))
    requires n.NSignal? ==> n.held < |g.calls| && g.calls[n.held].place == Held(t)
    ensures Leads(g, t, SendStep(g, c, n, x))
  {
    SignalPhased(g, t, c, n);
    match n
    case NRegister => if Proper(g, t, Moved(Insert(c), Done)) { RegisterPhased(g, t, c); } return;
    case NReject => return;
    case NPublish(key) => assert Phase(Apply(g, t, Publish(c, key)), t, Send(c, NEncode(key))); return;
    case NEncode(key) => return;
    case NForget(key) => ForgetPhased(g, t, c, key); return;
    case NSignalEncode => return;
    case NWrite(key) => return;
    case NTake(key) => TakePhased(g, t, c, key, if key in g.pending then NSignal(g.pending[key]) else NEnd); return;
    case NSignal(h) => return;
    case NEnd => return;
  }

  lemma WaitPhased(g: Shared, t: Tid, c: CallId, w: WaitPc, x: Choice)
    requires Global(g) && Phase(g, t, Wait(c, w))
    ensures var o := WaitStep(g, c, w, x); o.Moved? ==> Phase(Apply(g, t, o.e), t, o.pc)
  {
  }

  lemma RawTakePhased(g: Shared, t: Tid, c: CallId, key: nat)
    requires KeyOk(g, key) && Phase(g, t, Raw(c, key, RTake))
    ensures var r := if key in g.pending then Raw(c, key, RSignal(g.pending[key])) else Done;
            Phase(Apply(g, t, Take(key)), t, r)
  {
    RemovedAt(g, key, Entry(g, key).(place := Held(t)), false, c);
  }

  lemma RawPhased(g: Shared, t: Tid, c: CallId, key: nat, r: RawPc, x: Choice)
    requires Global(g) && Phase(g, t, Raw(c, key, r))
    ensures var o := RawStep(g, c, key, r, x); o.Moved? ==> Phase(Apply(g, t, o.e), t, o.pc)
  {
    assert KeyOk(g, key);
    match r
    case RInsert => return;
    case RTake => RawTakePhased(g, t, c, key); return;
    case _ => return;
  }

  function DeliveringAfter(g: Shared, e: Effect): bool {
    e.DecodePush? || (g.delivering && !e.Deliver? && !e.SkipPush? && !e.DropChan?)
  }

  function PushesAfter(g: Shared, e: Effect): seq<Msg> {
    if e.DecodePush? then g.pushes + [e.m] else g.pushes
  }

  lemma ReaderFields(g: Shared, t: Tid, e: Effect)
    ensures var g' := Apply(g, t, e);
            && g'.shutdown == (g.shutdown || e.LockShutdown?)
            && g'.delivering == DeliveringAfter(g, e) && g'.pushes == PushesAfter(g, e)
            && g'.noticed == (g.noticed || e.Notify?)
  {
    if OnFields(e) {
    } else if e.Take? || e.CloseEntry? || e.Forget? { EntryFrame(g, t, e); }
    else if e.Insert? || e.InsertRaw? { InsertFrame(g, t, e); }
    else { RecordFrame(g, t, e); }
  }

  lemma ReadMoves(g: Shared, d: ReadPc, x: Choice)
    requires ReadPhase(d, g.shutdown, g.delivering, g.pushes, g.noticed)
    ensures var o := ReadStep(g, d, x);
            o.Moved? && !o.pc.Done? ==>
              && o.pc.Read?
              && ReadPhase(o.pc.d, g.shutdown || o.e.LockShutdown?, DeliveringAfter(g, o.e), PushesAfter(g, o.e),
                           g.noticed || o.e.Notify?)
  {
  }

  lemma ReadPhased(g: Shared, t: Tid, d: ReadPc, x: Choice)
    requires Phase(g, t, Read(d))
    ensures Leads(g, t, ReadStep(g, d, x))
  {
    var o := ReadStep(g, d, x);
    if o.Moved? {
      ReadMoves(g, d, x);
      ReaderFields(g, t, o.e);
    }
  }

  lemma StepProper(g: Shared, t: Tid, pc: Pc, x: Choice)
    requires Global(g) && Local(g, t, pc)
    ensures Proper(g, t, ThreadStep(g, pc, x))
  {
    match pc
    case Send(c, n) => SendProper(g, t, c, n, x);
    case Wait(c, w) => WaitProper(g, t, c, w, x);
    case Raw(c, key, r) => RawProper(g, t, c, key, r, x);
    case Read(d) => ReadProper(g, t, d, x);
    case Close(k) => CloseProper(g, t, k, x);
    case Done =>
  }

  lemma StepLeads(g: Shared, t: Tid, pc: Pc, x: Choice)
    requires Global(g) && Local(g, t, pc)
    ensures Leads(g, t, ThreadStep(g, pc, x))
  {
    match pc
    case Send(c, n) => SendPhased(g, t, c, n, x);
    case Wait(c, w) => WaitPhased(g, t, c, w, x);
    case Raw(c, key, r) => RawPhased(g, t, c, key, r, x);
    case Read(d) => ReadPhased(g, t, d, x);
    case Close(k) =>
    case Done =>
  }

  lemma MoverPlaced(g: Shared, t: Tid, pc: Pc, x: Choice)
    requires Global(g) && Local(g, t, pc) && ThreadStep(g, pc, x).Moved?
    ensures var o := ThreadStep(g, pc, x); Local(Apply(g, t, o.e), t, o.pc)
  {
    var o := ThreadStep(g, pc, x);
    StepProper(g, t, pc, x);
    StepFollows(g, pc, x);
    StepLeads(g, t, pc, x);
    MutexPlaced(g, t, pc, o.e);
    forall c: CallId ensures HeldOnly(Apply(g, t, o.e), t, HeldBy(o.pc), c) {
      assert HeldOnly(g, t, HeldBy(pc), c);
      EffectShifts(g, t, o.e, c);
      HeldPlaced(g, Apply(g, t, o.e), t, pc, o.e, c);
    }
    if HeldBy(o.pc).Some? {
      HeldIsPlaced(g, t, pc, o.e, HeldBy(o.pc).value);
    }
  }

  lemma HeldIsPlaced(g: Shared, t: Tid, pc: Pc, e: Effect, c: CallId)
    requires Global(g) && Local(g, t, pc) && Allowed(g, t, e) && HeldAfter(g, pc, e) == Some(c)
    requires e.Take? ==> HeldBy(pc).None?
    requires e.SignalTaken? || e.Lose? ==> HeldBy(pc) == Some(e.c)
    ensures c < |Apply(g, t, e).calls| && Apply(g, t, e).calls[c].place == Held(t)
  {
    assert HeldOnly(g, t, HeldBy(pc), c);
    if e.Take? { assert KeyOk(g, e.key); }
    EffectShifts(g, t, e, c);
    HeldPlaced(g, Apply(g, t, e), t, pc, e, c);
  }

  // ---------------------------------------------------------------- whole runs

  /** Only the first n goroutines hold calls. */
  ghost predicate HolderIn(g: Shared, n: nat, c: CallId) {
    c < |g.calls| && g.calls[c].place.Held? ==> g.calls[c].place.t < n
  }

  ghost predicate Holders(g: Shared, n: nat) {
    (forall c: CallId :: HolderIn(g, n, c)) && (g.mutex.Some? ==> g.mutex.value < n)
  }

  ghost predicate Inv(s: State) {
    && Global(s.g)
    && (forall t :: 0 <= t < |s.threads| ==> Local(s.g, t, s.threads[t]))
    && Holders(s.g, |s.threads|)
  }

  lemma InitInv(blocking: bool, chan: ChanState)
    ensures Inv(Init(blocking, chan))
  {
  }

  lemma OtherPlaced(g: Shared, t: Tid, e: Effect, u: Tid, pc: Pc)
    requires Global(g) && Allowed(g, t, e) && u != t && Local(g, u, pc)
    ensures Local(Apply(g, t, e), u, pc)
  {
    SparesKept(g, t, e, u);
    Stable(g, Apply(g, t, e), t, u, pc);
  }

  lemma HolderOfShift(r: CallRec, r': CallRec, t: Tid, inserts: bool, takes: bool, drops: bool)
    requires Shifts(r, r', t, inserts, takes, drops)
    ensures r'.place.Held? ==> r'.place == r.place || r'.place.t == t
  {
  }

  lemma HolderKept(g: Shared, t: Tid, e: Effect, n: nat, c: CallId)
    requires Global(g) && Allowed(g, t, e) && t < n && HolderIn(g, n, c)
    ensures HolderIn(Apply(g, t, e), n, c)
  {
    EffectShifts(g, t, e, c);
    if c < |g.calls| {
      HolderOfShift(g.calls[c], Apply(g, t, e).calls[c], t, Inserts(e, c), Takes(g, e, c), Drops(e, c));
    }
  }

  lemma OwnerKept(g: Shared, t: Tid, e: Effect, n: nat)
    requires Global(g) && Allowed(g, t, e) && t < n && (g.mutex.Some? ==> g.mutex.value < n)
    ensures Apply(g, t, e).mutex.Some? ==> Apply(g, t, e).mutex.value < n
  {
    var mutex := Apply(g, t, e).mutex;
    if mutex.Some? && mutex.value != t { SparesKept(g, t, e, mutex.value); }
  }

  lemma HoldersKept(g: Shared, t: Tid, e: Effect, n: nat)
    requires Global(g) && Allowed(g, t, e) && t < n && Holders(g, n)
    ensures Holders(Apply(g, t, e), n)
  {
    var g' := Apply(g, t, e);
    forall c: CallId ensures HolderIn(g', n, c) { HolderKept(g, t, e, n, c); }
    OwnerKept(g, t, e, n);
  }

  lemma ThreadsKept(s: State, t: Tid, e: Effect, pc: Pc)
    requires Inv(s) && t < |s.threads| && Allowed(s.g, t, e) && Local(Apply(s.g, t, e), t, pc)
    ensures Inv(State(Apply(s.g, t, e), s.threads[t := pc]))
  {
    GlobalKept(s.g, t, e);
    HoldersKept(s.g, t, e, |s.threads|);
    var threads := s.threads[t := pc];
    forall u | 0 <= u < |s.threads| ensures Local(Apply(s.g, t, e), u, threads[u]) {
      if u != t { OtherPlaced(s.g, t, e, u, s.threads[u]); }
    }
  }

  lemma RunKeepsInv(s: State, t: Tid, x: Choice)
    requires Inv(s) && Next(s, Run(t, x)).Some?
    ensures Inv(Next(s, Run(t, x)).value)
  {
    var o := ThreadStep(s.g, s.threads[t], x);
    assert Local(s.g, t, s.threads[t]);
    StepProper(s.g, t, s.threads[t], x);
    MoverPlaced(s.g, t, s.threads[t], x);
    ThreadsKept(s, t, o.e, o.pc);
  }

  /** A new call, or none, changes nothing for the goroutines there are. */
  lemma AddCallKept(g: Shared, r: CallRec)
    requires Global(g) && CallOk(r) && r.place.NotYet?
    ensures Global(AddCall(g, r))
  {
    var g' := AddCall(g, r);
    forall k: nat ensures KeyOk(g', k) { assert KeyOk(g, k); }
    forall c: CallId ensures CallAt(g', c) { assert CallAt(g, c); }
  }

  lemma AddCallStable(g: Shared, r: CallRec, u: Tid, pc: Pc)
    requires Local(g, u, pc) && r.place.NotYet?
    ensures Local(AddCall(g, r), u, pc)
  {
    forall c: CallId ensures HeldOnly(AddCall(g, r), u, HeldBy(pc), c) {
      assert HeldOnly(g, u, HeldBy(pc), c);
    }
  }

  lemma NewcomerPlaced(g: Shared, u: Tid, pc: Pc)
    requires Holders(g, u)
    requires HeldBy(pc).None? && !HoldsMutex(pc) && Phase(g, u, pc)
    ensures Local(g, u, pc)
  {
    forall c: CallId ensures HeldOnly(g, u, None, c) { assert HolderIn(g, u, c); }
  }

  lemma HoldersGrow(g: Shared, g': Shared, n: nat, m: nat)
    requires Holders(g, n) && n <= m && g'.mutex == g.mutex
    requires || g'.calls == g.calls
             || (|g'.calls| > 0 && g'.calls[..|g'.calls| - 1] == g.calls && !g'.calls[|g.calls|].place.Held?)
    ensures Holders(g', m)
  {
    forall c: CallId ensures HolderIn(g', m, c) {
      assert HolderIn(g, n, c);
      if g'.calls != g.calls && c < |g.calls| { assert g'.calls[..|g'.calls| - 1][c] == g'.calls[c]; }
    }
  }

  lemma SpawnKeepsInv(s: State, r: CallRec, pcs: seq<Pc>)
    requires Inv(s) && r == NewCall(r.raw, r.oneway, r.cap, |s.threads|)
    requires 1 <= |pcs| <= 2
    requires !r.raw ==> pcs[0] == Send(|s.g.calls|, NRegister)
    requires r.raw ==> pcs[0].Raw? && pcs[0].c == |s.g.calls| && pcs[0].r.RInsert?
    requires |pcs| == 2 ==> pcs[1] == Wait(|s.g.calls|, WWait) && !r.raw && r.cap == Some(10)
    ensures Inv(State(AddCall(s.g, r), s.threads + pcs))
  {
    var g', n := AddCall(s.g, r), |s.threads|;
    assert Holders(s.g, n);
    HoldersGrow(s.g, g', n, n);
    HoldersGrow(s.g, g', n, n + 1);
    HoldersGrow(s.g, g', n, n + |pcs|);
    AddCallKept(s.g, r);
    forall u | 0 <= u < n + |pcs| ensures Local(g', u, (s.threads + pcs)[u]) {
      if u < n { AddCallStable(s.g, r, u, s.threads[u]); }
      else { NewcomerPlaced(g', u, pcs[u - n]); }
    }
  }

  lemma CloseKeepsInv(s: State)
    requires Inv(s)
    ensures Inv(Next(s, CloseClient).value)
  {
    var n := |s.threads|;
    assert Holders(s.g, n);
    HoldersGrow(s.g, s.g, n, n + 1);
    NewcomerPlaced(s.g, n, Close(KLock));
  }

  lemma ChanKeepsInv(s: State, chan: ChanState)
    requires Inv(s)
    ensures Inv(Next(s, SetChan(chan)).value)
  {
    var g, g' := s.g, Next(s, SetChan(chan)).value.g;
    forall k: nat ensures KeyOk(g', k) { assert KeyOk(g, k); }
    forall c: CallId ensures CallAt(g', c) { assert CallAt(g, c); }
    forall c: CallId ensures HolderIn(g', |s.threads|, c) { assert HolderIn(g, |s.threads|, c); }
    forall u | 0 <= u < |s.threads| ensures Local(g', u, s.threads[u]) {
      forall c: CallId ensures HeldOnly(g', u, HeldBy(s.threads[u]), c) {
        assert HeldOnly(g, u, HeldBy(s.threads[u]), c);
      }
    }
  }

  lemma CallKeepsInv(s: State, m: Move)
    requires Inv(s) && (m.Call? || m.GoCall? || m.SendRaw?)
    ensures Inv(Next(s, m).value)
  {
    var c, n := |s.g.calls|, |s.threads|;
    match m
    case Call(oneway) =>
      SpawnKeepsInv(s, NewCall(false, oneway, Some(10), n), [Send(c, NRegister), Wait(c, WWait)]);
      return;
    case GoCall(oneway, cap) => SpawnKeepsInv(s, NewCall(false, oneway, cap, n), [Send(c, NRegister)]); return;
    case SendRaw(key, oneway) => SpawnKeepsInv(s, NewCall(true, oneway, Some(10), n), [Raw(c, key, RInsert)]); return;
  }

  /** Every move of every run keeps the invariant. */
  lemma NextKeepsInv(s: State, m: Move)
    requires Inv(s) && Next(s, m).Some?
    ensures Inv(Next(s, m).value)
  {
    match m
    case Call(_) => CallKeepsInv(s, m); return;
    case GoCall(_, _) => CallKeepsInv(s, m); return;
    case SendRaw(_, _) => CallKeepsInv(s, m); return;
    case CloseClient => CloseKeepsInv(s); return;
    case SetChan(chan) => ChanKeepsInv(s, chan); return;
    case Run(t, x) => RunKeepsInv(s, t, x); return;
  }
}
