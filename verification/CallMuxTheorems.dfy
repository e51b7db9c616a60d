/** What the call multiplexer promises, over every run of every number of goroutines. */
module CallMuxTheorems {
  import opened Wrappers
  import opened CallMux
  import opened CallMuxInvariant

  lemma {:induction false} RunKeepsInvariant(s: State, moves: seq<Move>)
    requires Inv(s) && RunAll(s, moves).Some?
    ensures Inv(RunAll(s, moves).value)
    decreases |moves|
  {
    if moves != [] {
      NextKeepsInv(s, moves[0]);
      RunKeepsInvariant(Next(s, moves[0]).value, moves[1..]);
    }
  }

  lemma ReachableInv(s: State)
    requires Reachable(s)
    ensures Inv(s)
  {
    var blocking, chan, moves :| RunAll(Init(blocking, chan), moves) == Some(s);
    InitInv(blocking, chan);
    RunKeepsInvariant(Init(blocking, chan), moves);
  }

  // ---------------------------------------------------------------- one call

  /** A call is signalled at most three times, at most once by whoever took its entry; with three
      slots or more in its Done channel no signal is discarded, and with one slot the first is not. */
  lemma SignalsBounded(s: State, c: CallId)
    requires Reachable(s) && c < |s.g.calls|
    ensures var r := s.g.calls[c];
            && r.signals <= 3
            && r.signals == One(r.place.Taken?) + One(r.byReject) + One(r.byEncode) + One(r.byTermination)
            && (r.cap.Some? ==> r.buffered + r.received + r.discarded == r.signals)
            && (r.cap.Some? && r.cap.value >= 3 ==> r.discarded == 0)
            && (r.cap.Some? && r.cap.value >= 1 && r.signals >= 1 ==> r.buffered + r.received >= 1)
  {
    ReachableInv(s);
    assert CallAt(s.g, c);
  }

  // ---------------------------------------------------------------- an entry is taken once

  /** A call's entry is inserted, then taken, deleted or lost, and that is all. */
  ghost predicate Forward(p: Place, q: Place) {
    match p
    case NotYet => true
    case Pending => !q.NotYet?
    case Held(t) => q == p || q.Taken? || q.Lost?
    case _ => q == p
  }

  ghost predicate ForwardAt(g: Shared, g': Shared, c: CallId) {
    c < |g.calls| ==> c < |g'.calls| && Forward(g.calls[c].place, g'.calls[c].place)
  }

  lemma ShiftForward(r: CallRec, r': CallRec, t: Tid, inserts: bool, takes: bool, drops: bool)
    requires Shifts(r, r', t, inserts, takes, drops)
    ensures Forward(r.place, r'.place)
  {
  }

  lemma StepForward(s: State, m: Move, c: CallId)
    requires Inv(s) && Next(s, m).Some?
    ensures ForwardAt(s.g, Next(s, m).value.g, c)
  {
    if m.Run? {
      var o := ThreadStep(s.g, s.threads[m.t], m.x);
      assert Local(s.g, m.t, s.threads[m.t]);
      StepProper(s.g, m.t, s.threads[m.t], m.x);
      EffectShifts(s.g, m.t, o.e, c);
      if c < |s.g.calls| {
        ShiftForward(s.g.calls[c], Apply(s.g, m.t, o.e).calls[c], m.t,
                     Inserts(o.e, c), Takes(s.g, o.e, c), Drops(o.e, c));
      }
    }
  }

  /** Over every run, a call whose entry is gone never gets another: it is taken at most once, and
      signalled for that by the goroutine that took it. */
  lemma {:induction false} TakenOnce(s: State, moves: seq<Move>, c: CallId)
    requires Inv(s) && RunAll(s, moves).Some?
    ensures ForwardAt(s.g, RunAll(s, moves).value.g, c)
    decreases |moves|
  {
    if moves != [] {
      var s1 := Next(s, moves[0]).value;
      NextKeepsInv(s, moves[0]);
      StepForward(s, moves[0], c);
      TakenOnce(s1, moves[1..], c);
    }
  }

  // ---------------------------------------------------------------- the end of the connection

  /** The send goroutine of a call that is still being sent. */
  ghost predicate SenderAt(s: State, c: CallId) {
    c < |s.g.calls| && !s.g.calls[c].raw && s.g.calls[c].stage.Sending? ==>
      var t := s.g.calls[c].sender; t < |s.threads| && s.threads[t].Send? && s.threads[t].c == c
  }

  ghost predicate StageStays(g: Shared, g': Shared, c: CallId) {
    c < |g.calls| ==> c < |g'.calls| && g'.calls[c].stage == g.calls[c].stage
  }

  lemma InsertStage(g: Shared, t: Tid, e: Effect, c: CallId)
    requires Global(g) && Allowed(g, t, e) && (e.Insert? || e.InsertRaw?)
    ensures StageStays(g, Apply(g, t, e), c)
  {
    var key := if e.Insert? then g.seqNo % SEQ_SPAN else e.key;
    assert KeyOk(g, key);
    InsertedAt(g, e.c, key, c);
  }

  lemma EntryStage(g: Shared, t: Tid, e: Effect, c: CallId)
    requires (e.Take? || e.CloseEntry? || e.Forget?) && KeyOk(g, e.key)
    ensures StageStays(g, Apply(g, t, e), c)
  {
    match e
    case Take(_) => return;
    case _ => return;
  }

  lemma FieldStage(g: Shared, t: Tid, e: Effect, c: CallId)
    requires OnFields(e)
    ensures StageStays(g, Apply(g, t, e), c)
  {
    match e
    case Nothing => return;
    case _ => return;
  }

  lemma RecordStage(g: Shared, t: Tid, e: Effect, c: CallId)
    requires Allowed(g, t, e)
    requires e.Publish? || e.Receive? || e.Lose?
          || e.SignalTaken? || e.SignalReject? || e.SignalEncode? || e.SignalTermination?
    ensures StageStays(g, Apply(g, t, e), c)
  {
    match e
    case Publish(_, _) => return;
    case _ => return;
  }

  lemma EffectStage(g: Shared, t: Tid, e: Effect, c: CallId)
    requires Global(g) && Allowed(g, t, e) && !e.EndSend?
    ensures StageStays(g, Apply(g, t, e), c)
  {
    if e.Insert? || e.InsertRaw? { InsertStage(g, t, e, c); }
    else if e.Take? || e.CloseEntry? || e.Forget? { assert KeyOk(g, e.key); EntryStage(g, t, e, c); }
    else if OnFields(e) { FieldStage(g, t, e, c); }
    else { RecordStage(g, t, e, c); }
  }

  /** A sender goes on with its call until it ends it. */
  lemma SenderGoesOn(g: Shared, pc: Pc, x: Choice)
    ensures var o := ThreadStep(g, pc, x); o.Moved? && pc.Send? ==>
              if o.e.EndSend? then o.e.c == pc.c else o.pc.Send? && o.pc.c == pc.c
    ensures var o := ThreadStep(g, pc, x); o.Moved? && o.e.EndSend? ==> pc.Send?
  {
  }

  lemma SenderStays(s: State, s': State, t: Tid, e: Effect, c: CallId)
    requires SenderAt(s, c) && ShiftsTo(s.g, s'.g, t, e, c) && |s'.threads| == |s.threads| && t < |s.threads|
    requires (e.EndSend? && e.c == c) || StageStays(s.g, s'.g, c)
    requires e.EndSend? && e.c == c && c < |s.g.calls| ==> s'.g.calls[c].stage.Ended?
    requires forall u :: 0 <= u < |s.threads| && u != t ==> s'.threads[u] == s.threads[u]
    requires s.threads[t].Send? && !(e.EndSend? && e.c == s.threads[t].c) ==>
               s'.threads[t].Send? && s'.threads[t].c == s.threads[t].c
    ensures SenderAt(s', c)
  {
  }

  lemma EndSendStage(g: Shared, t: Tid, e: Effect, c: CallId)
    requires e.EndSend?
    ensures e.c == c && c < |g.calls| ==> Apply(g, t, e).calls[c].stage.Ended?
    ensures e.c != c ==> StageStays(g, Apply(g, t, e), c)
  {
  }

  lemma RunKeepsSender(s: State, t: Tid, x: Choice, c: CallId)
    requires Inv(s) && Next(s, Run(t, x)).Some? && SenderAt(s, c)
    ensures SenderAt(Next(s, Run(t, x)).value, c)
  {
    var e := ThreadStep(s.g, s.threads[t], x).e;
    assert Local(s.g, t, s.threads[t]);
    StepProper(s.g, t, s.threads[t], x);
    EffectShifts(s.g, t, e, c);
    SenderGoesOn(s.g, s.threads[t], x);
    if e.EndSend? { EndSendStage(s.g, t, e, c); } else { EffectStage(s.g, t, e, c); }
    SenderStays(s, Next(s, Run(t, x)).value, t, e, c);
  }

  lemma StepKeepsSenders(s: State, m: Move, c: CallId)
    requires Inv(s) && Next(s, m).Some? && SenderAt(s, c)
    ensures SenderAt(Next(s, m).value, c)
  {
    if m.Run? { RunKeepsSender(s, m.t, m.x, c); }
  }

  lemma {:induction false} RunKeepsSenders(s: State, moves: seq<Move>)
    requires Inv(s) && (forall c: CallId :: SenderAt(s, c)) && RunAll(s, moves).Some?
    ensures forall c: CallId :: SenderAt(RunAll(s, moves).value, c)
    decreases |moves|
  {
    if moves != [] {
      NextKeepsInv(s, moves[0]);
      forall c: CallId ensures SenderAt(Next(s, moves[0]).value, c) { StepKeepsSenders(s, moves[0], c); }
      RunKeepsSenders(Next(s, moves[0]).value, moves[1..]);
    }
  }

  lemma ReachableSenders(s: State, c: CallId)
    requires Reachable(s)
    ensures SenderAt(s, c)
  {
    var blocking, chan, moves :| RunAll(Init(blocking, chan), moves) == Some(s);
    InitInv(blocking, chan);
    RunKeepsSenders(Init(blocking, chan), moves);
  }

  /** Where a registered call is, at all times: in pending, under its own number and no other; held by
      exactly one goroutine, which is about to signal it; signalled by its taker; deleted by its own
      failed encode and then signalled by its sender, or about to be; or lost to a clash or a panic. */
  lemma EntriesMatchCalls(s: State, c: CallId)
    requires Reachable(s) && c < |s.g.calls|
    ensures var r := s.g.calls[c];
            && (forall k: nat :: k in s.g.pending && s.g.pending[k] == c <==> r.place.Pending? && k == r.key)
            && (r.place.Held? ==> r.place.t < |s.threads| && HeldBy(s.threads[r.place.t]) == Some(c))
            && (forall t :: 0 <= t < |s.threads| && HeldBy(s.threads[t]) == Some(c) ==> r.place == Held(t))
            && (r.place.Taken? ==> r.signals >= 1)
            && (r.place.Deleted? ==>
                  r.signals >= 1 || (r.sender < |s.threads| && s.threads[r.sender] == Send(c, NSignalEncode)))
            && (r.place.Lost? ==> s.g.clash || s.g.panicked)
  {
    ReachableInv(s);
    var r := s.g.calls[c];
    assert CallAt(s.g, c);
    forall k: nat ensures k in s.g.pending && s.g.pending[k] == c <==> r.place.Pending? && k == r.key {
      assert KeyOk(s.g, k);
    }
    if r.place.Held? {
      assert HolderIn(s.g, |s.threads|, c);
      assert Local(s.g, r.place.t, s.threads[r.place.t]);
      assert HeldOnly(s.g, r.place.t, HeldBy(s.threads[r.place.t]), c);
    }
    if r.place.Deleted? && !r.byEncode {
      ReachableSenders(s, c);
      assert Local(s.g, r.sender, s.threads[r.sender]);
    }
    forall t | 0 <= t < |s.threads| && HeldBy(s.threads[t]) == Some(c) ensures r.place == Held(t) {
      assert Local(s.g, t, s.threads[t]);
    }
  }

  /** Nothing is left to do for call c: its send goroutine has finished and nobody holds it. */
  ghost predicate Settled(s: State, c: CallId) {
    forall t :: 0 <= t < |s.threads| ==> !(s.threads[t].Send? && s.threads[t].c == c) && HeldBy(s.threads[t]) != Some(c)
  }

  /** Once the read loop has ended or a Close has run, no call is forgotten: as soon as its send
      goroutine is done and nobody is about to signal it, it has been signalled, and whoever waits
      on its Done channel has got the signal or can take it.  The exceptions are calls whose entry
      was lost, which takes a clash of numbers or a panicking response handler. */
  lemma NoCallForgotten(s: State, c: CallId)
    requires Reachable(s) && c < |s.g.calls| && !s.g.calls[c].raw && Settled(s, c)
    requires s.g.terminated || s.g.closeRan
    ensures var r := s.g.calls[c];
            && (r.signals >= 1 || (r.place.Lost? && (s.g.clash || s.g.panicked)))
            && (r.signals >= 1 && r.cap.Some? && r.cap.value >= 1 ==> r.buffered + r.received >= 1)
  {
    ReachableInv(s);
    ReachableSenders(s, c);
    assert CallAt(s.g, c) && KeyOk(s.g, s.g.calls[c].key);
    EntriesMatchCalls(s, c);
  }

  /** Closed: no call can be registered any more. */
  ghost predicate Refusing(g: Shared, c: CallId) {
    (g.closing || g.shutdown) && (c < |g.calls| && !g.calls[c].raw ==> g.calls[c].place.NotYet?)
  }

  lemma FlagsStay(g: Shared, t: Tid, e: Effect)
    ensures g.closing || g.shutdown ==> Apply(g, t, e).closing || Apply(g, t, e).shutdown
  {
    if OnFields(e) {
    } else if e.Take? || e.CloseEntry? || e.Forget? { EntryFrame(g, t, e); }
    else if e.Insert? || e.InsertRaw? { InsertFrame(g, t, e); }
    else { RecordFrame(g, t, e); }
  }

  lemma ShiftWhenClosed(r: CallRec, r': CallRec, t: Tid, inserts: bool, takes: bool, drops: bool)
    requires Shifts(r, r', t, inserts, takes, drops) && (inserts ==> r.raw) && (!r.raw ==> r.place.NotYet?)
    ensures !r'.raw ==> r'.place.NotYet?
  {
  }

  lemma EffectWhenClosed(g: Shared, t: Tid, e: Effect, c: CallId)
    requires Global(g) && Allowed(g, t, e) && Refusing(g, c)
    ensures Refusing(Apply(g, t, e), c)
  {
    FlagsStay(g, t, e);
    EffectShifts(g, t, e, c);
    if c < |g.calls| {
      ShiftWhenClosed(g.calls[c], Apply(g, t, e).calls[c], t, Inserts(e, c), Takes(g, e, c), Drops(e, c));
    }
  }

  lemma StepWhenClosed(s: State, m: Move, c: CallId)
    requires Inv(s) && Refusing(s.g, c) && Next(s, m).Some?
    ensures Refusing(Next(s, m).value.g, c)
  {
    if m.Run? {
      var pc := s.threads[m.t];
      assert Local(s.g, m.t, pc);
      StepProper(s.g, m.t, pc, m.x);
      EffectWhenClosed(s.g, m.t, ThreadStep(s.g, pc, m.x).e, c);
    }
  }

  /** A call that has not been registered when the client is closing or shut down, in particular one
      made later, is never registered: its sender can only reject it. */
  lemma {:induction false} RejectedOnceClosed(s: State, moves: seq<Move>, c: CallId)
    requires Inv(s) && Refusing(s.g, c) && RunAll(s, moves).Some?
    ensures Refusing(RunAll(s, moves).value.g, c)
    decreases |moves|
  {
    if moves != [] {
      NextKeepsInv(s, moves[0]);
      StepWhenClosed(s, moves[0], c);
      RejectedOnceClosed(Next(s, moves[0]).value, moves[1..], c);
    }
  }

  // ---------------------------------------------------------------- server pushes

  /** What the channel got is a subsequence of the decoded pushes in wire order. */
  ghost predicate Embeds(slots: seq<nat>, delivered: seq<Msg>, pushes: seq<Msg>) {
    && |slots| == |delivered|
    && (forall i :: 0 <= i < |slots| ==> slots[i] < |pushes| && delivered[i] == pushes[slots[i]])
    && (forall i, j :: 0 <= i < j < |slots| ==> slots[i] < slots[j])
  }

  /** What reaches the channel is pushes in wire order, each at most once, and then at most one notice of
      the end, which comes last; a blocking client whose channel was always open has delivered every push
      but the last, which it may be delivering now or which a panic of its plugin has kept back. */
  lemma PushesInOrder(s: State)
    requires Reachable(s)
    ensures exists slots :: Embeds(slots, s.g.delivered, s.g.pushes)
    ensures s.g.blocking && !s.g.interrupted ==>
              s.g.delivered == s.g.pushes || (s.g.pushes != [] && s.g.delivered == s.g.pushes[..|s.g.pushes| - 1])
    ensures forall i :: 0 <= i < |s.g.log| && s.g.log[i].None? ==> i == |s.g.log| - 1
    ensures |s.g.delivered| == |s.g.log| - One(s.g.noticed)
    ensures forall i :: 0 <= i < |s.g.delivered| ==> s.g.log[i] == Some(s.g.delivered[i])
  {
    ReachableInv(s);
    assert Embeds(s.g.slots, s.g.delivered, s.g.pushes);
  }

  lemma PushFrame(g: Shared, t: Tid, e: Effect)
    requires e.DecodePush? || e.Deliver? || e.SkipPush? || e.DropChan?
    ensures Apply(g, t, e).pending == g.pending && Apply(g, t, e).calls == g.calls
  {
    match e
    case DecodePush(_) => return;
    case Deliver(_) => return;
    case SkipPush => return;
    case DropChan => return;
  }

  /** Decoding and delivering a push touches no call and no entry. */
  lemma PushTouchesNoCall(s: State, t: Tid, x: Choice)
    requires Reachable(s) && t < |s.threads| && Next(s, Run(t, x)).Some?
    requires s.threads[t].Read?
    requires s.threads[t].d.DDeliver? || (s.threads[t].d.DDecode? && (x.Arrives? || x.Spoiled?) && IsPush(x.m))
    ensures var g' := Next(s, Run(t, x)).value.g; g'.pending == s.g.pending && g'.calls == s.g.calls
  {
    PushFrame(s.g, t, ReadStep(s.g, s.threads[t].d, x).e);
  }

  // ---------------------------------------------------------------- no deadlock

  /** The goroutine can step with no context cancelled, no connection failing, no message arriving and
      the push channel full. */
  ghost predicate CanMove(s: State, t: Tid) {
    || Next(s, Run(t, Full)).Some?
    || (t < |s.threads| && HoldsMutex(s.threads[t]) && exists k: nat :: Next(s, Run(t, Visits(k))).Some?)
  }

  /** Waiting for the consumer of the push channel: the read loop of a blocking client. */
  predicate AwaitsConsumer(g: Shared, pc: Pc) {
    pc.Read? && (pc.d.DDeliver? || pc.d.DNotice?) && g.blocking && g.chan.OpenChan?
  }

  /** Waiting for the peer: a caller without a signal, the read loop without a message. */
  predicate Idle(g: Shared, pc: Pc) {
    || (pc.Wait? && pc.w.WWait? && Rec(g, pc.c).buffered == 0)
    || (pc.Raw? && pc.r.RWait? && Rec(g, pc.c).buffered == 0)
    || (pc.Read? && pc.d.DDecode?)
  }

  lemma HolderCanMove(s: State, t: Tid)
    requires t < |s.threads| && HoldsMutex(s.threads[t])
    ensures CanMove(s, t)
  {
    if s.threads[t].Read? {
      if k :| k in s.g.pending && !Rec(s.g, s.g.pending[k]).byTermination {
        assert Next(s, Run(t, Visits(k))).Some?;
      } else {
        assert Next(s, Run(t, Full)).Some?;
      }
    } else {
      if k :| k in s.g.pending {
        assert Next(s, Run(t, Visits(k))).Some?;
      } else {
        assert s.g.pending == map[];
        assert Next(s, Run(t, Full)).Some?;
      }
    }
  }

  lemma FreeCanMove(s: State, t: Tid)
    requires t < |s.threads| && !s.threads[t].Done? && !Idle(s.g, s.threads[t]) && !AwaitsConsumer(s.g, s.threads[t])
    requires !HoldsMutex(s.threads[t]) && s.g.mutex.None?
    ensures CanMove(s, t)
  {
    assert ThreadStep(s.g, s.threads[t], Full).Moved? by {
      match s.threads[t]
      case Send(_, _) =>
      case Wait(_, _) =>
      case Raw(_, _, _) =>
      case Read(_) =>
      case Close(_) =>
    }
  }

  /** In every reachable state an unfinished goroutine that does not wait for the peer can step, or waits
      for the mutex, whose holder can; only the read loop of a blocking client may need the consumer of
      the push channel for that. */
  lemma NeverStuck(s: State, t: Tid)
    requires Reachable(s) && t < |s.threads| && !s.threads[t].Done? && !Idle(s.g, s.threads[t])
    ensures if AwaitsConsumer(s.g, s.threads[t]) then Next(s, Run(t, Proceed)).Some?
            else CanMove(s, t) || (s.g.mutex.Some? && s.g.mutex.value < |s.threads| && CanMove(s, s.g.mutex.value))
  {
    ReachableInv(s);
    if !AwaitsConsumer(s.g, s.threads[t]) {
      if s.g.mutex.Some? {
        assert Local(s.g, s.g.mutex.value, s.threads[s.g.mutex.value]);
        HolderCanMove(s, s.g.mutex.value);
      } else {
        assert Local(s.g, t, s.threads[t]);
        FreeCanMove(s, t);
      }
    }
  }

  /** Once the read loop has ended or a Close has run, no caller of Call waits for a call that is settled:
      unless the call's entry was lost, it can take its signal and return. */
  lemma WaiterIsServed(s: State, t: Tid)
    requires Reachable(s) && t < |s.threads| && s.threads[t].Wait? && s.threads[t].w.WWait?
    requires (s.g.terminated || s.g.closeRan) && Settled(s, s.threads[t].c)
    ensures s.threads[t].c < |s.g.calls|
    ensures !s.g.calls[s.threads[t].c].place.Lost? ==> CanMove(s, t)
  {
    ReachableInv(s);
    assert Local(s.g, t, s.threads[t]);
    NoCallForgotten(s, s.threads[t].c);
  }
}
