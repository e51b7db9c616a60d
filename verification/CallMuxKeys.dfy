/**
 Sequence numbers.  While at most 2^64 calls have been sent and SendRaw, which
 brings its own number, is not used, no two calls ever share a number, so no
 insertion or deletion hits another call's entry.  The number reaches the
 waiting caller late: a caller cancelled before that takes the entry of call 0.
 */
module CallMuxKeys {
  import opened Wrappers
  import opened CallMux
  import opened CallMuxInvariant
  import opened CallMuxTheorems

  ghost predicate KeyedAt(g: Shared, c: CallId) {
    c < |g.calls| ==> !g.calls[c].raw && (!g.calls[c].place.NotYet? ==> g.calls[c].key < g.seqNo)
  }

  ghost predicate Apart(g: Shared, c: CallId, d: CallId) {
    c < d < |g.calls| && !g.calls[c].place.NotYet? && !g.calls[d].place.NotYet? ==> g.calls[c].key != g.calls[d].key
  }

  ghost predicate Keyed(g: Shared) {
    && !g.clash
    && (forall c: CallId :: KeyedAt(g, c))
    && (forall c: CallId, d: CallId :: Apart(g, c, d))
  }

  /** Numbers are distinct as long as the counter has not wrapped. */
  ghost predicate KeyedUntilWrap(g: Shared) {
    g.seqNo <= SEQ_SPAN ==> Keyed(g)
  }

  lemma InsertCounters(g: Shared, t: Tid, e: Effect)
    requires e.Insert? || e.InsertRaw?
    ensures Apply(g, t, e).seqNo == g.seqNo + One(e.Insert?)
  {
    var key := if e.Insert? then g.seqNo % SEQ_SPAN else e.key;
    assert Evicted(g, key).seqNo == g.seqNo;
  }

  lemma EntryCounters(g: Shared, t: Tid, e: Effect)
    requires e.Take? || e.CloseEntry? || e.Forget?
    ensures Apply(g, t, e).seqNo == g.seqNo && (!e.Forget? ==> Apply(g, t, e).clash == g.clash)
  {
  }

  lemma FieldCounters(g: Shared, t: Tid, e: Effect)
    requires OnFields(e)
    ensures Apply(g, t, e).seqNo == g.seqNo && Apply(g, t, e).clash == g.clash
  {
    match e
    case Nothing => return;
    case _ => return;
  }

  lemma RecordCounters(g: Shared, t: Tid, e: Effect)
    requires e.Publish? || e.EndSend? || e.Receive? || e.Lose?
          || e.SignalTaken? || e.SignalReject? || e.SignalEncode? || e.SignalTermination?
    ensures Apply(g, t, e).seqNo == g.seqNo && Apply(g, t, e).clash == g.clash
  {
  }

  lemma CountersAfter(g: Shared, t: Tid, e: Effect)
    ensures Apply(g, t, e).seqNo == g.seqNo + One(e.Insert?)
    ensures !e.Insert? && !e.InsertRaw? && !e.Forget? ==> Apply(g, t, e).clash == g.clash
  {
    if e.Insert? || e.InsertRaw? { InsertCounters(g, t, e); }
    else if OnFields(e) { FieldCounters(g, t, e); }
    else if e.Take? || e.CloseEntry? || e.Forget? { EntryCounters(g, t, e); }
    else { RecordCounters(g, t, e); }
  }

  /** Before the wrap the next number is free. */
  lemma NextNumberIsFree(g: Shared)
    requires Global(g) && Keyed(g) && g.seqNo < SEQ_SPAN
    ensures g.seqNo % SEQ_SPAN == g.seqNo && g.seqNo !in g.pending
  {
    assert KeyOk(g, g.seqNo);
    assert KeyedAt(g, if g.seqNo in g.pending then g.pending[g.seqNo] else 0);
  }

  /** The entry under a call's number is that call's. */
  lemma EntryIsOwn(g: Shared, c: CallId)
    requires Global(g) && Keyed(g) && c < |g.calls| && !g.calls[c].place.NotYet? && g.calls[c].key in g.pending
    ensures g.pending[g.calls[c].key] == c
  {
    assert KeyOk(g, g.calls[c].key);
    assert Apart(g, c, g.pending[g.calls[c].key]) && Apart(g, g.pending[g.calls[c].key], c);
  }

  lemma InsertKeepsKeyed(g: Shared, t: Tid, c: CallId)
    requires Global(g) && Keyed(g) && Allowed(g, t, Insert(c)) && g.seqNo < SEQ_SPAN
    ensures Keyed(Apply(g, t, Insert(c)))
  {
    var g' := Apply(g, t, Insert(c));
    NextNumberIsFree(g);
    assert g'.calls == g.calls[c := g.calls[c].(place := Pending, key := g.seqNo)];
    forall d: CallId ensures KeyedAt(g', d) { assert KeyedAt(g, d); }
    forall a: CallId, b: CallId ensures Apart(g', a, b) {
      assert Apart(g, a, b) && KeyedAt(g, a) && KeyedAt(g, b);
    }
  }

  lemma OtherKeepsKeyed(g: Shared, t: Tid, e: Effect)
    requires Global(g) && Keyed(g) && Allowed(g, t, e) && !e.Insert? && !e.InsertRaw?
    requires Apply(g, t, e).clash == g.clash && Apply(g, t, e).seqNo == g.seqNo
    ensures Keyed(Apply(g, t, e))
  {
    forall d: CallId ensures KeyedAt(Apply(g, t, e), d) {
      assert KeyedAt(g, d);
      EffectShifts(g, t, e, d);
    }
    forall a: CallId, b: CallId ensures Apart(Apply(g, t, e), a, b) {
      assert Apart(g, a, b);
      EffectShifts(g, t, e, a);
      EffectShifts(g, t, e, b);
    }
  }

  lemma EffectKeepsKeyed(g: Shared, t: Tid, e: Effect)
    requires Global(g) && KeyedUntilWrap(g) && Allowed(g, t, e) && Apply(g, t, e).seqNo <= SEQ_SPAN
    requires !e.InsertRaw?
    requires e.Forget? ==> !g.calls[e.c].place.NotYet?
    ensures Keyed(Apply(g, t, e))
  {
    CountersAfter(g, t, e);
    if e.Insert? {
      InsertKeepsKeyed(g, t, e.c);
    } else {
      if e.Forget? && e.key in g.pending { EntryIsOwn(g, e.c); }
      OtherKeepsKeyed(g, t, e);
    }
  }

  /** The effect of a step, and that only SendRaw registers under a number of its own. */
  lemma StepEffect(s: State, t: Tid, x: Choice) returns (e: Effect)
    requires Inv(s) && Next(s, Run(t, x)).Some?
    ensures Allowed(s.g, t, e) && Next(s, Run(t, x)).value.g == Apply(s.g, t, e)
    ensures e.InsertRaw? ==> s.g.calls[e.c].raw
    ensures e.Forget? ==> !s.g.calls[e.c].place.NotYet?
  {
    assert Local(s.g, t, s.threads[t]);
    StepProper(s.g, t, s.threads[t], x);
    e := ThreadStep(s.g, s.threads[t], x).e;
  }

  lemma EffectKeepsKeyedUntilWrap(g: Shared, t: Tid, e: Effect)
    requires Global(g) && KeyedUntilWrap(g) && Allowed(g, t, e)
    requires e.InsertRaw? ==> g.calls[e.c].raw
    requires e.Forget? ==> !g.calls[e.c].place.NotYet?
    ensures KeyedUntilWrap(Apply(g, t, e))
  {
    if Apply(g, t, e).seqNo <= SEQ_SPAN {
      CountersAfter(g, t, e);
      assert KeyedAt(g, if e.InsertRaw? then e.c else 0);
      EffectKeepsKeyed(g, t, e);
    }
  }

  lemma StepKeepsKeyed(s: State, m: Move)
    requires Inv(s) && KeyedUntilWrap(s.g) && !m.SendRaw? && Next(s, m).Some?
    ensures KeyedUntilWrap(Next(s, m).value.g)
  {
    var g, g' := s.g, Next(s, m).value.g;
    if m.Run? {
      var e := StepEffect(s, m.t, m.x);
      EffectKeepsKeyedUntilWrap(g, m.t, e);
    } else if g'.seqNo <= SEQ_SPAN {
      forall d: CallId ensures KeyedAt(g', d) { assert KeyedAt(g, d); }
      forall a: CallId, b: CallId ensures Apart(g', a, b) { assert Apart(g, a, b); }
    }
  }

  lemma {:induction false} RunKeepsKeyed(s: State, moves: seq<Move>)
    requires Inv(s) && KeyedUntilWrap(s.g) && RunAll(s, moves).Some?
    requires forall m <- moves :: !m.SendRaw?
    ensures Inv(RunAll(s, moves).value) && KeyedUntilWrap(RunAll(s, moves).value.g)
    decreases |moves|
  {
    if moves != [] {
      NextKeepsInv(s, moves[0]);
      StepKeepsKeyed(s, moves[0]);
      RunKeepsKeyed(Next(s, moves[0]).value, moves[1..]);
    }
  }

  /** Without SendRaw, up to the wrap of the sequence number, no two registered calls have the same
      number and no insertion or deletion ever hits another call's entry. */
  lemma NumbersNeverClash(blocking: bool, chan: ChanState, moves: seq<Move>, s: State, c: CallId, d: CallId)
    requires RunAll(Init(blocking, chan), moves) == Some(s) && (forall m <- moves :: !m.SendRaw?)
    requires s.g.seqNo <= SEQ_SPAN
    requires c < d < |s.g.calls| && !s.g.calls[c].place.NotYet? && !s.g.calls[d].place.NotYet?
    ensures !s.g.clash && s.g.calls[c].key != s.g.calls[d].key
  {
    InitInv(blocking, chan);
    RunKeepsKeyed(Init(blocking, chan), moves);
    assert Apart(s.g, c, d);
  }

  /** A cancelled caller takes its own entry or none exactly if its send goroutine has told it the
      sequence number or there is no entry under number 0. */
  lemma CancelTakesOwnIff(blocking: bool, chan: ChanState, moves: seq<Move>, s: State, c: CallId)
    requires RunAll(Init(blocking, chan), moves) == Some(s) && (forall m <- moves :: !m.SendRaw?)
    requires s.g.seqNo <= SEQ_SPAN && c < |s.g.calls| && s.g.mutex.None?
    ensures var pc := WaitStep(s.g, c, WCancel, Proceed).pc;
            HeldBy(pc).None? || HeldBy(pc).value == c <==> Published(s.g.calls[c]) || 0 !in s.g.pending
  {
    InitInv(blocking, chan);
    RunKeepsKeyed(Init(blocking, chan), moves);
    var r := s.g.calls[c];
    assert CallAt(s.g, c) && KeyOk(s.g, r.cseq);
    if Published(r) && r.cseq in s.g.pending { EntryIsOwn(s.g, c); }
  }

  /** A response is handled for the call whose number it carries, if that call still waits for it, and
      for no other. */
  lemma ResponseGoesToItsCall(blocking: bool, chan: ChanState, moves: seq<Move>, s: State, key: nat, x: Choice)
    requires RunAll(Init(blocking, chan), moves) == Some(s) && (forall m <- moves :: !m.SendRaw?)
    requires s.g.seqNo <= SEQ_SPAN && s.threads != [] && s.threads[READER] == Read(DTake(key))
    requires Next(s, Run(READER, x)).Some?
    ensures var pc := Next(s, Run(READER, x)).value.threads[READER];
      && (forall c: CallId :: c < |s.g.calls| && Numbered(s.g, c, key) ==>
            pc == Read(if s.g.calls[c].place.Pending? then DHandle(c) else DDecode))
      && (pc == Read(DDecode) || (HeldBy(pc).Some? && Numbered(s.g, HeldBy(pc).value, key)))
  {
    InitInv(blocking, chan);
    RunKeepsKeyed(Init(blocking, chan), moves);
    assert KeyOk(s.g, key);
    forall c: CallId | c < |s.g.calls| && Numbered(s.g, c, key)
      ensures key in s.g.pending ==> s.g.pending[key] == c
      ensures s.g.calls[c].place.Pending? ==> key in s.g.pending
    {
      if key in s.g.pending { EntryIsOwn(s.g, c); }
      assert CallAt(s.g, c);
    }
  }

  /** The call has been registered under the number. */
  ghost predicate Numbered(g: Shared, c: CallId, key: nat) {
    c < |g.calls| && !g.calls[c].place.NotYet? && g.calls[c].key == key
  }

  /** No response handler panics in the run. */
  ghost predicate Calm(moves: seq<Move>) {
    forall m <- moves :: !(m.Run? && m.x.HandlerPanics?)
  }

  lemma PanickedAfter(g: Shared, t: Tid, e: Effect)
    requires !e.Lose?
    ensures Apply(g, t, e).panicked == g.panicked
  {
    match e
    case Insert(c) => assert Evicted(g, g.seqNo % SEQ_SPAN).panicked == g.panicked; return;
    case InsertRaw(c, key) => assert Evicted(g, key).panicked == g.panicked; return;
    case _ => return;
  }

  lemma OnlyPanicsLose(g: Shared, pc: Pc, x: Choice)
    ensures var o := ThreadStep(g, pc, x); o.Moved? && o.e.Lose? ==> x.HandlerPanics?
  {
  }

  lemma MoveStaysCalm(s: State, m: Move)
    requires Next(s, m).Some? && !(m.Run? && m.x.HandlerPanics?)
    ensures Next(s, m).value.g.panicked == s.g.panicked
  {
    match m
    case Call(_) => return;
    case GoCall(_, _) => return;
    case SendRaw(_, _) => return;
    case CloseClient => return;
    case SetChan(_) => return;
    case Run(t, x) =>
      OnlyPanicsLose(s.g, s.threads[t], x);
      PanickedAfter(s.g, t, ThreadStep(s.g, s.threads[t], x).e);
      return;
  }

  lemma {:induction false} RunStaysCalm(s: State, moves: seq<Move>)
    requires RunAll(s, moves).Some? && Calm(moves) && !s.g.panicked
    ensures !RunAll(s, moves).value.g.panicked
    decreases |moves|
  {
    if moves != [] {
      assert moves[0] in moves;
      MoveStaysCalm(s, moves[0]);
      RunStaysCalm(Next(s, moves[0]).value, moves[1..]);
    }
  }

  /** Without SendRaw, up to 2^64 sends and without a panicking handler, every settled call is signalled
      once the read loop has ended or a Close has run. */
  lemma EveryCallSignalled(blocking: bool, chan: ChanState, moves: seq<Move>, s: State, c: CallId)
    requires RunAll(Init(blocking, chan), moves) == Some(s) && (forall m <- moves :: !m.SendRaw?) && Calm(moves)
    requires s.g.seqNo <= SEQ_SPAN && c < |s.g.calls| && Settled(s, c) && (s.g.terminated || s.g.closeRan)
    ensures s.g.calls[c].signals >= 1
  {
    InitInv(blocking, chan);
    RunKeepsKeyed(Init(blocking, chan), moves);
    RunStaysCalm(Init(blocking, chan), moves);
    assert KeyedAt(s.g, c);
    NoCallForgotten(s, c);
  }
}
