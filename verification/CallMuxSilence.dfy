/** Which calls are never signalled, whatever happens from a state on. */
module CallMuxSilence {
  import opened Wrappers
  import opened CallMux
  import opened CallMuxInvariant
  import opened CallMuxTheorems

  /** A call sent, without a signal, whose entry is lost. */
  ghost predicate Mute(g: Shared, c: CallId) {
    c < |g.calls| && g.calls[c].signals == 0 && g.calls[c].stage.Ended? && g.calls[c].place.Lost?
  }

  /** The marks of an encoding failure and of the read loop's end are set by their own signals only. */
  ghost predicate MarksAt(g: Shared, t: Tid, e: Effect, c: CallId) {
    var g' := Apply(g, t, e);
    |g'.calls| == |g.calls| &&
    (c < |g.calls| ==>
       && (g'.calls[c].byEncode == g.calls[c].byEncode || e == SignalEncode(c))
       && (g'.calls[c].byTermination == g.calls[c].byTermination || e == SignalTermination(c)))
  }

  lemma EntryMarks(g: Shared, t: Tid, e: Effect, c: CallId)
    requires (e.Take? || e.CloseEntry? || e.Forget?) && KeyOk(g, e.key)
    ensures MarksAt(g, t, e, c)
  {
    match e
    case Take(_) => return;
    case CloseEntry(_) => return;
    case Forget(_, _) => return;
  }

  lemma InsertMarks(g: Shared, t: Tid, e: Effect, c: CallId)
    requires Global(g) && Allowed(g, t, e) && (e.Insert? || e.InsertRaw?)
    ensures MarksAt(g, t, e, c)
  {
    var key := if e.Insert? then g.seqNo % SEQ_SPAN else e.key;
    assert KeyOk(g, key);
    InsertedAt(g, e.c, key, c);
  }

  lemma RecordMarks(g: Shared, t: Tid, e: Effect, c: CallId)
    requires e.Publish? || e.EndSend? || e.Receive? || e.Lose?
    ensures MarksAt(g, t, e, c)
  {
    match e
    case Publish(_, _) => return;
    case EndSend(_) => return;
    case Receive(_) => return;
    case Lose(_) => return;
  }

  lemma SignalMarks(g: Shared, t: Tid, e: Effect, c: CallId)
    requires e.SignalTaken? || e.SignalReject? || e.SignalEncode? || e.SignalTermination?
    ensures MarksAt(g, t, e, c)
  {
    var r := Signalled(Rec(g, e.c));
    assert r.byEncode == Rec(g, e.c).byEncode && r.byTermination == Rec(g, e.c).byTermination;
    if e.SignalTaken? { UpdatedAt(g, e.c, r.(place := Taken), c); }
    else if e.SignalReject? { UpdatedAt(g, e.c, r.(byReject := true), c); }
    else if e.SignalEncode? { UpdatedAt(g, e.c, r.(byEncode := true), c); }
    else { UpdatedAt(g, e.c, r.(byTermination := true), c); }
  }

  lemma FieldMarks(g: Shared, t: Tid, e: Effect, c: CallId)
    requires OnFields(e)
    ensures MarksAt(g, t, e, c)
  {
    match e
    case Nothing => return;
    case _ => return;
  }

  lemma Marks(g: Shared, t: Tid, e: Effect, c: CallId)
    requires Global(g) && Allowed(g, t, e)
    ensures MarksAt(g, t, e, c)
  {
    if e.Take? || e.CloseEntry? || e.Forget? { assert KeyOk(g, e.key); EntryMarks(g, t, e, c); }
    else if e.Insert? || e.InsertRaw? { InsertMarks(g, t, e, c); }
    else if OnFields(e) { FieldMarks(g, t, e, c); }
    else if e.Publish? || e.EndSend? || e.Receive? || e.Lose? { RecordMarks(g, t, e, c); }
    else { SignalMarks(g, t, e, c); }
  }

  lemma ShiftOfLost(r: CallRec, r': CallRec, t: Tid, inserts: bool, takes: bool, drops: bool)
    requires Shifts(r, r', t, inserts, takes, drops) && r.place.Lost?
    ensures r'.place.Lost?
  {
  }

  lemma EndedStays(g: Shared, t: Tid, e: Effect, c: CallId)
    requires Global(g) && Allowed(g, t, e) && c < |g.calls| && g.calls[c].stage.Ended?
    ensures c < |Apply(g, t, e).calls| && Apply(g, t, e).calls[c].stage.Ended?
  {
    if e.EndSend? { RecordShifts(g, t, e, c); } else { EffectStage(g, t, e, c); }
  }

  lemma MuteRecord(r: CallRec, r': CallRec)
    requires CallOk(r) && r.signals == 0 && CallOk(r') && r'.place.Lost?
    requires r'.byEncode == r.byEncode && r'.byTermination == r.byTermination
    ensures r'.signals == 0
  {
  }

  lemma EffectKeepsMute(g: Shared, t: Tid, e: Effect, c: CallId)
    requires Global(g) && Allowed(g, t, e) && Mute(g, c)
    ensures Mute(Apply(g, t, e), c)
  {
    var g' := Apply(g, t, e);
    EffectShifts(g, t, e, c);
    ShiftOfLost(g.calls[c], g'.calls[c], t, Inserts(e, c), Takes(g, e, c), Drops(e, c));
    EndedStays(g, t, e, c);
    Marks(g, t, e, c);
    GlobalKept(g, t, e);
    assert CallAt(g, c) && CallAt(g', c);
    MuteRecord(g.calls[c], g'.calls[c]);
  }

  lemma RunKeepsMute(s: State, t: Tid, x: Choice, c: CallId)
    requires Inv(s) && Mute(s.g, c) && Next(s, Run(t, x)).Some?
    ensures Mute(Next(s, Run(t, x)).value.g, c)
  {
    assert Local(s.g, t, s.threads[t]);
    StepProper(s.g, t, s.threads[t], x);
    EffectKeepsMute(s.g, t, ThreadStep(s.g, s.threads[t], x).e, c);
  }

  lemma MoveKeepsMute(s: State, m: Move, c: CallId)
    requires Inv(s) && Mute(s.g, c) && Next(s, m).Some?
    ensures Mute(Next(s, m).value.g, c)
  {
    match m
    case Run(t, x) => RunKeepsMute(s, t, x, c); return;
    case _ => return;
  }

  lemma {:induction false} MuteForever(s: State, moves: seq<Move>, c: CallId)
    requires Inv(s) && Mute(s.g, c) && RunAll(s, moves).Some?
    ensures Mute(RunAll(s, moves).value.g, c)
    decreases |moves|
  {
    if moves != [] {
      NextKeepsInv(s, moves[0]);
      MoveKeepsMute(s, moves[0], c);
      MuteForever(Next(s, moves[0]).value, moves[1..], c);
    }
  }

  // ---------------------------------------------------------------- and the others

  ghost predicate SignalledBy(s: State, moves: seq<Move>, c: CallId) {
    RunAll(s, moves).Some? && c < |RunAll(s, moves).value.g.calls| && RunAll(s, moves).value.g.calls[c].signals >= 1
  }

  /** Whatever happens, the call gets no signal. */
  ghost predicate Silent(s: State, c: CallId) {
    forall moves :: !SignalledBy(s, moves, c)
  }

  lemma RunOne(s: State, m: Move)
    ensures RunAll(s, [m]) == Next(s, m)
  {
    assert [m][1..] == [];
  }

  /** Whoever holds a call can signal it. */
  lemma HolderSignals(s: State, t: Tid, c: CallId)
    requires t < |s.threads| && HeldBy(s.threads[t]) == Some(c) && c < |s.g.calls|
    ensures SignalledBy(s, [Run(t, Proceed)], c)
  {
    RunOne(s, Run(t, Proceed));
    assert ThreadStep(s.g, s.threads[t], Proceed).e == SignalTaken(c);
  }

  lemma ReaderSignals(g: Shared, t: Tid, c: CallId)
    requires c < |g.calls|
    ensures Apply(g, t, SignalTermination(c)).calls == g.calls[c := Signalled(g.calls[c]).(byTermination := true)]
  {
  }

  lemma CloserSignals(g: Shared, t: Tid, k: nat)
    requires k in g.pending && g.pending[k] < |g.calls|
    ensures var c := g.pending[k];
            Apply(g, t, CloseEntry(k)).calls == g.calls[c := Signalled(g.calls[c]).(place := Taken)]
  {
  }

  /** Whoever holds the mutex can signal an entry that has no signal yet. */
  lemma WalkerSignals(s: State, t: Tid, k: nat)
    requires t < |s.threads| && HoldsMutex(s.threads[t])
    requires k in s.g.pending && s.g.pending[k] < |s.g.calls| && !s.g.calls[s.g.pending[k]].byTermination
    ensures SignalledBy(s, [Run(t, Visits(k))], s.g.pending[k])
  {
    var c := s.g.pending[k];
    RunOne(s, Run(t, Visits(k)));
    if s.threads[t].Read? {
      assert ReadStep(s.g, DEach, Visits(k)) == Moved(SignalTermination(c), Read(DEach));
      ReaderSignals(s.g, t, c);
    } else {
      assert CloseStep(s.g, KEach, Visits(k)) == Moved(CloseEntry(k), Close(KEach));
      CloserSignals(s.g, t, k);
    }
  }

  /** With the mutex free, a Close can be made to. */
  lemma CloseSignals(s: State, k: nat)
    requires s.g.mutex.None?
    requires k in s.g.pending && s.g.pending[k] < |s.g.calls| && !s.g.calls[s.g.pending[k]].byTermination
    ensures SignalledBy(s, [CloseClient, Run(|s.threads|, Proceed), Run(|s.threads|, Visits(k))], s.g.pending[k])
  {
    var n := |s.threads|;
    var s1 := Next(s, CloseClient).value;
    assert ThreadStep(s1.g, s1.threads[n], Proceed) == Moved(LockClose, Close(KEach));
    var s2 := Next(s1, Run(n, Proceed)).value;
    WalkerSignals(s2, n, k);
    assert [CloseClient, Run(n, Proceed), Run(n, Visits(k))][1..] == [Run(n, Proceed), Run(n, Visits(k))];
    assert [Run(n, Proceed), Run(n, Visits(k))][1..] == [Run(n, Visits(k))];
  }

  /** A call whose sender has finished is never signalled exactly if it has no signal and its entry is
      lost; entries are lost only to a clash of numbers or a panicking handler. */
  lemma SilentIff(s: State, c: CallId)
    requires Reachable(s) && c < |s.g.calls| && s.g.calls[c].stage.Ended?
    ensures Silent(s, c) <==> s.g.calls[c].signals == 0 && s.g.calls[c].place.Lost?
  {
    ReachableInv(s);
    assert CallAt(s.g, c);
    var r := s.g.calls[c];
    if Mute(s.g, c) {
      forall moves ensures !SignalledBy(s, moves, c) {
        if RunAll(s, moves).Some? { MuteForever(s, moves, c); }
      }
    } else {
      var moves := CanBeSignalled(s, c);
    }
  }

  lemma CanBeSignalled(s: State, c: CallId) returns (moves: seq<Move>)
    requires Reachable(s) && c < |s.g.calls| && s.g.calls[c].stage.Ended? && !Mute(s.g, c)
    ensures SignalledBy(s, moves, c)
  {
    ReachableInv(s);
    var r := s.g.calls[c];
    assert CallAt(s.g, c);
    if r.signals >= 1 {
      moves := [];
    } else if r.place.Held? {
      EntriesMatchCalls(s, c);
      moves := [Run(r.place.t, Proceed)];
      HolderSignals(s, r.place.t, c);
    } else if s.g.mutex.Some? {
      var t := s.g.mutex.value;
      assert Local(s.g, t, s.threads[t]);
      moves := [Run(t, Visits(r.key))];
      WalkerSignals(s, t, r.key);
    } else {
      moves := [CloseClient, Run(|s.threads|, Proceed), Run(|s.threads|, Visits(r.key))];
      CloseSignals(s, r.key);
    }
  }
}
