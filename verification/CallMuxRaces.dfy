/** Races of the call multiplexer in which a call goes without its signal or gets another's. */
module CallMuxRaces {
  import opened Wrappers
  import opened CallMux
  import opened CallMuxSilence

  /** A set of states that no move leads out of. */
  ghost predicate Closed(p: State -> bool) {
    forall s, m :: p(s) && Next(s, m).Some? ==> p(Next(s, m).value)
  }

  lemma Does(p: State -> bool, s: State, t: Tid, x: Choice, e: Effect, pc': Pc) returns (s': State)
    requires Closed(p) && p(s)
    requires t < |s.threads| && ThreadStep(s.g, s.threads[t], x) == Moved(e, pc')
    ensures p(s') && s'.g == Apply(s.g, t, e) && s'.threads == s.threads[t := pc']
  {
    s' := Next(s, Run(t, x)).value;
  }

  const START: State := Init(false, NilChan)

  /** Call 0 as its sender leaves it: registered, told, written. */
  const SENT: CallRec := NewCall(false, false, Some(10), 1).(place := Pending)

  lemma Registers(p: State -> bool) returns (s: State)
    requires Closed(p) && p(START)
    ensures p(s) && s.threads == [Read(DDecode), Send(0, NPublish(0)), Wait(0, WWait)]
    ensures s.g == START.g.(seqNo := 1, pending := map[0 := 0], calls := [SENT])
  {
    s := Next(START, Call(false)).value;
    s := Does(p, s, 1, Proceed, Insert(0), Send(0, NPublish(0)));
  }

  lemma Sends(p: State -> bool) returns (s: State)
    requires Closed(p) && p(START)
    ensures p(s) && s.threads == [Read(DDecode), Done, Wait(0, WWait)]
    ensures s.g == START.g.(seqNo := 1, pending := map[0 := 0], calls := [SENT.(stage := Ended)])
  {
    s := Registers(p);
    s := Does(p, s, 1, Proceed, Publish(0, 0), Send(0, NEncode(0)));
    s := Does(p, s, 1, Proceed, Nothing, Send(0, NWrite(0)));
    s := Does(p, s, 1, Proceed, Nothing, Send(0, NEnd));
    s := Does(p, s, 1, Proceed, EndSend(0), Done);
  }

  /** The second caller is cancelled before its send goroutine has registered its call. */
  lemma CancelTakesFirst(p: State -> bool) returns (s: State)
    requires Closed(p) && p(START)
    ensures p(s) && |s.threads| == 5 && s.threads[4] == Wait(1, WSignal(0))
  {
    s := Registers(p);
    s := Next(s, Call(false)).value;
    s := Does(p, s, 4, Cancelled, Nothing, Wait(1, WCancel));
    s := Does(p, s, 4, Proceed, Take(0), Wait(1, WSignal(0)));
  }

  /** SendRaw brings number 0 too; then Close empties pending. */
  lemma RawOverwrites(p: State -> bool) returns (s: State)
    requires Closed(p) && p(START)
    ensures p(s) && s.threads == [Read(DDecode), Done, Wait(0, WWait), Raw(1, 0, RWrite)]
    ensures s.g.pending == map[0 := 1] && s.g.mutex.None? && s.g.panicked == false
    ensures |s.g.calls| == 2 && s.g.calls[0] == SENT.(stage := Ended, place := Lost)
  {
    s := Sends(p);
    s := Next(s, SendRaw(0, false)).value;
    s := Does(p, s, 3, Proceed, InsertRaw(1, 0), Raw(1, 0, RWrite));
  }

  lemma RawLoses(p: State -> bool) returns (s: State)
    requires Closed(p) && p(START)
    ensures p(s) && s.g.closeRan && !s.g.panicked
    ensures |s.g.calls| == 2 && s.g.calls[0] == SENT.(stage := Ended, place := Lost)
    ensures s.threads == [Read(DDecode), Done, Wait(0, WWait), Raw(1, 0, RWrite), Done]
  {
    s := RawOverwrites(p);
    s := Next(s, CloseClient).value;
    s := Does(p, s, 4, Proceed, LockClose, Close(KEach));
    assert 0 in s.g.pending;
    s := Does(p, s, 4, Visits(0), CloseEntry(0), Close(KEach));
    assert s.g.pending == map[];
    s := Does(p, s, 4, Proceed, FinishClose, Done);
  }

  /** The response to call 0 arrives and its handler panics ... */
  lemma Panics(p: State -> bool) returns (s: State)
    requires Closed(p) && p(START)
    ensures p(s) && s.threads == [Read(DNotice), Done, Wait(0, WWait)]
    ensures s.g == START.g.(seqNo := 1, calls := [SENT.(stage := Ended, place := Lost)], panicked := true)
  {
    s := Sends(p);
    s := Does(p, s, 0, Arrives(Msg(0, false, false, false, 0)), Nothing, Read(DTake(0)));
    s := Does(p, s, 0, Proceed, Take(0), Read(DHandle(0)));
    s := Does(p, s, 0, HandlerPanics, Lose(0), Read(DNotice));
    assert s.g.pending == map[];
  }

  /** ... then the read loop ends. */
  lemma PanicLoses(p: State -> bool) returns (s: State)
    requires Closed(p) && p(START)
    ensures p(s) && s.g.terminated && !s.g.clash && s.g.calls == [SENT.(stage := Ended, place := Lost)]
    ensures s.threads == [Done, Done, Wait(0, WWait)]
  {
    s := Panics(p);
    s := Does(p, s, 0, Proceed, SkipPush, Read(DLock));
    s := Does(p, s, 0, Proceed, LockShutdown, Read(DEach));
    s := Does(p, s, 0, Proceed, FinishTermination, Done);
  }

  // ---------------------------------------------------------------- the runs exist

  lemma {:induction false} RunAppend(s: State, moves: seq<Move>, m: Move)
    requires RunAll(s, moves).Some?
    ensures RunAll(s, moves + [m]) == Next(RunAll(s, moves).value, m)
    decreases |moves|
  {
    if moves == [] {
      assert (moves + [m])[1..] == [];
    } else {
      assert (moves + [m])[1..] == moves[1..] + [m];
      RunAppend(Next(s, moves[0]).value, moves[1..], m);
    }
  }

  lemma NextReachable(s: State, m: Move)
    requires Reachable(s) && Next(s, m).Some?
    ensures Reachable(Next(s, m).value)
  {
    var blocking, chan, moves :| RunAll(Init(blocking, chan), moves) == Some(s);
    RunAppend(Init(blocking, chan), moves, m);
  }

  lemma ReachableClosed() returns (p: State -> bool)
    ensures Closed(p) && p(START) && forall s :: p(s) <==> Reachable(s)
  {
    p := s => Reachable(s);
    forall s, m | p(s) && Next(s, m).Some? ensures p(Next(s, m).value) {
      NextReachable(s, m);
    }
    assert RunAll(Init(false, NilChan), []) == Some(START);
  }

  /** A cancelled caller can take and signal another caller's call. */
  lemma CancelCanTakeAnother()
    ensures exists s: State, t: Tid :: Reachable(s) && t < |s.threads| && s.threads[t] == Wait(1, WSignal(0))
  {
    var p := ReachableClosed();
    var s := CancelTakesFirst(p);
    assert s.threads[4] == Wait(1, WSignal(0));
  }

  /** The caller of call 0, which has been sent, waits for a signal that never comes, although the
      client is closed or its read loop has ended. */
  ghost predicate Forgotten(s: State) {
    && (s.g.terminated || s.g.closeRan)
    && (exists t: Tid :: t < |s.threads| && s.threads[t] == Wait(0, WWait))
    && Silent(s, 0)
  }

  lemma LostIsForgotten(s: State)
    requires Reachable(s) && (s.g.terminated || s.g.closeRan) && Mute(s.g, 0)
    requires |s.threads| > 2 && s.threads[2] == Wait(0, WWait)
    ensures Forgotten(s)
  {
    SilentIff(s, 0);
  }

  /** Both exceptions to the promise that no call is forgotten occur, and then the call is never
      signalled: a raw message that reuses a number in use, and a panic in a response handler. */
  lemma CallsCanBeForgotten()
    ensures exists s: State :: Reachable(s) && Forgotten(s) && !s.g.panicked
    ensures exists s: State :: Reachable(s) && Forgotten(s) && !s.g.clash
  {
    var p := ReachableClosed();
    var s1 := RawLoses(p);
    LostIsForgotten(s1);
    var s2 := PanicLoses(p);
    LostIsForgotten(s2);
  }
}
