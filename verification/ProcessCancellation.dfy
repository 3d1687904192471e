/**
 When an uncrashed session is sure to deliver: exactly when the operation's one cancellation request
 can no longer arrive while it runs and it does not start by waiting for a process it was told still runs.
 */
module ProcessCancellation {
  import opened Basics
  import opened ProcessWorld
  import opened ProcessProtocol
  import opened ProcessInvariant
  import opened ProcessRuns
  import opened ProcessRecovery

  /** The cancellation request can still be made. */
  predicate Cancellable(w: World) {
    w.record.Some? && !w.record.value.cancellationRequested && w.record.value.state != Terminal
  }

  /** The next await compares the session's copy with the row. */
  predicate Compares(pc: PC) {
    || (pc.CommitActive? && pc.rec.state != Active)
    || pc.CommitFinalizing?
    || (pc.Bind? && (pc.rec.stdoutArtifact.None? || pc.rec.stderrArtifact.None?))
    || pc.CommitTerminal?
  }

  const CALM := Choice(true, Accepts, false, 0)

  // ---------------------------------------------------------------- how a session loses

  /** A request that arrives just before a compare-and-set makes the session throw. */
  lemma CancelledAtCompare(s: State)
    requires Inv(s) && Fresh(s) && Cancellable(s.world) && Compares(s.pc)
    ensures Next(s, Cancel).Some?
    ensures Next(Next(s, Cancel).value, Await(CALM)) == Some(State(Next(s, Cancel).value.world, Threw(StateInvalid)))
  {
    hide Inv;
  }

  /** Every other await of a session leaves the row alone. */
  lemma OtherAwaitsKeepRow(s: State, ch: Choice)
    requires Converging(s.pc) && !Compares(s.pc) && !s.pc.AckRecord?
    ensures Step(s, ch).world.record == s.world.record
  {
    hide StatusWasTrue;
  }

  /** While the request can still be made, a session that converges is not yet acknowledging. */
  lemma NotYetClosing(s: State)
    requires Inv(s) && Cancellable(s.world)
    ensures !s.pc.AckRecord? && !s.pc.Done?
  {
    hide WorldInv, EarlyInv, MiddleInv;
  }

  ghost predicate Loses(s: State, es: seq<Event>) {
    AllCalm(es) && Exec(s, es).Some? && Exec(s, es).value.pc == Threw(StateInvalid)
  }

  lemma LosesAtOnce(s: State)
    requires Inv(s) && Fresh(s) && Cancellable(s.world) && Compares(s.pc)
    ensures Loses(s, [Cancel, Await(CALM)])
  {
    CancelledAtCompare(s);
    hide Inv, Fresh, Cancellable, Compares, Next;
    var es := [Cancel, Await(CALM)];
    assert es[..1] == [Cancel] && es[..1][..0] == [];
    assert Exec(s, []) == Some(s);
    assert Exec(s, es[..1]) == Next(s, Cancel);
  }

  lemma LosesLater(s: State, e: Event, later: seq<Event>)
    requires Calm(e) && Next(s, e).Some? && Loses(Next(s, e).value, later)
    ensures Loses(s, [e] + later)
  {
    hide Next, Calm;
    var one := [e];
    assert one[..0] == [];
    assert Exec(s, []) == Some(s);
    assert Exec(s, one) == Next(s, e);
    ExecConcat(s, one, later);
  }

  /** From anywhere on its way, a session can lose as long as the request can still be made. */
  lemma {:induction false} CanLose(s: State, r: TerminalResult) returns (es: seq<Event>)
    requires Inv(s) && EndedWith(s.world, r) && Converging(s.pc) && Fresh(s) && Cancellable(s.world)
    ensures Loses(s, es)
    decreases Rank(s.pc)
  {
    hide Inv, EndedWith, Loses;
    NotYetClosing(s);
    if Compares(s.pc) {
      LosesAtOnce(s);
      es := [Cancel, Await(CALM)];
    } else {
      var t := Step(s, CALM);
      StepAdvances(s, CALM, r);
      OtherAwaitsKeepRow(s, CALM);
      hide Step, Fresh, Rank;
      NextKeepsInv(s, Await(CALM));
      NotYetClosing(t);
      var later := CanLose(t, r);
      LosesLater(s, Await(CALM), later);
      es := [Await(CALM)] + later;
    }
  }

  // ---------------------------------------------------------------- a terminal row is not cancelled

  lemma OpeningKeepsRequest(s: State, ch: Choice)
    requires s.world.record.Some?
    ensures CancelRequested(StepEarly(s, ch).world) == CancelRequested(s.world)
    ensures CancelRequested(StepMiddle(s, ch).world) == CancelRequested(s.world)
  {
    hide Close, WithStatus, StatusOf, Judged;
  }

  lemma FinishKeepsRequest(s: State)
    requires s.world.record.Some?
    ensures CancelRequested(StepPublish(s).world) == CancelRequested(s.world)
    ensures CancelRequested(StepFinish(s).world) == CancelRequested(s.world)
  {
    hide Close;
  }

  /** Only the request itself makes a row requested. */
  lemma AwaitsKeepRequest(s: State, ch: Choice)
    requires s.world.record.Some?
    ensures CancelRequested(Step(s, ch).world) == CancelRequested(s.world)
  {
    hide StepEarly, StepMiddle, StepPublish, StepFinish;
    OpeningKeepsRequest(s, ch);
    FinishKeepsRequest(s);
  }

  lemma TerminalKeepsRequest(s: State, e: Event)
    requires s.world.record.Some? && s.world.record.value.state == Terminal && Next(s, e).Some?
    ensures CancelRequested(Next(s, e).value.world) == CancelRequested(s.world)
  {
    hide Step, StatusWasTrue, CompactionAuthorized;
    if e.Await? { AwaitsKeepRequest(s, e.choice); }
  }

  lemma {:induction false} TerminalStaysUncancelled(s: State, es: seq<Event>)
    requires Inv(s) && s.world.record.Some? && s.world.record.value.state == Terminal && Exec(s, es).Some?
    ensures CancelRequested(Exec(s, es).value.world) == CancelRequested(s.world)
  {
    hide Inv, Next, CancelRequested;
    if |es| > 0 {
      var front := es[..|es| - 1];
      TerminalStaysUncancelled(s, front);
      RunKeepsInv(s, front);
      NothingIsUndone(s, front);
      TerminalKeepsRequest(Exec(s, front).value, es[|es| - 1]);
    }
  }

  // ---------------------------------------------------------------- giving up

  /** Anything but a crash or a new session; the observer may give up. */
  predicate Uncrashed(e: Event) {
    e.Await? || Calm(e)
  }

  ghost predicate AllUncrashed(es: seq<Event>) {
    forall i :: 0 <= i < |es| ==> Uncrashed(es[i])
  }

  /** The session waits, or is about to wait, for a process it believes to be running. */
  predicate Watching(pc: PC) {
    || pc.Observe?
    || ((pc.CommitActive? || pc.AcceptEvidence?) && pc.status.StillRunning?)
    || (pc.Begin? && pc.known == Some(StillRunning) && (pc.rec.state == Intent || pc.rec.state == Active))
  }

  const GIVES_UP := CALM.(giveUp := true)

  lemma WatchesOn(s: State)
    requires Inv(s) && Fresh(s) && Watching(s.pc) && !s.pc.Observe?
    ensures Watching(Step(s, CALM).pc)
  {
    hide StatusOf, Judged;
  }

  /** A session that watches can give up. */
  lemma {:induction false} CanGiveUp(s: State, r: TerminalResult) returns (es: seq<Event>)
    requires Inv(s) && EndedWith(s.world, r) && Fresh(s) && Watching(s.pc)
    ensures AllUncrashed(es) && Exec(s, es).Some? && Exec(s, es).value.pc == Threw(ObservationFailed)
    decreases Rank(s.pc)
  {
    hide Inv, EndedWith;
    if s.pc.Observe? {
      es := [Await(GIVES_UP)];
      assert es[..0] == [];
      assert Exec(s, es[..0]) == Some(s);
    } else {
      var t := Step(s, CALM);
      WatchesOn(s);
      StepAdvances(s, CALM, r);
      hide Fresh, Step;
      NextKeepsInv(s, Await(CALM));
      var later := CanGiveUp(t, r);
      var one := [Await(CALM)];
      assert one[..0] == [];
      assert Exec(s, one[..0]) == Some(s);
      assert Exec(s, one) == Next(s, Await(CALM));
      ExecConcat(s, one, later);
      es := one + later;
    }
  }

  lemma QueryFindsEnd(s: State, ch: Choice, r: TerminalResult)
    requires EarlyInv(s.world, s.pc) && EndedWith(s.world, r) && !Watching(s.pc) && (s.pc.Begin? || s.pc.Query?)
    ensures !Watching(StepEarly(s, ch).pc) && StepEarly(s, ch) == StepEarly(s, ch.(giveUp := false))
  {
  }

  lemma MiddleNeverWatches(s: State, ch: Choice)
    requires !Watching(s.pc) && Middle(s.pc)
    ensures !Watching(StepMiddle(s, ch).pc) && StepMiddle(s, ch) == StepMiddle(s, ch.(giveUp := false))
  {
  }

  lemma LateNeverWatches(s: State)
    requires !Early(s.pc) && !Middle(s.pc)
    ensures !Watching(StepPublish(s).pc) && !Watching(StepFinish(s).pc)
  {
  }

  /** With the outcome fixed, a session that does not watch never starts to. */
  lemma NeverWatches(s: State, ch: Choice, r: TerminalResult)
    requires Inv(s) && EndedWith(s.world, r) && Converging(s.pc) && !Watching(s.pc)
    ensures !Watching(Step(s, ch).pc) && Step(s, ch) == Step(s, ch.(giveUp := false))
  {
    hide WorldInv, EarlyInv, MiddleInv, FinishInv, EndedWith, Watching, StepEarly, StepMiddle, StepPublish, StepFinish;
    if Early(s.pc) { QueryFindsEnd(s, ch, r); }
    else if Middle(s.pc) { MiddleNeverWatches(s, ch); }
    else { LateNeverWatches(s); }
  }

  function Patient(e: Event): Event {
    if e.Await? then Await(e.choice.(giveUp := false)) else e
  }

  function Patiently(es: seq<Event>): seq<Event> {
    if |es| == 0 then [] else Patiently(es[..|es| - 1]) + [Patient(es[|es| - 1])]
  }

  lemma OneMorePatient(s: State, e: Event, r: TerminalResult, asked: bool)
    requires Inv(s) && OnTrack(s, r, asked) && !Watching(s.pc) && Uncrashed(e) && Next(s, e).Some?
    ensures Calm(Patient(e)) && Next(s, Patient(e)) == Next(s, e) && !Watching(Next(s, e).value.pc)
  {
    hide Inv, EndedWith, Fresh;
    if e.Await? {
      hide Watching, Step;
      NeverWatches(s, e.choice, r);
    } else {
      OthersKeepOutcome(s, e, r);
    }
  }

  /** For a session that does not watch, giving up is no choice at all. */
  lemma {:induction false} PatientRun(s: State, es: seq<Event>, r: TerminalResult, asked: bool)
    requires Inv(s) && OnTrack(s, r, asked) && !Watching(s.pc) && AllUncrashed(es) && Exec(s, es).Some?
    ensures AllCalm(Patiently(es)) && Exec(s, Patiently(es)) == Exec(s, es) && !Watching(Exec(s, es).value.pc)
  {
    hide Inv, OnTrack, Watching, Next, Calm, Uncrashed, Patient;
    if |es| > 0 {
      var front, last := es[..|es| - 1], es[|es| - 1];
      PatientRun(s, front, r, asked);
      var calm := Patiently(front);
      SessionOnTrack(s, calm, r, asked);
      OneMorePatient(Exec(s, front).value, last, r, asked);
      assert (calm + [Patient(last)])[..|calm|] == calm;
    }
  }

  // ---------------------------------------------------------------- the exact condition

  /** Whatever interleaves, short of a crash, the session returns the outcome's action if it ends. */
  ghost predicate SureToDeliver(begun: State, r: TerminalResult) {
    forall es :: AllUncrashed(es) && Exec(begun, es).Some? && Free(Exec(begun, es).value.pc) ==>
      Exec(begun, es).value.pc == Done(ExpectedAction(r)) && OperationFinished(Exec(begun, es).value.world, r)
  }

  /** The caller can tell beforehand, from the row and the status it passes in. */
  predicate Assured(w: World, start: Event)
    requires w.record.Some?
  {
    && (w.record.value.cancellationRequested || w.record.value.state == Terminal)
    && (start == StartReconcile(Some(StillRunning)) ==>
          w.record.value.state == Finalizing || w.record.value.state == Terminal)
  }

  /**
   After any history with the outcome fixed, a new session that is not crashed is sure to return the
   outcome's action if and only if the row it starts from already has its cancellation request or is
   terminal, and it is not told that a process not yet finalized still runs. `Recovery` says that it
   ends within 24 awaits.
   */
  lemma SureToDeliverIff(past: seq<Event>, start: Event, r: TerminalResult)
    requires Exec(INITIAL, past).Some? && EndedWith(Exec(INITIAL, past).value.world, r)
    requires start.StartExecute? || start.StartReconcile?
    requires Next(Exec(INITIAL, past).value, start).Some?
    ensures
      var s := Exec(INITIAL, past).value;
      SureToDeliver(Next(s, start).value, r) <==> Assured(s.world, start)
  {
    var s := Exec(INITIAL, past).value;
    var begun := Next(s, start).value;
    assert Inv(s) && Inv(begun) by { hide *; InitialInv(); RunKeepsInv(INITIAL, past); NextKeepsInv(s, start); }
    StartsFresh(s, start, r);
    StartOnTrack(s, start, r);
    hide Inv, Next, Exec, AllCalm, AllUncrashed, OperationFinished, ExpectedAction, Converging, Fresh, Watching, OnTrack;
    if Cancellable(s.world) {
      var es := CanLose(begun, r);
      CalmIsUncrashed(es);
      assert !SureToDeliver(begun, r);
    } else if Watching(begun.pc) {
      var es := CanGiveUp(begun, r);
      assert !SureToDeliver(begun, r);
    } else {
      forall es | AllUncrashed(es) && Exec(begun, es).Some? && Free(Exec(begun, es).value.pc)
        ensures Exec(begun, es).value.pc == Done(ExpectedAction(r)) && OperationFinished(Exec(begun, es).value.world, r)
      {
        hide EndedWith, CancelRequested;
        PatientRun(begun, es, r, CancelRequested(s.world));
        Recovery(past, start, Patiently(es), r);
        if s.world.record.value.state == Terminal { TerminalStaysUncancelled(begun, es); }
      }
    }
  }

  lemma CalmIsUncrashed(es: seq<Event>)
    requires AllCalm(es)
    ensures AllUncrashed(es)
  {
    hide Calm;
  }

  lemma StartsFresh(s: State, start: Event, r: TerminalResult)
    requires EndedWith(s.world, r) && (start.StartExecute? || start.StartReconcile?) && Next(s, start).Some?
    ensures
      var begun := Next(s, start).value;
      && begun.world == s.world && Converging(begun.pc) && Fresh(begun)
      && (!Cancellable(s.world) ==> (Assured(s.world, start) <==> !Watching(begun.pc)))
      && (Cancellable(s.world) ==> !Assured(s.world, start))
  {
    hide StatusWasTrue;
  }
}
