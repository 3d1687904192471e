/**
 Crash recovery: from every reachable state whose launcher entry has ended, a session that
 is not itself crashed finishes the operation, and finishes it the same way every time.
 */
module ProcessRecovery {
  import opened Basics
  import opened ProcessWorld
  import opened ProcessProtocol
  import opened ProcessInvariant
  import opened ProcessRuns

  /** What an operation whose process ended with `r` must return, crashed or not. */
  function ExpectedAction(r: TerminalResult): ActionResult {
    if r.outputComplete then ActionResult(r, Some(Artifact(Stdout, r.stdout)), Some(Artifact(Stderr, r.stderr)))
    else ActionResult(r, None, None)
  }

  /** The outcome is fixed: the launched process ended with `r`, or `r` was committed because
      nothing was launched. */
  predicate EndedWith(w: World, r: TerminalResult) {
    && w.record.Some?
    && if Unlaunched(w.record.value) then w.record.value.terminal == Some(r)
       else w.entry.Some? && w.entry.value.run == Ended(r)
  }

  /** The operation is finished: terminal with `r`, everything about it durable, and
      acknowledged on both sides unless nothing was launched. */
  predicate OperationFinished(w: World, r: TerminalResult) {
    && w.record.Some? && w.record.value.state == Terminal
    && w.record.value.terminal == Some(r)
    && FullyRecorded(w, r)
    && (w.record.value.accepted ==>
          w.record.value.acknowledged && w.entry.Some? && w.entry.value.acknowledged)
  }

  /** The row copy a session will compare-and-set against. */
  function SeenBy(pc: PC): Option<Record> {
    match pc
    case Begin(rec, _, _) => Some(rec)
    case Query(rec, _) => Some(rec)
    case CommitActive(rec, _) => Some(rec)
    case AcceptEvidence(rec, _) => Some(rec)
    case Judge(rec, _) => Some(rec)
    case CommitFinalizing(rec, _) => Some(rec)
    case PublishStdout(rec) => Some(rec)
    case PublishStderr(rec, _) => Some(rec)
    case Bind(rec, _, _) => Some(rec)
    case EvidenceTerminal(rec, _, _) => Some(rec)
    case EvidenceStdout(rec, _, _) => Some(rec)
    case EvidenceStderr(rec, _, _) => Some(rec)
    case WriteReceipt(rec, _, _) => Some(rec)
    case CommitTerminal(rec, _, _) => Some(rec)
    case AckLauncher(rec) => Some(rec)
    case AckRecord(rec) => Some(rec)
    case _ => None
  }

  predicate Fresh(s: State) {
    SeenBy(s.pc).Some? ==> s.world.record == SeenBy(s.pc)
  }

  /** The points of a reconciliation that found a launcher entry. */
  predicate Converging(pc: PC) {
    pc.Begin? || pc.Query? || (Middle(pc) && !pc.CommitUnlaunched?) || (Late(pc) && !Free(pc))
  }

  /** Bounds the awaits left in a session. */
  function Rank(pc: PC): nat {
    match pc
    case Begin(_, _, _) => 24
    case Query(_, _) => 23
    case CommitActive(_, st) => if st.StillRunning? then 22 else 17
    case AcceptEvidence(_, st) => if st.StillRunning? then 21 else 16
    case Observe(_) => 20
    case Refresh(_) => 19
    case Judge(_, _) => 18
    case CommitFinalizing(_, _) => 15
    case PublishStdout(_) => 14
    case PublishStderr(_, _) => 13
    case Bind(_, _, _) => 12
    case EvidenceTerminal(_, _, _) => 11
    case EvidenceStdout(_, _, _) => 10
    case EvidenceStderr(_, _, _) => 9
    case WriteReceipt(_, _, _) => 8
    case RereadFinal(_, _) => 7
    case CommitTerminal(_, _, _) => 6
    case AckLauncher(_) => 5
    case AckRecord(_) => 4
    case AckReread => 3
    case _ => 0
  }

  // ---------------------------------------------------------------- one await makes progress

  /** The session moved on with a copy as fresh as before, or its copy was stale and it threw. */
  predicate Advanced(s: State, t: State, r: TerminalResult) {
    && EndedWith(t.world, r)
    && Rank(t.pc) < Rank(s.pc)
    && (Converging(t.pc) || t.pc.Done? || (t.pc == Threw(StateInvalid) && !Fresh(s)))
    && (Fresh(s) ==> Fresh(t))
  }

  lemma EarlyAdvances(s: State, ch: Choice, r: TerminalResult)
    requires WorldInv(s.world) && EarlyInv(s.world, s.pc) && EndedWith(s.world, r)
    requires s.pc.Begin? || s.pc.Query?
    ensures Advanced(s, StepEarly(s, ch), r)
  {
  }

  lemma CommitAdvances(s: State, ch: Choice, r: TerminalResult)
    requires WorldInv(s.world) && MiddleInv(s.world, s.pc) && EndedWith(s.world, r)
    requires s.pc.CommitActive? || s.pc.CommitFinalizing?
    ensures Advanced(s, StepMiddle(s, ch), r)
  {
  }

  lemma ObserveAdvances(s: State, ch: Choice, r: TerminalResult)
    requires WorldInv(s.world) && MiddleInv(s.world, s.pc) && EndedWith(s.world, r)
    requires (s.pc.Observe? || s.pc.Refresh? || s.pc.AcceptEvidence?) && !ch.giveUp
    ensures Advanced(s, StepMiddle(s, ch), r)
  {
  }

  lemma JudgeAdvances(s: State, ch: Choice, r: TerminalResult)
    requires WorldInv(s.world) && MiddleInv(s.world, s.pc) && EndedWith(s.world, r) && s.pc.Judge?
    ensures Advanced(s, StepMiddle(s, ch), r)
  {
  }

  lemma StreamAdvances(s: State, r: TerminalResult)
    requires WorldInv(s.world) && FinishInv(s.world, s.pc) && EndedWith(s.world, r)
    requires s.pc.PublishStdout? || s.pc.PublishStderr?
    ensures Advanced(s, StepPublish(s), r)
  {
  }

  lemma BindAdvances(s: State, r: TerminalResult)
    requires WorldInv(s.world) && FinishInv(s.world, s.pc) && EndedWith(s.world, r) && s.pc.Bind?
    ensures Advanced(s, StepPublish(s), r)
  {
  }

  lemma EvidenceAdvances(s: State, r: TerminalResult)
    requires WorldInv(s.world) && FinishInv(s.world, s.pc) && EndedWith(s.world, r) && s.pc.EvidenceTerminal?
    ensures Advanced(s, StepFinish(s), r)
  {
  }

  lemma StdoutEvidenceAdvances(s: State, r: TerminalResult)
    requires WorldInv(s.world) && FinishInv(s.world, s.pc) && EndedWith(s.world, r) && s.pc.EvidenceStdout?
    ensures Advanced(s, StepFinish(s), r)
  {
  }

  lemma StderrEvidenceAdvances(s: State, r: TerminalResult)
    requires WorldInv(s.world) && FinishInv(s.world, s.pc) && EndedWith(s.world, r) && s.pc.EvidenceStderr?
    ensures Advanced(s, StepFinish(s), r)
  {
  }

  lemma ReceiptAdvances(s: State, r: TerminalResult)
    requires WorldInv(s.world) && FinishInv(s.world, s.pc) && EndedWith(s.world, r) && s.pc.WriteReceipt?
    ensures Advanced(s, StepFinish(s), r)
  {
  }

  lemma RereadAdvances(s: State, r: TerminalResult)
    requires WorldInv(s.world) && FinishInv(s.world, s.pc) && EndedWith(s.world, r) && s.pc.RereadFinal?
    ensures Advanced(s, StepFinish(s), r)
  {
  }

  lemma TerminalAdvances(s: State, r: TerminalResult)
    requires WorldInv(s.world) && FinishInv(s.world, s.pc) && EndedWith(s.world, r) && s.pc.CommitTerminal?
    ensures Advanced(s, StepFinish(s), r)
  {
  }

  lemma AcknowledgeAdvances(s: State, r: TerminalResult)
    requires WorldInv(s.world) && FinishInv(s.world, s.pc) && EndedWith(s.world, r)
    requires s.pc.AckLauncher? || s.pc.AckReread?
    ensures Advanced(s, StepFinish(s), r)
  {
  }

  lemma AckRecordAdvances(s: State, r: TerminalResult)
    requires WorldInv(s.world) && FinishInv(s.world, s.pc) && EndedWith(s.world, r) && s.pc.AckRecord?
    ensures Advanced(s, StepFinish(s), r)
  {
  }

  lemma StepAdvances(s: State, ch: Choice, r: TerminalResult)
    requires Inv(s) && EndedWith(s.world, r) && Converging(s.pc) && !ch.giveUp
    ensures Advanced(s, Step(s, ch), r)
  {
    hide WorldInv, EarlyInv, MiddleInv, FinishInv, Advanced, EndedWith;
    hide StepEarly, StepMiddle, StepPublish, StepFinish;
    if Early(s.pc) { EarlyAdvances(s, ch, r); }
    else if s.pc.CommitActive? || s.pc.CommitFinalizing? { CommitAdvances(s, ch, r); }
    else if s.pc.Judge? { JudgeAdvances(s, ch, r); }
    else if Middle(s.pc) { ObserveAdvances(s, ch, r); }
    else if s.pc.Bind? { BindAdvances(s, r); }
    else if Publishing(s.pc) { StreamAdvances(s, r); }
    else if s.pc.EvidenceTerminal? { EvidenceAdvances(s, r); }
    else if s.pc.EvidenceStdout? { StdoutEvidenceAdvances(s, r); }
    else if s.pc.EvidenceStderr? { StderrEvidenceAdvances(s, r); }
    else if s.pc.CommitTerminal? { TerminalAdvances(s, r); }
    else if s.pc.RereadFinal? { RereadAdvances(s, r); }
    else if s.pc.WriteReceipt? { ReceiptAdvances(s, r); }
    else if s.pc.AckRecord? { AckRecordAdvances(s, r); }
    else { AcknowledgeAdvances(s, r); }
  }

  // ---------------------------------------------------------------- one uncrashed session

  predicate CancelRequested(w: World) {
    w.record.Some? && w.record.value.cancellationRequested
  }

  /** Anything but a crash, a new session, or the observer giving up. */
  predicate Calm(e: Event) {
    match e
    case Await(ch) => !ch.giveUp
    case Crash => false
    case CrashInLaunch => false
    case StartExecute => false
    case StartReconcile(_) => false
    case StartCancel => false
    case _ => true
  }

  predicate AllCalm(es: seq<Event>) {
    forall i :: 0 <= i < |es| ==> Calm(es[i])
  }

  function Awaits(es: seq<Event>): nat {
    if |es| == 0 then 0
    else Awaits(es[..|es| - 1]) + if es[|es| - 1].Await? then 1 else 0
  }

  /** The session still converges, and only a cancellation requested since its start
      (`asked` says whether one was there already) can make its copy stale. */
  predicate OnTrack(s: State, r: TerminalResult, asked: bool) {
    && EndedWith(s.world, r)
    && (asked ==> CancelRequested(s.world))
    && (CancelRequested(s.world) == asked ==> Fresh(s))
    && (|| Converging(s.pc) || s.pc.Done?
        || (s.pc == Threw(StateInvalid) && CancelRequested(s.world) && !asked))
  }

  lemma StartOnTrack(s: State, e: Event, r: TerminalResult)
    requires EndedWith(s.world, r) && (e.StartExecute? || e.StartReconcile?) && Next(s, e).Some?
    ensures OnTrack(Next(s, e).value, r, CancelRequested(s.world)) && Rank(Next(s, e).value.pc) == 24
  {
    hide StatusWasTrue;
  }

  /** Calm events of everyone else leave the outcome and the session's point alone. */
  lemma OthersKeepOutcome(s: State, e: Event, r: TerminalResult)
    requires EndedWith(s.world, r) && Calm(e) && !e.Await? && Next(s, e).Some?
    ensures EndedWith(Next(s, e).value.world, r) && Next(s, e).value.pc == s.pc
    ensures CancelRequested(s.world) ==> CancelRequested(Next(s, e).value.world)
    ensures CancelRequested(Next(s, e).value.world) == CancelRequested(s.world) ==>
              Next(s, e).value.world.record == s.world.record
  {
    hide CompactionAuthorized;
  }

  lemma CalmStepOnTrack(s: State, e: Event, r: TerminalResult, asked: bool)
    requires Inv(s) && OnTrack(s, r, asked) && Calm(e) && Next(s, e).Some?
    ensures OnTrack(Next(s, e).value, r, asked)
    ensures Rank(Next(s, e).value.pc) + (if e.Await? then 1 else 0) <= Rank(s.pc)
  {
    var t := Next(s, e).value;
    if e.Await? {
      StepAdvances(s, e.choice, r);
      NextGrows(s, e);
      hide Inv, EndedWith, Step;
    } else {
      OthersKeepOutcome(s, e, r);
      hide Inv, EndedWith, Next;
    }
  }

  lemma {:induction false} SessionOnTrack(s: State, es: seq<Event>, r: TerminalResult, asked: bool)
    requires Inv(s) && OnTrack(s, r, asked) && AllCalm(es) && Exec(s, es).Some?
    ensures Inv(Exec(s, es).value) && OnTrack(Exec(s, es).value, r, asked)
    ensures Rank(Exec(s, es).value.pc) + Awaits(es) <= Rank(s.pc)
  {
    hide Inv, OnTrack, Next, Calm;
    if |es| > 0 {
      var mid := Exec(s, es[..|es| - 1]).value;
      SessionOnTrack(s, es[..|es| - 1], r, asked);
      CalmStepOnTrack(mid, es[|es| - 1], r, asked);
      NextKeepsInv(mid, es[|es| - 1]);
    }
  }

  lemma ReturnedIsExpected(s: State, r: TerminalResult)
    requires Inv(s) && EndedWith(s.world, r) && s.pc.Done?
    ensures s.pc == Done(ExpectedAction(r)) && OperationFinished(s.world, r)
  {
    InvGivesDurability(s.world);
  }

  /** Every returned action is the expected one of a finished operation. */
  lemma ReturnedMeansFinished(s: State)
    requires Inv(s) && s.pc.Done?
    ensures s.pc.action == ExpectedAction(s.pc.action.result)
    ensures OperationFinished(s.world, s.pc.action.result)
  {
    InvGivesDurability(s.world);
  }

  lemma SessionEnds(s: State, es: seq<Event>, r: TerminalResult, asked: bool)
    requires Inv(s) && OnTrack(s, r, asked) && AllCalm(es) && Exec(s, es).Some? && Rank(s.pc) == 24
    ensures Awaits(es) <= 24 && (Awaits(es) == 24 ==> Free(Exec(s, es).value.pc))
    ensures
      var t := Exec(s, es).value;
      Free(t.pc) ==>
        || (t.pc == Done(ExpectedAction(r)) && OperationFinished(t.world, r))
        || (t.pc == Threw(StateInvalid) && CancelRequested(t.world) && !asked)
  {
    hide Inv, EndedWith, Next, Exec, OperationFinished, ExpectedAction, Fresh;
    SessionOnTrack(s, es, r, asked);
    if Exec(s, es).value.pc.Done? { ReturnedIsExpected(Exec(s, es).value, r); }
  }

  /**
   Recovery. Take any history of sessions, cancellations and crashes that left the lock free and
   the outcome fixed. One more session, whatever calm events interleave with it, completes within
   24 awaits; when it ends it has returned exactly the action an uncrashed run returns and the
   operation is finished, or it threw because the operation's one cancellation request arrived
   while it ran.
   */
  lemma Recovery(past: seq<Event>, start: Event, es: seq<Event>, r: TerminalResult)
    requires Exec(INITIAL, past).Some?
    requires EndedWith(Exec(INITIAL, past).value.world, r)
    requires start.StartExecute? || start.StartReconcile?
    requires Next(Exec(INITIAL, past).value, start).Some?
    requires AllCalm(es) && Exec(Next(Exec(INITIAL, past).value, start).value, es).Some?
    ensures
      var s := Exec(INITIAL, past).value;
      var t := Exec(Next(s, start).value, es).value;
      && Awaits(es) <= 24
      && (Awaits(es) == 24 ==> Free(t.pc))
      && (Free(t.pc) ==>
            || (t.pc == Done(ExpectedAction(r)) && OperationFinished(t.world, r))
            || (t.pc == Threw(StateInvalid) && CancelRequested(t.world) && !CancelRequested(s.world)))
  {
    hide Inv, EndedWith, Next, Exec, OperationFinished, ExpectedAction, CancelRequested, AllCalm;
    InitialInv();
    RunKeepsInv(INITIAL, past);
    var s := Exec(INITIAL, past).value;
    NextKeepsInv(s, start);
    StartOnTrack(s, start, r);
    SessionEnds(Next(s, start).value, es, r, CancelRequested(s.world));
  }

  /** Whatever the crashes on the way, two histories whose process ended alike return alike. */
  lemma SameAnswer(one: seq<Event>, two: seq<Event>, r: TerminalResult)
    requires Exec(INITIAL, one).Some? && Exec(INITIAL, two).Some?
    requires Exec(INITIAL, one).value.pc.Done? && Exec(INITIAL, two).value.pc.Done?
    requires EndedWith(Exec(INITIAL, one).value.world, r) && EndedWith(Exec(INITIAL, two).value.world, r)
    ensures Exec(INITIAL, one).value.pc == Exec(INITIAL, two).value.pc
  {
    InitialInv();
    hide Inv, EndedWith, Next, Exec;
    RunKeepsInv(INITIAL, one);
    RunKeepsInv(INITIAL, two);
    ReturnedIsExpected(Exec(INITIAL, one).value, r);
    ReturnedIsExpected(Exec(INITIAL, two).value, r);
  }
}
