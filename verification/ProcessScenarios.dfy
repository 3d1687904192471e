/**
 Concrete runs: the states recovery starts from, and the ways in which a promise one would expect
 fails.
 */
module ProcessScenarios {
  import opened Basics
  import opened ProcessWorld
  import opened ProcessProtocol
  import opened ProcessInvariant
  import opened ProcessRuns
  import opened ProcessRecovery
  import opened ProcessCancellation

  /** A run followed state by state. */
  lemma {:induction false} ExecFollows(states: seq<State>, es: seq<Event>)
    requires |states| == |es| + 1
    requires forall i :: 0 <= i < |es| ==> Next(states[i], es[i]) == Some(states[i + 1])
    ensures Exec(states[0], es) == Some(states[|es|])
  {
    hide Next;
    if |es| > 0 {
      ExecFollows(states[..|es|], es[..|es| - 1]);
      assert Next(states[|es| - 1], es[|es| - 1]) == Some(states[|es|]);
    }
  }

  // ---------------------------------------------------------------- up to the launch request

  const TO_LAUNCH := [StartExecute, Await(CALM), Await(CALM), Await(CALM), Await(CALM)]

  const ADMITTED := EMPTY_WORLD.(record := Some(NEW_RECORD))
  const RECORDED := ADMITTED.(evidence := ADMITTED.evidence.(intentAdmitted := Some(Plain)))

  lemma ReachesLaunch()
    ensures Exec(INITIAL, TO_LAUNCH) == Some(State(RECORDED, Launch(NEW_RECORD)))
  {
    var states := [
      INITIAL, State(EMPTY_WORLD, Admit), State(ADMITTED, AdmitEvidence(NEW_RECORD)),
      State(RECORDED, Begin(NEW_RECORD, true, None)), State(RECORDED, Query(NEW_RECORD, true)),
      State(RECORDED, Launch(NEW_RECORD))];
    ExecFollows(states, TO_LAUNCH);
  }

  // ---------------------------------------------------------------- a lost launch request

  const LOST := RECORDED.(asks := 1, orphans := 1, lost := 1)

  /** Sent, died, cancelled, reconciled as never launched, and then the request arrives. */
  const ORPHANED := [
    CrashInLaunch, Cancel, StartReconcile(None), Await(CALM), Await(CALM), Await(CALM), DeliverOrphan(Accepts)]

  const ASKED := Apply(RequestCancellation, NEW_RECORD)
  const UNLAUNCHED := Apply(ToFinalizing(false, UnlaunchedResult(Cancelled, 0)), ASKED)
  const RUNS_ANYWAY := LOST.(
    record := Some(UNLAUNCHED), orphans := 0, entry := Some(Entry(Running, false, false)), starts := 1)

  lemma OrphanArrives()
    ensures Exec(State(RECORDED, Launch(NEW_RECORD)), ORPHANED) == Some(State(RUNS_ANYWAY, PublishStdout(UNLAUNCHED)))
  {
    var cancelled := LOST.(record := Some(ASKED));
    var committed := LOST.(record := Some(UNLAUNCHED));
    var states := [
      State(RECORDED, Launch(NEW_RECORD)), State(LOST, Unlocked), State(cancelled, Unlocked),
      State(cancelled, Begin(ASKED, false, None)), State(cancelled, Query(ASKED, false)),
      State(cancelled, CommitUnlaunched(ASKED, UnlaunchedResult(Cancelled, 0))),
      State(committed, PublishStdout(UNLAUNCHED)), State(RUNS_ANYWAY, PublishStdout(UNLAUNCHED))];
    ExecFollows(states, ORPHANED);
  }

  /** A process runs although the operation is durably recorded as cancelled before launch. */
  lemma OrphanStartsAfterCancellation()
    ensures Exec(INITIAL, TO_LAUNCH + ORPHANED).Some?
    ensures
      var w := Exec(INITIAL, TO_LAUNCH + ORPHANED).value.world;
      && w.record.Some? && Unlaunched(w.record.value)
      && w.record.value.terminal == Some(UnlaunchedResult(Cancelled, 0))
      && w.entry == Some(Entry(Running, false, false)) && w.starts == 1
  {
    hide Exec;
    ReachesLaunch();
    OrphanArrives();
    ExecConcat(INITIAL, TO_LAUNCH, ORPHANED);
  }

  /** The sender of a launch request dies; the next session finds no entry and asks again. */
  const ASK_AGAIN := [
    CrashInLaunch, StartReconcile(None), Await(CALM), Await(CALM), Await(CALM), Await(CALM)]

  const ACCEPTED := LOST.(asks := 2, answered := 1, starts := 1, entry := Some(Entry(Running, false, false)))

  lemma SecondAskAccepted()
    ensures Exec(State(RECORDED, Launch(NEW_RECORD)), ASK_AGAIN)
            == Some(State(ACCEPTED, CommitActive(NEW_RECORD, StillRunning)))
  {
    var states := [
      State(RECORDED, Launch(NEW_RECORD)), State(LOST, Unlocked), State(LOST, Begin(NEW_RECORD, false, None)),
      State(LOST, Query(NEW_RECORD, false)), State(LOST, ResolveAuthority(NEW_RECORD)),
      State(LOST, Launch(NEW_RECORD)), State(ACCEPTED, CommitActive(NEW_RECORD, StillRunning))];
    ExecFollows(states, ASK_AGAIN);
  }

  /** The launcher is asked twice although it never refused. */
  lemma AskedTwice()
    ensures Exec(INITIAL, TO_LAUNCH + ASK_AGAIN).Some?
    ensures
      var w := Exec(INITIAL, TO_LAUNCH + ASK_AGAIN).value.world;
      w.asks == 2 && w.refusals == 0 && w.lost == 1 && w.starts == 1
  {
    hide Exec;
    ReachesLaunch();
    SecondAskAccepted();
    ExecConcat(INITIAL, TO_LAUNCH, ASK_AGAIN);
  }

  // ---------------------------------------------------------------- a crash to recover from

  const ENDED := TerminalResult(Completed, Some(0), 7, true, "out", "")

  /** Launched, ended at once, and the runtime dies before it commits the acceptance. */
  const CRASHED := [Await(CALM.(launch := AcceptsEnded(ENDED))), Crash]

  const HELD := RECORDED.(asks := 1, answered := 1, starts := 1, entry := Some(Entry(Ended(ENDED), false, false)))

  lemma CrashesAfterAcceptance()
    ensures Exec(State(RECORDED, Launch(NEW_RECORD)), CRASHED) == Some(State(HELD, Unlocked))
  {
    var states := [
      State(RECORDED, Launch(NEW_RECORD)), State(HELD, Judge(NEW_RECORD, Finished(ENDED, true))), State(HELD, Unlocked)];
    ExecFollows(states, CRASHED);
  }

  lemma ReachesCrash()
    ensures Exec(INITIAL, TO_LAUNCH + CRASHED) == Some(State(HELD, Unlocked))
  {
    hide Exec;
    ReachesLaunch();
    CrashesAfterAcceptance();
    ExecConcat(INITIAL, TO_LAUNCH, CRASHED);
  }

  /** The row still says `intent`, the launcher holds the result, and the lock is free. */
  lemma CrashLeavesWorkToRecover()
    ensures Exec(INITIAL, TO_LAUNCH + CRASHED).Some?
    ensures
      var s := Exec(INITIAL, TO_LAUNCH + CRASHED).value;
      && EndedWith(s.world, ENDED) && Free(s.pc) && s.world.record.value.state == Intent
      && Next(s, StartReconcile(None)).Some?
  {
    hide Exec;
    ReachesCrash();
  }

  // ---------------------------------------------------------------- a reconciliation that loses

  /** The operation's one cancellation request arrives while an uncrashed session is at work. */
  const INTERRUPTED := [StartReconcile(None), Await(CALM), Cancel, Await(CALM), Await(CALM), Await(CALM)]

  lemma CompareAndSetLoses()
    ensures Exec(State(HELD, Unlocked), INTERRUPTED) == Some(State(HELD.(record := Some(ASKED)), Threw(StateInvalid)))
  {
    var cancelled := HELD.(record := Some(ASKED));
    var status := Finished(ENDED, true);
    var states := [
      State(HELD, Unlocked), State(HELD, Begin(NEW_RECORD, false, None)), State(HELD, Query(NEW_RECORD, false)),
      State(cancelled, Query(NEW_RECORD, false)), State(cancelled, Judge(NEW_RECORD, status)),
      State(cancelled, CommitActive(NEW_RECORD, status)), State(cancelled, Threw(StateInvalid))];
    ExecFollows(states, INTERRUPTED);
  }

  /** With the outcome fixed and no crash, the session still throws; every event in it was calm. */
  lemma ReconciliationLosesToCancellation()
    ensures Exec(INITIAL, TO_LAUNCH + CRASHED + INTERRUPTED).Some?
    ensures AllCalm(INTERRUPTED[1..])
    ensures
      var s := Exec(INITIAL, TO_LAUNCH + CRASHED + INTERRUPTED).value;
      EndedWith(s.world, ENDED) && s.pc == Threw(StateInvalid) && CancelRequested(s.world)
  {
    hide Exec;
    ReachesCrash();
    CompareAndSetLoses();
    ExecConcat(INITIAL, TO_LAUNCH + CRASHED, INTERRUPTED);
  }

  // ---------------------------------------------------------------- a reconciliation that gives up

  /** The status it was handed says running; by now the process has ended, but the observer gives up. */
  const IMPATIENT := [StartReconcile(Some(StillRunning)), Await(CALM), Await(CALM), Await(CALM), Await(GIVES_UP)]

  const TAKEN := Apply(ToActive, NEW_RECORD)
  const TAKEN_WORLD := HELD.(record := Some(TAKEN))
  const WATCHED := TAKEN_WORLD.(evidence := HELD.evidence.(launcherAccepted := Some(Plain)))

  lemma ObserverThrows()
    ensures Exec(State(HELD, Unlocked), IMPATIENT) == Some(State(WATCHED, Threw(ObservationFailed)))
  {
    var states := [
      State(HELD, Unlocked), State(HELD, Begin(NEW_RECORD, false, Some(StillRunning))),
      State(HELD, CommitActive(NEW_RECORD, StillRunning)), State(TAKEN_WORLD, AcceptEvidence(TAKEN, StillRunning)),
      State(WATCHED, Observe(TAKEN)), State(WATCHED, Threw(ObservationFailed))];
    ExecFollows(states, IMPATIENT);
  }

  /** With the outcome fixed, no crash and no cancellation, the session throws all the same. */
  lemma ReconciliationGivesUp()
    ensures Exec(INITIAL, TO_LAUNCH + CRASHED + IMPATIENT).Some?
    ensures AllUncrashed(IMPATIENT[1..])
    ensures
      var s := Exec(INITIAL, TO_LAUNCH + CRASHED + IMPATIENT).value;
      EndedWith(s.world, ENDED) && s.pc == Threw(ObservationFailed) && !CancelRequested(s.world)
  {
    hide Exec;
    ReachesCrash();
    ObserverThrows();
    ExecConcat(INITIAL, TO_LAUNCH + CRASHED, IMPATIENT);
  }
}
