/**
 The process-execution controller as a transition system.

 One state holds the durable world and the program counter of the session that owns
 the operation lock. Every await of `execute`, `cancelRunOperations`, `reconcileRun`
 and `#reconcileLocked` is one program point, so a crash may fall between any two
 durable effects. Cancellation requests, launcher progress, run closure, compaction
 and late launch deliveries need no lock and may interleave anywhere.
 */
module ProcessProtocol {
  import opened Basics
  import opened ProcessWorld

  datatype ActionResult = ActionResult(
    result: TerminalResult, stdout: Option<Artifact>, stderr: Option<Artifact>)

  datatype Failure =
    | CapabilityUnavailable | OperationLost | LaunchRefused | ObservationFailed | OutputUnavailable
    | StateInvalid | EvidenceFailed | ArtifactFailed | AcknowledgementFailed | CancellationFailed

  /** `rec` is always the session's own, possibly stale, copy of the row. */
  datatype PC =
    | Unlocked
    | Admit
    | AdmitEvidence(rec: Record)
    | Begin(rec: Record, authority: bool, known: Option<Status>)
    | CancelBegin(rec: Record)
    | CancelQuery(rec: Record)
    | Query(rec: Record, authority: bool)
    | ResolveAuthority(rec: Record)
    | Launch(rec: Record)
    | CommitActive(rec: Record, status: Status)
    | AcceptEvidence(rec: Record, status: Status)
    | Observe(rec: Record)
    | Refresh(status: Status)
    | Judge(rec: Record, status: Status)
    | CommitFinalizing(rec: Record, result: TerminalResult)
    | CommitUnlaunched(rec: Record, result: TerminalResult)
    | PublishStdout(rec: Record)
    | PublishStderr(rec: Record, out: Option<Artifact>)
    | Bind(rec: Record, out: Option<Artifact>, err: Option<Artifact>)
    | EvidenceTerminal(rec: Record, out: Option<Artifact>, err: Option<Artifact>)
    | EvidenceStdout(rec: Record, out: Option<Artifact>, err: Option<Artifact>)
    | EvidenceStderr(rec: Record, out: Option<Artifact>, err: Option<Artifact>)
    | WriteReceipt(rec: Record, out: Option<Artifact>, err: Option<Artifact>)
    | RereadFinal(out: Option<Artifact>, err: Option<Artifact>)
    | CommitTerminal(rec: Record, out: Option<Artifact>, err: Option<Artifact>)
    | AckLauncher(rec: Record)
    | AckRecord(rec: Record)
    | AckReread
    | Done(action: ActionResult)
    | Threw(failure: Failure)

  datatype State = State(world: World, pc: PC)

  /** The session's unmodelled inputs at one await. */
  datatype Choice = Choice(authority: bool, launch: LaunchReply, giveUp: bool, now: int)

  /** No session holds the lock. */
  predicate Free(pc: PC) {
    pc.Unlocked? || pc.Done? || pc.Threw?
  }

  /** `terminalActionResult`. */
  function ResultOf(rec: Record): ActionResult
    requires rec.terminal.Some?
  {
    ActionResult(rec.terminal.value, rec.stdoutArtifact, rec.stderrArtifact)
  }

  /** The zero-output result committed when no process was ever started. */
  function UnlaunchedResult(outcome: Outcome, now: int): TerminalResult {
    TerminalResult(outcome, None, now, false, "", "")
  }

  function Return(rec: Record): PC {
    if rec.terminal.Some? then Done(ResultOf(rec)) else Threw(StateInvalid)
  }

  /** After a terminal row is in hand: acknowledge the launcher, or return. */
  function Close(rec: Record): PC {
    if rec.accepted && !rec.acknowledged then AckLauncher(rec) else Return(rec)
  }

  function WithStatus(rec: Record, st: Status): PC {
    if st.StillRunning? then CommitActive(rec, st) else Judge(rec, st)
  }

  /** `#reconcileLocked` after `normalizeLauncherTerminalStatus`. */
  function Judged(rec: Record, st: Status): PC
    requires st.Finished?
  {
    if st.result.outputComplete && !st.available then Threw(OutputUnavailable)
    else match rec.state
      case Intent => CommitActive(rec, st)
      case Active => CommitFinalizing(rec, st.result)
      case _ =>
        if rec.terminal != Some(st.result) then Threw(StateInvalid)
        else if rec.state == Finalizing then PublishStdout(rec)
        else Close(rec)
  }

  /** Continue with the new row, or throw because the compare-and-set lost. */
  function Committed(w: World, after: Option<World>, failure: Failure, f: Record -> PC): State {
    if after.Some? && after.value.record.Some? then State(after.value, f(after.value.record.value))
    else State(w, Threw(failure))
  }

  function Published(w: World, after: Option<World>, failure: Failure, next: PC): State {
    if after.Some? then State(after.value, next) else State(w, Threw(failure))
  }

  function CurrentRecord(w: World, f: Record -> PC): State {
    if w.record.Some? then State(w, f(w.record.value)) else State(w, Threw(StateInvalid))
  }

  // ---------------------------------------------------------------- one await of the lock holder

  /** Points before the terminal facts are committed. */
  function StepEarly(s: State, ch: Choice): State {
    var w := s.world;
    match s.pc
    case Admit =>
      if !ch.authority then State(w, Threw(CapabilityUnavailable))
      else if w.record.Some? then State(w, AdmitEvidence(w.record.value))
      else State(w.(record := Some(NEW_RECORD)), AdmitEvidence(NEW_RECORD))
    case AdmitEvidence(rec) =>
      Published(w, PublishEvidence(w, IntentAdmitted, Plain), EvidenceFailed, Begin(rec, true, None))
    case Begin(rec, authority, known) =>
      State(w,
        if rec.state == Terminal then Close(rec)
        else if rec.state == Finalizing then PublishStdout(rec)
        else if known.Some? then WithStatus(rec, known.value)
        else Query(rec, authority))
    case CancelBegin(rec) =>
      State(w,
        if rec.state == Terminal || rec.state == Finalizing then Unlocked
        else if !rec.cancellationRequested then Threw(CancellationFailed)
        else if rec.state == Intent && !rec.accepted then CancelQuery(rec)
        else Unlocked)
    case CancelQuery(rec) =>
      State(w, if w.entry.Some? then Unlocked
               else CommitUnlaunched(rec, UnlaunchedResult(Cancelled, ch.now)))
    case Query(rec, authority) =>
      State(w,
        if w.entry.Some? then WithStatus(rec, StatusOf(w.entry.value))
        else if rec.state == Active || rec.accepted then Threw(OperationLost)
        else if rec.cancellationRequested then CommitUnlaunched(rec, UnlaunchedResult(Cancelled, ch.now))
        else if authority then Launch(rec)
        else ResolveAuthority(rec))
    case ResolveAuthority(rec) =>
      State(w, if ch.authority then Launch(rec)
               else CommitUnlaunched(rec, UnlaunchedResult(FailedToStart, ch.now)))
    case Launch(rec) =>
      var asked := w.(asks := w.asks + 1);
      if ch.launch.Refuses? && w.entry.None? then
        State(asked.(refusals := w.refusals + 1), Threw(LaunchRefused))
      else
        var after := Register(asked.(answered := w.answered + 1), ch.launch);
        State(after, WithStatus(rec, StatusOf(after.entry.value)))
    case _ => s
  }

  /** From launcher acceptance to the finalizing commit. */
  function StepMiddle(s: State, ch: Choice): State {
    var w := s.world;
    match s.pc
    case CommitActive(rec, st) =>
      if rec.state == Active then State(w, AcceptEvidence(rec, st))
      else Committed(w, Transition(w, {Intent}, rec.revision, ToActive), StateInvalid, r => AcceptEvidence(r, st))
    case AcceptEvidence(rec, st) =>
      Published(w, PublishEvidence(w, LauncherAccepted, Plain), EvidenceFailed,
        if st.StillRunning? then Observe(rec) else CommitFinalizing(rec, st.result))
    case Observe(rec) =>
      if ch.giveUp || w.entry.None? then State(w, Threw(ObservationFailed))
      else if w.entry.value.run.Running? then s
      else State(w, Refresh(StatusOf(w.entry.value)))
    case Refresh(st) => CurrentRecord(w, r => Judge(r, st))
    case Judge(rec, st) => State(w, if st.Finished? then Judged(rec, st) else Threw(StateInvalid))
    case CommitFinalizing(rec, result) =>
      Committed(w, Transition(w, {rec.state}, rec.revision, ToFinalizing(true, result)), StateInvalid, r => PublishStdout(r))
    case CommitUnlaunched(rec, result) =>
      Committed(w, Transition(w, {Intent}, rec.revision, ToFinalizing(false, result)), StateInvalid, r => PublishStdout(r))
    case _ => s
  }

  /** `#finishFinalization` up to the terminal evidence. */
  function StepPublish(s: State): State {
    var w := s.world;
    match s.pc
    case PublishStdout(rec) =>
      if rec.terminal.None? then State(w, Threw(StateInvalid))
      else if !rec.terminal.value.outputComplete then
        State(w, EvidenceTerminal(rec, rec.stdoutArtifact, rec.stderrArtifact))
      else if rec.stdoutArtifact.Some? then State(w, PublishStderr(rec, rec.stdoutArtifact))
      else
        Published(w, PublishOutput(w, Stdout, rec.terminal.value), ArtifactFailed,
          PublishStderr(rec, Some(ArtifactOf(Stdout, rec.terminal.value))))
    case PublishStderr(rec, out) =>
      if rec.terminal.None? then State(w, Threw(StateInvalid))
      else if rec.stderrArtifact.Some? then State(w, Bind(rec, out, rec.stderrArtifact))
      else
        Published(w, PublishOutput(w, Stderr, rec.terminal.value), ArtifactFailed,
          Bind(rec, out, Some(ArtifactOf(Stderr, rec.terminal.value))))
    case Bind(rec, out, err) =>
      if rec.stdoutArtifact.Some? && rec.stderrArtifact.Some? then State(w, EvidenceTerminal(rec, out, err))
      else
        Committed(w, Transition(w, {Finalizing}, rec.revision, BindArtifacts(out, err)), StateInvalid,
          r => EvidenceTerminal(r, out, err))
    case _ => s
  }

  /** `#publishTerminalEvidence`, the terminal commit and `#acknowledge`. */
  function StepFinish(s: State): State {
    var w := s.world;
    match s.pc
    case EvidenceTerminal(rec, out, err) =>
      if rec.terminal.None? then State(w, Threw(StateInvalid))
      else
        Published(w, PublishEvidence(w, TerminalEvidence, TerminalFacts(rec.terminal.value)),
          EvidenceFailed, EvidenceStdout(rec, out, err))
    case EvidenceStdout(rec, out, err) =>
      if out.None? then State(w, EvidenceStderr(rec, out, err))
      else
        Published(w, PublishEvidence(w, StdoutEvidence, ArtifactFacts(out.value)),
          EvidenceFailed, EvidenceStderr(rec, out, err))
    case EvidenceStderr(rec, out, err) =>
      if err.None? then State(w, WriteReceipt(rec, out, err))
      else
        Published(w, PublishEvidence(w, StderrEvidence, ArtifactFacts(err.value)),
          EvidenceFailed, WriteReceipt(rec, out, err))
    case WriteReceipt(rec, out, err) =>
      if rec.terminal.None? then State(w, Threw(StateInvalid))
      else
        Published(w, RecordReceipt(w, ReceiptFor(rec.terminal.value, out, err)),
          EvidenceFailed, RereadFinal(out, err))
    case RereadFinal(out, err) =>
      CurrentRecord(w, (r: Record) => if r.state == Terminal then Close(r) else CommitTerminal(r, out, err))
    case CommitTerminal(rec, out, err) =>
      Committed(w, Transition(w, {Finalizing, Intent}, rec.revision, ToTerminal(out, err)), StateInvalid, r => Close(r))
    case AckLauncher(rec) =>
      if rec.terminal.None? then State(w, Threw(StateInvalid))
      else
        Published(w, AcknowledgeOutput(w, ResultHash(rec.terminal.value)), AcknowledgementFailed, AckRecord(rec))
    case AckRecord(rec) =>
      Committed(w, Transition(w, {Terminal}, rec.revision, AcknowledgeRecord), AcknowledgementFailed, r => AckReread)
    case AckReread => CurrentRecord(w, r => Return(r))
    case _ => s
  }

  predicate Early(pc: PC) {
    pc.Admit? || pc.AdmitEvidence? || pc.Begin? || pc.CancelBegin? || pc.CancelQuery? || pc.Query?
    || pc.ResolveAuthority? || pc.Launch?
  }

  predicate Middle(pc: PC) {
    pc.CommitActive? || pc.AcceptEvidence? || pc.Observe? || pc.Refresh? || pc.Judge?
    || pc.CommitFinalizing? || pc.CommitUnlaunched?
  }

  predicate Publishing(pc: PC) {
    pc.PublishStdout? || pc.PublishStderr? || pc.Bind?
  }

  function Step(s: State, ch: Choice): State {
    if Early(s.pc) then StepEarly(s, ch)
    else if Middle(s.pc) then StepMiddle(s, ch)
    else if Publishing(s.pc) then StepPublish(s)
    else StepFinish(s)
  }

  // ---------------------------------------------------------------- all events

  datatype Event =
    | Await(choice: Choice)          // the lock holder completes one await
    | StartExecute                   // execute() takes the lock
    | StartReconcile(known: Option<Status>)
    | StartCancel                    // the locked part of cancelRunOperations
    | Cancel                         // requestProcessOperationCancellation, no lock
    | PublishCancellation            // its evidence, no lock
    | LauncherEnds(result: TerminalResult)
    | Crash
    | CrashInLaunch                  // dies with a launch request unread by the launcher
    | DeliverOrphan(reply: LaunchReply)
    | CloseRun
    | CompactEntry

  /** A status read earlier, outside the lock: true then, and the entry never forgets it. */
  predicate StatusWasTrue(w: World, st: Status) {
    && w.entry.Some?
    && (st.Finished? ==>
      && w.entry.value.run == Ended(st.result)
      && (st.result.outputComplete && !st.available ==> w.entry.value.acknowledged)
      && (st.available ==> st.result.outputComplete))
  }

  /** The successor state, or None when the event is not enabled. */
  function Next(s: State, e: Event): Option<State> {
    var w := s.world;
    match e
    case Await(ch) => if Free(s.pc) then None else Some(Step(s, ch))
    case StartExecute =>
      if !Free(s.pc) then None
      else if w.record.Some? then Some(State(w, Begin(w.record.value, false, None)))
      else Some(State(w, Admit))
    case StartReconcile(known) =>
      if !Free(s.pc) || w.record.None? then None
      else if known.Some? && !StatusWasTrue(w, known.value) then None
      else Some(State(w, Begin(w.record.value, false, known)))
    case StartCancel =>
      if !Free(s.pc) || w.record.None? then None else Some(State(w, CancelBegin(w.record.value)))
    case Cancel =>
      if w.record.None? || w.record.value.cancellationRequested || w.record.value.state == Terminal then None
      else Some(s.(world := w.(record := Some(Apply(RequestCancellation, w.record.value)))))
    case PublishCancellation =>
      if w.record.None? || !w.record.value.cancellationRequested then None
      else
        var after := PublishEvidence(w, CancellationEvidence, Plain);
        if after.None? then None else Some(s.(world := after.value))
    case LauncherEnds(r) =>
      if w.entry.None? || w.entry.value.run.Ended? then None
      else Some(s.(world := w.(entry := Some(w.entry.value.(run := Ended(r))))))
    case Crash => if Free(s.pc) then None else Some(State(w, Unlocked))
    case CrashInLaunch =>
      if !s.pc.Launch? then None
      else Some(State(w.(asks := w.asks + 1, orphans := w.orphans + 1, lost := w.lost + 1), Unlocked))
    case DeliverOrphan(reply) =>
      if w.orphans == 0 then None
      else Some(s.(world := Register(w.(orphans := w.orphans - 1), reply)))
    case CloseRun => Some(s.(world := w.(runClosed := true)))
    case CompactEntry =>
      var after := Compact(w);
      if after.None? then None else Some(s.(world := after.value))
  }

  const INITIAL := State(EMPTY_WORLD, Unlocked)

  /** The state a list of events leads to, or None when some event was not enabled. */
  function Exec(s: State, es: seq<Event>): Option<State> {
    if |es| == 0 then Some(s)
    else
      var before := Exec(s, es[..|es| - 1]);
      if before.None? then None else Next(before.value, es[|es| - 1])
  }
}
