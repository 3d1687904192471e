/**
 The durable facts of one process operation and the atomic operations on them.

 Four stores survive a runtime crash: the operation row (with its revision), the
 native launcher's registry entry, the keyed evidence and receipt tables, and the
 output artifact store. Every function here is one atomic call on one of them.
 */
module ProcessWorld {
  import opened Basics

  datatype Outcome =
    | Completed | FailedToStart | ExitedNonzero | Signaled | TimedOut | Cancelled
    | OutputLimitExceeded | ResourceLimitExceeded | PolicyDenied | RuntimeInterrupted

  datatype Stream = Stdout | Stderr

  /** A stream's byte count and digest are represented by the content they identify. */
  datatype TerminalResult = TerminalResult(
    outcome: Outcome, exitCode: Option<int>, endedAt: int,
    outputComplete: bool, stdout: string, stderr: string)

  /** SHA-256 of a canonical result: an opaque injective image. */
  datatype ResultHash = ResultHash(preimage: TerminalResult)

  datatype Artifact = Artifact(stream: Stream, content: string)

  // ---------------------------------------------------------------- the operation row

  datatype Lifecycle = Intent | Active | Finalizing | Terminal

  /** `accepted` is "launcherAcceptanceIdentity is not null": that identity is a
      function of the immutable launch authority, so only its presence varies. */
  datatype Record = Record(
    state: Lifecycle, revision: nat, accepted: bool, cancellationRequested: bool,
    terminal: Option<TerminalResult>,
    stdoutArtifact: Option<Artifact>, stderrArtifact: Option<Artifact>,
    evidenceComplete: bool, acknowledged: bool)

  const NEW_RECORD := Record(Intent, 1, false, false, None, None, None, false, false)

  // ---------------------------------------------------------------- the launcher registry

  datatype RunState = Running | Ended(result: TerminalResult)

  datatype Entry = Entry(run: RunState, acknowledged: bool, compacted: bool)

  /** What `getOperation` and `launch` report. */
  datatype Status = StillRunning | Finished(result: TerminalResult, available: bool)

  // ---------------------------------------------------------------- evidence and receipt

  datatype EvidenceKey =
    | IntentAdmitted | CancellationEvidence | LauncherAccepted
    | TerminalEvidence | StdoutEvidence | StderrEvidence

  datatype Payload = Plain | TerminalFacts(result: TerminalResult) | ArtifactFacts(artifact: Artifact)

  /** One slot per evidence key of this operation. */
  datatype Evidence = Evidence(
    intentAdmitted: Option<Payload>, cancellation: Option<Payload>, launcherAccepted: Option<Payload>,
    terminal: Option<Payload>, stdout: Option<Payload>, stderr: Option<Payload>)

  function Lookup(ev: Evidence, key: EvidenceKey): Option<Payload> {
    match key
    case IntentAdmitted => ev.intentAdmitted
    case CancellationEvidence => ev.cancellation
    case LauncherAccepted => ev.launcherAccepted
    case TerminalEvidence => ev.terminal
    case StdoutEvidence => ev.stdout
    case StderrEvidence => ev.stderr
  }

  function Store(ev: Evidence, key: EvidenceKey, p: Payload): Evidence {
    match key
    case IntentAdmitted => ev.(intentAdmitted := Some(p))
    case CancellationEvidence => ev.(cancellation := Some(p))
    case LauncherAccepted => ev.(launcherAccepted := Some(p))
    case TerminalEvidence => ev.(terminal := Some(p))
    case StdoutEvidence => ev.(stdout := Some(p))
    case StderrEvidence => ev.(stderr := Some(p))
  }

  /** The output artifact store. */
  datatype Artifacts = Artifacts(stdout: Option<Artifact>, stderr: Option<Artifact>)

  datatype Receipt = Receipt(
    succeeded: bool, resultHash: ResultHash, stdout: Option<Artifact>, stderr: Option<Artifact>)

  /**
   `asks`, `refusals` and `starts` count launch requests issued by the controller,
   those the launcher refused without registering anything, and registrations.
   `orphans` are launch requests whose sender died before the launcher handled them;
   `lost` counts every orphan there has ever been, `answered` the requests whose sender read an
   acceptance.
   */
  datatype World = World(
    record: Option<Record>, entry: Option<Entry>,
    evidence: Evidence, receipt: Option<Receipt>,
    artifacts: Artifacts, runClosed: bool,
    asks: nat, refusals: nat, starts: nat, orphans: nat, lost: nat, answered: nat)

  const EMPTY_WORLD := World(
    None, None, Evidence(None, None, None, None, None, None), None, Artifacts(None, None), false, 0, 0, 0, 0, 0, 0)

  function Content(s: Stream, r: TerminalResult): string {
    if s == Stdout then r.stdout else r.stderr
  }

  function ArtifactOf(s: Stream, r: TerminalResult): Artifact {
    Artifact(s, Content(s, r))
  }

  /** The artifact a finalized operation must carry for a stream. */
  function ExpectedArtifact(s: Stream, r: TerminalResult): Option<Artifact> {
    if r.outputComplete then Some(ArtifactOf(s, r)) else None
  }

  function ReceiptFor(r: TerminalResult, stdout: Option<Artifact>, stderr: Option<Artifact>): Receipt {
    Receipt(r.outcome == Completed, ResultHash(r), stdout, stderr)
  }

  // ---------------------------------------------------------------- atomic calls

  /** The column sets `transitionProcessOperation` is called with. */
  datatype Patch =
    | ToActive
    | ToFinalizing(accepted: bool, result: TerminalResult)
    | BindArtifacts(stdout: Option<Artifact>, stderr: Option<Artifact>)
    | ToTerminal(stdout: Option<Artifact>, stderr: Option<Artifact>)
    | AcknowledgeRecord
    | RequestCancellation

  function Apply(p: Patch, r: Record): Record {
    var next := match p
      case ToActive => r.(state := Active, accepted := true)
      case ToFinalizing(accepted, result) =>
        r.(state := Finalizing, accepted := r.accepted || accepted, terminal := Some(result))
      case BindArtifacts(out, err) => r.(stdoutArtifact := out, stderrArtifact := err)
      case ToTerminal(out, err) =>
        r.(state := Terminal, evidenceComplete := true, stdoutArtifact := out, stderrArtifact := err)
      case AcknowledgeRecord => r.(acknowledged := true)
      case RequestCancellation => r.(cancellationRequested := true);
    next.(revision := r.revision + 1)
  }

  /** Compare-and-set on lifecycle state and revision. */
  function Transition(w: World, expected: set<Lifecycle>, revision: nat, p: Patch): Option<World> {
    if w.record.Some? && w.record.value.state in expected && w.record.value.revision == revision
    then Some(w.(record := Some(Apply(p, w.record.value))))
    else None
  }

  /** Keyed, append-once evidence: an identical replay succeeds, a different one conflicts. */
  function PublishEvidence(w: World, key: EvidenceKey, payload: Payload): Option<World> {
    var stored := Lookup(w.evidence, key);
    if stored.Some? && stored.value != payload then None
    else Some(w.(evidence := Store(w.evidence, key, payload)))
  }

  function RecordReceipt(w: World, receipt: Receipt): Option<World> {
    if w.receipt.Some? && w.receipt.value != receipt then None
    else Some(w.(receipt := Some(receipt)))
  }

  /** Publishing reuses an identical artifact, and otherwise must read the launcher's output,
      which is readable only while the entry is terminal, complete and unacknowledged. */
  function PublishOutput(w: World, s: Stream, r: TerminalResult): Option<World> {
    var stored := if s == Stdout then w.artifacts.stdout else w.artifacts.stderr;
    if stored.Some? then
      if stored.value == ArtifactOf(s, r) then Some(w) else None
    else if w.entry.Some? && w.entry.value.run.Ended? && !w.entry.value.acknowledged
         && w.entry.value.run.result.outputComplete
         && Content(s, w.entry.value.run.result) == Content(s, r)
    then
      var added := Some(ArtifactOf(s, r));
      Some(w.(artifacts := if s == Stdout then w.artifacts.(stdout := added) else w.artifacts.(stderr := added)))
    else None
  }

  function StatusOf(e: Entry): Status {
    match e.run
    case Running => StillRunning
    case Ended(r) => Finished(r, r.outputComplete && !e.acknowledged)
  }

  datatype LaunchReply = Accepts | AcceptsEnded(result: TerminalResult) | Refuses

  /** The launcher handles one launch request: a known identity is only reported. */
  function Register(w: World, reply: LaunchReply): World {
    if w.entry.Some? || reply.Refuses? then w
    else
      var run := if reply.Accepts? then Running else Ended(reply.result);
      w.(entry := Some(Entry(run, false, false)), starts := w.starts + 1)
  }

  function AcknowledgeOutput(w: World, hash: ResultHash): Option<World> {
    if w.entry.Some? && w.entry.value.run.Ended? && ResultHash(w.entry.value.run.result) == hash
    then Some(w.(entry := Some(w.entry.value.(acknowledged := true))))
    else None
  }

  /** `durableFinalizationAuthority`: what must be durable before the launcher may compact. */
  predicate CompactionAuthorized(w: World) {
    && w.runClosed
    && w.record.Some? && w.record.value.state == Terminal
    && w.record.value.evidenceComplete && w.record.value.acknowledged
    && w.record.value.terminal.Some?
    && w.receipt.Some?
    && w.receipt.value.resultHash == ResultHash(w.record.value.terminal.value)
    && w.receipt.value.stdout == w.record.value.stdoutArtifact
    && w.receipt.value.stderr == w.record.value.stderrArtifact
  }

  /** The launcher keeps a tombstone, so the identity stays taken. */
  function Compact(w: World): Option<World> {
    if CompactionAuthorized(w)
       && w.entry.Some? && w.entry.value.run.Ended? && w.entry.value.acknowledged
       && w.entry.value.run.result == w.record.value.terminal.value
    then Some(w.(entry := Some(w.entry.value.(compacted := true))))
    else None
  }
}
