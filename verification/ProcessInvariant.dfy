/**
 What every event of the process-execution protocol keeps.
 */
module ProcessInvariant {
  import opened Basics
  import opened ProcessWorld
  import opened ProcessProtocol

  // ---------------------------------------------------------------- the durable world

  /** Terminal facts are committed and no launcher entry backs them. */
  predicate Unlaunched(rec: Record) {
    (rec.state == Finalizing || rec.state == Terminal) && !rec.accepted
  }

  predicate UnlaunchedShape(r: TerminalResult) {
    !r.outputComplete && (r.outcome == Cancelled || r.outcome == FailedToStart)
  }

  predicate RecordShape(rec: Record) {
    && (rec.state == Intent ==> !rec.accepted)
    && (rec.state == Active ==> rec.accepted)
    && (rec.terminal.Some? <==> rec.state == Finalizing || rec.state == Terminal)
    && (Unlaunched(rec) ==> UnlaunchedShape(rec.terminal.value))
    && (rec.stdoutArtifact.Some? || rec.stderrArtifact.Some? ==>
          rec.terminal.Some? && rec.terminal.value.outputComplete)
    && (rec.stdoutArtifact.Some? ==> rec.stdoutArtifact == ExpectedArtifact(Stdout, rec.terminal.value))
    && (rec.stderrArtifact.Some? ==> rec.stderrArtifact == ExpectedArtifact(Stderr, rec.terminal.value))
    && (rec.evidenceComplete <==> rec.state == Terminal)
    && (rec.acknowledged ==> rec.state == Terminal && rec.accepted)
  }

  /** The launcher entry a row claims exists, and says the same. */
  predicate EntryLink(w: World, rec: Record) {
    && (rec.accepted ==> w.entry.Some?)
    && (rec.accepted && rec.terminal.Some? ==> w.entry.value.run == Ended(rec.terminal.value))
    && (w.entry.Some? && w.entry.value.acknowledged ==> rec.state == Terminal && rec.accepted)
    && (rec.acknowledged ==> w.entry.Some? && w.entry.value.acknowledged)
    && (w.entry.Some? && w.entry.value.compacted ==> rec.acknowledged)
  }

  predicate Says(slot: Option<Payload>, p: Payload) {
    slot.Some? ==> slot.value == p
  }

  predicate StreamTrue(s: Stream, rec: Record, evidence: Option<Payload>, artifact: Option<Artifact>) {
    && (evidence.Some? || artifact.Some? ==> rec.terminal.Some? && rec.terminal.value.outputComplete)
    && (evidence.Some? ==> evidence.value == ArtifactFacts(ArtifactOf(s, rec.terminal.value)))
    && (artifact.Some? ==> artifact.value == ArtifactOf(s, rec.terminal.value))
  }

  /** Whatever terminal evidence exists was written from the committed terminal result. */
  predicate EvidenceTrue(w: World, rec: Record) {
    && Says(w.evidence.intentAdmitted, Plain)
    && Says(w.evidence.cancellation, Plain)
    && Says(w.evidence.launcherAccepted, Plain)
    && (w.evidence.terminal.Some? ==>
          rec.terminal.Some? && w.evidence.terminal.value == TerminalFacts(rec.terminal.value))
    && StreamTrue(Stdout, rec, w.evidence.stdout, w.artifacts.stdout)
    && StreamTrue(Stderr, rec, w.evidence.stderr, w.artifacts.stderr)
    && (rec.stdoutArtifact.Some? ==> w.artifacts.stdout.Some?)
    && (rec.stderrArtifact.Some? ==> w.artifacts.stderr.Some?)
    && (w.receipt.Some? ==> rec.terminal.Some? && w.receipt.value == ExpectedReceipt(rec.terminal.value))
  }

  function ExpectedReceipt(r: TerminalResult): Receipt {
    ReceiptFor(r, ExpectedArtifact(Stdout, r), ExpectedArtifact(Stderr, r))
  }

  /** Terminal evidence, both artifacts with their evidence when output is complete, and the receipt. */
  predicate DurableOutputs(w: World, r: TerminalResult) {
    && w.evidence.terminal.Some?
    && w.receipt.Some?
    && (r.outputComplete ==>
          && w.evidence.stdout.Some? && w.artifacts.stdout.Some?
          && w.evidence.stderr.Some? && w.artifacts.stderr.Some?)
  }

  predicate TerminalDurable(w: World, rec: Record) {
    rec.state == Terminal ==>
      && rec.terminal.Some?
      && DurableOutputs(w, rec.terminal.value)
      && rec.stdoutArtifact == ExpectedArtifact(Stdout, rec.terminal.value)
      && rec.stderrArtifact == ExpectedArtifact(Stderr, rec.terminal.value)
  }

  /** Launch accounting. Without a lost request, each ask was refused or is the one start. */
  predicate Counters(w: World) {
    && w.starts == (if w.entry.Some? then 1 else 0)
    && w.orphans <= w.lost
    && w.refusals <= w.asks
    && (w.lost == 0 ==> w.asks == w.refusals + w.starts)
  }

  predicate NothingYet(w: World) {
    && w.entry.None? && w.receipt.None? && w.orphans == 0
    && w.evidence.intentAdmitted.None? && w.evidence.cancellation.None? && w.evidence.launcherAccepted.None?
    && w.evidence.terminal.None? && w.evidence.stdout.None? && w.evidence.stderr.None?
    && w.artifacts.stdout.None? && w.artifacts.stderr.None?
  }

  predicate WorldInv(w: World) {
    && Counters(w)
    && (w.record.None? ==> NothingYet(w))
    && (w.record.Some? ==>
          var rec := w.record.value;
          && RecordShape(rec)
          && EntryLink(w, rec)
          && EvidenceTrue(w, rec)
          && TerminalDurable(w, rec)
          && (w.lost == 0 && Unlaunched(rec) ==> w.entry.None?))
  }

  // ---------------------------------------------------------------- the lock holder

  /** The session's copy is the row, or the row before its one cancellation request. */
  predicate Behind(seen: Record, now: Record) {
    || seen == now
    || (&& !seen.cancellationRequested && seen.state != Terminal
        && now == Apply(RequestCancellation, seen))
  }

  predicate Seen(w: World, rec: Record) {
    w.record.Some? && Behind(rec, w.record.value)
  }

  predicate SeenIn(w: World, rec: Record, states: set<Lifecycle>) {
    Seen(w, rec) && rec.state in states
  }

  /** No launcher entry can exist unless a lost launch request created it. */
  predicate NoEntryUnlessLost(w: World) {
    w.lost == 0 ==> w.entry.None?
  }

  predicate OutputsReady(w: World, rec: Record, out: Option<Artifact>, err: Option<Artifact>)
    requires rec.terminal.Some?
  {
    && out == ExpectedArtifact(Stdout, rec.terminal.value) == rec.stdoutArtifact
    && err == ExpectedArtifact(Stderr, rec.terminal.value) == rec.stderrArtifact
  }

  predicate Finishing(w: World, rec: Record, out: Option<Artifact>, err: Option<Artifact>) {
    SeenIn(w, rec, {Finalizing}) && rec.terminal.Some? && OutputsReady(w, rec, out, err)
  }

  predicate EarlyInv(w: World, pc: PC) {
    match pc
    case Admit => true
    case AdmitEvidence(rec) => Seen(w, rec)
    case Begin(rec, _, known) => Seen(w, rec) && (known.Some? ==> StatusWasTrue(w, known.value))
    case CancelBegin(rec) => Seen(w, rec)
    case CancelQuery(rec) => SeenIn(w, rec, {Intent})
    case Query(rec, _) => SeenIn(w, rec, {Intent, Active})
    case ResolveAuthority(rec) => SeenIn(w, rec, {Intent}) && NoEntryUnlessLost(w)
    case Launch(rec) => SeenIn(w, rec, {Intent}) && NoEntryUnlessLost(w)
    case _ => true
  }

  predicate MiddleInv(w: World, pc: PC) {
    match pc
    case CommitActive(rec, st) =>
      SeenIn(w, rec, {Intent, Active}) && StatusWasTrue(w, st) && (st.Finished? ==> rec.state == Intent)
    case AcceptEvidence(rec, st) => SeenIn(w, rec, {Active}) && StatusWasTrue(w, st)
    case Observe(rec) => SeenIn(w, rec, {Active})
    case Refresh(st) =>
      w.record.Some? && w.record.value.state == Active && st.Finished? && StatusWasTrue(w, st)
    case Judge(rec, st) => SeenIn(w, rec, {Intent, Active}) && st.Finished? && StatusWasTrue(w, st)
    case CommitFinalizing(rec, r) =>
      SeenIn(w, rec, {Active}) && w.entry.Some? && w.entry.value.run == Ended(r)
    case CommitUnlaunched(rec, r) => SeenIn(w, rec, {Intent}) && NoEntryUnlessLost(w) && UnlaunchedShape(r)
    case _ => true
  }

  predicate FinishInv(w: World, pc: PC) {
    match pc
    case PublishStdout(rec) => SeenIn(w, rec, {Finalizing})
    case PublishStderr(rec, out) =>
      && SeenIn(w, rec, {Finalizing}) && rec.terminal.Some? && rec.terminal.value.outputComplete
      && out == ExpectedArtifact(Stdout, rec.terminal.value) && w.artifacts.stdout.Some?
    case Bind(rec, out, err) =>
      && SeenIn(w, rec, {Finalizing}) && rec.terminal.Some? && rec.terminal.value.outputComplete
      && out == ExpectedArtifact(Stdout, rec.terminal.value) && w.artifacts.stdout.Some?
      && err == ExpectedArtifact(Stderr, rec.terminal.value) && w.artifacts.stderr.Some?
    case EvidenceTerminal(rec, out, err) => Finishing(w, rec, out, err)
    case EvidenceStdout(rec, out, err) => Finishing(w, rec, out, err) && w.evidence.terminal.Some?
    case EvidenceStderr(rec, out, err) =>
      && Finishing(w, rec, out, err) && w.evidence.terminal.Some?
      && (out.Some? ==> w.evidence.stdout.Some?)
    case WriteReceipt(rec, out, err) =>
      && Finishing(w, rec, out, err) && w.evidence.terminal.Some?
      && (out.Some? ==> w.evidence.stdout.Some?)
      && (err.Some? ==> w.evidence.stderr.Some?)
    case RereadFinal(out, err) =>
      && w.record.Some? && Finishing(w, w.record.value, out, err)
      && DurableOutputs(w, w.record.value.terminal.value)
    case CommitTerminal(rec, out, err) =>
      Finishing(w, rec, out, err) && DurableOutputs(w, rec.terminal.value)
    case AckLauncher(rec) => SeenIn(w, rec, {Terminal}) && rec.accepted && !rec.acknowledged
    case AckRecord(rec) =>
      && SeenIn(w, rec, {Terminal}) && rec.accepted && !rec.acknowledged
      && w.entry.Some? && w.entry.value.acknowledged
    case AckReread => w.record.Some? && w.record.value.acknowledged
    case Done(action) => Returned(w, action)
    case _ => true
  }

  /** A returned action result: the row is terminal, says exactly this, and is acknowledged
      unless nothing was ever launched. */
  predicate Returned(w: World, action: ActionResult) {
    && w.record.Some? && w.record.value.state == Terminal && w.record.value.terminal.Some?
    && action == ResultOf(w.record.value)
    && (w.record.value.accepted ==> w.record.value.acknowledged)
  }

  predicate PcInv(w: World, pc: PC) {
    EarlyInv(w, pc) && MiddleInv(w, pc) && FinishInv(w, pc)
  }

  predicate Inv(s: State) {
    WorldInv(s.world) && PcInv(s.world, s.pc)
  }

  // ---------------------------------------------------------------- the lock holder's steps

  lemma AdmitKeepsWorld(w: World)
    requires WorldInv(w) && w.record.None?
    ensures WorldInv(w.(record := Some(NEW_RECORD)))
  {
  }

  /** A launch request from the lock holder, refused or registered. */
  lemma LaunchKeepsWorld(w: World, reply: LaunchReply)
    requires WorldInv(w) && w.record.Some? && w.record.value.state == Intent && NoEntryUnlessLost(w)
    ensures w.entry.None? && reply.Refuses? ==> WorldInv(w.(asks := w.asks + 1, refusals := w.refusals + 1))
    ensures w.entry.Some? || !reply.Refuses? ==> WorldInv(Register(w.(asks := w.asks + 1, answered := w.answered + 1), reply))
  {
  }

  lemma EarlyKeepsWorld(s: State, ch: Choice)
    requires WorldInv(s.world) && EarlyInv(s.world, s.pc) && Early(s.pc)
    ensures WorldInv(StepEarly(s, ch).world)
  {
    hide WorldInv;
    if s.pc.Launch? { LaunchKeepsWorld(s.world, ch.launch); }
    if s.pc.Admit? && s.world.record.None? { AdmitKeepsWorld(s.world); }
    if s.pc.AdmitEvidence? { PlainEvidenceKeepsWorld(s.world, IntentAdmitted); }
  }

  lemma PlainEvidenceKeepsWorld(w: World, key: EvidenceKey)
    requires WorldInv(w) && w.record.Some?
    requires key.IntentAdmitted? || key.CancellationEvidence? || key.LauncherAccepted?
    ensures PublishEvidence(w, key, Plain).Some? && WorldInv(PublishEvidence(w, key, Plain).value)
  {
  }

  lemma EarlyKeepsPc(s: State, ch: Choice)
    requires WorldInv(s.world) && EarlyInv(s.world, s.pc) && Early(s.pc)
    ensures EarlyInv(StepEarly(s, ch).world, StepEarly(s, ch).pc)
  {
  }

  lemma EarlyReachesMiddle(s: State, ch: Choice)
    requires WorldInv(s.world) && EarlyInv(s.world, s.pc) && Early(s.pc)
    ensures MiddleInv(StepEarly(s, ch).world, StepEarly(s, ch).pc)
  {
  }

  lemma EarlyReachesFinish(s: State, ch: Choice)
    requires WorldInv(s.world) && EarlyInv(s.world, s.pc) && Early(s.pc)
    ensures FinishInv(StepEarly(s, ch).world, StepEarly(s, ch).pc)
  {
  }

  lemma MiddleKeepsWorld(s: State, ch: Choice)
    requires WorldInv(s.world) && MiddleInv(s.world, s.pc) && Middle(s.pc)
    ensures WorldInv(StepMiddle(s, ch).world)
  {
  }

  lemma MiddleKeepsPc(s: State, ch: Choice)
    requires WorldInv(s.world) && MiddleInv(s.world, s.pc) && Middle(s.pc)
    ensures MiddleInv(StepMiddle(s, ch).world, StepMiddle(s, ch).pc)
    ensures EarlyInv(StepMiddle(s, ch).world, StepMiddle(s, ch).pc)
  {
  }

  lemma MiddleReachesFinish(s: State, ch: Choice)
    requires WorldInv(s.world) && MiddleInv(s.world, s.pc) && Middle(s.pc)
    ensures FinishInv(StepMiddle(s, ch).world, StepMiddle(s, ch).pc)
  {
  }

  lemma PublishKeepsWorld(s: State)
    requires WorldInv(s.world) && FinishInv(s.world, s.pc) && Publishing(s.pc)
    ensures WorldInv(StepPublish(s).world)
  {
  }

  lemma StdoutKeepsPc(s: State)
    requires WorldInv(s.world) && FinishInv(s.world, s.pc) && s.pc.PublishStdout?
    ensures FinishInv(StepPublish(s).world, StepPublish(s).pc)
  {
  }

  lemma StderrKeepsPc(s: State)
    requires WorldInv(s.world) && FinishInv(s.world, s.pc) && s.pc.PublishStderr?
    ensures FinishInv(StepPublish(s).world, StepPublish(s).pc)
  {
  }

  lemma BindKeepsPc(s: State)
    requires WorldInv(s.world) && FinishInv(s.world, s.pc) && s.pc.Bind?
    ensures FinishInv(StepPublish(s).world, StepPublish(s).pc)
  {
  }

  predicate WritingEvidence(pc: PC) {
    pc.EvidenceTerminal? || pc.EvidenceStdout? || pc.EvidenceStderr?
  }

  predicate Committing(pc: PC) {
    pc.WriteReceipt? || pc.RereadFinal? || pc.CommitTerminal?
  }

  predicate Acknowledging(pc: PC) {
    pc.AckLauncher? || pc.AckRecord? || pc.AckReread?
  }

  lemma EvidenceKeepsWorld(s: State)
    requires WorldInv(s.world) && FinishInv(s.world, s.pc) && WritingEvidence(s.pc)
    ensures WorldInv(StepFinish(s).world)
  {
  }

  lemma EvidenceKeepsPc(s: State)
    requires WorldInv(s.world) && FinishInv(s.world, s.pc) && WritingEvidence(s.pc)
    ensures FinishInv(StepFinish(s).world, StepFinish(s).pc)
  {
  }

  lemma CommitKeepsWorld(s: State)
    requires WorldInv(s.world) && FinishInv(s.world, s.pc) && Committing(s.pc)
    ensures WorldInv(StepFinish(s).world)
  {
  }

  lemma ReceiptKeepsPc(s: State)
    requires WorldInv(s.world) && FinishInv(s.world, s.pc) && (s.pc.WriteReceipt? || s.pc.RereadFinal?)
    ensures FinishInv(StepFinish(s).world, StepFinish(s).pc)
  {
  }

  lemma TerminalKeepsPc(s: State)
    requires WorldInv(s.world) && FinishInv(s.world, s.pc) && s.pc.CommitTerminal?
    ensures FinishInv(StepFinish(s).world, StepFinish(s).pc)
  {
  }

  lemma AcknowledgeKeepsWorld(s: State)
    requires WorldInv(s.world) && FinishInv(s.world, s.pc) && Acknowledging(s.pc)
    ensures WorldInv(StepFinish(s).world)
  {
  }

  lemma AcknowledgeKeepsPc(s: State)
    requires WorldInv(s.world) && FinishInv(s.world, s.pc) && Acknowledging(s.pc)
    ensures FinishInv(StepFinish(s).world, StepFinish(s).pc)
  {
  }

  predicate Late(pc: PC) {
    !Early(pc) && !Middle(pc)
  }

  /** Past the finalizing commit, the earlier points' clauses hold vacuously. */
  lemma LateOnly(pc: PC, w: World)
    requires Late(pc)
    ensures EarlyInv(w, pc) && MiddleInv(w, pc)
  {
  }

  /** The controller never goes back behind the finalizing commit. */
  lemma StaysLate(s: State)
    requires Late(s.pc)
    ensures Late(StepPublish(s).pc) && Late(StepFinish(s).pc)
  {
  }

  lemma LateStepKeepsInv(s: State)
    requires Inv(s) && !Free(s.pc) && Late(s.pc) && !Publishing(s.pc)
    ensures Inv(StepFinish(s))
  {
    hide WorldInv, EarlyInv, MiddleInv, FinishInv, StepFinish;
    if WritingEvidence(s.pc) { EvidenceKeepsWorld(s); EvidenceKeepsPc(s); }
    else if Committing(s.pc) { CommitKeepsWorld(s); if s.pc.CommitTerminal? { TerminalKeepsPc(s); } else { ReceiptKeepsPc(s); } }
    else { AcknowledgeKeepsWorld(s); AcknowledgeKeepsPc(s); }
    StaysLate(s);
    LateOnly(StepFinish(s).pc, StepFinish(s).world);
  }

  lemma StepKeepsInv(s: State, ch: Choice)
    requires Inv(s) && !Free(s.pc)
    ensures Inv(Step(s, ch))
  {
    hide WorldInv, EarlyInv, MiddleInv, FinishInv, StepEarly, StepMiddle, StepPublish, StepFinish;
    if Early(s.pc) {
      EarlyKeepsWorld(s, ch);
      EarlyKeepsPc(s, ch);
      EarlyReachesMiddle(s, ch);
      EarlyReachesFinish(s, ch);
    } else if Middle(s.pc) {
      MiddleKeepsWorld(s, ch);
      MiddleKeepsPc(s, ch);
      MiddleReachesFinish(s, ch);
    } else if Publishing(s.pc) {
      PublishKeepsWorld(s);
      if s.pc.Bind? { BindKeepsPc(s); } else if s.pc.PublishStdout? { StdoutKeepsPc(s); } else { StderrKeepsPc(s); }
      StaysLate(s);
      LateOnly(StepPublish(s).pc, StepPublish(s).world);
    } else {
      LateStepKeepsInv(s);
    }
  }

  // ---------------------------------------------------------------- everyone else

  lemma CancelKeepsWorld(s: State)
    requires WorldInv(s.world) && Next(s, Cancel).Some?
    ensures WorldInv(Next(s, Cancel).value.world)
  {
  }

  lemma CancelKeepsPc(s: State)
    requires PcInv(s.world, s.pc) && Next(s, Cancel).Some?
    ensures PcInv(Next(s, Cancel).value.world, s.pc)
  {
  }

  lemma EndKeepsWorld(s: State, r: TerminalResult)
    requires WorldInv(s.world) && Next(s, LauncherEnds(r)).Some?
    ensures WorldInv(Next(s, LauncherEnds(r)).value.world)
  {
  }

  lemma DeliveryKeepsWorld(s: State, reply: LaunchReply)
    requires WorldInv(s.world) && Next(s, DeliverOrphan(reply)).Some?
    ensures WorldInv(Next(s, DeliverOrphan(reply)).value.world)
  {
  }

  lemma CompactKeepsWorld(s: State)
    requires WorldInv(s.world) && Next(s, CompactEntry).Some?
    ensures WorldInv(Next(s, CompactEntry).value.world)
  {
  }

  lemma EndKeepsPc(s: State, r: TerminalResult)
    requires PcInv(s.world, s.pc) && Next(s, LauncherEnds(r)).Some?
    ensures PcInv(Next(s, LauncherEnds(r)).value.world, s.pc)
  {
  }

  lemma DeliveryKeepsPc(s: State, reply: LaunchReply)
    requires Counters(s.world) && PcInv(s.world, s.pc) && Next(s, DeliverOrphan(reply)).Some?
    ensures PcInv(Next(s, DeliverOrphan(reply)).value.world, s.pc)
  {
  }

  lemma CompactKeepsPc(s: State)
    requires PcInv(s.world, s.pc) && Next(s, CompactEntry).Some?
    ensures PcInv(Next(s, CompactEntry).value.world, s.pc)
  {
  }

  lemma QuietKeepsPc(s: State, e: Event)
    requires PcInv(s.world, s.pc) && (e.PublishCancellation? || e.CloseRun?) && Next(s, e).Some?
    ensures PcInv(Next(s, e).value.world, s.pc)
  {
  }

  lemma CloseRunKeepsWorld(w: World)
    requires WorldInv(w)
    ensures WorldInv(w.(runClosed := true))
  {
  }

  lemma StartKeepsPc(s: State, e: Event)
    requires (e.StartExecute? || e.StartReconcile? || e.StartCancel?) && Next(s, e).Some?
    ensures PcInv(s.world, Next(s, e).value.pc) && Next(s, e).value.world == s.world
  {
  }

  lemma CrashKeepsWorld(s: State)
    requires WorldInv(s.world) && s.pc.Launch? && EarlyInv(s.world, s.pc)
    ensures WorldInv(Next(s, CrashInLaunch).value.world)
  {
  }

  lemma UnlockedPc(w: World)
    ensures PcInv(w, Unlocked)
  {
  }

  /** Every event keeps the invariant. */
  lemma NextKeepsInv(s: State, e: Event)
    requires Inv(s) && Next(s, e).Some?
    ensures Inv(Next(s, e).value)
  {
    hide WorldInv, PcInv, Step, Register, Compact, PublishEvidence, Apply, StatusWasTrue;
    match e
    case Await(ch) => StepKeepsInv(s, ch);
    case Cancel => CancelKeepsWorld(s); CancelKeepsPc(s);
    case StartExecute => StartKeepsPc(s, e);
    case StartReconcile(_) => StartKeepsPc(s, e);
    case StartCancel => StartKeepsPc(s, e);
    case Crash => UnlockedPc(s.world);
    case CrashInLaunch => LaunchPoint(s); CrashKeepsWorld(s); UnlockedPc(Next(s, e).value.world);
    case LauncherEnds(r) => EndKeepsWorld(s, r); EndKeepsPc(s, r);
    case DeliverOrphan(reply) => DeliveryKeepsWorld(s, reply); CountersHold(s.world); DeliveryKeepsPc(s, reply);
    case CompactEntry => CompactKeepsWorld(s); CompactKeepsPc(s);
    case PublishCancellation => PlainEvidenceKeepsWorld(s.world, CancellationEvidence); QuietKeepsPc(s, e);
    case CloseRun => CloseRunKeepsWorld(s.world); QuietKeepsPc(s, e);
  }

  lemma CountersHold(w: World)
    requires WorldInv(w)
    ensures Counters(w)
  {
  }

  lemma LaunchPoint(s: State)
    requires PcInv(s.world, s.pc)
    ensures EarlyInv(s.world, s.pc)
  {
  }
}
