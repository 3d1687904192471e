/**
 Theorems about every run of the process-execution protocol: any interleaving of
 locked sessions, unlocked cancellations, launcher progress and crashes.
 */
module ProcessRuns {
  import opened Basics
  import opened ProcessWorld
  import opened ProcessProtocol
  import opened ProcessInvariant

  // ---------------------------------------------------------------- the invariant on runs

  lemma {:induction false} RunKeepsInv(s: State, es: seq<Event>)
    requires Inv(s) && Exec(s, es).Some?
    ensures Inv(Exec(s, es).value)
  {
    hide Inv, Next;
    if |es| > 0 {
      RunKeepsInv(s, es[..|es| - 1]);
      NextKeepsInv(Exec(s, es[..|es| - 1]).value, es[|es| - 1]);
    }
  }

  lemma InitialInv()
    ensures Inv(INITIAL)
  {
  }

  /** A run is its first part followed by the rest. */
  lemma {:induction false} ExecConcat(s: State, a: seq<Event>, b: seq<Event>)
    requires Exec(s, a).Some?
    ensures Exec(s, a + b) == Exec(Exec(s, a).value, b)
  {
    hide Next;
    if |b| == 0 {
      assert a + b == a;
    } else {
      ExecConcat(s, a, b[..|b| - 1]);
      assert (a + b)[..|a + b| - 1] == a + b[..|b| - 1];
    }
  }

  /** The durability order the protocol promises, read off one state. */
  predicate DurabilityOrder(w: World) {
    && (w.entry.Some? && w.entry.value.acknowledged ==>
          && w.record.Some? && w.record.value.state == Terminal && w.entry.value.run.Ended?
          && w.record.value.terminal == Some(w.entry.value.run.result))
    && (w.record.Some? && w.record.value.state == Terminal ==>
          w.record.value.terminal.Some? && FullyRecorded(w, w.record.value.terminal.value))
    && (w.record.Some? && w.record.value.acknowledged ==> w.entry.Some? && w.entry.value.acknowledged)
  }

  lemma InvGivesDurability(w: World)
    requires WorldInv(w)
    ensures DurabilityOrder(w)
  {
  }

  /** In every reachable state an acknowledged launcher entry implies a terminal row, and a
      terminal row implies its evidence, receipt and (when output is complete) both artifacts,
      all saying exactly the committed result;
      the row is acknowledged only after the launcher is. */
  lemma AcknowledgedMeansDurable(es: seq<Event>)
    requires Exec(INITIAL, es).Some?
    ensures DurabilityOrder(Exec(INITIAL, es).value.world)
  {
    InitialInv();
    hide WorldInv, PcInv, Next, DurabilityOrder;
    RunKeepsInv(INITIAL, es);
    InvGivesDurability(Exec(INITIAL, es).value.world);
  }

  lemma GateFollows(w: World)
    requires WorldInv(w)
    ensures CompactionAuthorized(w) <==>
      w.runClosed && w.record.Some? && w.record.value.state == Terminal && w.record.value.acknowledged
    ensures CompactionAuthorized(w) ==> Compact(w).Some?
  {
  }

  /** The retention gate asks for a receipt and artifacts that agree with the row. In every reachable
      state it opens exactly for closed Runs whose operation is terminal and acknowledged, and the
      launcher then accepts the compaction. */
  lemma CompactionGateOpens(es: seq<Event>)
    requires Exec(INITIAL, es).Some?
    ensures
      var w := Exec(INITIAL, es).value.world;
      && (CompactionAuthorized(w) <==>
            w.runClosed && w.record.Some? && w.record.value.state == Terminal && w.record.value.acknowledged)
      && (CompactionAuthorized(w) ==> Compact(w).Some?)
  {
    hide WorldInv, PcInv, Next, CompactionAuthorized, Compact;
    InitialInv();
    RunKeepsInv(INITIAL, es);
    GateFollows(Exec(INITIAL, es).value.world);
  }

  /** Everything about `r` is durable and says just what `r` says: its evidence, a receipt that counts as a
      success exactly for a completed process, and for complete output both streams. */
  predicate FullyRecorded(w: World, r: TerminalResult) {
    var out := if r.outputComplete then Some(Artifact(Stdout, r.stdout)) else None;
    var err := if r.outputComplete then Some(Artifact(Stderr, r.stderr)) else None;
    && w.evidence.terminal == Some(TerminalFacts(r))
    && w.receipt == Some(Receipt(r.outcome == Completed, ResultHash(r), out, err))
    && (r.outputComplete ==>
          && w.artifacts == Artifacts(out, err)
          && w.evidence.stdout == Some(ArtifactFacts(out.value))
          && w.evidence.stderr == Some(ArtifactFacts(err.value)))
  }

  // ---------------------------------------------------------------- nothing durable is undone

  function Order(l: Lifecycle): nat {
    match l case Intent => 0 case Active => 1 case Finalizing => 2 case Terminal => 3
  }

  /** A filled slot keeps its value. */
  predicate Keeps<T(==)>(before: Option<T>, after: Option<T>) {
    before.Some? ==> after == before
  }

  predicate RecordGrows(a: Record, b: Record) {
    && Order(a.state) <= Order(b.state)
    && a.revision <= b.revision
    && (a.accepted ==> b.accepted)
    && (a.cancellationRequested ==> b.cancellationRequested)
    && (a.acknowledged ==> b.acknowledged)
    && Keeps(a.terminal, b.terminal)
    && Keeps(a.stdoutArtifact, b.stdoutArtifact)
    && Keeps(a.stderrArtifact, b.stderrArtifact)
  }

  predicate EntryGrows(a: Entry, b: Entry) {
    && (a.run.Ended? ==> b.run == a.run)
    && (a.acknowledged ==> b.acknowledged)
    && (a.compacted ==> b.compacted)
  }

  predicate StoresGrow(a: World, b: World) {
    && Keeps(a.evidence.intentAdmitted, b.evidence.intentAdmitted)
    && Keeps(a.evidence.launcherAccepted, b.evidence.launcherAccepted)
    && Keeps(a.evidence.cancellation, b.evidence.cancellation)
    && Keeps(a.evidence.terminal, b.evidence.terminal)
    && Keeps(a.evidence.stdout, b.evidence.stdout)
    && Keeps(a.evidence.stderr, b.evidence.stderr)
    && Keeps(a.artifacts.stdout, b.artifacts.stdout)
    && Keeps(a.artifacts.stderr, b.artifacts.stderr)
    && Keeps(a.receipt, b.receipt)
  }

  predicate Grows(a: World, b: World) {
    && (a.record.Some? ==> b.record.Some? && RecordGrows(a.record.value, b.record.value))
    && (a.entry.Some? ==> b.entry.Some? && EntryGrows(a.entry.value, b.entry.value))
    && StoresGrow(a, b)
    && a.asks <= b.asks && a.refusals <= b.refusals && a.starts <= b.starts && a.lost <= b.lost
  }

  lemma LaunchGrows(w: World, reply: LaunchReply)
    ensures Grows(w, w.(asks := w.asks + 1, refusals := w.refusals + 1))
    ensures Grows(w, Register(w.(asks := w.asks + 1, answered := w.answered + 1), reply))
  {
  }

  lemma AdmitGrows(w: World)
    requires w.record.None?
    ensures Grows(w, w.(record := Some(NEW_RECORD)))
  {
  }

  lemma EarlyGrows(s: State, ch: Choice)
    requires Early(s.pc)
    ensures Grows(s.world, StepEarly(s, ch).world)
  {
    hide Grows, Register, PublishEvidence, WithStatus, Close, StatusOf;
    GrowsReflexive(s.world);
    match s.pc
    case Admit => if s.world.record.None? { AdmitGrows(s.world); }
    case AdmitEvidence(_) => PublishedEvidenceGrows(s.world, IntentAdmitted, Plain);
    case Launch(_) => LaunchGrows(s.world, ch.launch);
    case _ =>
  }

  /** A compare-and-set that a session's point allows. */
  lemma TransitionGrows(w: World, expected: set<Lifecycle>, revision: nat, p: Patch)
    requires w.record.Some? ==> RecordGrows(w.record.value, Apply(p, w.record.value))
    ensures
      var after := Transition(w, expected, revision, p);
      after.Some? ==> Grows(w, after.value)
  {
    hide Grows, Apply, RecordGrows;
    if w.record.Some? { RewrittenRecordGrows(w, Apply(p, w.record.value)); }
  }

  lemma MiddleGrows(s: State, ch: Choice)
    requires WorldInv(s.world) && MiddleInv(s.world, s.pc) && Middle(s.pc)
    ensures Grows(s.world, StepMiddle(s, ch).world)
  {
    hide Grows, EntryLink, EvidenceTrue, TerminalDurable, Counters, NothingYet;
    hide PublishEvidence, Transition, Judged, StatusWasTrue;
    GrowsReflexive(s.world);
    match s.pc
    case CommitActive(rec, _) =>
      if rec.state == Intent { TransitionGrows(s.world, {Intent}, rec.revision, ToActive); }
    case AcceptEvidence(_, _) => PublishedEvidenceGrows(s.world, LauncherAccepted, Plain);
    case CommitFinalizing(rec, r) =>
      TransitionGrows(s.world, {rec.state}, rec.revision, ToFinalizing(true, r));
    case CommitUnlaunched(rec, r) =>
      TransitionGrows(s.world, {Intent}, rec.revision, ToFinalizing(false, r));
    case _ =>
  }

  lemma OutputGrows(w: World, stream: Stream, r: TerminalResult)
    ensures PublishOutput(w, stream, r).Some? ==> Grows(w, PublishOutput(w, stream, r).value)
  {
  }

  lemma PublishGrows(s: State)
    requires WorldInv(s.world) && FinishInv(s.world, s.pc) && Publishing(s.pc)
    ensures Grows(s.world, StepPublish(s).world)
  {
    hide Grows, EntryLink, EvidenceTrue, TerminalDurable, Counters, NothingYet, PublishOutput, Transition;
    GrowsReflexive(s.world);
    match s.pc
    case PublishStdout(rec) =>
      if rec.terminal.Some? { OutputGrows(s.world, Stdout, rec.terminal.value); }
    case PublishStderr(rec, _) =>
      if rec.terminal.Some? { OutputGrows(s.world, Stderr, rec.terminal.value); }
    case Bind(rec, out, err) =>
      TransitionGrows(s.world, {Finalizing}, rec.revision, BindArtifacts(out, err));
  }

  lemma PublishedEvidenceGrows(w: World, key: EvidenceKey, p: Payload)
    ensures PublishEvidence(w, key, p).Some? ==> Grows(w, PublishEvidence(w, key, p).value)
  {
  }

  lemma RewrittenRecordGrows(w: World, next: Record)
    requires w.record.Some? && RecordGrows(w.record.value, next)
    ensures Grows(w, w.(record := Some(next)))
  {
  }

  lemma EvidenceGrows(s: State)
    requires WritingEvidence(s.pc)
    ensures Grows(s.world, StepFinish(s).world)
  {
    hide Grows, PublishEvidence;
    GrowsReflexive(s.world);
    match s.pc
    case EvidenceTerminal(rec, _, _) =>
      if rec.terminal.Some? {
        PublishedEvidenceGrows(s.world, TerminalEvidence, TerminalFacts(rec.terminal.value));
      }
    case EvidenceStdout(_, out, _) =>
      if out.Some? { PublishedEvidenceGrows(s.world, StdoutEvidence, ArtifactFacts(out.value)); }
    case EvidenceStderr(_, _, err) =>
      if err.Some? { PublishedEvidenceGrows(s.world, StderrEvidence, ArtifactFacts(err.value)); }
  }

  lemma GrowsReflexive(w: World)
    ensures Grows(w, w)
  {
  }

  lemma ReceiptGrows(s: State)
    requires s.pc.WriteReceipt? || s.pc.RereadFinal?
    ensures Grows(s.world, StepFinish(s).world)
  {
  }

  lemma TerminalCommitGrows(s: State)
    requires FinishInv(s.world, s.pc) && s.pc.CommitTerminal?
    ensures Grows(s.world, StepFinish(s).world)
  {
    hide Grows;
    GrowsReflexive(s.world);
    var next := Apply(ToTerminal(s.pc.out, s.pc.err), s.world.record.value);
    if s.world.record.value.revision == s.pc.rec.revision {
      RewrittenRecordGrows(s.world, next);
    }
  }

  lemma AcknowledgeGrows(s: State)
    requires Acknowledging(s.pc)
    ensures Grows(s.world, StepFinish(s).world)
  {
  }

  lemma FinishGrows(s: State)
    requires Inv(s) && !Free(s.pc) && Late(s.pc) && !Publishing(s.pc)
    ensures Grows(s.world, StepFinish(s).world)
  {
    hide WorldInv, EarlyInv, MiddleInv, FinishInv, Grows, StepFinish;
    if WritingEvidence(s.pc) { EvidenceGrows(s); }
    else if s.pc.CommitTerminal? { TerminalCommitGrows(s); }
    else if Committing(s.pc) { ReceiptGrows(s); }
    else { AcknowledgeGrows(s); }
  }

  /** The launcher's own progress. */
  lemma LauncherGrows(s: State, e: Event)
    requires e.LauncherEnds? || e.CrashInLaunch? || e.DeliverOrphan? || e.CompactEntry?
    requires Next(s, e).Some?
    ensures Grows(s.world, Next(s, e).value.world)
  {
    SameStoresGrow(s.world, Next(s, e).value.world);
    hide CompactionAuthorized, StoresGrow;
  }

  lemma SameStoresGrow(a: World, b: World)
    requires a.evidence == b.evidence && a.artifacts == b.artifacts && a.receipt == b.receipt
    ensures StoresGrow(a, b)
  {
  }

  lemma OthersGrow(s: State, e: Event)
    requires WorldInv(s.world) && !e.Await? && Next(s, e).Some?
    ensures Grows(s.world, Next(s, e).value.world)
  {
    if e.LauncherEnds? || e.CrashInLaunch? || e.DeliverOrphan? || e.CompactEntry? {
      hide *;
      LauncherGrows(s, e);
    } else {
      hide WorldInv, StatusWasTrue;
    }
  }

  lemma NextGrows(s: State, e: Event)
    requires Inv(s) && Next(s, e).Some?
    ensures Grows(s.world, Next(s, e).value.world)
  {
    hide WorldInv, EarlyInv, MiddleInv, FinishInv, Grows, StepEarly, StepMiddle, StepPublish, StepFinish;
    if e.Await? {
      if Early(s.pc) { EarlyGrows(s, e.choice); }
      else if Middle(s.pc) { MiddleGrows(s, e.choice); }
      else if Publishing(s.pc) { PublishGrows(s); }
      else { FinishGrows(s); }
    } else {
      OthersGrow(s, e);
    }
  }

  lemma GrowsTransitive(a: World, b: World, c: World)
    requires Grows(a, b) && Grows(b, c)
    ensures Grows(a, c)
  {
  }

  /** Along every run, lifecycle and acknowledgements only advance, and a committed outcome,
      artifact, evidence record or receipt never changes. */
  lemma {:induction false} NothingIsUndone(s: State, es: seq<Event>)
    requires Inv(s) && Exec(s, es).Some?
    ensures Grows(s.world, Exec(s, es).value.world)
  {
    hide Inv, Next;
    if |es| > 0 {
      var mid := Exec(s, es[..|es| - 1]).value;
      NothingIsUndone(s, es[..|es| - 1]);
      RunKeepsInv(s, es[..|es| - 1]);
      NextGrows(mid, es[|es| - 1]);
      GrowsTransitive(s.world, mid.world, Exec(s, es).value.world);
    }
  }

  // ---------------------------------------------------------------- launching

  /** No program point from which a launch request could still be sent. */
  predicate PastIntent(w: World) {
    w.record.Some? && w.record.value.state != Intent
  }

  lemma PastIntentNeverAsks(s: State, e: Event)
    requires Inv(s) && PastIntent(s.world) && Next(s, e).Some?
    ensures Next(s, e).value.world.asks == s.world.asks
    ensures Next(s, e).value.world.orphans <= s.world.orphans
    ensures s.world.orphans == 0 && s.world.entry.None? ==> Next(s, e).value.world.entry.None?
  {
    hide WorldInv, MiddleInv, FinishInv, StatusWasTrue;
    if e.Await? && Early(s.pc) {
    } else if e.Await? {
      LateNeverAsks(s, e.choice);
    }
  }

  /** Past the launch point no step touches the launch counters or creates an entry. */
  lemma LateNeverAsks(s: State, ch: Choice)
    requires !Early(s.pc)
    ensures Step(s, ch).world.asks == s.world.asks
    ensures Step(s, ch).world.orphans == s.world.orphans
    ensures s.world.entry.None? ==> Step(s, ch).world.entry.None?
  {
  }

  /** Once anything past the intent is committed (acceptance, an unlaunched cancellation or an
      unlaunched failure), the launcher is never asked again, compaction or not. */
  lemma {:induction false} NeverAskedAfterCommit(s: State, es: seq<Event>)
    requires Inv(s) && PastIntent(s.world) && Exec(s, es).Some?
    ensures PastIntent(Exec(s, es).value.world)
    ensures Exec(s, es).value.world.asks == s.world.asks
    ensures Exec(s, es).value.world.orphans <= s.world.orphans
    ensures s.world.orphans == 0 && s.world.entry.None? ==> Exec(s, es).value.world.entry.None?
  {
    hide Inv, Next;
    if |es| > 0 {
      var mid := Exec(s, es[..|es| - 1]).value;
      NeverAskedAfterCommit(s, es[..|es| - 1]);
      RunKeepsInv(s, es[..|es| - 1]);
      PastIntentNeverAsks(mid, es[|es| - 1]);
      NextGrows(mid, es[|es| - 1]);
    }
  }

  /** Every ask was refused, lost or answered. While the launcher knows nothing, or a session is about
      to ask, none was answered yet; and one is answered at most. */
  predicate AskBound(s: State) {
    && s.world.asks == s.world.refusals + s.world.lost + s.world.answered && s.world.answered <= 1
    && (s.world.entry.None? || s.pc.ResolveAuthority? || s.pc.Launch? ==> s.world.answered == 0)
  }

  lemma EarlyKeepsAskBound(s: State, ch: Choice)
    requires AskBound(s) && Early(s.pc)
    ensures AskBound(StepEarly(s, ch))
  {
    hide StatusOf;
  }

  lemma LateKeepsAskBound(s: State, ch: Choice)
    requires AskBound(s) && !Early(s.pc)
    ensures AskBound(Step(s, ch))
  {
    LateNeverAsks(s, ch);
    LateLeavesCounters(s, ch);
    hide StepMiddle, StepPublish, StepFinish;
  }

  predicate SameCounters(a: World, b: World) {
    && a.refusals == b.refusals && a.lost == b.lost && a.answered == b.answered
    && (a.entry.Some? ==> b.entry.Some?)
  }

  lemma MiddleLeavesCounters(s: State, ch: Choice)
    requires Middle(s.pc)
    ensures SameCounters(s.world, StepMiddle(s, ch).world)
    ensures !StepMiddle(s, ch).pc.ResolveAuthority? && !StepMiddle(s, ch).pc.Launch?
  {
    hide StatusOf;
  }

  lemma FinishLeavesCounters(s: State)
    requires !Early(s.pc) && !Middle(s.pc)
    ensures SameCounters(s.world, StepPublish(s).world) && SameCounters(s.world, StepFinish(s).world)
    ensures !StepPublish(s).pc.ResolveAuthority? && !StepPublish(s).pc.Launch?
    ensures !StepFinish(s).pc.ResolveAuthority? && !StepFinish(s).pc.Launch?
  {
  }

  /** Past the launch point no step touches the other launch counters or goes back to asking. */
  lemma LateLeavesCounters(s: State, ch: Choice)
    requires !Early(s.pc)
    ensures SameCounters(s.world, Step(s, ch).world)
    ensures !Step(s, ch).pc.ResolveAuthority? && !Step(s, ch).pc.Launch?
  {
    hide SameCounters, StepEarly, StepMiddle, StepPublish, StepFinish;
    if Middle(s.pc) { MiddleLeavesCounters(s, ch); } else { FinishLeavesCounters(s); }
  }

  lemma NextKeepsAskBound(s: State, e: Event)
    requires AskBound(s) && Next(s, e).Some?
    ensures AskBound(Next(s, e).value)
  {
    hide StepEarly, StepMiddle, StepPublish, StepFinish, StatusWasTrue, CompactionAuthorized, PublishEvidence;
    if e.Await? {
      if Early(s.pc) { EarlyKeepsAskBound(s, e.choice); } else { LateKeepsAskBound(s, e.choice); }
    }
    if e.PublishCancellation? { EvidenceLeavesCounters(s.world, CancellationEvidence, Plain); }
  }

  lemma EvidenceLeavesCounters(w: World, key: EvidenceKey, p: Payload)
    ensures
      var after := PublishEvidence(w, key, p);
      after.Some? ==> after.value == w.(evidence := after.value.evidence)
  {
  }

  lemma {:induction false} RunKeepsAskBound(s: State, es: seq<Event>)
    requires AskBound(s) && Exec(s, es).Some?
    ensures AskBound(Exec(s, es).value)
  {
    hide AskBound, Next;
    if |es| > 0 {
      RunKeepsAskBound(s, es[..|es| - 1]);
      NextKeepsAskBound(Exec(s, es[..|es| - 1]).value, es[|es| - 1]);
    }
  }

  /** In every run, crashes in the middle of a launch included: the launcher registers the identity at
      most once, and every ask was refused outright, lost with its sender, or is the one that was
      answered. So the launcher was asked at most once without refusing if and only if no request was
      lost, or one was and none was answered. While none was lost, the answer is that one registration. */
  lemma StartedAtMostOnce(es: seq<Event>)
    requires Exec(INITIAL, es).Some?
    ensures
      var w := Exec(INITIAL, es).value.world;
      && w.starts <= 1
      && w.asks == w.refusals + w.lost + w.answered && w.answered <= 1
      && (w.asks - w.refusals <= 1 <==> w.lost == 0 || (w.lost == 1 && w.answered == 0))
      && (w.lost == 0 ==> w.asks == w.refusals + w.starts)
  {
    InitialInv();
    hide WorldInv, PcInv, Next;
    RunKeepsInv(INITIAL, es);
    RunKeepsAskBound(INITIAL, es);
    CountersHold(Exec(INITIAL, es).value.world);
  }

  /** An unlaunched outcome stays processless in every future exactly when no launch request is
      still waiting unread at the launcher. */
  lemma UnlaunchedStaysUnlaunched(s: State)
    requires Inv(s) && s.world.record.Some? && Unlaunched(s.world.record.value) && s.world.entry.None?
    ensures s.world.orphans == 0 <==>
            (forall es :: Exec(s, es).Some? ==> Exec(s, es).value.world.entry.None?)
  {
    hide Inv;
    if s.world.orphans == 0 {
      forall es | Exec(s, es).Some? ensures Exec(s, es).value.world.entry.None? {
        NeverAskedAfterCommit(s, es);
      }
    } else {
      var es := [DeliverOrphan(Accepts)];
      assert es[..0] == [];
      assert Exec(s, es[..0]) == Some(s);
      assert Exec(s, es) == Next(s, es[0]);
      assert Exec(s, es).value.world.entry.Some?;
    }
  }
}
