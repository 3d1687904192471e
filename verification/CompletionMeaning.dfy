/**
 What a completion decision means, said on the Run, its events and its receipts alone: who may be blamed
 for the end of a Run, which evidence is in order, and which postcondition holds.
 */
module CompletionMeaning {
  import opened Basics
  import opened CanonicalOrder
  import opened CompletionDecision

  // ---------------------------------------------------------------- how the Run ended

  /** Some durable failure carries one of these codes, or some event is of one of these kinds. */
  ghost predicate Blames(run: Run, events: seq<Event>, codes: set<string>, kinds: set<string>) {
    || (exists code :: code in codes && code in run.failures)
    || (exists k :: 0 <= k < |events| && events[k].kind in kinds)
    || (exists k, code :: 0 <= k < |events| && code in codes && code in events[k].payload.failures)
  }

  ghost predicate Interrupted(run: Run, events: seq<Event>, v: Vocabulary) {
    Blames(run, events, v.infrastructure, {"process.infrastructure_interrupted"})
  }

  ghost predicate OutOfBudget(run: Run, events: seq<Event>, v: Vocabulary) {
    Blames(run, events, v.budget, {"budget.exhausted", "feasibility.rejected"})
  }

  /** A cancellation takes effect unless some process completed on its own. */
  ghost predicate Stopped(run: Run, events: seq<Event>, v: Vocabulary) {
    && Blames(run, events, v.cancellation, {"process.cancellation_requested"})
    && forall k :: 0 <= k < |events| && events[k].kind == "process.terminal" ==> events[k].payload.outcome != Some("completed")
  }

  ghost predicate CheckFailed(run: Run, events: seq<Event>, v: Vocabulary) {
    Blames(run, events, v.verification, {"run.verification_failed"})
  }

  /** The Run did what it set out to do, whatever a check then said about it. */
  ghost predicate RanToItsEnd(run: Run, events: seq<Event>, v: Vocabulary) {
    && !Interrupted(run, events, v) && !OutOfBudget(run, events, v) && !Stopped(run, events, v)
    && (CheckFailed(run, events, v) || run.status == RunCompleted)
  }

  lemma BlamesMeans(run: Run, events: seq<Event>, codes: set<string>, kinds: set<string>)
    ensures Blames(run, events, codes, kinds) <==>
      HasFailure(run, events, codes) || exists kind :: kind in kinds && HasEvent(events, kind)
  {
    if run.failures * codes != {} {
      var code :| code in run.failures * codes;
      assert code in codes && code in run.failures;
    }
    if exists e :: e in events && e.payload.failures * codes != {} {
      var e :| e in events && e.payload.failures * codes != {};
      var k :| 0 <= k < |events| && events[k] == e;
      var code :| code in e.payload.failures * codes;
      assert code in codes && code in events[k].payload.failures;
    }
    if exists k, code :: 0 <= k < |events| && code in codes && code in events[k].payload.failures {
      var k, code :| 0 <= k < |events| && code in codes && code in events[k].payload.failures;
      assert code in events[k].payload.failures * codes && events[k] in events;
    }
    if exists code :: code in codes && code in run.failures {
      var code :| code in codes && code in run.failures;
      assert code in run.failures * codes;
    }
    if exists k :: 0 <= k < |events| && events[k].kind in kinds {
      var k :| 0 <= k < |events| && events[k].kind in kinds;
      assert HasEvent(events, events[k].kind);
    }
  }

  /** Every disposition, exactly: the strongest durable cause first, and only then the status. */
  lemma ExecutionIff(run: Run, events: seq<Event>, v: Vocabulary)
    ensures
      var execution := ExecutionOf(run, events, v);
      var caused := Interrupted(run, events, v) || OutOfBudget(run, events, v) || Stopped(run, events, v);
      && (execution == InfrastructureFailed <==> Interrupted(run, events, v))
      && (execution == BudgetExhausted <==> OutOfBudget(run, events, v) && !Interrupted(run, events, v))
      && (execution == Cancelled <==>
            && !Interrupted(run, events, v) && !OutOfBudget(run, events, v)
            && (Stopped(run, events, v) || (run.status == RunInterrupted && !CheckFailed(run, events, v))))
      && (execution == Succeeded <==> RanToItsEnd(run, events, v))
      && (execution == Failed <==> !caused && run.status == RunFailed && !CheckFailed(run, events, v))
  {
    BlamesMeans(run, events, v.infrastructure, {"process.infrastructure_interrupted"});
    BlamesMeans(run, events, v.budget, {"budget.exhausted", "feasibility.rejected"});
    BlamesMeans(run, events, v.cancellation, {"process.cancellation_requested"});
    BlamesMeans(run, events, v.verification, {"run.verification_failed"});
    hide Blames, HasFailure, HasEvent;
  }

  // ---------------------------------------------------------------- whether the evidence is in order

  /** Event `k` is the only one chosen. */
  ghost predicate IsSole(events: seq<Event>, f: Event -> bool, k: int) {
    0 <= k < |events| && f(events[k]) && forall j :: 0 <= j < |events| && f(events[j]) ==> j == k
  }

  lemma {:induction false} FilterSole(events: seq<Event>, f: Event -> bool)
    ensures Filter(events, f) == [] <==> forall j :: 0 <= j < |events| ==> !f(events[j])
    ensures |Filter(events, f)| == 1 <==> exists k :: IsSole(events, f, k)
    ensures forall k :: IsSole(events, f, k) ==> Filter(events, f) == [events[k]]
  {
    if events != [] {
      var rest := events[1..];
      FilterSole(rest, f);
      assert forall j :: 1 <= j < |events| ==> events[j] == rest[j - 1];
      if f(events[0]) {
        if Filter(rest, f) == [] { assert IsSole(events, f, 0); }
        else { var x := Filter(rest, f)[0]; assert x in rest && f(x); }
      } else {
        forall k | IsSole(rest, f, k) ensures IsSole(events, f, k + 1) {}
        forall k | IsSole(events, f, k) ensures k > 0 && IsSole(rest, f, k - 1) {}
      }
    }
  }

  /** The one event of this kind about this operation, wherever it is in the list. */
  ghost predicate TheOne(events: seq<Event>, kind: string, operation: string, k: int) {
    && 0 <= k < |events| && events[k].kind == kind && events[k].payload.operation == Some(operation)
    && forall j :: 0 <= j < |events| && events[j].kind == kind && events[j].payload.operation == Some(operation) ==> j == k
  }

  /** A receipt's artifact has exactly its evidence; a missing artifact has none. */
  ghost predicate ArtifactShown(events: seq<Event>, kind: string, operation: string, artifact: Option<Artifact>) {
    match artifact
    case None => forall j :: 0 <= j < |events| && events[j].kind == kind ==> events[j].payload.operation != Some(operation)
    case Some(_) => exists k :: TheOne(events, kind, operation, k) && events[k].payload.artifact == artifact
  }

  ghost predicate Shown(events: seq<Event>, op: Operation) {
    && (exists k :: TheOne(events, "process.terminal", op.identity, k)
          && events[k].payload.outcome == Some(op.outcome) && events[k].payload.resultHash == Some(op.resultHash))
    && ArtifactShown(events, "process.stdout_artifact", op.identity, op.stdout)
    && ArtifactShown(events, "process.stderr_artifact", op.identity, op.stderr)
  }

  lemma TerminalShown(events: seq<Event>, op: Operation)
    ensures TerminalConsistent(events, op) <==>
      exists k :: TheOne(events, "process.terminal", op.identity, k)
        && events[k].payload.outcome == Some(op.outcome) && events[k].payload.resultHash == Some(op.resultHash)
  {
    var f := TerminalOf(op.identity);
    FilterSole(events, f);
    assert forall k :: TheOne(events, "process.terminal", op.identity, k) <==> IsSole(events, f, k);
    hide Filter, TheOne, IsSole;
  }

  lemma StreamShown(events: seq<Event>, op: Operation, s: Stream)
    ensures StreamConsistent(events, op, s) <==>
      if s == Stdout then ArtifactShown(events, "process.stdout_artifact", op.identity, op.stdout)
      else ArtifactShown(events, "process.stderr_artifact", op.identity, op.stderr)
  {
    var f := ArtifactOf(op.identity, s);
    var kind := if s == Stdout then "process.stdout_artifact" else "process.stderr_artifact";
    FilterSole(events, f);
    assert forall k :: TheOne(events, kind, op.identity, k) <==> IsSole(events, f, k);
    assert (forall j :: 0 <= j < |events| ==> !f(events[j])) <==>
      forall j :: 0 <= j < |events| && events[j].kind == kind ==> events[j].payload.operation != Some(op.identity);
    hide Filter, TheOne, IsSole;
  }

  /** The one workflow summary. */
  ghost predicate TheSummary(events: seq<Event>, k: int) {
    && 0 <= k < |events| && events[k].kind == "run.postconditions_checked"
    && forall j :: 0 <= j < |events| && events[j].kind == "run.postconditions_checked" ==> j == k
  }

  lemma SummaryMeans(events: seq<Event>)
    ensures TheCheck(events).Some? <==> exists k :: TheSummary(events, k)
    ensures forall k :: TheSummary(events, k) ==> TheCheck(events) == Some(events[k])
  {
    FilterSole(events, IsCheck);
    assert forall k :: TheSummary(events, k) <==> IsSole(events, IsCheck, k);
    hide Filter, TheSummary, IsSole;
  }

  /** Nothing about the evidence stands in the way. */
  ghost predicate InOrder(c: Case, events: seq<Event>) {
    && ((exists k :: 0 <= k < |c.postconditions| && c.postconditions[k].Ordinary?) ==> exists k :: TheSummary(events, k))
    && (forall k :: 0 <= k < |c.operations| ==> Shown(events, c.operations[k]))
    && !c.browserIssue
    && (forall j, k :: 0 <= j < |events| && 0 <= k < |events| ==>
          events[j].kind != "run.verification_passed" || events[k].kind != "run.verification_failed")
    && (forall k :: 0 <= k < |events| ==>
          events[k].kind !in {"run.violation_detected", "runtime.violation_detected",
                              "workspace.violation_detected", "authority.denied"})
  }

  lemma InOrderMeans(c: Case, events: seq<Event>)
    ensures EvidenceSound(c, events) <==> InOrder(c, events)
  {
    SummaryMeans(events);
    forall k | 0 <= k < |c.operations|
      ensures Shown(events, c.operations[k]) <==>
        && TerminalConsistent(events, c.operations[k])
        && StreamConsistent(events, c.operations[k], Stdout) && StreamConsistent(events, c.operations[k], Stderr)
    {
      TerminalShown(events, c.operations[k]);
      StreamShown(events, c.operations[k], Stdout);
      StreamShown(events, c.operations[k], Stderr);
    }
    VerdictsMean(events);
    hide Shown, TheSummary, TheCheck, TerminalConsistent, StreamConsistent, VerdictsContradict, HasViolation;
  }

  lemma VerdictsMean(events: seq<Event>)
    ensures VerdictsContradict(events) <==>
      !(forall j, k :: 0 <= j < |events| && 0 <= k < |events| ==>
          events[j].kind != "run.verification_passed" || events[k].kind != "run.verification_failed")
    ensures HasViolation(events) <==>
      !(forall k :: 0 <= k < |events| ==>
          events[k].kind !in {"run.violation_detected", "runtime.violation_detected",
                              "workspace.violation_detected", "authority.denied"})
  {
    forall kind ensures HasEvent(events, kind) <==> exists k :: 0 <= k < |events| && events[k].kind == kind {
      if HasEvent(events, kind) {
        var e :| e in events && e.kind == kind;
        var k :| 0 <= k < |events| && events[k] == e;
      }
      if exists k :: 0 <= k < |events| && events[k].kind == kind {
        var k :| 0 <= k < |events| && events[k].kind == kind;
        assert events[k] in events;
      }
    }
    hide HasEvent;
  }

  // ---------------------------------------------------------------- whether a postcondition holds

  /** The receipt that speaks for an operation is the first with its identity. */
  ghost predicate Speaks(operations: seq<Operation>, identity: string, k: int) {
    && 0 <= k < |operations| && operations[k].identity == identity
    && forall j :: 0 <= j < k ==> operations[j].identity != identity
  }

  /** The stored result that answers a postcondition: by its id, or without one by its kind. */
  predicate Answers(r: StoredResult, id: Option<string>, kind: string) {
    match id case Some(_) => r.id == id case None => r.kind == kind
  }

  ghost predicate FirstAnswer(stored: seq<StoredResult>, id: Option<string>, kind: string, k: int) {
    0 <= k < |stored| && Answers(stored[k], id, kind) && forall j :: 0 <= j < k ==> !Answers(stored[j], id, kind)
  }

  predicate Produced(op: Operation, stream: Stream, bytes: nat, sha: string) {
    var found := if stream == Stdout then op.stdout else op.stderr;
    found.Some? && found.value.stream == stream && found.value.byteCount == bytes && found.value.sha256 == sha
  }

  /** What the durable evidence says about a postcondition: this, and nothing else. */
  ghost predicate Says(p: Postcondition, c: Case, events: seq<Event>, passed: bool) {
    match p
    case OperationExists(id) => passed <==> exists k :: Speaks(c.operations, id, k)
    case OutcomeEquals(id, outcome) =>
      passed <==> exists k :: Speaks(c.operations, id, k) && c.operations[k].outcome == outcome
    case ArtifactEquals(id, stream, bytes, sha) =>
      passed <==> exists k :: Speaks(c.operations, id, k) && Produced(c.operations[k], stream, bytes, sha)
    case Ordinary(id, kind) =>
      exists k, m :: TheSummary(events, k) && FirstAnswer(events[k].payload.results, id, kind, m)
        && events[k].payload.results[m].passed == Some(passed)
  }

  lemma {:induction false} FindMeans(operations: seq<Operation>, identity: string)
    ensures FindOperation(operations, identity).Some? <==> exists k :: Speaks(operations, identity, k)
    ensures forall k :: Speaks(operations, identity, k) ==> FindOperation(operations, identity) == Some(operations[k])
  {
    if operations != [] {
      var rest := operations[1..];
      FindMeans(rest, identity);
      assert forall j :: 1 <= j < |operations| ==> operations[j] == rest[j - 1];
      if operations[0].identity == identity {
        assert Speaks(operations, identity, 0);
      } else {
        forall k | Speaks(rest, identity, k) ensures Speaks(operations, identity, k + 1) {}
        forall k | Speaks(operations, identity, k) ensures k > 0 && Speaks(rest, identity, k - 1) {}
      }
    }
  }

  lemma {:induction false} FindResultMeans(stored: seq<StoredResult>, id: Option<string>, kind: string)
    ensures FindResult(stored, id, kind).Some? <==> exists k :: FirstAnswer(stored, id, kind, k)
    ensures forall k :: FirstAnswer(stored, id, kind, k) ==> FindResult(stored, id, kind) == Some(stored[k])
  {
    if stored != [] {
      var rest := stored[1..];
      FindResultMeans(rest, id, kind);
      assert forall j :: 1 <= j < |stored| ==> stored[j] == rest[j - 1];
      if Answers(stored[0], id, kind) {
        assert FirstAnswer(stored, id, kind, 0);
      } else {
        forall k | FirstAnswer(rest, id, kind, k) ensures FirstAnswer(stored, id, kind, k + 1) {}
        forall k | FirstAnswer(stored, id, kind, k) ensures k > 0 && FirstAnswer(rest, id, kind, k - 1) {}
      }
    }
  }

  lemma ProcessSays(p: Postcondition, c: Case, events: seq<Event>, passed: bool)
    requires !p.Ordinary?
    ensures ProcessResult(p, c.operations) == Some(passed) <==> Says(p, c, events, passed)
  {
    FindMeans(c.operations, p.operation);
    hide FindOperation, Speaks;
  }

  lemma OrdinarySays(p: Postcondition, c: Case, events: seq<Event>, passed: bool)
    requires p.Ordinary?
    ensures ResultOf(p, TheCheck(events), c.operations) == Some(passed) <==> Says(p, c, events, passed)
  {
    SummaryMeans(events);
    if exists k :: TheSummary(events, k) {
      var k :| TheSummary(events, k);
      assert forall j :: TheSummary(events, j) ==> j == k;
      var stored := events[k].payload.results;
      FindResultMeans(stored, p.id, p.kind);
      hide TheCheck, FindResult, FirstAnswer, TheSummary;
      assert ResultOf(p, TheCheck(events), c.operations) == Some(passed) <==>
        exists m :: FirstAnswer(stored, p.id, p.kind, m) && stored[m].passed == Some(passed);
    }
  }

  lemma ResultSays(p: Postcondition, c: Case, events: seq<Event>, passed: bool)
    ensures ResultOf(p, TheCheck(events), c.operations) == Some(passed) <==> Says(p, c, events, passed)
  {
    hide Says, TheCheck, ProcessResult, FindResult;
    if p.Ordinary? { OrdinarySays(p, c, events, passed); } else { ProcessSays(p, c, events, passed); }
  }

  // ---------------------------------------------------------------- the decision

  ghost predicate Required(c: Case) {
    |c.direct| > 0 || |c.postconditions| > 0
  }

  ghost predicate AllHold(c: Case, events: seq<Event>) {
    && (forall k :: 0 <= k < |c.direct| ==> c.direct[k] == Some(true))
    && (forall k :: 0 <= k < |c.postconditions| ==> Says(c.postconditions[k], c, events, true))
  }

  /** The evidence leaves some postcondition open. */
  ghost predicate SomeOpen(c: Case, events: seq<Event>) {
    || (exists k :: 0 <= k < |c.direct| && c.direct[k].None?)
    || (exists k :: 0 <= k < |c.postconditions|
          && !Says(c.postconditions[k], c, events, true) && !Says(c.postconditions[k], c, events, false))
  }

  ghost predicate SomeFails(c: Case, events: seq<Event>) {
    || (exists k :: 0 <= k < |c.direct| && c.direct[k] == Some(false))
    || (exists k :: 0 <= k < |c.postconditions| && Says(c.postconditions[k], c, events, false))
  }

  lemma ResultsMean(c: Case, events: seq<Event>)
    ensures Results(c, events) == [] <==> !Required(c)
    ensures None in Results(c, events) <==> SomeOpen(c, events)
    ensures Some(false) in Results(c, events) <==> SomeFails(c, events)
    ensures (forall k :: 0 <= k < |Results(c, events)| ==> Results(c, events)[k] == Some(true)) <==> AllHold(c, events)
  {
    var results, n := Results(c, events), |c.direct|;
    assert forall k :: 0 <= k < n ==> results[k] == c.direct[k];
    forall k | 0 <= k < |c.postconditions|
      ensures results[n + k] == Some(true) <==> Says(c.postconditions[k], c, events, true)
      ensures results[n + k] == Some(false) <==> Says(c.postconditions[k], c, events, false)
    {
      ResultSays(c.postconditions[k], c, events, true);
      ResultSays(c.postconditions[k], c, events, false);
    }
    hide Says, Results, ResultOf, TheCheck;
    MembersByPart(results, n, c, events);
  }

  lemma MembersByPart(results: seq<Option<bool>>, n: nat, c: Case, events: seq<Event>)
    requires n == |c.direct| && |results| == n + |c.postconditions|
    requires forall k :: 0 <= k < n ==> results[k] == c.direct[k]
    requires forall k :: 0 <= k < |c.postconditions| ==>
      && (results[n + k] == Some(true) <==> Says(c.postconditions[k], c, events, true))
      && (results[n + k] == Some(false) <==> Says(c.postconditions[k], c, events, false))
    ensures None in results <==> SomeOpen(c, events)
    ensures Some(false) in results <==> SomeFails(c, events)
    ensures (forall k :: 0 <= k < |results| ==> results[k] == Some(true)) <==> AllHold(c, events)
  {
    hide Says;
    forall k | n <= k < |results|
      ensures results[k].None? <==>
        !Says(c.postconditions[k - n], c, events, true) && !Says(c.postconditions[k - n], c, events, false)
      ensures results[k] == Some(true) <==> Says(c.postconditions[k - n], c, events, true)
      ensures results[k] == Some(false) <==> Says(c.postconditions[k - n], c, events, false)
    {
      assert results[k] == results[n + (k - n)];
      match results[k] { case None => case Some(passed) => assert results[k] == Some(passed); }
    }
    forall k | 0 <= k < n ensures c.direct[k] in results { assert results[k] in results; }
  }

  /** `completed` means exactly this: the Run did what it set out to do, the evidence is in order, every
      postcondition holds, and there was one or the objective has its own evidence. */
  lemma CompletedIff(c: Case, events: seq<Event>, v: Vocabulary)
    ensures Decide(c, events, v).completion == Completed <==>
      && RanToItsEnd(c.run, events, v) && InOrder(c, events) && AllHold(c, events)
      && (Required(c) || c.objectiveEvidence)
    ensures Decide(c, events, v).reason == ObjectiveCompleted <==> Decide(c, events, v).completion == Completed
  {
    ExecutionIff(c.run, events, v);
    InOrderMeans(c, events);
    ResultsMean(c, events);
    AllOrNot(Results(c, events));
    hide RanToItsEnd, Interrupted, OutOfBudget, Stopped, CheckFailed, InOrder, AllHold, SomeOpen, SomeFails, Required;
    hide EvidenceSound, ExecutionOf, Results;
  }

  lemma AllOrNot(results: seq<Option<bool>>)
    ensures (forall k :: 0 <= k < |results| ==> results[k] == Some(true)) <==> None !in results && Some(false) !in results
  {
    if None !in results && Some(false) !in results {
      forall k | 0 <= k < |results| ensures results[k] == Some(true) {
        assert results[k] in results;
        match results[k] { case None => case Some(passed) => assert passed; }
      }
    }
  }

  /** Every other reason, exactly, and whether it leaves the objective incomplete or blocked. */
  lemma ReasonIff(c: Case, events: seq<Event>, v: Vocabulary)
    ensures
      var facts := Decide(c, events, v);
      var run, ran := c.run, RanToItsEnd(c.run, events, v);
      var caused := Interrupted(run, events, v) || OutOfBudget(run, events, v);
      && (facts.reason == RunBudgetExhausted <==> OutOfBudget(run, events, v) && !Interrupted(run, events, v))
      && (facts.reason == RunCancelled <==>
            !caused && (Stopped(run, events, v) || (run.status == RunInterrupted && !CheckFailed(run, events, v))))
      && (facts.reason == RunExecutionFailed <==>
            !caused && !Stopped(run, events, v) && run.status == RunFailed && !CheckFailed(run, events, v))
      && (facts.reason == ReasonVerificationFailed <==>
            ran && InOrder(c, events) && !SomeOpen(c, events) && SomeFails(c, events))
      && (facts.reason == VerificationUnavailable <==>
            Interrupted(run, events, v) || (ran && (!InOrder(c, events) || SomeOpen(c, events))))
      && (facts.reason == ObjectiveIncomplete <==>
            ran && InOrder(c, events) && !Required(c) && !c.objectiveEvidence)
      && (facts.completion == Blocked <==> facts.reason == VerificationUnavailable)
  {
    ExecutionIff(c.run, events, v);
    InOrderMeans(c, events);
    ResultsMean(c, events);
    hide RanToItsEnd, Interrupted, OutOfBudget, Stopped, CheckFailed, InOrder, AllHold, SomeOpen, SomeFails, Required;
    hide EvidenceSound, ExecutionOf, Results;
  }

  // ---------------------------------------------------------------- the hashed evidence

  lemma NormalMembers(events: seq<Event>, v: Vocabulary)
    ensures
      var relevant := Filter(events, IsRelevant(v));
      var normal := MapAll(Normalized, relevant);
      && normal.Some? && |normal.value| == |relevant|
      && forall x :: x in normal.value <==> exists e :: e in events && e.kind in v.relevant && x == e.(ts := "")
  {
    var relevant := Filter(events, IsRelevant(v));
    MapAllMeans(Normalized, relevant);
    var normal := MapAll(Normalized, relevant).value;
    hide Filter, MapAll;
    forall x | x in normal ensures exists e :: e in events && e.kind in v.relevant && x == e.(ts := "") {
      var k :| 0 <= k < |normal| && normal[k] == x;
      assert relevant[k] in relevant;
    }
    forall e | e in events && e.kind in v.relevant ensures e.(ts := "") in normal {
      assert e in relevant;
      var k :| 0 <= k < |relevant| && relevant[k] == e;
      assert normal[k] == e.(ts := "");
    }
  }

  /** What is hashed: every relevant event once, without its timestamp, in canonical order. */
  lemma RelevantEvidenceIs(events: seq<Event>, v: Vocabulary, key: Identity)
    requires Injective(key)
    ensures
      var evidence := RelevantEvidence(events, v, key);
      && Sorted(evidence, EvidenceLe(key))
      && |evidence| == |Filter(events, IsRelevant(v))|
      && forall x :: x in evidence <==> exists e :: e in events && e.kind in v.relevant && x == e.(ts := "")
  {
    NormalMembers(events, v);
    hide Sort, Filter, MapAll, EvidenceLe;
    var normal := MapAll(Normalized, Filter(events, IsRelevant(v))).value;
    EvidenceOrdering(key, normal);
    SortSorts(normal, EvidenceLe(key));
    SortPermutes(normal, EvidenceLe(key));
    SameElements(RelevantEvidence(events, v, key), normal);
  }
}
