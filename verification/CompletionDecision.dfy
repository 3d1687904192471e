/**
 Deriving a completion decision from a terminal Run's durable evidence.
 */
module CompletionDecision {
  import opened Basics
  import opened CanonicalOrder

  datatype Stream = Stdout | Stderr

  datatype Artifact = Artifact(id: string, stream: Stream, byteCount: nat, sha256: string)

  /** One result inside a stored postcondition summary; `passed` is absent when it is not a boolean. */
  datatype StoredResult = StoredResult(id: Option<string>, kind: string, passed: Option<bool>)

  datatype Payload = Payload(
    failures: set<string>, operation: Option<string>, outcome: Option<string>, resultHash: Option<string>,
    artifact: Option<Artifact>, results: seq<StoredResult>, rule: Option<string>)

  datatype Event = Event(kind: string, seq_: Option<int>, id: string, ts: string, payload: Payload)

  /** A finished process operation, from its receipt. */
  datatype Operation = Operation(
    identity: string, outcome: string, resultHash: string, stdout: Option<Artifact>, stderr: Option<Artifact>)

  datatype Postcondition =
    | OperationExists(operation: string)
    | OutcomeEquals(operation: string, outcome: string)
    | ArtifactEquals(operation: string, stream: Stream, byteCount: nat, sha256: string)
    | Ordinary(id: Option<string>, kind: string)

  datatype RunStatus = RunCompleted | RunFailed | RunInterrupted

  /** The closed sets of failure codes and the evidence types a decision depends on. */
  datatype Vocabulary = Vocabulary(
    infrastructure: set<string>, budget: set<string>, cancellation: set<string>, verification: set<string>,
    relevant: set<string>)

  datatype Run = Run(status: RunStatus, failures: set<string>)

  datatype Execution = Succeeded | Failed | Cancelled | BudgetExhausted | InfrastructureFailed

  datatype Verification = NotRequired | Passed | VerificationFailed | Unavailable

  datatype Completion = Completed | Incomplete | Blocked

  datatype Reason =
    | ObjectiveCompleted | ObjectiveIncomplete | ReasonVerificationFailed | VerificationUnavailable
    | RunBudgetExhausted | RunCancelled | RunExecutionFailed

  // ---------------------------------------------------------------- selecting events

  /** The only element, when there is exactly one. */
  function Only(events: seq<Event>): Option<Event> {
    if |events| == 1 then Some(events[0]) else None
  }

  lemma OnlyPermutes(a: seq<Event>, b: seq<Event>)
    requires multiset(a) == multiset(b)
    ensures |a| == |b| && Only(a) == Only(b)
  {
    SameElements(a, b);
    if |a| == 1 { assert a[0] in b; }
  }

  // ---------------------------------------------------------------- process evidence

  function TerminalOf(operation: string): Event -> bool {
    (e: Event) => e.kind == "process.terminal" && e.payload.operation == Some(operation)
  }

  function ArtifactKind(s: Stream): string {
    if s == Stdout then "process.stdout_artifact" else "process.stderr_artifact"
  }

  function ArtifactOf(operation: string, s: Stream): Event -> bool {
    (e: Event) => e.kind == ArtifactKind(s) && e.payload.operation == Some(operation)
  }

  function Expected(op: Operation, s: Stream): Option<Artifact> {
    if s == Stdout then op.stdout else op.stderr
  }

  predicate StreamConsistent(events: seq<Event>, op: Operation, s: Stream) {
    var found := Filter(events, ArtifactOf(op.identity, s));
    match Expected(op, s)
    case None => found == []
    case Some(artifact) => Only(found).Some? && Only(found).value.payload.artifact == Some(artifact)
  }

  predicate TerminalConsistent(events: seq<Event>, op: Operation) {
    var found := Only(Filter(events, TerminalOf(op.identity)));
    && found.Some?
    && found.value.payload.outcome == Some(op.outcome) && found.value.payload.resultHash == Some(op.resultHash)
  }

  /** Exactly the evidence each receipt claims, and nothing else about it. */
  predicate ProcessConsistent(events: seq<Event>, operations: seq<Operation>) {
    forall k :: 0 <= k < |operations| ==>
      && TerminalConsistent(events, operations[k])
      && StreamConsistent(events, operations[k], Stdout) && StreamConsistent(events, operations[k], Stderr)
  }

  datatype Issue = EvidenceMissing | EvidenceContradictory

  /** An artifact is claimed and no event shows it. */
  predicate StreamMissing(events: seq<Event>, op: Operation, s: Stream) {
    Expected(op, s).Some? && Filter(events, ArtifactOf(op.identity, s)) == []
  }

  /** No terminal event; or one, and no event for an artifact that is claimed. */
  predicate OperationMissing(events: seq<Event>, op: Operation) {
    var terminal := Filter(events, TerminalOf(op.identity));
    || terminal == []
    || (|terminal| == 1 && (StreamMissing(events, op, Stdout) || StreamMissing(events, op, Stderr)))
  }

  /** `processEvidenceIntegrityIssues`: silent exactly when the evidence is consistent, and reporting
      something missing exactly when it is. */
  method ProcessIssues(events: seq<Event>, operations: seq<Operation>) returns (issues: seq<Issue>)
    ensures issues == [] <==> ProcessConsistent(events, operations)
    ensures EvidenceMissing in issues <==>
      exists k :: 0 <= k < |operations| && OperationMissing(events, operations[k])
  {
    hide TerminalConsistent, StreamConsistent, OperationMissing;
    issues := [];
    for k := 0 to |operations|
      invariant issues == [] <==> ProcessConsistent(events, operations[..k])
      invariant EvidenceMissing in issues <==> exists j :: 0 <= j < k && OperationMissing(events, operations[j])
    {
      var found := OperationIssues(events, operations[k]);
      assert operations[..k + 1] == operations[..k] + [operations[k]];
      issues := issues + found;
    }
    assert operations[..|operations|] == operations;
  }

  method OperationIssues(events: seq<Event>, op: Operation) returns (issues: seq<Issue>)
    ensures issues == [] <==>
      TerminalConsistent(events, op) && StreamConsistent(events, op, Stdout) && StreamConsistent(events, op, Stderr)
    ensures EvidenceMissing in issues <==> OperationMissing(events, op)
  {
    hide StreamConsistent, StreamMissing;
    var terminal := Filter(events, TerminalOf(op.identity));
    if |terminal| != 1 {
      return [if |terminal| == 0 then EvidenceMissing else EvidenceContradictory];
    }
    issues := [];
    if terminal[0].payload.outcome != Some(op.outcome) || terminal[0].payload.resultHash != Some(op.resultHash) {
      issues := [EvidenceContradictory];
    }
    var out := StreamIssues(events, op, Stdout);
    var err := StreamIssues(events, op, Stderr);
    issues := issues + out + err;
  }

  method StreamIssues(events: seq<Event>, op: Operation, s: Stream) returns (issues: seq<Issue>)
    ensures issues == [] <==> StreamConsistent(events, op, s)
    ensures EvidenceMissing in issues <==> StreamMissing(events, op, s)
  {
    var found := Filter(events, ArtifactOf(op.identity, s));
    var expected := Expected(op, s);
    if expected.None? {
      return if |found| > 0 then [EvidenceContradictory] else [];
    }
    if |found| != 1 {
      return [if |found| == 0 then EvidenceMissing else EvidenceContradictory];
    }
    return if found[0].payload.artifact != expected then [EvidenceContradictory] else [];
  }

  lemma ProcessOrderIndependent(a: seq<Event>, b: seq<Event>, operations: seq<Operation>)
    requires multiset(a) == multiset(b)
    ensures ProcessConsistent(a, operations) <==> ProcessConsistent(b, operations)
  {
    forall k | 0 <= k < |operations|
      ensures TerminalConsistent(a, operations[k]) <==> TerminalConsistent(b, operations[k])
      ensures StreamConsistent(a, operations[k], Stdout) <==> StreamConsistent(b, operations[k], Stdout)
      ensures StreamConsistent(a, operations[k], Stderr) <==> StreamConsistent(b, operations[k], Stderr)
    {
      SelectionPermutes(a, b, TerminalOf(operations[k].identity));
      SelectionPermutes(a, b, ArtifactOf(operations[k].identity, Stdout));
      SelectionPermutes(a, b, ArtifactOf(operations[k].identity, Stderr));
    }
    hide TerminalConsistent, StreamConsistent;
  }

  lemma SelectionPermutes(a: seq<Event>, b: seq<Event>, f: Event -> bool)
    requires multiset(a) == multiset(b)
    ensures |Filter(a, f)| == |Filter(b, f)| && Only(Filter(a, f)) == Only(Filter(b, f))
  {
    FilterPermutes(a, b, f);
    OnlyPermutes(Filter(a, f), Filter(b, f));
  }

  // ---------------------------------------------------------------- postconditions

  function FindOperation(operations: seq<Operation>, identity: string): Option<Operation> {
    if operations == [] then None
    else if operations[0].identity == identity then Some(operations[0])
    else FindOperation(operations[1..], identity)
  }

  function ProcessResult(p: Postcondition, operations: seq<Operation>): Option<bool>
    requires !p.Ordinary?
  {
    var op := FindOperation(operations, p.operation);
    match p
    case OperationExists(_) => Some(op.Some?)
    case OutcomeEquals(_, outcome) => Some(op.Some? && op.value.outcome == outcome)
    case ArtifactEquals(_, stream, byteCount, sha256) =>
      Some(op.Some? && Expected(op.value, stream).Some?
           && Expected(op.value, stream).value.stream == stream
           && Expected(op.value, stream).value.byteCount == byteCount
           && Expected(op.value, stream).value.sha256 == sha256)
  }

  function FindResult(stored: seq<StoredResult>, id: Option<string>, kind: string): Option<StoredResult> {
    if stored == [] then None
    else if (id.Some? && stored[0].id == id) || (id.None? && stored[0].kind == kind) then Some(stored[0])
    else FindResult(stored[1..], id, kind)
  }

  predicate IsCheck(e: Event) {
    e.kind == "run.postconditions_checked"
  }

  /** The one workflow summary, when there is exactly one. */
  function TheCheck(events: seq<Event>): Option<Event> {
    Only(Filter(events, IsCheck))
  }

  function ResultOf(p: Postcondition, check: Option<Event>, operations: seq<Operation>): Option<bool> {
    if !p.Ordinary? then ProcessResult(p, operations)
    else if check.None? then None
    else
      match FindResult(check.value.payload.results, p.id, p.kind)
      case None => None
      case Some(match_) => match_.passed
  }

  predicate NeedsCheck(postconditions: seq<Postcondition>) {
    exists k :: 0 <= k < |postconditions| && postconditions[k].Ordinary?
  }

  // ---------------------------------------------------------------- execution disposition

  predicate HasFailure(run: Run, events: seq<Event>, accepted: set<string>) {
    || run.failures * accepted != {}
    || exists e :: e in events && e.payload.failures * accepted != {}
  }

  predicate HasEvent(events: seq<Event>, kind: string) {
    exists e :: e in events && e.kind == kind
  }

  predicate NaturalCompletion(events: seq<Event>) {
    exists e :: e in events && e.kind == "process.terminal" && e.payload.outcome == Some("completed")
  }

  /** `deriveExecutionDisposition`: durable cause outranks the terminal status. */
  function ExecutionOf(run: Run, events: seq<Event>, v: Vocabulary): Execution {
    if HasFailure(run, events, v.infrastructure) || HasEvent(events, "process.infrastructure_interrupted")
    then InfrastructureFailed
    else if HasFailure(run, events, v.budget) || HasEvent(events, "budget.exhausted")
         || HasEvent(events, "feasibility.rejected")
    then BudgetExhausted
    else if (HasFailure(run, events, v.cancellation) || HasEvent(events, "process.cancellation_requested"))
         && !NaturalCompletion(events)
    then Cancelled
    else if HasFailure(run, events, v.verification) || HasEvent(events, "run.verification_failed") then Succeeded
    else if run.status == RunCompleted then Succeeded
    else if run.status == RunInterrupted then Cancelled
    else Failed
  }

  // ---------------------------------------------------------------- the decision

  predicate HasViolation(events: seq<Event>) {
    || HasEvent(events, "run.violation_detected") || HasEvent(events, "runtime.violation_detected")
    || HasEvent(events, "workspace.violation_detected") || HasEvent(events, "authority.denied")
  }

  predicate VerdictsContradict(events: seq<Event>) {
    HasEvent(events, "run.verification_passed") && HasEvent(events, "run.verification_failed")
  }

  /** Everything the decision reads besides the event list. */
  datatype Case = Case(
    run: Run, operations: seq<Operation>, direct: seq<Option<bool>>, postconditions: seq<Postcondition>,
    browserIssue: bool, objectiveEvidence: bool)

  /** No evidence issue of any kind. */
  predicate EvidenceSound(c: Case, events: seq<Event>) {
    && (NeedsCheck(c.postconditions) ==> TheCheck(events).Some?)
    && ProcessConsistent(events, c.operations)
    && !c.browserIssue && !VerdictsContradict(events) && !HasViolation(events)
  }

  function Results(c: Case, events: seq<Event>): (r: seq<Option<bool>>)
    ensures |r| == |c.direct| + |c.postconditions|
  {
    var check := TheCheck(events);
    c.direct + seq(|c.postconditions|,
      k requires 0 <= k < |c.postconditions| => ResultOf(c.postconditions[k], check, c.operations))
  }

  function VerificationOf(c: Case, events: seq<Event>): Verification {
    var results := Results(c, events);
    if !EvidenceSound(c, events) then Unavailable
    else if results == [] then NotRequired
    else if None in results then Unavailable
    else if Some(false) in results then VerificationFailed
    else Passed
  }

  datatype Facts = Facts(execution: Execution, verification: Verification, completion: Completion, reason: Reason)

  /** `deriveDecisionFacts`. */
  function Decide(c: Case, events: seq<Event>, v: Vocabulary): Facts {
    var execution, verification := ExecutionOf(c.run, events, v), VerificationOf(c, events);
    var (completion, reason) :=
      if execution == InfrastructureFailed then (Blocked, VerificationUnavailable)
      else if execution != Succeeded then
        (Incomplete, if execution == BudgetExhausted then RunBudgetExhausted
                     else if execution == Cancelled then RunCancelled else RunExecutionFailed)
      else if verification == VerificationFailed then (Incomplete, ReasonVerificationFailed)
      else if verification == Unavailable then (Blocked, VerificationUnavailable)
      else if verification == Passed || c.objectiveEvidence then (Completed, ObjectiveCompleted)
      else (Incomplete, ObjectiveIncomplete);
    Facts(execution, verification, completion, reason)
  }

  // ---------------------------------------------------------------- required evidence

  /** The part of an event that is hashed into the decision: no timestamp. */
  function Normalized(e: Event): Option<Event> {
    Some(e.(ts := ""))
  }

  const MAX_SAFE_INTEGER := 9007199254740991

  function Position(e: Event): int {
    if e.seq_.Some? && -MAX_SAFE_INTEGER <= e.seq_.value <= MAX_SAFE_INTEGER then e.seq_.value else MAX_SAFE_INTEGER
  }

  type Identity = Event -> string

  ghost predicate Injective(key: Identity) {
    forall a, b :: key(a) == key(b) ==> a == b
  }

  function EvidenceLe(key: Identity): (Event, Event) -> bool {
    (a, b) => Position(a) < Position(b) || (Position(a) == Position(b) && TextLe(key(a), key(b)))
  }

  function IsRelevant(v: Vocabulary): Event -> bool {
    (e: Event) => e.kind in v.relevant
  }

  /** `relevantEvidence`: what the required-evidence hash is taken over. */
  function RelevantEvidence(events: seq<Event>, v: Vocabulary, key: Identity): seq<Event> {
    match MapAll(Normalized, Filter(events, IsRelevant(v)))
    case None => []
    case Some(normal) => Sort(normal, EvidenceLe(key))
  }

  lemma EvidenceOrdering(key: Identity, s: seq<Event>)
    requires Injective(key)
    ensures Ordering(EvidenceLe(key)) && NoTies(s, EvidenceLe(key))
  {
    TextOrdering();
    forall a, b | a in s && b in s && EvidenceLe(key)(a, b) && EvidenceLe(key)(b, a) ensures a == b {
      TextAntisymmetric(key(a), key(b));
    }
  }

  lemma EvidenceOrderIndependent(a: seq<Event>, b: seq<Event>, v: Vocabulary, key: Identity)
    requires Injective(key) && multiset(a) == multiset(b)
    ensures RelevantEvidence(a, v, key) == RelevantEvidence(b, v, key)
  {
    FilterPermutes(a, b, IsRelevant(v));
    var x, y := Filter(a, IsRelevant(v)), Filter(b, IsRelevant(v));
    MapAllPermutes(Normalized, x, y);
    if MapAll(Normalized, x).Some? {
      EvidenceOrdering(key, MapAll(Normalized, x).value);
      SortCanonical(MapAll(Normalized, x).value, MapAll(Normalized, y).value, EvidenceLe(key));
    }
  }

  // ---------------------------------------------------------------- the theorem

  lemma ExecutionOrderIndependent(run: Run, a: seq<Event>, b: seq<Event>, v: Vocabulary)
    requires multiset(a) == multiset(b)
    ensures ExecutionOf(run, a, v) == ExecutionOf(run, b, v)
  {
    SameElements(a, b);
    assert forall accepted :: HasFailure(run, a, accepted) <==> HasFailure(run, b, accepted);
    assert forall kind :: HasEvent(a, kind) <==> HasEvent(b, kind);
    assert NaturalCompletion(a) <==> NaturalCompletion(b);
    hide HasFailure, HasEvent, NaturalCompletion;
  }

  /** Reordering the event list changes neither a disposition, nor the reason, nor the evidence hashed. */
  lemma ReorderingChangesNothing(c: Case, a: seq<Event>, b: seq<Event>, v: Vocabulary, key: Identity)
    requires Injective(key) && multiset(a) == multiset(b)
    ensures Decide(c, a, v) == Decide(c, b, v)
    ensures RelevantEvidence(a, v, key) == RelevantEvidence(b, v, key)
  {
    hide ExecutionOf, VerificationOf, RelevantEvidence;
    EvidenceOrderIndependent(a, b, v, key);
    ExecutionOrderIndependent(c.run, a, b, v);
    VerificationOrderIndependent(c, a, b);
  }

  lemma VerificationOrderIndependent(c: Case, a: seq<Event>, b: seq<Event>)
    requires multiset(a) == multiset(b)
    ensures VerificationOf(c, a) == VerificationOf(c, b)
  {
    SelectionPermutes(a, b, IsCheck);
    ProcessOrderIndependent(a, b, c.operations);
    SameElements(a, b);
    assert forall kind :: HasEvent(a, kind) <==> HasEvent(b, kind);
    hide HasEvent, ProcessConsistent, ResultOf;
    assert Results(c, a) == Results(c, b);
  }
}
