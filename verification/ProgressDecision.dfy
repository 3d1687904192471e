/**
 One churn decision over a Run's windows, receipts and captured policy.
 */
module ProgressDecision {
  import opened Basics
  import opened ProgressWindows
  import opened ProgressSignals
  import opened ProgressStreak
  import FactTransitions

  // ---------------------------------------------------------------- the decision

  /** Captured tolerances; every one is a bounded positive integer. */
  datatype Policy = Policy(maxStreak: nat, maxRepeated: nat, maxFailed: nat, maxReversals: nat, maxDurationMs: nat)

  const TOLERANCE_CEILING := 1000
  const DURATION_CEILING_MS := 604800000

  /** `buildProgressControlPolicy`: no tolerance is zero, and none is effectively unbounded. */
  predicate PolicyAccepted(p: Policy) {
    && 1 <= p.maxStreak <= TOLERANCE_CEILING && 1 <= p.maxRepeated <= TOLERANCE_CEILING
    && 1 <= p.maxFailed <= TOLERANCE_CEILING && 1 <= p.maxReversals <= TOLERANCE_CEILING
    && 1 <= p.maxDurationMs <= DURATION_CEILING_MS
  }

  datatype Reason =
    | UndeclaredSiblingDependency | DurationExhausted | RepeatedNoOp | RepeatedFailedOperation
    | MutationReversalChurn | VerifiedProgressExhausted

  datatype Refusal = PolicyMalformed | AccountingConflict

  const MAX_SAFE_INTEGER := 9007199254740991

  /** `elapsedExecutionDurationMs`: a Run never leased has executed for no time. */
  function Elapsed(epoch: Option<int>, evaluatedAt: int): Result<nat, Refusal> {
    if epoch.None? then Ok(0)
    else if 0 <= evaluatedAt - epoch.value <= MAX_SAFE_INTEGER then Ok(evaluatedAt - epoch.value)
    else Err(AccountingConflict)
  }

  /** The observations the decision's signals are read from: those of the latest window. */
  function LatestObservations(inp: Input): seq<Receipt>
    requires Paired(inp)
  {
    if |inp.observed| == 0 then [] else inp.observed[|inp.observed| - 1]
  }

  /** `decideChurn`: the first applicable reason, or continue. */
  function Decide(streak: nat, latest: set<Fact>, signals: Signals, policy: Policy, elapsed: nat, sibling: bool)
    : Option<Reason>
  {
    if sibling then Some(UndeclaredSiblingDependency)
    else if elapsed >= policy.maxDurationMs then Some(DurationExhausted)
    else if latest == {} && signals.repeated > 0 && signals.repeated >= policy.maxRepeated then Some(RepeatedNoOp)
    else if latest == {} && signals.failed >= policy.maxFailed then Some(RepeatedFailedOperation)
    else if latest == {} && signals.reversals >= policy.maxReversals then Some(MutationReversalChurn)
    else if streak >= policy.maxStreak then Some(VerifiedProgressExhausted)
    else None
  }

  /** What an evaluation reads: the windows its reservations open and the receipts each observes. */
  function InputOf(reservations: seq<Reservation>, receipts: seq<Receipt>, claims: Claims, declared: set<Fact>)
    : (inp: Input)
    ensures Paired(inp)
  {
    var windows := WindowsOf(Ordered(reservations));
    Input(windows, Observed(windows, receipts), claims, declared)
  }

  // ---------------------------------------------------------------- what each reason means

  /** The latest window shows no declared fact for the first time. */
  ghost predicate NothingNew(inp: Input)
    requires Paired(inp)
  {
    |inp.observed| == 0 || !Advances(inp, |inp.observed| - 1)
  }

  /** One evaluation of a Run at one instant. */
  datatype Evaluation = Evaluation(inp: Input, policy: Policy, epoch: Option<int>, at: int, sibling: bool)

  /** Every tolerance is between one and a thousand, and the duration between a millisecond and a week. */
  ghost predicate Bounded(p: Policy) {
    && 0 < p.maxStreak < 1001 && 0 < p.maxRepeated < 1001 && 0 < p.maxFailed < 1001 && 0 < p.maxReversals < 1001
    && 0 < p.maxDurationMs <= 7 * 24 * 60 * 60 * 1000
  }

  lemma BoundedMeans(p: Policy)
    ensures Bounded(p) <==> PolicyAccepted(p)
  {
  }

  /** The policy can be used and the clock has not run backwards. */
  ghost predicate Evaluable(e: Evaluation) {
    Bounded(e.policy) && !Conflicting(e)
  }

  predicate Conflicting(e: Evaluation) {
    e.epoch.Some? && !(e.epoch.value <= e.at <= e.epoch.value + MAX_SAFE_INTEGER)
  }

  /** A reason to stop, on the Run's windows and receipts alone. */
  ghost predicate Applies(reason: Reason, e: Evaluation)
    requires Paired(e.inp)
  {
    var latest := LatestObservations(e.inp);
    match reason
    case UndeclaredSiblingDependency => e.sibling
    case DurationExhausted => e.epoch.Some? && e.at - e.epoch.value >= e.policy.maxDurationMs
    case RepeatedNoOp => NothingNew(e.inp) && |RepeatIndices(latest)| >= e.policy.maxRepeated
    case RepeatedFailedOperation => NothingNew(e.inp) && LastFailed(latest, e.policy.maxFailed)
    case MutationReversalChurn => NothingNew(e.inp) && |RevertIndices(latest)| >= e.policy.maxReversals
    case VerifiedProgressExhausted => |ChurnWindows(e.inp, |e.inp.windows|)| >= e.policy.maxStreak
  }

  /** The order in which reasons are reported. */
  predicate Outranks(a: Reason, b: Reason) {
    match b
    case UndeclaredSiblingDependency => false
    case DurationExhausted => a.UndeclaredSiblingDependency?
    case RepeatedNoOp => a.UndeclaredSiblingDependency? || a.DurationExhausted?
    case RepeatedFailedOperation => a.UndeclaredSiblingDependency? || a.DurationExhausted? || a.RepeatedNoOp?
    case MutationReversalChurn => a != MutationReversalChurn && a != VerifiedProgressExhausted
    case VerifiedProgressExhausted => a != VerifiedProgressExhausted
  }

  /** `reason` applies, and nothing that is reported before it does. */
  ghost predicate First(reason: Reason, e: Evaluation)
    requires Paired(e.inp)
  {
    && Applies(reason, e)
    && forall other :: Outranks(other, reason) ==> !Applies(other, e)
  }

  /** `r` reports the first reason that applies, continues when none does, and refuses only a policy
      that cannot be used or a clock that ran backwards. */
  ghost predicate Reports(e: Evaluation, r: Result<Option<Reason>, Refusal>)
    requires Paired(e.inp)
  {
    match r
    case Err(PolicyMalformed) => !Bounded(e.policy)
    case Err(AccountingConflict) => Bounded(e.policy) && Conflicting(e)
    case Ok(Some(reason)) => Evaluable(e) && First(reason, e)
    case Ok(None) => Evaluable(e) && forall reason :: !Applies(reason, e)
  }

  /** What was measured is what the reasons are about. */
  ghost predicate Measured(inp: Input, streak: nat, latest: set<Fact>, signals: Signals)
    requires Paired(inp)
  {
    streak == Streak(inp, |inp.windows|) && latest == LatestVerified(inp) && Counted(LatestObservations(inp), signals)
  }

  lemma NothingNewMeans(inp: Input)
    requires Paired(inp)
    ensures NothingNew(inp) <==> LatestVerified(inp) == {}
  {
    hide Advances, VerifiedFacts, SatisfiedBy;
    if |inp.windows| > 0 { ProgressedMeans(inp, |inp.windows| - 1); }
  }

  lemma ReasonsMeasured(e: Evaluation, streak: nat, latest: set<Fact>, signals: Signals)
    requires Paired(e.inp) && PolicyAccepted(e.policy) && Measured(e.inp, streak, latest, signals)
    ensures Applies(RepeatedNoOp, e) <==> latest == {} && signals.repeated > 0 && signals.repeated >= e.policy.maxRepeated
    ensures Applies(RepeatedFailedOperation, e) <==> latest == {} && signals.failed >= e.policy.maxFailed
    ensures Applies(MutationReversalChurn, e) <==> latest == {} && signals.reversals >= e.policy.maxReversals
    ensures Applies(VerifiedProgressExhausted, e) <==> streak >= e.policy.maxStreak
  {
    hide NothingNew, Streak, LatestVerified, ChurnWindows, RepeatIndices, RevertIndices, LastFailed;
    StreakCounts(e.inp, |e.inp.windows|);
    NothingNewMeans(e.inp);
    FailedBelow(LatestObservations(e.inp), signals.failed, e.policy.maxFailed);
  }

  lemma FirstMeans(reason: Reason, e: Evaluation)
    requires Paired(e.inp)
    ensures
      var sibling, duration, repeated := Applies(UndeclaredSiblingDependency, e), Applies(DurationExhausted, e), Applies(RepeatedNoOp, e);
      var failed, reverted, exhausted :=
        Applies(RepeatedFailedOperation, e), Applies(MutationReversalChurn, e), Applies(VerifiedProgressExhausted, e);
      First(reason, e) <==>
        match reason
        case UndeclaredSiblingDependency => sibling
        case DurationExhausted => duration && !sibling
        case RepeatedNoOp => repeated && !sibling && !duration
        case RepeatedFailedOperation => failed && !sibling && !duration && !repeated
        case MutationReversalChurn => reverted && !sibling && !duration && !repeated && !failed
        case VerifiedProgressExhausted => exhausted && !sibling && !duration && !repeated && !failed && !reverted
  {
    hide Applies;
    assert reason.DurationExhausted? ==> Outranks(UndeclaredSiblingDependency, reason);
  }

  /** Taking the rules in order is taking the first reason that applies. */
  lemma DecideIsFirst(
    e: Evaluation, streak: nat, latest: set<Fact>, signals: Signals, policy: Policy, elapsed: nat, reason: Reason)
    requires Paired(e.inp)
    requires Applies(UndeclaredSiblingDependency, e) <==> e.sibling
    requires Applies(DurationExhausted, e) <==> elapsed >= policy.maxDurationMs
    requires Applies(RepeatedNoOp, e) <==> latest == {} && signals.repeated > 0 && signals.repeated >= policy.maxRepeated
    requires Applies(RepeatedFailedOperation, e) <==> latest == {} && signals.failed >= policy.maxFailed
    requires Applies(MutationReversalChurn, e) <==> latest == {} && signals.reversals >= policy.maxReversals
    requires Applies(VerifiedProgressExhausted, e) <==> streak >= policy.maxStreak
    ensures Decide(streak, latest, signals, policy, elapsed, e.sibling) == Some(reason) <==> First(reason, e)
    ensures Decide(streak, latest, signals, policy, elapsed, e.sibling) == None ==> !Applies(reason, e)
  {
    hide Applies, First;
    FirstMeans(reason, e);
  }

  /** The decision reports exactly the first reason that applies. */
  lemma DecideReports(e: Evaluation, streak: nat, latest: set<Fact>, signals: Signals)
    requires Paired(e.inp) && PolicyAccepted(e.policy) && Measured(e.inp, streak, latest, signals)
    requires Elapsed(e.epoch, e.at).Ok?
    ensures Reports(e, Ok(Decide(streak, latest, signals, e.policy, Elapsed(e.epoch, e.at).value, e.sibling)))
  {
    ReasonsMeasured(e, streak, latest, signals);
    var elapsed := Elapsed(e.epoch, e.at).value;
    assert Applies(DurationExhausted, e) <==> elapsed >= e.policy.maxDurationMs;
    assert Applies(UndeclaredSiblingDependency, e) <==> e.sibling;
    assert !Conflicting(e);
    BoundedMeans(e.policy);
    hide Applies, Measured, Elapsed, First, Conflicting, PolicyAccepted, Bounded, Decide;
    var r := Decide(streak, latest, signals, e.policy, elapsed, e.sibling);
    if r.Some? {
      DecideIsFirst(e, streak, latest, signals, e.policy, elapsed, r.value);
    } else {
      forall reason ensures !Applies(reason, e) {
        DecideIsFirst(e, streak, latest, signals, e.policy, elapsed, reason);
      }
    }
  }

  /** `evaluateGovernedRunProgress`. */
  method Evaluate(
    reservations: seq<Reservation>, receipts: seq<Receipt>, claims: Claims, declared: set<Fact>,
    policy: Policy, epoch: Option<int>, evaluatedAt: int, sibling: bool)
    returns (r: Result<Option<Reason>, Refusal>)
    ensures Reports(Evaluation(InputOf(reservations, receipts, claims, declared), policy, epoch, evaluatedAt, sibling), r)
  {
    ghost var e := Evaluation(InputOf(reservations, receipts, claims, declared), policy, epoch, evaluatedAt, sibling);
    BoundedMeans(policy);
    hide Bounded;
    if !PolicyAccepted(policy) { return Err(PolicyMalformed); }
    var elapsed := Elapsed(epoch, evaluatedAt);
    if elapsed.Err? { return Err(elapsed.error); }
    var windows, observed, _ := Partition(reservations, receipts);
    var input := Input(windows, observed, claims, declared);
    assert input == e.inp;
    var streak, latest := Replay(input);
    var signals := DetectSignals(LatestObservations(input));
    DecideReports(e, streak, latest, signals);
    hide Reports;
    return Ok(Decide(streak, latest, signals, policy, elapsed.value, sibling));
  }

  lemma FirstIsOne(a: Reason, b: Reason, e: Evaluation)
    requires Paired(e.inp) && First(a, e) && First(b, e)
    ensures a == b
  {
    hide Applies, First;
    FirstMeans(a, e);
    FirstMeans(b, e);
  }

  /** So each report is made if and only if its condition holds: no two reports fit the same facts. */
  lemma ReportsOnce(e: Evaluation, a: Result<Option<Reason>, Refusal>, b: Result<Option<Reason>, Refusal>)
    requires Paired(e.inp) && Reports(e, a) && Reports(e, b)
    ensures a == b
  {
    hide Applies, Conflicting, Bounded, Outranks;
    if a.Ok? && a.value.Some? && b.Ok? && b.value.Some? { FirstIsOne(a.value.value, b.value.value, e); }
  }

  /** No policy stops a Run that has done nothing yet. */
  lemma FreshRunContinues(e: Evaluation)
    requires e.inp.windows == [] && e.inp.observed == [] && e.epoch.None? && !e.sibling && Bounded(e.policy)
    ensures Reports(e, Ok(None))
  {
    assert LatestObservations(e.inp) == [];
    assert ChurnWindows(e.inp, 0) == {} && RepeatIndices([]) == {} && RevertIndices([]) == {};
    hide ChurnWindows, RepeatIndices, RevertIndices;
  }

  /** There is one instant, fixed by epoch and policy: before it no evaluation stops for duration, and
      from it on every evaluation that can be made is blocked, whatever progress, receipts or recoveries
      lie in between. In particular the first duration stop is the last word. */
  lemma DurationAbsorbs(first: Evaluation, later: Evaluation, one: Result<Option<Reason>, Refusal>,
                        two: Result<Option<Reason>, Refusal>)
    requires Paired(first.inp) && Paired(later.inp) && Reports(first, one) && Reports(later, two)
    requires first.epoch.Some? && later.epoch == first.epoch && later.policy == first.policy && first.at <= later.at
    ensures one == Ok(Some(DurationExhausted)) <==>
      && Bounded(first.policy) && !first.sibling
      && first.epoch.value + first.policy.maxDurationMs <= first.at <= first.epoch.value + MAX_SAFE_INTEGER
    ensures one == Ok(Some(DurationExhausted)) && two.Ok? ==>
      two.value == Some(if later.sibling then UndeclaredSiblingDependency else DurationExhausted)
  {
    assert Applies(UndeclaredSiblingDependency, first) <==> first.sibling;
    assert Applies(UndeclaredSiblingDependency, later) <==> later.sibling;
    assert Applies(DurationExhausted, first) <==> first.at - first.epoch.value >= first.policy.maxDurationMs;
    assert Applies(DurationExhausted, later) <==> later.at - later.epoch.value >= later.policy.maxDurationMs;
    hide Applies, First;
    FirstMeans(DurationExhausted, first);
    FirstMeans(DurationExhausted, later);
    FirstMeans(UndeclaredSiblingDependency, later);
  }

  // ---------------------------------------------------------------- where credit meets receipts

  /** A fact credited to a batch counts in a window if and only if the receipt its batch is anchored on
      is in that window and usable: neither failed, nor refused, nor an inspection. */
  lemma CreditCountsIff(
    t: FactTransitions.Transitions, eligible: seq<Fact>, rows: seq<FactTransitions.Row>, step: nat,
    observations: seq<Receipt>, declared: set<Fact>, satisfied: set<Fact>, f: Fact)
    requires FactTransitions.Faithful(t, eligible, rows)
    requires f in eligible && FactTransitions.CreditedIn(rows, f, step) && f in declared && f !in satisfied
    ensures f in VerifiedFacts(observations, t.byReceipt, declared, satisfied) <==>
      exists k :: 0 <= k < |observations| && Usable(observations[k])
        && FactTransitions.AnchorAt(rows, eligible, step) == Some(observations[k].id)
  {
    forall id: nat
      ensures FactTransitions.Anchored(t.windows, id, f) <==>
        FactTransitions.AnchorAt(rows, eligible, step) == Some(id)
    {
      AnchoredIff(t, eligible, rows, step, id, f);
    }
    hide FactTransitions.Anchored, FactTransitions.AnchorAt, FactTransitions.CreditedIn;
    forall k | 0 <= k < |observations|
      ensures f in ClaimedBy(observations[k], t.byReceipt) <==>
        Usable(observations[k]) && FactTransitions.AnchorAt(rows, eligible, step) == Some(observations[k].id) {}
    hide FactTransitions.Faithful;
  }

  lemma AnchoredIff(
    t: FactTransitions.Transitions, eligible: seq<Fact>, rows: seq<FactTransitions.Row>, step: nat, id: nat, f: Fact)
    requires FactTransitions.Faithful(t, eligible, rows)
    requires f in eligible && FactTransitions.CreditedIn(rows, f, step)
    ensures FactTransitions.Anchored(t.windows, id, f) <==>
      FactTransitions.AnchorAt(rows, eligible, step) == Some(id)
  {
    var i := FactTransitions.WindowOfReading(t, eligible, rows, f, step);
    hide FactTransitions.AnchorAt;
    assert t.windows[i] == FactTransitions.WindowAt(rows, eligible, step);
    if FactTransitions.Anchored(t.windows, id, f) {
      var j :| 0 <= j < |t.windows| && t.windows[j].through == Some(id) && f in t.windows[j].newly;
      assert t.windows[j] == FactTransitions.WindowAt(rows, eligible, t.windows[j].step);
      FactTransitions.CreditedOnce(rows, f, step, t.windows[j].step);
    }
  }

  /** A batch writes its file, then has one operation refused: the fact it satisfied is anchored on the
      refused receipt, so the window that earned the credit is counted as churn. */
  lemma RefusedAnchorHidesCredit(t: FactTransitions.Transitions)
    requires FactTransitions.Faithful(t, ["f"], [
      FactTransitions.Row(1, None, "f", FactTransitions.Baseline, FactTransitions.Verdict(false, None), 1),
      FactTransitions.Row(1, None, "f", FactTransitions.PostBatch(3, 3), FactTransitions.Verdict(true, Some(7)), 2)])
    ensures "f" in t.creditedAt && t.creditedAt["f"] == 3
    ensures
      var written := Receipt(6, Some(10), Succeeded, false, Some("a"), Some("x"));
      var refused := Receipt(7, Some(11), Refused, false, None, None);
      Streak(Input([Window(1, true, Some(true), 0, None)], [[written, refused]], t.byReceipt, {"f"}), 1) == 1
  {
    var rows := [
      FactTransitions.Row(1, None, "f", FactTransitions.Baseline, FactTransitions.Verdict(false, None), 1),
      FactTransitions.Row(1, None, "f", FactTransitions.PostBatch(3, 3), FactTransitions.Verdict(true, Some(7)), 2)];
    assert rows[0] in rows && rows[1] in rows;
    assert FactTransitions.IsReading(rows[1], 3, "f", true);
    assert FactTransitions.CreditedIn(rows, "f", 3);
    assert FactTransitions.LastReading(rows, 3, "f") == Some(rows[1]);
    assert FactTransitions.AnchorAt(rows, ["f"], 3) == Some(7) by { assert ["f"][0] == "f"; }
    var written := Receipt(6, Some(10), Succeeded, false, Some("a"), Some("x"));
    var refused := Receipt(7, Some(11), Refused, false, None, None);
    var inp := Input([Window(1, true, Some(true), 0, None)], [[written, refused]], t.byReceipt, {"f"});
    CreditCountsIff(t, ["f"], rows, 3, [written, refused], {"f"}, {}, "f");
    hide FactTransitions.Faithful, FactTransitions.LastReading, FactTransitions.AnchorAt, FactTransitions.CreditedIn;
    assert VerifiedFacts(inp.observed[0], inp.claims, inp.declared, SatisfiedBy(inp, 0)) == {};
    assert !Progressed(inp, 0);
    assert Streak(inp, 0) == 0;
  }
}
