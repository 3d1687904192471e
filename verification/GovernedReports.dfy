/**
 What the governed dispatch protocol tells its callers: when a report is true, what a
 received answer is charged, and when an answer is lost.
 */
module GovernedReports {
  import opened Basics
  import opened GovernedDispatch
  import opened GovernedRuns

  lemma CallerFacts(es: seq<Event>, i: nat)
    requires Exec(INITIAL, es).Some? && i < |Exec(INITIAL, es).value.callers|
    ensures
      var s := Exec(INITIAL, es).value;
      WorldInv(s.world) && CallerInv(s.world, i, s.callers[i])
  {
    hide Next, Exec, SettlerInv, WorldInv, CallerInv;
    ReachableInv(es);
  }

  /** An outcome that says the provider may have been contacted is wrong exactly when the
      reservation was released, and then its caller lost the start transition to that release. */
  lemma PossiblyDispatchedIsTrue(es: seq<Event>, i: nat)
    requires Exec(INITIAL, es).Some? && i < |Exec(INITIAL, es).value.callers|
    requires Exec(INITIAL, es).value.callers[i].pc.Returned?
    requires PossiblyDispatched(Exec(INITIAL, es).value.callers[i].pc.outcome)
    ensures
      var s := Exec(INITIAL, es).value;
      && s.world.reservation.Some?
      && (s.world.winner.None? <==> s.world.reservation.value.phase == Released)
      && (s.world.winner.None? ==>
            s.callers[i].lost && (s.callers[i].pc.outcome.InFlight? || s.callers[i].pc.outcome.Uncertain?))
  {
    hide Next, Exec;
    CallerFacts(es, i);
  }

  predicate IsSafe(n: int) {
    -9007199254740992 < n < 9007199254740992
  }

  predicate IsClaim(position: Option<int>) {
    position.Some? && position.value >= 1 && IsSafe(position.value)
  }

  /** The recovery classifier, case by case: a durable response is reused whatever else is true; without one, a
      started request is bound to a claim or delivery is uncertain; claims that cannot be compared are an
      integrity failure; and of two that can, equal and live is in flight, equal and dead is left to the
      caller, different is uncertain. */
  lemma RecoveryClassified(
    durable: bool, started: bool, startedClaim: Option<int>, currentClaim: Option<int>, live: bool, legacy: bool)
    ensures
      var told := ClassifyRecovery(durable, started, startedClaim, currentClaim, live, legacy);
      var bound := !legacy && startedClaim.Some?;
      var comparable := IsClaim(startedClaim) && currentClaim.Some? && IsSafe(currentClaim.value);
      && (told == Some(ReusedDurableResponse) <==> durable)
      && (told == Some(DeliveryUncertain) <==>
            !durable && started && (!bound || (comparable && startedClaim != currentClaim)))
      && (told == Some(IntegrityFailure) <==> !durable && started && bound && !comparable)
      && (told == Some(RequestInFlight) <==>
            !durable && started && bound && comparable && startedClaim == currentClaim && live)
      && (told == None <==>
            !durable && (!started || (bound && comparable && startedClaim == currentClaim && !live)))
  {
  }

  /** Usage is what the provider reported, when it reported two usable counts, and the maximum otherwise. */
  lemma UsageDerived(report: Option<Report>, input: nat, output: nat)
    ensures DeriveUsage(report) == ProviderReported(input, output) <==>
      report == Some(Report(Some(input), Some(output))) && input < 9007199254740992 && output < 9007199254740992
  {
  }

  /** What a recovering planner is told: a first dispatch is permitted exactly while the reservation is
      open and nothing was ever started; settlement is owed exactly for an unsettled start. */
  lemma PlannerRecoveryIsTrue(es: seq<Event>)
    requires Exec(INITIAL, es).Some?
    ensures
      var w := Exec(INITIAL, es).value.world;
      var told := ClassifyPlanner(w.reservation);
      && (told.mayDispatch <==>
            w.reservation.Some? && w.winner.None? && w.reservation.value.phase != Released)
      && (told.mayDispatch ==> w.sent == [])
      && (told.mustSettle <==> w.winner.Some? && w.settlement.None?)
      && (told.terminal <==> w.winner.None? && !told.mayDispatch)
      && (told.terminal ==> w.sent == [])
  {
    hide Next, Exec, CallerInv, SettlerInv;
    ReachableInv(es);
  }

  /** The caller can tell: the row it re-read after losing is `released` exactly when nothing was
      ever started, and it then reports a request in flight all the same. */
  lemma LoserCanTell(es: seq<Event>, i: nat)
    requires Exec(INITIAL, es).Some? && i < |Exec(INITIAL, es).value.callers|
    requires Exec(INITIAL, es).value.callers[i].pc.Resolve?
    ensures
      var s := Exec(INITIAL, es).value;
      var c := s.callers[i];
      && (s.world.winner.None? <==> c.pc.res.phase == Released)
      && (c.pc.res.phase == Released ==>
            var after := StepObserve(s.world, i, c).caller.pc;
            after == Returned(InFlight) || after == Returned(Uncertain))
  {
    hide Next, Exec;
    CallerFacts(es, i);
  }

  /** A caller that found the request started. Under a live lease it is in flight if and only if a leaf
      started it and no claim was made since; a planner's start, or a claim made since, leaves it
      uncertain. Only a dead lease lets the caller close the books. */
  lemma ObserverVerdict(es: seq<Event>, i: nat)
    requires Exec(INITIAL, es).Some? && i < |Exec(INITIAL, es).value.callers|
    requires Exec(INITIAL, es).value.callers[i].pc.Resolve?
    requires !Exec(INITIAL, es).value.callers[i].lost
    ensures
      var w := Exec(INITIAL, es).value.world;
      var c := Exec(INITIAL, es).value.callers[i];
      var after := StepObserve(w, i, c).caller.pc;
      && w.began.Some?
      && (after == Returned(InFlight) <==> w.live && w.began.value.role == Leaf && !w.began.value.superseded)
      && (after == Returned(Uncertain) <==> w.live && (w.began.value.role == Planner || w.began.value.superseded))
      && (after == CloseObserved(c.pc.res) <==> !w.live)
  {
    hide Next, Exec;
    CallerFacts(es, i);
  }

  /** The winner about to settle: its answer is charged by the provider's own report if and only if the
      row it settles still says `response_persisted` and the report is within what the request was sent
      with, or the report was unusable. A report above that is refused: nothing is charged, and the
      caller throws with the books open. A row that says `settled` was charged at the maximum. */
  lemma ChargedAsReported(es: seq<Event>, i: nat, ch: Choice)
    requires Exec(INITIAL, es).Some? && i < |Exec(INITIAL, es).value.callers|
    requires Exec(INITIAL, es).value.callers[i].pc.Settle?
    ensures
      var w := Exec(INITIAL, es).value.world;
      var c := Exec(INITIAL, es).value.callers[i];
      var earned, t := DeriveUsage(c.pc.report), StepWin(w, i, c, ch);
      var charged := t.world.settlement;
      && w.reservation.Some? && w.reservation.value.bounds == c.pc.res.bounds
      && (charged.Some? && charged.value.usage == earned <==>
            || earned == AuthorizedMaximum
            || (w.reservation.value.phase == Persisted && WithinBounds(earned, c.pc.res.bounds)))
      && (charged.None? <==> w.reservation.value.phase == Persisted && !WithinBounds(earned, c.pc.res.bounds))
      && (charged.None? <==> t.caller.pc == Gone) && (charged.None? ==> t.world == w)
      && (charged.Some? && charged.value.usage != earned ==> charged.value.usage == AuthorizedMaximum)
      && (c.pc.res.phase == Settled ==> w.reservation.value.phase == Settled)
  {
    hide Next, Exec;
    CallerFacts(es, i);
  }

  /** Afterwards: a received answer was charged as reported exactly when the winner was the settler or
      the report was unusable. */
  lemma ReceivedCharge(es: seq<Event>, i: nat)
    requires Exec(INITIAL, es).Some? && i < |Exec(INITIAL, es).value.callers|
    requires Exec(INITIAL, es).value.callers[i].pc.Returned?
    requires Exec(INITIAL, es).value.callers[i].pc.outcome.Received?
    ensures
      var s := Exec(INITIAL, es).value;
      var earned := DeriveUsage(s.callers[i].pc.outcome.report);
      && s.world.settlement.Some?
      && (s.world.settlement.value.usage == earned <==>
            s.world.settlement.value.settler == i || earned == AuthorizedMaximum)
      && (s.world.settlement.value.usage != earned ==> s.world.settlement.value.usage == AuthorizedMaximum)
  {
    hide Next, Exec;
    CallerFacts(es, i);
  }

  /** The winner's answer becomes durable exactly when nobody settled while it was on the wire. */
  lemma AnswerKeptIff(es: seq<Event>, i: nat, ch: Choice)
    requires Exec(INITIAL, es).Some? && i < |Exec(INITIAL, es).value.callers|
    requires Exec(INITIAL, es).value.callers[i].pc.Persist?
    ensures
      var w := Exec(INITIAL, es).value.world;
      var t := StepWin(w, i, Exec(INITIAL, es).value.callers[i], ch);
      && (w.settlement.None? <==> t.world.reservation.Some? && t.world.reservation.value.response.Some?)
      && (w.settlement.Some? <==> t.caller.pc == Gone)
  {
    hide Next, Exec;
    CallerFacts(es, i);
  }

  // ---------------------------------------------------------------- the two reports that mislead

  const BOUNDS := Bounds(100, Some(1000))
  const EASY := Choice(false, true, Failed)
  const NO_KEY := Choice(false, false, Failed)
  const ANSWER := Choice(false, true, Answered("ok", Some(Report(Some(10), Some(5)))))

  lemma {:induction false} ExecFollows(states: seq<State>, es: seq<Event>)
    requires |states| == |es| + 1
    requires forall k :: 0 <= k < |es| ==> Next(states[k], es[k]) == Some(states[k + 1])
    ensures Exec(states[0], es) == Some(states[|es|])
  {
    hide Next;
    if |es| > 0 {
      ExecFollows(states[..|es|], es[..|es| - 1]);
      assert Next(states[|es| - 1], es[|es| - 1]) == Some(states[|es|]);
    }
  }

  /** One or two callers, written out. */
  lemma CallerLists()
    ensures forall a: Caller :: [] + [a] == [a]
    ensures forall a: Caller, b: Caller :: [a] + [b] == [a, b]
    ensures forall a: Caller, x: Caller {:trigger [a][0 := x]} :: [a][0 := x] == [x]
    ensures forall a: Caller, b: Caller, x: Caller {:trigger [a, b][0 := x]} :: [a, b][0 := x] == [x, b]
    ensures forall a: Caller, b: Caller, x: Caller {:trigger [a, b][1 := x]} :: [a, b][1 := x] == [a, x]
  {
  }

  const HELD := EMPTY.(reservation := Some(Reservation(Reserved, "a", BOUNDS, None, None)))
  const GIVEN_BACK := Reservation(Released, "a", BOUNDS, None, None)
  const FREE := EMPTY.(reservation := Some(GIVEN_BACK))
  const NEWCOMER := Caller(Leaf, "a", BOUNDS, Enter, false, false, false, None)
  const BOTH_READY := State(HELD, [NEWCOMER.(pc := Credentials(None)), NEWCOMER.(pc := Credentials(None))])

  /** Two callers reserve together. */
  const BOTH_RESERVE := [
    Arrive(Leaf, "a", BOUNDS), Arrive(Leaf, "a", BOUNDS), Await(0, EASY), Await(1, EASY), Await(0, EASY), Await(1, EASY)]

  /** One lacks a credential and releases; the other loses the start to that release. */
  const LOST_TO_RELEASE := [
    Await(0, NO_KEY), Await(1, EASY), Await(0, EASY), Await(1, EASY), Await(1, EASY), Await(1, EASY)]

  lemma BothReserve()
    ensures Exec(INITIAL, BOTH_RESERVE) == Some(BOTH_READY)
  {
    var a := NEWCOMER;
    var states := [
      INITIAL, State(EMPTY, [a]), State(EMPTY, [a, a]),
      State(EMPTY, [a.(pc := Reserve(None)), a]),
      State(EMPTY, [a.(pc := Reserve(None)), a.(pc := Reserve(None))]),
      State(HELD, [a.(pc := Credentials(None)), a.(pc := Reserve(None))]),
      BOTH_READY];
    CallerLists();
    ExecFollows(states, BOTH_RESERVE);
  }

  const MISLED := State(FREE, [
    NEWCOMER.(pc := Returned(CredentialsUnavailable)),
    NEWCOMER.(pc := Returned(InFlight), lost := true, sawDead := true)])

  lemma LoserIsToldInFlight()
    ensures Exec(BOTH_READY, LOST_TO_RELEASE) == Some(MISLED)
  {
    var a := NEWCOMER;
    var lost := a.(lost := true);
    var released := a.(pc := Returned(CredentialsUnavailable));
    var states := [
      BOTH_READY,
      State(HELD, [a.(pc := Release), a.(pc := Credentials(None))]),
      State(HELD, [a.(pc := Release), a.(pc := Start(None))]),
      State(FREE, [released, a.(pc := Start(None))]),
      State(FREE, [released, lost.(pc := RereadLost)]),
      State(FREE, [released, lost.(pc := Resolve(GIVEN_BACK))]),
      MISLED];
    CallerLists();
    ExecFollows(states, LOST_TO_RELEASE);
  }

  /** The loser of a release is told that a request is in flight although none was ever started. */
  lemma LoserOfAReleaseIsMisled()
    ensures
      var end := Exec(INITIAL, BOTH_RESERVE + LOST_TO_RELEASE);
      && end.Some? && |end.value.callers| == 2
      && end.value.callers[1].pc == Returned(InFlight) && PossiblyDispatched(InFlight)
      && end.value.world.winner.None? && end.value.world.sent == []
  {
    hide Exec, Next;
    BothReserve();
    LoserIsToldInFlight();
    ExecConcat(INITIAL, BOTH_RESERVE, LOST_TO_RELEASE);
  }

  const REPORT := Some(Report(Some(10), Some(5)))
  const ROW := Reservation(Reserved, "a", BOUNDS, None, None)
  const DUPLICATE := Caller(Leaf, "a", BOUNDS, Enter, false, false, false, None)
  const STORED := ROW.(phase := Persisted, response := Some("ok"))
  const DURABLE := EMPTY.(
    reservation := Some(STORED), winner := Some(0), began := Some(Beginning(Leaf, None, false)), sent := [Sending(0, "a")], answer := Some("ok"))

  const STARTED := ROW.(phase := Started)
  const WON := EMPTY.(reservation := Some(STARTED), winner := Some(0), began := Some(Beginning(Leaf, None, false)))
  const WON_STATE := State(WON, [DUPLICATE.(pc := Dispatch(STARTED))])

  const TO_START := [Arrive(Leaf, "a", BOUNDS), Await(0, EASY), Await(0, EASY), Await(0, EASY), Await(0, EASY)]

  lemma WinnerStarts()
    ensures Exec(INITIAL, TO_START) == Some(WON_STATE)
  {
    var held := EMPTY.(reservation := Some(ROW));
    var a := DUPLICATE;
    var states := [
      INITIAL, State(EMPTY, [a]), State(EMPTY, [a.(pc := Reserve(None))]),
      State(held, [a.(pc := Credentials(None))]), State(held, [a.(pc := Start(None))]), WON_STATE];
    CallerLists();
    ExecFollows(states, TO_START);
  }

  const DURABLE_STATE := State(DURABLE, [DUPLICATE.(pc := RereadSettle("ok", REPORT))])
  const TO_DURABLE := [Await(0, ANSWER), Await(0, EASY)]

  lemma AnswerIsDurable()
    ensures Exec(WON_STATE, TO_DURABLE) == Some(DURABLE_STATE)
  {
    var answered := WON.(sent := [Sending(0, "a")], answer := Some("ok"));
    assert [] + [Sending(0, "a")] == [Sending(0, "a")];
    var states := [WON_STATE, State(answered, [DUPLICATE.(pc := Persist("ok", REPORT))]), DURABLE_STATE];
    CallerLists();
    ExecFollows(states, TO_DURABLE);
  }

  /** A duplicate finds the durable answer and settles it; only then does the winner go on. */
  const OVERTAKE := [Arrive(Leaf, "a", BOUNDS), Await(1, EASY), Await(1, EASY), Await(1, EASY)]
  const GO_ON := [Await(0, EASY), Await(0, EASY)]

  const CHARGED := DURABLE.(
    reservation := Some(STORED.(phase := Settled)), settlement := Some(Settlement(1, AuthorizedMaximum, true)))
  const REUSED := DUPLICATE.(pc := Returned(Reused(Some("ok"))))
  const CHARGED_STATE := State(CHARGED, [DUPLICATE.(pc := RereadSettle("ok", REPORT)), REUSED])
  const LATE_STATE := State(CHARGED, [DUPLICATE.(pc := Returned(Received("ok", REPORT))), REUSED])

  lemma ObserverOvertakes()
    ensures Exec(DURABLE_STATE, OVERTAKE) == Some(CHARGED_STATE)
  {
    var a, winner := DUPLICATE, DUPLICATE.(pc := RereadSettle("ok", REPORT));
    var states := [
      DURABLE_STATE, State(DURABLE, [winner, a]), State(DURABLE, [winner, a.(pc := Reserve(None))]),
      State(DURABLE, [winner, a.(pc := Reuse(STORED))]), CHARGED_STATE];
    CallerLists();
    ExecFollows(states, OVERTAKE);
  }

  lemma WinnerComesLate()
    ensures Exec(CHARGED_STATE, GO_ON) == Some(LATE_STATE)
  {
    var states := [
      CHARGED_STATE,
      State(CHARGED, [DUPLICATE.(pc := Settle(STORED.(phase := Settled), "ok", REPORT)), REUSED]), LATE_STATE];
    CallerLists();
    ExecFollows(states, GO_ON);
  }

  /** The provider reported 10 and 5 tokens, the winner received its answer, and the maximum was charged. */
  lemma ObserverDiscardsMeteredUsage()
    ensures
      var end := Exec(INITIAL, TO_START + TO_DURABLE + OVERTAKE + GO_ON);
      && end.Some? && |end.value.callers| == 2
      && end.value.callers[0].pc == Returned(Received("ok", REPORT))
      && DeriveUsage(REPORT) == ProviderReported(10, 5)
      && end.value.world.settlement == Some(Settlement(1, AuthorizedMaximum, true))
  {
    hide Exec, Next;
    WinnerStarts();
    AnswerIsDurable();
    ObserverOvertakes();
    WinnerComesLate();
    ExecConcat(INITIAL, TO_START, TO_DURABLE);
    ExecConcat(INITIAL, TO_START + TO_DURABLE, OVERTAKE);
    ExecConcat(INITIAL, TO_START + TO_DURABLE + OVERTAKE, GO_ON);
  }
}
