/**
 What a caller is told follows from what it was given: its reservation's answer, its credential and the
 transport's reply, read await by await.
 */
module GovernedSessions {
  import opened Basics
  import opened GovernedDispatch
  import opened GovernedRuns
  import opened GovernedReports

  /** The inputs of caller `i`'s awaits, in order. */
  function Choices(es: seq<Event>, i: nat): seq<Choice> {
    if |es| == 0 then []
    else
      var last := es[|es| - 1];
      Choices(es[..|es| - 1], i) + if last.Await? && last.i == i then [last.choice] else []
  }

  lemma ChoicesExtend(es: seq<Event>, e: Event, i: nat)
    ensures Choices(es + [e], i) == Choices(es, i) + if e.Await? && e.i == i then [e.choice] else []
  {
    assert (es + [e])[..|es|] == es;
  }

  /** Admitted: the reservation was not refused. */
  predicate Admitted(c: seq<Choice>) {
    |c| >= 2 && !c[1].refused
  }

  /** Admitted with a credential in hand. */
  predicate Equipped(c: seq<Choice>) {
    Admitted(c) && |c| >= 3 && c[2].credentials
  }

  /** The transport answered exactly this. */
  predicate Heard(c: seq<Choice>, response: string, report: Option<Report>) {
    Equipped(c) && |c| >= 5 && c[4].reply == Answered(response, report)
  }

  predicate Failing(c: seq<Choice>) {
    Equipped(c) && |c| >= 5 && c[4].reply.Failed?
  }

  /** What an outcome claims about the inputs its caller read. */
  predicate Told(o: Outcome, c: seq<Choice>) {
    match o
    case Received(response, report) => Heard(c, response, report)
    case DispatchFailed => Failing(c)
    case CredentialsUnavailable => Admitted(c) && |c| >= 3 && !c[2].credentials
    case StartLost => Equipped(c)
    case ReservationRefused => |c| >= 2
    case _ => Admitted(c)
  }

  predicate Stands(pc: PC, c: seq<Choice>) {
    match pc
    case Enter => |c| == 0
    case Reserve(_) => |c| == 1
    case Credentials(_) => |c| == 2 && Admitted(c)
    case Release => |c| == 3 && Admitted(c) && !c[2].credentials
    case Start(_) => |c| == 3 && Equipped(c)
    case Dispatch(_) => |c| == 4 && Equipped(c)
    case RereadLost => Equipped(c)
    case CloseFailed(_) => Failing(c)
    case Persist(response, report) => Heard(c, response, report)
    case RereadSettle(response, report) => Heard(c, response, report)
    case Settle(_, response, report) => Heard(c, response, report)
    case Returned(o) => Told(o, c)
    case Gone => true
    case _ => Admitted(c)
  }

  lemma OpeningStands(w: World, i: nat, caller: Caller, ch: Choice, c: seq<Choice>)
    requires Stands(caller.pc, c) && Opening(caller.pc)
    ensures Stands(StepOpen(w, i, caller, ch).caller.pc, c + [ch])
  {
    hide StaleClaim, StartWon;
  }

  /** More inputs later contradict nothing. */
  lemma AdmittedStays(c: seq<Choice>, ch: Choice)
    ensures Admitted(c) ==> Admitted(c + [ch])
    ensures Equipped(c) ==> Equipped(c + [ch])
    ensures Failing(c) ==> Failing(c + [ch])
    ensures forall response, report :: Heard(c, response, report) ==> Heard(c + [ch], response, report)
  {
  }

  lemma ObservingStands(w: World, i: nat, caller: Caller, ch: Choice, c: seq<Choice>)
    requires Stands(caller.pc, c) && Observing(caller.pc)
    ensures Stands(StepObserve(w, i, caller).caller.pc, c + [ch])
  {
    AdmittedStays(c, ch);
    assert Equipped(c) ==> Admitted(c);
    hide ClassifyRecovery, MaySettle, UsageFor, Admitted, Equipped, Failing, Heard;
  }

  lemma DispatchStands(w: World, i: nat, caller: Caller, ch: Choice, c: seq<Choice>)
    requires Stands(caller.pc, c) && caller.pc.Dispatch?
    ensures Stands(StepWin(w, i, caller, ch).caller.pc, c + [ch])
  {
  }

  lemma PersistStands(w: World, i: nat, caller: Caller, ch: Choice, c: seq<Choice>)
    requires Stands(caller.pc, c) && (caller.pc.Persist? || caller.pc.RereadSettle?)
    ensures Stands(StepWin(w, i, caller, ch).caller.pc, c + [ch])
  {
    AdmittedStays(c, ch);
    hide MaySettle, UsageFor, Admitted, Equipped, Failing, Heard;
  }

  lemma SettlingStands(w: World, i: nat, caller: Caller, ch: Choice, c: seq<Choice>)
    requires Stands(caller.pc, c) && (caller.pc.CloseFailed? || caller.pc.Settle?)
    ensures Stands(StepWin(w, i, caller, ch).caller.pc, c + [ch])
  {
    AdmittedStays(c, ch);
    hide MaySettle, UsageFor, Admitted, Equipped, Failing, Heard;
  }

  lemma FinishedStands(w: World, i: nat, caller: Caller, ch: Choice, c: seq<Choice>)
    requires Stands(caller.pc, c) && (caller.pc.Returned? || caller.pc.Gone?)
    ensures Stands(StepWin(w, i, caller, ch).caller.pc, c + [ch])
  {
    if caller.pc.Returned? { ToldStays(caller.pc.outcome, c, ch); }
    hide Told;
  }

  lemma ToldStays(o: Outcome, c: seq<Choice>, ch: Choice)
    requires Told(o, c)
    ensures Told(o, c + [ch])
  {
  }

  lemma StepStands(w: World, i: nat, caller: Caller, ch: Choice, c: seq<Choice>)
    requires Stands(caller.pc, c)
    ensures Stands(StepCaller(w, i, caller, ch).caller.pc, c + [ch])
  {
    hide Stands, StepOpen, StepObserve, StepWin;
    if Opening(caller.pc) { OpeningStands(w, i, caller, ch, c); }
    else if Observing(caller.pc) { ObservingStands(w, i, caller, ch, c); }
    else if caller.pc.Dispatch? { DispatchStands(w, i, caller, ch, c); }
    else if caller.pc.Persist? || caller.pc.RereadSettle? { PersistStands(w, i, caller, ch, c); }
    else if caller.pc.CloseFailed? || caller.pc.Settle? { SettlingStands(w, i, caller, ch, c); }
    else { FinishedStands(w, i, caller, ch, c); }
  }

  /** Every caller stands where its inputs put it. */
  predicate AllStand(s: State, es: seq<Event>) {
    forall i :: 0 <= i < |s.callers| ==> Stands(s.callers[i].pc, Choices(es, i))
  }

  /** No caller awaits before it arrives. */
  ghost predicate NoneEarly(s: State, es: seq<Event>) {
    forall i: nat :: |s.callers| <= i ==> Choices(es, i) == []
  }

  lemma ChoicesKept(es: seq<Event>, e: Event, i: nat)
    requires !(e.Await? && e.i == i)
    ensures Choices(es + [e], i) == Choices(es, i)
  {
    ChoicesExtend(es, e, i);
  }

  lemma NextStands(s: State, es: seq<Event>, e: Event)
    requires AllStand(s, es) && NoneEarly(s, es) && Next(s, e).Some?
    ensures AllStand(Next(s, e).value, es + [e]) && NoneEarly(Next(s, e).value, es + [e])
  {
    hide Choices, Stands, StepCaller, Claimed;
    var t := Next(s, e).value;
    forall i: nat ensures !(e.Await? && e.i == i) ==> Choices(es + [e], i) == Choices(es, i) {
      if !(e.Await? && e.i == i) { ChoicesKept(es, e, i); }
    }
    if e.Await? {
      ChoicesExtend(es, e, e.i);
      StepStands(s.world, e.i, s.callers[e.i], e.choice, Choices(es, e.i));
    } else if e.Crash? {
      GoneStands(Choices(es, e.i));
    } else if e.Arrive? {
      EnterStands(Choices(es, |s.callers|));
    }
  }

  lemma GoneStands(c: seq<Choice>)
    ensures Stands(Gone, c)
  {
  }

  lemma EnterStands(c: seq<Choice>)
    requires c == []
    ensures Stands(Enter, c)
  {
  }

  lemma {:induction false} RunStands(es: seq<Event>)
    requires Exec(INITIAL, es).Some?
    ensures AllStand(Exec(INITIAL, es).value, es) && NoneEarly(Exec(INITIAL, es).value, es)
  {
    if |es| > 0 {
      var front := es[..|es| - 1];
      RunStands(front);
      hide AllStand, NoneEarly, Next;
      assert es == front + [es[|es| - 1]];
      NextStands(Exec(INITIAL, front).value, front, es[|es| - 1]);
    }
  }

  /** In every run every outcome is what its caller's inputs justify: a received answer and its report are
      the transport's own, a failed dispatch failed, an unavailable credential was missing, and only an
      equipped caller was ever able to send. */
  lemma OutcomesFollowInputs(es: seq<Event>, i: nat)
    requires Exec(INITIAL, es).Some? && i < |Exec(INITIAL, es).value.callers|
    ensures
      var s, c := Exec(INITIAL, es).value, Choices(es, i);
      && (s.callers[i].pc.Returned? ==> Told(s.callers[i].pc.outcome, c))
      && (s.callers[i].pc.Dispatch? ==> Equipped(c))
  {
    hide Exec, Next, Choices;
    RunStands(es);
    var s := Exec(INITIAL, es).value;
    assert Stands(s.callers[i].pc, Choices(es, i));
  }

  // ---------------------------------------------------------------- undisturbed

  /** The caller as it arrives, the claim it reads on entry, and the worlds of its undisturbed request. */
  function Newcomer(role: Role, body: string, bounds: Bounds): Caller {
    Caller(role, body, bounds, Enter, false, false, false, None)
  }

  function Read(role: Role, claim: Option<nat>): Option<nat> {
    if role == Leaf then claim else None
  }

  function Entered(role: Role, body: string, bounds: Bounds, claim: Option<nat>): Caller {
    Newcomer(role, body, bounds).(entered := Read(role, claim))
  }

  /** A world in which nothing but claims has happened yet. */
  function Quiet(claim: Option<nat>, live: bool): World {
    EMPTY.(claim := claim, live := live)
  }

  function StartedRow(role: Role, body: string, bounds: Bounds, claim: Option<nat>): Reservation {
    Reservation(Started, body, bounds, Read(role, claim), None)
  }

  function HeldWorld(body: string, bounds: Bounds, claim: Option<nat>, live: bool): World {
    Quiet(claim, live).(reservation := Some(Reservation(Reserved, body, bounds, None, None)))
  }

  function WonWorld(role: Role, body: string, bounds: Bounds, claim: Option<nat>, live: bool): World {
    Quiet(claim, live).(
      reservation := Some(StartedRow(role, body, bounds, claim)), winner := Some(0),
      began := Some(Beginning(role, claim, false)))
  }

  lemma UndisturbedReserves(role: Role, body: string, bounds: Bounds, claim: Option<nat>, live: bool, reply: TransportReply)
    ensures
      var go := Await(0, Choice(false, true, reply));
      Exec(State(Quiet(claim, live), []), [Arrive(role, body, bounds), go, go, go]) ==
        Some(State(HeldWorld(body, bounds, claim, live),
                   [Entered(role, body, bounds, claim).(pc := Start(Read(role, claim)))]))
  {
    var go, quiet, held := Await(0, Choice(false, true, reply)), Quiet(claim, live), HeldWorld(body, bounds, claim, live);
    var a, b, read := Newcomer(role, body, bounds), Entered(role, body, bounds, claim), Read(role, claim);
    CallerLists();
    var states := [
      State(quiet, []), State(quiet, [a]), State(quiet, [b.(pc := Reserve(read))]),
      State(held, [b.(pc := Credentials(read))]), State(held, [b.(pc := Start(read))])];
    ExecFollows(states, [Arrive(role, body, bounds), go, go, go]);
  }

  lemma UndisturbedStarts(role: Role, body: string, bounds: Bounds, claim: Option<nat>, live: bool, reply: TransportReply)
    ensures
      var go, b := Await(0, Choice(false, true, reply)), Entered(role, body, bounds, claim);
      Exec(State(HeldWorld(body, bounds, claim, live), [b.(pc := Start(Read(role, claim)))]), [go]) ==
        Some(State(WonWorld(role, body, bounds, claim, live), [b.(pc := Dispatch(StartedRow(role, body, bounds, claim)))]))
  {
    var go, b := Await(0, Choice(false, true, reply)), Entered(role, body, bounds, claim);
    CallerLists();
    var states := [
      State(HeldWorld(body, bounds, claim, live), [b.(pc := Start(Read(role, claim)))]),
      State(WonWorld(role, body, bounds, claim, live), [b.(pc := Dispatch(StartedRow(role, body, bounds, claim)))])];
    ExecFollows(states, [go]);
  }

  function AnsweredWorld(role: Role, body: string, bounds: Bounds, claim: Option<nat>, live: bool, response: string): World {
    WonWorld(role, body, bounds, claim, live).(
      reservation := Some(StartedRow(role, body, bounds, claim).(phase := Persisted, response := Some(response))),
      sent := [Sending(0, body)], answer := Some(response))
  }

  function SentWorld(role: Role, body: string, bounds: Bounds, claim: Option<nat>, live: bool, response: string): World {
    WonWorld(role, body, bounds, claim, live).(sent := [Sending(0, body)], answer := Some(response))
  }

  lemma UndisturbedSends(
    role: Role, body: string, bounds: Bounds, claim: Option<nat>, live: bool, response: string, report: Option<Report>)
    requires body != ""
    ensures
      var go, b := Await(0, Choice(false, true, Answered(response, report))), Entered(role, body, bounds, claim);
      Next(State(WonWorld(role, body, bounds, claim, live), [b.(pc := Dispatch(StartedRow(role, body, bounds, claim)))]), go) ==
        Some(State(SentWorld(role, body, bounds, claim, live, response), [b.(pc := Persist(response, report))]))
  {
    assert [] + [Sending(0, body)] == [Sending(0, body)];
    CallerLists();
  }

  lemma UndisturbedPersists(
    role: Role, body: string, bounds: Bounds, claim: Option<nat>, live: bool, response: string, report: Option<Report>)
    ensures
      var go, b := Await(0, Choice(false, true, Answered(response, report))), Entered(role, body, bounds, claim);
      Next(State(SentWorld(role, body, bounds, claim, live, response), [b.(pc := Persist(response, report))]), go) ==
        Some(State(AnsweredWorld(role, body, bounds, claim, live, response), [b.(pc := RereadSettle(response, report))]))
  {
    CallerLists();
  }

  lemma UndisturbedAnswer(
    role: Role, body: string, bounds: Bounds, claim: Option<nat>, live: bool, response: string, report: Option<Report>)
    requires body != ""
    ensures
      var go, b := Await(0, Choice(false, true, Answered(response, report))), Entered(role, body, bounds, claim);
      Exec(State(WonWorld(role, body, bounds, claim, live), [b.(pc := Dispatch(StartedRow(role, body, bounds, claim)))]), [go, go]) ==
        Some(State(AnsweredWorld(role, body, bounds, claim, live, response), [b.(pc := RereadSettle(response, report))]))
  {
    hide Next, WonWorld, SentWorld, AnsweredWorld;
    var go, b := Await(0, Choice(false, true, Answered(response, report))), Entered(role, body, bounds, claim);
    UndisturbedSends(role, body, bounds, claim, live, response, report);
    UndisturbedPersists(role, body, bounds, claim, live, response, report);
    var states := [
      State(WonWorld(role, body, bounds, claim, live), [b.(pc := Dispatch(StartedRow(role, body, bounds, claim)))]),
      State(SentWorld(role, body, bounds, claim, live, response), [b.(pc := Persist(response, report))]),
      State(AnsweredWorld(role, body, bounds, claim, live, response), [b.(pc := RereadSettle(response, report))])];
    ExecFollows(states, [go, go]);
  }

  lemma UndisturbedSettles(
    role: Role, body: string, bounds: Bounds, claim: Option<nat>, live: bool, response: string, report: Option<Report>)
    requires WithinBounds(DeriveUsage(report), bounds)
    ensures
      var go, b := Await(0, Choice(false, true, Answered(response, report))), Entered(role, body, bounds, claim);
      var durable := AnsweredWorld(role, body, bounds, claim, live, response);
      Exec(State(durable, [b.(pc := RereadSettle(response, report))]), [go, go]) ==
        Some(State(SettledBy(durable, 0, DeriveUsage(report)), [b.(pc := Returned(Received(response, report)))]))
  {
    hide DeriveUsage, WithinBounds;
    var go, b := Await(0, Choice(false, true, Answered(response, report))), Entered(role, body, bounds, claim);
    var durable := AnsweredWorld(role, body, bounds, claim, live, response);
    CallerLists();
    var states := [
      State(durable, [b.(pc := RereadSettle(response, report))]),
      State(durable, [b.(pc := Settle(durable.reservation.value, response, report))]),
      State(SettledBy(durable, 0, DeriveUsage(report)), [b.(pc := Returned(Received(response, report)))])];
    ExecFollows(states, [go, go]);
  }

  /** A request is sent, answered and settled by one undisturbed caller, leaf or planner, under any claim and
      lease: the bytes it brought, the answer the transport gave, the charge the provider reported, and for
      a leaf the claim in force. */
  lemma UndisturbedReceives(
    role: Role, body: string, bounds: Bounds, claim: Option<nat>, live: bool, response: string, report: Option<Report>)
    requires body != "" && WithinBounds(DeriveUsage(report), bounds)
    ensures
      var go := Await(0, Choice(false, true, Answered(response, report)));
      var end := Exec(State(Quiet(claim, live), []),
        [Arrive(role, body, bounds), go, go, go] + [go] + [go, go] + [go, go]);
      && end.Some? && |end.value.callers| == 1
      && end.value.callers[0].pc == Returned(Received(response, report))
      && end.value.world.sent == [Sending(0, body)] && end.value.world.answer == Some(response)
      && end.value.world.settlement == Some(Settlement(0, DeriveUsage(report), true))
      && end.value.world.reservation.Some?
      && end.value.world.reservation.value.startedClaim == (if role == Leaf then claim else None)
  {
    hide Exec, DeriveUsage, WithinBounds;
    var quiet, reply := State(Quiet(claim, live), []), Answered(response, report);
    var go := Await(0, Choice(false, true, reply));
    var first := [Arrive(role, body, bounds), go, go, go];
    UndisturbedReserves(role, body, bounds, claim, live, reply);
    UndisturbedStarts(role, body, bounds, claim, live, reply);
    UndisturbedAnswer(role, body, bounds, claim, live, response, report);
    UndisturbedSettles(role, body, bounds, claim, live, response, report);
    ExecConcat(quiet, first, [go]);
    ExecConcat(quiet, first + [go], [go, go]);
    ExecConcat(quiet, first + [go] + [go, go], [go, go]);
  }

  /** A leaf whose claim is superseded before its start is refused, and nothing is sent. */
  lemma SupersededNeverStarts(body: string, bounds: Bounds, claim: nat, newer: nat, live: bool, reply: TransportReply)
    requires claim < newer <= MAX_SAFE_INTEGER
    ensures
      var go := Await(0, Choice(false, true, reply));
      var end := Exec(State(Quiet(Some(claim), live), []),
        [Arrive(Leaf, body, bounds), go, go, go] + [Claim(newer), go]);
      && end.Some? && |end.value.callers| == 1 && end.value.callers[0].pc == Returned(ReservationRefused)
      && end.value.world.winner.None? && end.value.world.sent == [] && end.value.world.live
      && end.value.world.reservation.Some? && end.value.world.reservation.value.phase == Reserved
  {
    var go, b := Await(0, Choice(false, true, reply)), Entered(Leaf, body, bounds, Some(claim));
    var first := [Arrive(Leaf, body, bounds), go, go, go];
    UndisturbedReserves(Leaf, body, bounds, Some(claim), live, reply);
    var held := HeldWorld(body, bounds, Some(claim), live);
    CallerLists();
    var states := [
      State(held, [b.(pc := Start(Some(claim)))]), State(Claimed(held, newer), [b.(pc := Start(Some(claim)))]),
      State(Claimed(held, newer), [b.(pc := Returned(ReservationRefused))])];
    ExecFollows(states, [Claim(newer), go]);
    hide Exec;
    ExecConcat(State(Quiet(Some(claim), live), []), first, [Claim(newer), go]);
  }

  /** Without a credential the undisturbed caller gives its reservation back and sends nothing. */
  lemma UndisturbedReleases(role: Role, body: string, bounds: Bounds, reply: TransportReply)
    ensures
      var go := Await(0, Choice(false, false, reply));
      var end := Exec(INITIAL, [Arrive(role, body, bounds), go, go, go, go]);
      && end.Some? && |end.value.callers| == 1
      && end.value.callers[0].pc == Returned(CredentialsUnavailable)
      && end.value.world.sent == [] && end.value.world.reservation.Some?
      && end.value.world.reservation.value.phase == Released
  {
    var go := Await(0, Choice(false, false, reply));
    var a := Newcomer(role, body, bounds);
    var row := Reservation(Reserved, body, bounds, None, None);
    var held := EMPTY.(reservation := Some(row));
    CallerLists();
    var states := [
      INITIAL, State(EMPTY, [a]), State(EMPTY, [a.(pc := Reserve(None))]), State(held, [a.(pc := Credentials(None))]),
      State(held, [a.(pc := Release)]),
      State(EMPTY.(reservation := Some(row.(phase := Released))), [a.(pc := Returned(CredentialsUnavailable))])];
    ExecFollows(states, [Arrive(role, body, bounds), go, go, go, go]);
  }
}
