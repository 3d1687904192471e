/**
 One provider-request reservation and any number of callers.

 Leaf and planner orchestrations, duplicates, reclaims and crashes all act on one
 reservation. Each await of a caller is one step; a caller that dies or throws may do so
 between any two of them.
 */
module GovernedDispatch {
  import opened Basics

  // ---------------------------------------------------------------- the durable reservation

  datatype Phase = Reserved | Started | Persisted | Settled | Released

  datatype Usage = AuthorizedMaximum | ProviderReported(input: nat, output: nat)

  /** What a provider's response says about its own token counts. */
  datatype Report = Report(input: Option<int>, output: Option<int>)

  /** What the request was sent with: its output cap, and the model's window unless the route is free. */
  datatype Bounds = Bounds(outputCap: nat, window: Option<nat>)

  datatype Reservation = Reservation(
    phase: Phase, bytes: string, bounds: Bounds, startedClaim: Option<nat>, response: Option<string>)

  datatype Sending = Sending(caller: nat, bytes: string)

  datatype Settlement = Settlement(settler: nat, usage: Usage, hadResponse: bool)

  /** The claim in force when the winner started, and whether another has been made since. */
  datatype Beginning = Beginning(role: Role, claim: Option<nat>, superseded: bool)

  /**
   The reservation row, the Run's newest claim and whether its lease is live, and five facts
   of history: who won the start and when, what the transport was handed, what the provider
   answered and who settled.
   */
  datatype World = World(
    reservation: Option<Reservation>, claim: Option<nat>, live: bool, winner: Option<nat>,
    began: Option<Beginning>, sent: seq<Sending>, answer: Option<string>, settlement: Option<Settlement>)

  const EMPTY := World(None, None, false, None, None, [], None, None)

  const MAX_SAFE_INTEGER := 9007199254740991

  predicate SafeCount(n: Option<int>) {
    n.Some? && 0 <= n.value <= MAX_SAFE_INTEGER
  }

  /** `derivePlannerSettlementUsage`: both counts, or the authorized maximum. */
  function DeriveUsage(report: Option<Report>): Usage {
    if report.Some? && SafeCount(report.value.input) && SafeCount(report.value.output)
    then ProviderReported(report.value.input.value, report.value.output.value)
    else AuthorizedMaximum
  }

  // ---------------------------------------------------------------- recovery classification

  datatype Classification = ReusedDurableResponse | RequestInFlight | DeliveryUncertain | IntegrityFailure

  /** `classifyGovernedRequestRecovery`: claim identity decides, never a clock. */
  function ClassifyRecovery(
    durableResponse: bool, started: bool, startedClaim: Option<int>, currentClaim: Option<int>,
    live: bool, legacyUnbound: bool): Option<Classification>
  {
    if durableResponse then Some(ReusedDurableResponse)
    else if !started then None
    else if legacyUnbound || startedClaim.None? then Some(DeliveryUncertain)
    else if !(0 < startedClaim.value <= MAX_SAFE_INTEGER)
         || currentClaim.None?
         || !(-MAX_SAFE_INTEGER <= currentClaim.value <= MAX_SAFE_INTEGER)
    then Some(IntegrityFailure)
    else if startedClaim != currentClaim then Some(DeliveryUncertain)
    else if live then Some(RequestInFlight) else None
  }

  datatype PlannerRecovery = PlannerRecovery(mayDispatch: bool, mustSettle: bool, terminal: bool)

  /** `classifyGovernedPlannerRecovery`. */
  function ClassifyPlanner(res: Option<Reservation>): PlannerRecovery {
    match res
    case None => PlannerRecovery(false, false, true)
    case Some(r) =>
      match r.phase
      case Reserved => PlannerRecovery(true, false, false)
      case Started => PlannerRecovery(false, true, false)
      case Persisted => PlannerRecovery(false, true, false)
      case Settled => PlannerRecovery(false, false, false)
      case Released => PlannerRecovery(false, false, true)
  }

  // ---------------------------------------------------------------- callers

  datatype Role = Leaf | Planner

  datatype Outcome =
    | Received(response: string, report: Option<Report>)
    | Reused(durable: Option<string>)
    | ReservationRefused | CredentialsUnavailable | WasReleased | StartLost
    | DispatchFailed | Unresolved | InFlight | Uncertain

  /** `possiblyDispatched` of a returned outcome. */
  predicate PossiblyDispatched(o: Outcome) {
    o.Received? || o.Reused? || o.DispatchFailed? || o.Unresolved? || o.InFlight? || o.Uncertain?
  }

  datatype PC =
    | Enter
    | Reserve(claim: Option<nat>)
    | Credentials(claim: Option<nat>)
    | Release
    | Start(claim: Option<nat>)
    | RereadLost
    | Resolve(res: Reservation)
    | Reuse(res: Reservation)
    | CloseObserved(res: Reservation)
    | Dispatch(res: Reservation)
    | CloseFailed(res: Reservation)
    | Persist(response: string, report: Option<Report>)
    | RereadSettle(response: string, report: Option<Report>)
    | Settle(res: Reservation, response: string, report: Option<Report>)
    | Returned(outcome: Outcome)
    | Gone

  /** `found`: the reservation was already started on entry; `lost`: the start transition was
      refused; `sawDead`: the lease read said no executor is live; `entered`: the claim a leaf read
      on entry. */
  datatype Caller = Caller(
    role: Role, body: string, bounds: Bounds, pc: PC, found: bool, lost: bool, sawDead: bool, entered: Option<nat>)

  datatype TransportReply = Failed | Answered(response: string, report: Option<Report>)

  datatype Choice = Choice(refused: bool, credentials: bool, reply: TransportReply)

  datatype Step = Step(world: World, caller: Caller)

  // ---------------------------------------------------------------- atomic store calls

  /** The start's claim check and its conditional update; None when either refuses. */
  predicate StaleClaim(w: World, expected: Option<nat>) {
    expected.Some? && w.claim != expected
  }

  function StartWon(w: World, i: nat, role: Role, expected: Option<nat>): World
    requires w.reservation.Some?
  {
    var claim := if role == Planner then None else if expected.Some? then expected else w.claim;
    w.(reservation := Some(w.reservation.value.(phase := Started, startedClaim := claim)),
       winner := Some(i), began := Some(Beginning(role, w.claim, false)))
  }

  /** No receipt can be built for a bill above what the request was sent with. */
  predicate WithinBounds(usage: Usage, bounds: Bounds) {
    match usage
    case AuthorizedMaximum => true
    case ProviderReported(input, output) =>
      output <= bounds.outputCap && (bounds.window.Some? ==> input <= bounds.window.value)
  }

  /** `settleEconomicRequest` when it is entitled to settle. */
  predicate MaySettle(w: World, usage: Usage) {
    && w.reservation.Some?
    && (w.reservation.value.phase == Persisted || w.reservation.value.phase == Started)
    && (w.reservation.value.response.None? ==> usage == AuthorizedMaximum)
    && WithinBounds(usage, w.reservation.value.bounds)
  }

  function SettledBy(w: World, i: nat, usage: Usage): World
    requires w.reservation.Some?
  {
    w.(reservation := Some(w.reservation.value.(phase := Settled)),
       settlement := Some(Settlement(i, usage, w.reservation.value.response.Some?)))
  }

  /** The usage a caller settles with: what was reported, once a response is durable. */
  function UsageFor(copy: Reservation, report: Option<Report>): Usage {
    if copy.response.None? then AuthorizedMaximum else DeriveUsage(report)
  }

  /** `settleFromDurableFacts` on the caller's copy: already settled is not an error, every other
      refusal of the store is thrown. */
  function SettleFrom(w: World, c: Caller, i: nat, copy: Reservation, report: Option<Report>, next: PC): Step {
    var usage := UsageFor(copy, report);
    if copy.phase == Settled then Step(w, c.(pc := next))
    else if MaySettle(w, usage) then Step(SettledBy(w, i, usage), c.(pc := next))
    else if w.reservation.Some? && (w.reservation.value.phase == Settled || w.reservation.value.phase == Released)
    then Step(w, c.(pc := next))
    else Step(w, c.(pc := Gone))
  }

  // ---------------------------------------------------------------- one await of a caller

  /** The reservation's durable lifecycle decides; that it already existed does not. */
  function AfterReserve(c: Caller, res: Reservation, claim: Option<nat>): Caller {
    match res.phase
    case Reserved => c.(pc := Credentials(claim))
    case Started => c.(pc := Resolve(res), found := true)
    case Persisted => c.(pc := Reuse(res))
    case Settled => c.(pc := Returned(Reused(res.response)))
    case Released => c.(pc := Returned(WasReleased))
  }

  /** `resolveStartedRequest`. */
  function Resolved(w: World, c: Caller, res: Reservation): Caller {
    if res.phase == Persisted || res.phase == Settled then c.(pc := Reuse(res))
    else if w.live then
      if ClassifyRecovery(false, true, res.startedClaim, w.claim, true, false) == Some(DeliveryUncertain)
      then c.(pc := Returned(Uncertain))
      else c.(pc := Returned(InFlight))
    else if c.lost then c.(pc := Returned(InFlight), sawDead := true)
    else c.(pc := CloseObserved(res), sawDead := true)
  }

  /** Up to the start transition. */
  function StepOpen(w: World, i: nat, c: Caller, ch: Choice): Step {
    match c.pc
    case Enter =>
      var claim := if c.role == Leaf then w.claim else None;
      Step(w, c.(pc := Reserve(claim), entered := claim))
    case Reserve(claim) =>
      if ch.refused then Step(w, c.(pc := Returned(ReservationRefused)))
      else if w.reservation.None? then
        Step(w.(reservation := Some(Reservation(Reserved, c.body, c.bounds, None, None))), c.(pc := Credentials(claim)))
      else if c.role == Planner then Step(w, c.(pc := Returned(ReservationRefused)))
      else Step(w, AfterReserve(c, w.reservation.value, claim))
    case Credentials(claim) => Step(w, c.(pc := if ch.credentials then Start(claim) else Release))
    case Release =>
      if w.reservation.Some? && w.reservation.value.phase == Reserved then
        Step(w.(reservation := Some(w.reservation.value.(phase := Released))),
             c.(pc := Returned(CredentialsUnavailable)))
      else Step(w, c.(pc := Gone))
    case Start(claim) =>
      if StaleClaim(w, claim) then Step(w, c.(pc := Returned(ReservationRefused)))
      else if w.reservation.Some? && w.reservation.value.phase == Reserved then
        var won := StartWon(w, i, c.role, claim);
        Step(won, c.(pc := Dispatch(won.reservation.value)))
      else if c.role == Planner then Step(w, c.(pc := Returned(StartLost), lost := true))
      else Step(w, c.(pc := RereadLost, lost := true))
    case _ => Step(w, c)
  }

  /** The callers that found or lost to somebody else's start. */
  function StepObserve(w: World, i: nat, c: Caller): Step {
    match c.pc
    case RereadLost =>
      Step(w, c.(pc := if w.reservation.Some? then Resolve(w.reservation.value) else Gone))
    case Resolve(res) => Step(w, Resolved(w, c, res))
    case Reuse(res) => SettleFrom(w, c, i, res, None, Returned(Reused(res.response)))
    case CloseObserved(res) => SettleFrom(w, c, i, res, None, Returned(Unresolved))
    case _ => Step(w, c)
  }

  /** The start winner: the gate, the transport, the durable response and its settlement. */
  function StepWin(w: World, i: nat, c: Caller, ch: Choice): Step {
    match c.pc
    case Dispatch(res) =>
      if res.phase != Started || res.bytes == "" then Step(w, c.(pc := Gone))
      else
        var out := w.(sent := w.sent + [Sending(i, res.bytes)]);
        if ch.reply.Failed? then Step(out, c.(pc := CloseFailed(res)))
        else Step(out.(answer := Some(ch.reply.response)), c.(pc := Persist(ch.reply.response, ch.reply.report)))
    case CloseFailed(res) => SettleFrom(w, c, i, res, None, Returned(DispatchFailed))
    case Persist(response, report) =>
      if w.reservation.Some? && w.reservation.value.phase == Started then
        Step(w.(reservation := Some(w.reservation.value.(phase := Persisted, response := Some(response)))),
             c.(pc := RereadSettle(response, report)))
      else if c.role == Planner && w.reservation.Some? && w.reservation.value.response == Some(response) then
        Step(w, c.(pc := RereadSettle(response, report)))
      else Step(w, c.(pc := Gone))
    case RereadSettle(response, report) =>
      Step(w, c.(pc := if w.reservation.Some? then Settle(w.reservation.value, response, report) else Gone))
    case Settle(res, response, report) => SettleFrom(w, c, i, res, report, Returned(Received(response, report)))
    case _ => Step(w, c)
  }

  predicate Opening(pc: PC) {
    pc.Enter? || pc.Reserve? || pc.Credentials? || pc.Release? || pc.Start?
  }

  predicate Observing(pc: PC) {
    pc.RereadLost? || pc.Resolve? || pc.Reuse? || pc.CloseObserved?
  }

  function StepCaller(w: World, i: nat, c: Caller, ch: Choice): Step {
    if Opening(c.pc) then StepOpen(w, i, c, ch)
    else if Observing(c.pc) then StepObserve(w, i, c)
    else StepWin(w, i, c, ch)
  }

  // ---------------------------------------------------------------- all events

  datatype State = State(world: World, callers: seq<Caller>)

  datatype Event =
    | Arrive(role: Role, body: string, bounds: Bounds)
    | Await(i: nat, choice: Choice)
    | Crash(i: nat)                 // the caller throws or its process dies
    | Claim(position: nat)          // run.lease_acquired
    | LeaseLapses

  function Claimed(w: World, position: nat): World {
    var began := if w.began.Some? then Some(w.began.value.(superseded := true)) else None;
    w.(claim := Some(position), live := true, began := began)
  }

  function Next(s: State, e: Event): Option<State> {
    match e
    case Arrive(role, body, bounds) =>
      Some(s.(callers := s.callers + [Caller(role, body, bounds, Enter, false, false, false, None)]))
    case Await(i, ch) =>
      if i < |s.callers| then
        var step := StepCaller(s.world, i, s.callers[i], ch);
        Some(State(step.world, s.callers[i := step.caller]))
      else None
    case Crash(i) =>
      if i < |s.callers| then Some(s.(callers := s.callers[i := s.callers[i].(pc := Gone)])) else None
    case Claim(position) =>
      if 0 < position <= MAX_SAFE_INTEGER && (s.world.claim.Some? ==> position > s.world.claim.value)
      then Some(s.(world := Claimed(s.world, position)))
      else None
    case LeaseLapses => Some(s.(world := s.world.(live := false)))
  }

  const INITIAL := State(EMPTY, [])

  function Exec(s: State, es: seq<Event>): Option<State> {
    if |es| == 0 then Some(s)
    else
      var before := Exec(s, es[..|es| - 1]);
      if before.None? then None else Next(before.value, es[|es| - 1])
  }
}
