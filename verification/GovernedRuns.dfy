/**
 Theorems about every run of the governed dispatch protocol.
 */
module GovernedRuns {
  import opened Basics
  import opened GovernedDispatch

  // ---------------------------------------------------------------- the invariant

  /** Nothing was ever started. */
  predicate Unstarted(w: World) {
    w.winner.None? && w.sent == [] && w.answer.None? && w.settlement.None?
  }

  predicate ReservationInv(w: World, r: Reservation) {
    && (r.phase == Reserved || r.phase == Released ==> Unstarted(w) && r.response.None?)
    && (r.phase == Started || r.phase == Persisted || r.phase == Settled ==> w.winner.Some?)
    && (r.phase == Started ==> r.response.None?)
    && (r.phase == Persisted ==> r.response.Some?)
    && (r.phase == Settled <==> w.settlement.Some?)
    && (r.response.Some? ==> w.answer == r.response)
    && (w.sent == [] || (w.winner.Some? && w.sent == [Sending(w.winner.value, r.bytes)]))
    && (w.answer.Some? ==> w.sent != [])
    && (w.settlement.Some? ==> w.settlement.value.hadResponse == r.response.Some?)
    && (w.settlement.Some? && w.settlement.value.usage != AuthorizedMaximum ==>
          w.settlement.value.hadResponse && w.winner == Some(w.settlement.value.settler))
    && (w.settlement.Some? ==> WithinBounds(w.settlement.value.usage, r.bounds))
  }

  /** A live lease has a claim. A start is bound to the claim in force when it was made, and claims only
      advance, so that claim is the newest exactly until another is made. */
  predicate ClaimInv(w: World) {
    && (w.claim.Some? ==> 0 < w.claim.value <= MAX_SAFE_INTEGER)
    && (w.live ==> w.claim.Some?)
    && (w.began.Some? <==> w.winner.Some?)
    && (w.began.Some? ==>
          && w.reservation.Some? && w.reservation.value.startedClaim == StartClaim(w.began.value)
          && NoLater(w.began.value.claim, w.claim)
          && (w.began.value.superseded <==> w.claim != w.began.value.claim))
    && (w.began.None? && w.reservation.Some? ==> w.reservation.value.startedClaim.None?)
  }

  /** What a start records: a leaf the claim in force, a planner none. */
  function StartClaim(b: Beginning): Option<nat> {
    if b.role == Leaf then b.claim else None
  }

  predicate NoLater(a: Option<nat>, b: Option<nat>) {
    a.Some? ==> b.Some? && 0 < a.value <= b.value
  }

  predicate WorldInv(w: World) {
    && ClaimInv(w)
    && (w.reservation.None? ==> Unstarted(w))
    && (w.reservation.Some? ==> ReservationInv(w, w.reservation.value))
  }

  function Order(p: Phase): nat {
    match p case Reserved => 0 case Started => 1 case Persisted => 2 case Settled => 3 case Released => 3
  }

  /** The row only moves forward: a later row of the same reservation. */
  predicate Later(a: Reservation, b: Reservation) {
    && a.bytes == b.bytes && a.bounds == b.bounds
    && Order(a.phase) <= Order(b.phase)
    && (Order(a.phase) == Order(b.phase) ==> a == b)
    && (a.phase == Started || a.phase == Persisted ==> b.phase != Released)
    && (a.response.Some? ==> b.response == a.response)
    && (a.phase != Reserved ==> b.startedClaim == a.startedClaim)
  }

  /** A copy some caller read earlier. */
  predicate CopyOf(w: World, copy: Reservation) {
    && w.reservation.Some? && Later(copy, w.reservation.value)
    && copy.phase != Reserved
    && (copy.phase == Started ==> copy.response.None?)
    && (copy.phase == Persisted ==> copy.response.Some?)
  }

  predicate Won(w: World, i: nat) {
    w.winner == Some(i) && w.reservation.Some?
  }

  /** Entitled to close an unanswered request: it found it started, and saw no live executor. */
  predicate Bystander(c: Caller) {
    c.found && c.sawDead && !c.lost
  }

  /** Somebody started or released the reservation. */
  predicate Touched(w: World) {
    w.reservation.Some? && w.reservation.value.phase != Reserved
  }

  predicate SettledByOther(w: World, i: nat) {
    w.settlement.Some? ==> w.settlement.value.settler != i
  }

  predicate OutcomeInv(w: World, i: nat, c: Caller, o: Outcome) {
    match o
    case Received(response, report) =>
      && Won(w, i) && w.reservation.value.phase == Settled && w.reservation.value.response == Some(response)
      && w.settlement.Some?
      && (w.settlement.value.settler == i ==> w.settlement.value.usage == DeriveUsage(report))
    case Reused(durable) =>
      && w.reservation.Some? && w.reservation.value.phase == Settled && w.reservation.value.response == durable
    case DispatchFailed => Won(w, i) && w.reservation.value.phase == Settled
    case Unresolved => w.reservation.Some? && w.reservation.value.phase == Settled
    case CredentialsUnavailable => w.reservation.Some? && w.reservation.value.phase == Released
    case WasReleased => w.reservation.Some? && w.reservation.value.phase == Released
    case ReservationRefused => true
    case StartLost => Touched(w)
    case InFlight => Touched(w) && (w.reservation.value.phase == Released ==> c.lost)
    case Uncertain => Touched(w) && (w.reservation.value.phase == Released ==> c.lost)
  }

  predicate CallerInv(w: World, i: nat, c: Caller) {
    match c.pc
    case Enter => !c.found && !c.lost
    case Reserve(claim) => !c.found && !c.lost && claim == c.entered
    case Credentials(claim) => !c.found && !c.lost && w.reservation.Some? && claim == c.entered
    case Release => !c.found && !c.lost && w.reservation.Some?
    case Start(claim) => !c.found && !c.lost && w.reservation.Some? && claim == c.entered
    case RereadLost => c.lost && !c.found && Touched(w)
    case Resolve(res) => CopyOf(w, res) && (c.lost || (c.found && res.phase == Started))
    case Reuse(res) => CopyOf(w, res) && (res.phase == Persisted || res.phase == Settled)
    case CloseObserved(res) => CopyOf(w, res) && res.phase == Started && Bystander(c)
    case Dispatch(res) =>
      && Won(w, i) && CopyOf(w, res) && res.phase == Started && w.sent == [] && SettledByOther(w, i)
      && w.reservation.value.response.None?
    case CloseFailed(res) => Won(w, i) && CopyOf(w, res) && res.phase == Started
    case Persist(response, _) =>
      && Won(w, i) && w.answer == Some(response) && SettledByOther(w, i)
      && w.reservation.value.response.None?
    case RereadSettle(response, _) =>
      Won(w, i) && w.reservation.value.response == Some(response) && SettledByOther(w, i)
    case Settle(res, response, _) =>
      && Won(w, i) && w.reservation.value.response == Some(response) && SettledByOther(w, i)
      && CopyOf(w, res) && (res.phase == Persisted || res.phase == Settled) && res.response == Some(response)
    case Returned(o) => OutcomeInv(w, i, c, o)
    case Gone => true
  }

  /** A settlement without a response was made by the start winner or by a bystander. */
  predicate SettlerInv(s: State) {
    s.world.settlement.Some? ==>
      var made := s.world.settlement.value;
      && made.settler < |s.callers|
      && (!made.hadResponse ==> s.world.winner == Some(made.settler) || Bystander(s.callers[made.settler]))
  }

  /** The winner started under the claim it had read on entry, if it had read one. */
  predicate WinnerInv(s: State) {
    s.world.winner.Some? ==>
      && s.world.winner.value < |s.callers| && s.world.began.Some?
      && StartedFresh(s.callers[s.world.winner.value], s.world.began.value)
  }

  predicate StartedFresh(c: Caller, b: Beginning) {
    !c.pc.Enter? && c.role == b.role && (c.entered.Some? ==> c.entered == b.claim)
  }

  predicate Inv(s: State) {
    && WorldInv(s.world)
    && SettlerInv(s)
    && WinnerInv(s)
    && (forall i :: 0 <= i < |s.callers| ==> CallerInv(s.world, i, s.callers[i]))
  }

  // ---------------------------------------------------------------- one step

  /** What a step of caller `i` may do to what others rely on. */
  predicate Evolves(a: World, b: World, i: nat) {
    && (a.reservation.Some? ==> b.reservation.Some? && Later(a.reservation.value, b.reservation.value))
    && (a.winner.Some? ==> b.winner == a.winner && b.began == a.began)
    && (a.winner != Some(i) ==> b.sent == a.sent && b.answer == a.answer)
    && (a.settlement.Some? ==> b.settlement == a.settlement)
    && (a.settlement.None? && b.settlement.Some? ==> b.settlement.value.settler == i)
    && (a.reservation.Some? && a.winner.Some? && a.winner != Some(i) ==>
          b.reservation.value.response == a.reservation.value.response)
    && a.sent <= b.sent
  }

  predicate Kept(w: World, i: nat, t: Step) {
    Evolves(w, t.world, i) && WorldInv(t.world) && CallerInv(t.world, i, t.caller)
  }

  lemma ReserveKeepsWorld(w: World, i: nat, c: Caller, ch: Choice)
    requires WorldInv(w) && CallerInv(w, i, c) && (c.pc.Enter? || c.pc.Reserve? || c.pc.Credentials?)
    ensures Evolves(w, StepOpen(w, i, c, ch).world, i) && WorldInv(StepOpen(w, i, c, ch).world)
  {
  }

  lemma ReserveEvolves(w: World, i: nat, c: Caller, ch: Choice)
    requires WorldInv(w) && CallerInv(w, i, c) && (c.pc.Enter? || c.pc.Reserve? || c.pc.Credentials?)
    ensures Kept(w, i, StepOpen(w, i, c, ch))
  {
    hide Evolves;
    ReserveKeepsWorld(w, i, c, ch);
  }

  lemma StartKeepsWorld(w: World, i: nat, c: Caller, ch: Choice)
    requires WorldInv(w) && CallerInv(w, i, c) && (c.pc.Release? || c.pc.Start?)
    ensures Evolves(w, StepOpen(w, i, c, ch).world, i) && WorldInv(StepOpen(w, i, c, ch).world)
  {
  }

  lemma StartEvolves(w: World, i: nat, c: Caller, ch: Choice)
    requires WorldInv(w) && CallerInv(w, i, c) && (c.pc.Release? || c.pc.Start?)
    ensures Kept(w, i, StepOpen(w, i, c, ch))
  {
    hide Evolves;
    StartKeepsWorld(w, i, c, ch);
  }

  /** Settling from a started copy: at most once, metered usage only with a response and only
      by the winner. Afterwards the books are closed, or they were open and the bill is above what the
      request was sent with: then nothing changes and the caller throws. */
  lemma SettleEvolves(w: World, c: Caller, i: nat, copy: Reservation, report: Option<Report>, next: PC)
    requires WorldInv(w) && CopyOf(w, copy) && copy.phase != Released
    requires UsageFor(copy, report) != AuthorizedMaximum ==> w.winner == Some(i)
    ensures
      var t, usage := SettleFrom(w, c, i, copy, report, next), UsageFor(copy, report);
      && Evolves(w, t.world, i) && WorldInv(t.world)
      && (if w.settlement.None? && !WithinBounds(usage, copy.bounds)
          then t == Step(w, c.(pc := Gone)) && copy.phase == Persisted
          else
            && t.world.winner == w.winner && t.world.sent == w.sent
            && t.world.reservation == Some(w.reservation.value.(phase := Settled))
            && t.caller == c.(pc := next)
            && t.world.settlement == (
                 if w.settlement.Some? then w.settlement
                 else Some(Settlement(i, usage, w.reservation.value.response.Some?))))
  {
  }

  lemma ResolveEvolves(w: World, i: nat, c: Caller)
    requires WorldInv(w) && CallerInv(w, i, c) && (c.pc.RereadLost? || c.pc.Resolve?)
    ensures Kept(w, i, StepObserve(w, i, c))
  {
  }

  lemma CloseEvolves(w: World, i: nat, c: Caller)
    requires WorldInv(w) && CallerInv(w, i, c) && (c.pc.Reuse? || c.pc.CloseObserved?)
    ensures Kept(w, i, StepObserve(w, i, c))
  {
    hide SettleFrom, WorldInv, Evolves;
    match c.pc
    case Reuse(res) => SettleEvolves(w, c, i, res, None, Returned(Reused(res.response)));
    case CloseObserved(res) => SettleEvolves(w, c, i, res, None, Returned(Unresolved));
  }

  lemma DispatchKeepsWorld(w: World, i: nat, c: Caller, ch: Choice)
    requires WorldInv(w) && CallerInv(w, i, c) && c.pc.Dispatch?
    ensures Evolves(w, StepWin(w, i, c, ch).world, i) && WorldInv(StepWin(w, i, c, ch).world)
  {
  }

  lemma DispatchEvolves(w: World, i: nat, c: Caller, ch: Choice)
    requires WorldInv(w) && CallerInv(w, i, c) && c.pc.Dispatch?
    ensures Kept(w, i, StepWin(w, i, c, ch))
  {
    hide WorldInv, Evolves;
    DispatchKeepsWorld(w, i, c, ch);
  }

  lemma PersistKeepsWorld(w: World, i: nat, c: Caller, ch: Choice)
    requires WorldInv(w) && CallerInv(w, i, c) && (c.pc.Persist? || c.pc.RereadSettle?)
    ensures Evolves(w, StepWin(w, i, c, ch).world, i) && WorldInv(StepWin(w, i, c, ch).world)
  {
  }

  lemma PersistEvolves(w: World, i: nat, c: Caller, ch: Choice)
    requires WorldInv(w) && CallerInv(w, i, c) && (c.pc.Persist? || c.pc.RereadSettle?)
    ensures Kept(w, i, StepWin(w, i, c, ch))
  {
    hide Evolves;
    PersistKeepsWorld(w, i, c, ch);
  }

  lemma FailureSettles(w: World, i: nat, c: Caller, ch: Choice)
    requires WorldInv(w) && CallerInv(w, i, c) && c.pc.CloseFailed?
    ensures Kept(w, i, StepWin(w, i, c, ch))
  {
    hide SettleFrom, WorldInv, Evolves, WithinBounds;
    SettleEvolves(w, c, i, c.pc.res, None, Returned(DispatchFailed));
  }

  lemma AnswerSettles(w: World, i: nat, c: Caller, ch: Choice)
    requires WorldInv(w) && CallerInv(w, i, c) && c.pc.Settle?
    ensures Kept(w, i, StepWin(w, i, c, ch))
  {
    hide SettleFrom, WorldInv, Evolves, WithinBounds;
    SettleEvolves(w, c, i, c.pc.res, c.pc.report, Returned(Received(c.pc.response, c.pc.report)));
  }

  lemma StepEvolves(w: World, i: nat, c: Caller, ch: Choice)
    requires WorldInv(w) && CallerInv(w, i, c)
    ensures Kept(w, i, StepCaller(w, i, c, ch))
  {
    hide WorldInv, CallerInv, StepOpen, StepObserve, StepWin;
    match c.pc
    case Release => StartEvolves(w, i, c, ch);
    case Start(_) => StartEvolves(w, i, c, ch);
    case RereadLost => ResolveEvolves(w, i, c);
    case Resolve(_) => ResolveEvolves(w, i, c);
    case Reuse(_) => CloseEvolves(w, i, c);
    case CloseObserved(_) => CloseEvolves(w, i, c);
    case Dispatch(_) => DispatchEvolves(w, i, c, ch);
    case Persist(_, _) => PersistEvolves(w, i, c, ch);
    case RereadSettle(_, _) => PersistEvolves(w, i, c, ch);
    case CloseFailed(_) => FailureSettles(w, i, c, ch);
    case Settle(_, _, _) => AnswerSettles(w, i, c, ch);
    case Enter => ReserveEvolves(w, i, c, ch);
    case Reserve(_) => ReserveEvolves(w, i, c, ch);
    case Credentials(_) => ReserveEvolves(w, i, c, ch);
    case _ => FinishedStaysPut(w, i, c, ch);
  }

  lemma FinishedStaysPut(w: World, i: nat, c: Caller, ch: Choice)
    requires WorldInv(w) && CallerInv(w, i, c) && (c.pc.Returned? || c.pc.Gone?)
    ensures StepWin(w, i, c, ch) == Step(w, c) && Evolves(w, w, i)
  {
  }

  lemma OutcomeUndisturbed(a: World, b: World, i: nat, j: nat, c: Caller, o: Outcome)
    requires WorldInv(a) && WorldInv(b) && Evolves(a, b, i) && j != i && OutcomeInv(a, j, c, o)
    ensures OutcomeInv(b, j, c, o)
  {
  }

  /** A copy stays a copy of a row that only moves forward. */
  lemma CopyUndisturbed(a: World, b: World, i: nat, copy: Reservation)
    requires Evolves(a, b, i) && CopyOf(a, copy)
    ensures CopyOf(b, copy)
  {
  }

  lemma WinnerUndisturbed(a: World, b: World, i: nat, j: nat, c: Caller)
    requires WorldInv(a) && WorldInv(b) && Evolves(a, b, i) && j != i && CallerInv(a, j, c)
    requires !Opening(c.pc) && !Observing(c.pc) && !c.pc.Returned?
    ensures CallerInv(b, j, c)
  {
    if c.pc.Dispatch? || c.pc.CloseFailed? || c.pc.Settle? { CopyUndisturbed(a, b, i, c.pc.res); }
    hide CopyOf, ClaimInv, OutcomeInv;
  }

  lemma OthersUndisturbed(a: World, b: World, i: nat, j: nat, c: Caller)
    requires WorldInv(a) && WorldInv(b) && Evolves(a, b, i) && j != i && CallerInv(a, j, c)
    ensures CallerInv(b, j, c)
  {
    if c.pc.Returned? {
      hide WorldInv, Evolves, OutcomeInv;
      OutcomeUndisturbed(a, b, i, j, c, c.pc.outcome);
    } else if Opening(c.pc) || Observing(c.pc) {
      if c.pc.Resolve? || c.pc.Reuse? || c.pc.CloseObserved? { CopyUndisturbed(a, b, i, c.pc.res); }
      hide WorldInv, CopyOf, OutcomeInv;
    } else {
      hide *;
      WinnerUndisturbed(a, b, i, j, c);
    }
  }

  /** A new settlement is the stepping caller's, and without a response it is the winner's or a
      bystander's. */
  lemma SettlerEntitled(w: World, i: nat, c: Caller, ch: Choice)
    requires WorldInv(w) && CallerInv(w, i, c) && w.settlement.None?
    ensures
      var t := StepCaller(w, i, c, ch);
      t.world.settlement.Some? ==>
        && t.world.settlement.value.settler == i
        && (!t.world.settlement.value.hadResponse ==> t.world.winner == Some(i) || Bystander(t.caller))
  {
  }

  lemma BystanderForever(w: World, i: nat, c: Caller, ch: Choice)
    requires CallerInv(w, i, c) && Bystander(c)
    ensures Bystander(StepCaller(w, i, c, ch).caller)
  {
  }

  lemma AwaitKeepsSettler(s: State, i: nat, ch: Choice)
    requires Inv(s) && i < |s.callers|
    ensures SettlerInv(Next(s, Await(i, ch)).value)
  {
    hide WorldInv, CallerInv, StepCaller, Bystander;
    var w, c := s.world, s.callers[i];
    assert CallerInv(w, i, c);
    StepEvolves(w, i, c, ch);
    if w.settlement.None? { SettlerEntitled(w, i, c, ch); }
    else if w.settlement.value.settler == i && Bystander(c) { BystanderForever(w, i, c, ch); }
  }

  lemma AwaitKeepsInv(s: State, i: nat, ch: Choice)
    requires Inv(s) && i < |s.callers|
    ensures Inv(Next(s, Await(i, ch)).value)
  {
    hide WorldInv, CallerInv, StepCaller, SettlerInv, WinnerInv, Evolves;
    var t := Next(s, Await(i, ch)).value;
    assert CallerInv(s.world, i, s.callers[i]);
    StepEvolves(s.world, i, s.callers[i], ch);
    AwaitKeepsSettler(s, i, ch);
    AwaitKeepsWinner(s, i, ch);
    forall j | 0 <= j < |t.callers| ensures CallerInv(t.world, j, t.callers[j]) {
      if j != i {
        assert CallerInv(s.world, j, s.callers[j]);
        OthersUndisturbed(s.world, t.world, i, j, s.callers[j]);
      }
    }
  }

  /** A claim changes nothing a caller or the row relies on; it only supersedes the winner's. */
  lemma ClaimKeepsInv(w: World, position: nat)
    requires WorldInv(w) && 0 < position <= MAX_SAFE_INTEGER && (w.claim.Some? ==> w.claim.value < position)
    ensures WorldInv(Claimed(w, position))
    ensures forall i, c :: CallerInv(w, i, c) ==> CallerInv(Claimed(w, position), i, c)
  {
  }

  lemma LapseKeepsInv(w: World)
    requires WorldInv(w)
    ensures WorldInv(w.(live := false))
    ensures forall i, c :: CallerInv(w, i, c) ==> CallerInv(w.(live := false), i, c)
  {
  }

  /** A step keeps the winner and what it had read, or makes its caller a winner that started fresh. */
  predicate KeepsWinner(w: World, i: nat, c: Caller, t: Step) {
    && (w.winner == t.world.winner && !c.pc.Enter? ==>
          !t.caller.pc.Enter? && t.caller.role == c.role && t.caller.entered == c.entered)
    && (w.winner != t.world.winner ==>
          t.world.winner == Some(i) && t.world.began.Some? && StartedFresh(t.caller, t.world.began.value))
  }

  lemma OpeningKeepsWinner(w: World, i: nat, c: Caller, ch: Choice)
    requires CallerInv(w, i, c) && Opening(c.pc)
    ensures KeepsWinner(w, i, c, StepOpen(w, i, c, ch))
  {
  }

  lemma ObservingKeepsWinner(w: World, i: nat, c: Caller)
    requires Observing(c.pc)
    ensures KeepsWinner(w, i, c, StepObserve(w, i, c))
  {
    hide ClassifyRecovery, MaySettle, UsageFor;
  }

  lemma WinningKeepsWinner(w: World, i: nat, c: Caller, ch: Choice)
    requires !Opening(c.pc) && !Observing(c.pc)
    ensures KeepsWinner(w, i, c, StepWin(w, i, c, ch))
  {
    hide MaySettle, UsageFor;
  }

  lemma StepKeepsWinner(w: World, i: nat, c: Caller, ch: Choice)
    requires CallerInv(w, i, c)
    ensures KeepsWinner(w, i, c, StepCaller(w, i, c, ch))
  {
    hide KeepsWinner, CallerInv, StepOpen, StepObserve, StepWin;
    if Opening(c.pc) { OpeningKeepsWinner(w, i, c, ch); }
    else if Observing(c.pc) { ObservingKeepsWinner(w, i, c); }
    else { WinningKeepsWinner(w, i, c, ch); }
  }

  lemma AwaitKeepsWinner(s: State, i: nat, ch: Choice)
    requires Inv(s) && i < |s.callers|
    ensures WinnerInv(Next(s, Await(i, ch)).value)
  {
    hide WorldInv, CallerInv, StepCaller, SettlerInv;
    assert CallerInv(s.world, i, s.callers[i]);
    StepEvolves(s.world, i, s.callers[i], ch);
    StepKeepsWinner(s.world, i, s.callers[i], ch);
  }

  lemma NextKeepsInv(s: State, e: Event)
    requires Inv(s) && Next(s, e).Some?
    ensures Inv(Next(s, e).value)
  {
    match e
    case Await(i, ch) => hide *; AwaitKeepsInv(s, i, ch);
    case Claim(position) => hide WorldInv, CallerInv; ClaimKeepsInv(s.world, position);
    case LeaseLapses => hide WorldInv, CallerInv; LapseKeepsInv(s.world);
    case Arrive(role, body, bounds) => hide WorldInv;
    case Crash(i) => hide WorldInv;
  }

  lemma {:induction false} RunKeepsInv(s: State, es: seq<Event>)
    requires Inv(s) && Exec(s, es).Some?
    ensures Inv(Exec(s, es).value)
  {
    hide Inv, Next;
    if |es| > 0 {
      RunKeepsInv(s, es[..|es| - 1]);
      NextKeepsInv(Exec(s, es[..|es| - 1]).value, es[|es| - 1]);
    }
  }

  /** A run is its first part followed by the rest. */
  lemma {:induction false} ExecConcat(s: State, a: seq<Event>, b: seq<Event>)
    requires Exec(s, a).Some?
    ensures Exec(s, a + b) == Exec(Exec(s, a).value, b)
  {
    hide Next;
    if |b| == 0 {
      assert a + b == a;
    } else {
      ExecConcat(s, a, b[..|b| - 1]);
      assert (a + b)[..|a + b| - 1] == a + b[..|b| - 1];
    }
  }

  lemma InitialInv()
    ensures Inv(INITIAL)
  {
  }

  lemma ReachableInv(es: seq<Event>)
    requires Exec(INITIAL, es).Some?
    ensures Inv(Exec(INITIAL, es).value)
  {
    hide Inv, Next;
    InitialInv();
    RunKeepsInv(INITIAL, es);
  }

  // ---------------------------------------------------------------- dispatch

  /** In every run the transport is invoked at most once, by the start winner, and with exactly
      the bytes the reservation holds. */
  lemma TransportAtMostOnce(es: seq<Event>)
    requires Exec(INITIAL, es).Some?
    ensures
      var w := Exec(INITIAL, es).value.world;
      && |w.sent| <= 1
      && (forall k :: 0 <= k < |w.sent| ==>
            && w.winner == Some(w.sent[k].caller)
            && w.reservation.Some? && w.sent[k].bytes == w.reservation.value.bytes)
  {
    hide Next, Exec, CallerInv, SettlerInv;
    ReachableInv(es);
  }

  /** A request closed without a response was closed by its start winner, or by a caller that
      found it started and saw no live executor; never by a caller that lost the start race. */
  lemma UnansweredSettlement(es: seq<Event>)
    requires Exec(INITIAL, es).Some?
    requires Exec(INITIAL, es).value.world.settlement.Some?
    requires !Exec(INITIAL, es).value.world.settlement.value.hadResponse
    ensures
      var s := Exec(INITIAL, es).value;
      var settler := s.world.settlement.value.settler;
      && settler < |s.callers|
      && (|| s.world.winner == Some(settler)
          || (s.callers[settler].found && s.callers[settler].sawDead && !s.callers[settler].lost))
  {
    hide Next, Exec, CallerInv, WorldInv;
    ReachableInv(es);
  }

  /** A caller told `received` has its answer durable, the answer is what the transport returned,
      and the books are closed. */
  lemma ReceivedIsDurable(es: seq<Event>, i: nat)
    requires Exec(INITIAL, es).Some? && i < |Exec(INITIAL, es).value.callers|
    requires Exec(INITIAL, es).value.callers[i].pc.Returned?
    requires Exec(INITIAL, es).value.callers[i].pc.outcome.Received?
    ensures
      var s := Exec(INITIAL, es).value;
      var response := s.callers[i].pc.outcome.response;
      && s.world.winner == Some(i) && |s.world.sent| == 1
      && s.world.answer == Some(response)
      && s.world.reservation.Some? && s.world.reservation.value.response == Some(response)
      && s.world.reservation.value.phase == Settled && s.world.settlement.Some?
  {
    hide Next, Exec, SettlerInv;
    ReachableInv(es);
    var s := Exec(INITIAL, es).value;
    assert CallerInv(s.world, i, s.callers[i]);
  }

  // ---------------------------------------------------------------- nothing is undone

  predicate Grows(a: World, b: World) {
    && (a.reservation.Some? ==> b.reservation.Some? && Later(a.reservation.value, b.reservation.value))
    && (a.winner.Some? ==> b.winner == a.winner)
    && (a.settlement.Some? ==> b.settlement == a.settlement)
    && a.sent <= b.sent
  }

  lemma NextGrows(s: State, e: Event)
    requires Inv(s) && Next(s, e).Some?
    ensures Grows(s.world, Next(s, e).value.world)
  {
    hide WorldInv, CallerInv, SettlerInv, StepCaller;
    if e.Await? {
      assert CallerInv(s.world, e.i, s.callers[e.i]);
      StepEvolves(s.world, e.i, s.callers[e.i], e.choice);
    }
  }

  /** The persisted bytes, the winner, the settlement and a durable response never change, and
      the reservation never leaves `settled` or `released`. */
  lemma {:induction false} NothingIsUndone(s: State, es: seq<Event>)
    requires Inv(s) && Exec(s, es).Some?
    ensures Grows(s.world, Exec(s, es).value.world)
  {
    hide Inv, Next;
    if |es| > 0 {
      NothingIsUndone(s, es[..|es| - 1]);
      RunKeepsInv(s, es[..|es| - 1]);
      NextGrows(Exec(s, es[..|es| - 1]).value, es[|es| - 1]);
    }
  }

  /** A released reservation was never transported and never will be. */
  lemma ReleasedNeverTransported(s: State, es: seq<Event>)
    requires Inv(s) && Exec(s, es).Some?
    requires s.world.reservation.Some? && s.world.reservation.value.phase == Released
    ensures Exec(s, es).value.world.sent == [] && Exec(s, es).value.world.winner.None?
  {
    hide Next, Exec, CallerInv, SettlerInv;
    NothingIsUndone(s, es);
    RunKeepsInv(s, es);
  }

  // ---------------------------------------------------------------- claims

  /** In every run a started row carries exactly the claim that was in force when its winner started, a
      planner's start none; and no start commits under a claim that was superseded since its caller read
      it on entry. */
  lemma StartsUnderItsClaim(es: seq<Event>)
    requires Exec(INITIAL, es).Some?
    requires Exec(INITIAL, es).value.world.winner.Some?
    ensures
      var s := Exec(INITIAL, es).value;
      var i := s.world.winner.value;
      && i < |s.callers| && s.world.began.Some? && s.world.reservation.Some?
      && var began := s.world.began.value;
      && s.callers[i].role == began.role
      && s.world.reservation.value.startedClaim == (if began.role == Leaf then began.claim else None)
      && (s.callers[i].entered.Some? ==> began.claim == s.callers[i].entered)
  {
    hide Next, Exec, CallerInv, SettlerInv, ReservationInv;
    ReachableInv(es);
  }
}
