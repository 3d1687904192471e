/**
 The leaf orchestration in its own form: ordered store effects of one caller, proved to
 follow the dispatch protocol whatever every other caller does between two awaits.
 */
module GovernedLeaf {
  import opened Basics
  import opened GovernedDispatch
  import opened GovernedRuns
  import opened GovernedSessions

  /** What everyone else does before one await, and this caller's inputs at it. */
  datatype Turn = Turn(others: seq<Event>, choice: Choice)

  /** What an await reads once the schedule is spent. */
  const IDLE := Choice(false, false, Failed)

  /** What this caller's `j`-th await reads: the schedule's input, and nothing else. */
  function Offer(turns: seq<Turn>, j: nat): Choice {
    if j < |turns| then turns[j].choice else IDLE
  }

  /** The inputs this caller has read, in order, are those it was offered. */
  ghost predicate Obeys(turns: seq<Turn>, used: seq<Choice>) {
    forall j :: 0 <= j < |used| ==> used[j] == Offer(turns, j)
  }

  /** Every turn consumed went into one await, or is the input just read. */
  ghost predicate Scheduled(turns: seq<Turn>, schedule: seq<Turn>, used: seq<Choice>, offered: Option<Choice>) {
    var all := used + if offered.Some? then [offered.value] else [];
    Obeys(turns, all) && schedule == if |all| <= |turns| then turns[|all|..] else []
  }

  lemma OffersNext(turns: seq<Turn>, schedule: seq<Turn>, used: seq<Choice>)
    requires Scheduled(turns, schedule, used, None)
    ensures
      var ch := if schedule == [] then IDLE else schedule[0].choice;
      Scheduled(turns, if schedule == [] then [] else schedule[1..], used, Some(ch))
  {
  }

  lemma AwaitUses(turns: seq<Turn>, schedule: seq<Turn>, used: seq<Choice>, ch: Choice)
    requires Scheduled(turns, schedule, used, Some(ch))
    ensures Scheduled(turns, schedule, used + [ch], None)
  {
    assert used + [ch] + [] == used + [ch];
  }

  lemma AllObeyed(turns: seq<Turn>, schedule: seq<Turn>, used: seq<Choice>)
    requires Scheduled(turns, schedule, used, None)
    ensures Obeys(turns, used)
  {
    assert used + [] == used;
  }

  /** A caller that just arrived has read nothing. */
  lemma ArrivedUnused(history: seq<Event>, body: string, bounds: Bounds, schedule: seq<Turn>)
    requires Exec(INITIAL, history).Some?
    ensures
      var me := |Exec(INITIAL, history).value.callers|;
      Scheduled(schedule, schedule, Choices(history + [Arrive(Leaf, body, bounds)], me), None)
  {
    hide Exec, Next, AllStand;
    RunStands(history);
    ChoicesExtend(history, Arrive(Leaf, body, bounds), |Exec(INITIAL, history).value.callers|);
  }

  predicate Foreign(e: Event, me: nat) {
    (e.Await? ==> e.i != me) && (e.Crash? ==> e.i != me)
  }

  lemma ExecExtend(es: seq<Event>, e: Event)
    requires Exec(INITIAL, es).Some?
    ensures Exec(INITIAL, es + [e]) == Next(Exec(INITIAL, es).value, e)
  {
    hide Next;
    assert (es + [e])[..|es + [e]| - 1] == es;
  }

  /** The events so far are kept: nothing that happened is rewritten. */
  ghost predicate Extends(before: seq<Event>, after: seq<Event>) {
    before <= after
  }

  lemma ExtensionsCompose()
    ensures forall a, b, c :: Extends(a, b) && Extends(b, c) ==> Extends(a, c)
    ensures forall a :: Extends(a, a)
  {
  }

  /** A longer history only lets the reservation's world grow. */
  lemma HistoryGrows(before: seq<Event>, after: seq<Event>)
    requires Extends(before, after) && Exec(INITIAL, before).Some? && Exec(INITIAL, after).Some?
    ensures Grows(Exec(INITIAL, before).value.world, Exec(INITIAL, after).value.world)
  {
    hide Exec, Next, Grows, Inv;
    var more := after[|before|..];
    assert after == before + more;
    ExecConcat(INITIAL, before, more);
    ReachableInv(before);
    NothingIsUndone(Exec(INITIAL, before).value, more);
  }

  /** Other callers' events leave this caller where it is. */
  lemma ForeignLeavesMe(s: State, e: Event, me: nat)
    requires me < |s.callers| && Foreign(e, me) && Next(s, e).Some?
    ensures me < |Next(s, e).value.callers| && Next(s, e).value.callers[me] == s.callers[me]
  {
    hide StepCaller;
  }

  /** At `pc` the caller settles from its copy `res` and goes on to `next`. */
  predicate SettlesAt(pc: PC, res: Reservation, report: Option<Report>, next: PC) {
    match pc
    case Reuse(r) => res == r && report.None? && next == Returned(Reused(r.response))
    case CloseObserved(r) => res == r && report.None? && next == Returned(Unresolved)
    case CloseFailed(r) => res == r && report.None? && next == Returned(DispatchFailed)
    case Settle(r, response, said) => res == r && report == said && next == Returned(Received(response, said))
    case _ => false
  }

  lemma SettlesThere(w: World, i: nat, c: Caller, ch: Choice, copy: Reservation, report: Option<Report>, next: PC)
    requires SettlesAt(c.pc, copy, report, next)
    ensures StepCaller(w, i, c, ch) == SettleFrom(w, c, i, copy, report, next) && next.Returned?
  {
  }

  /** The books are closed: the reservation is settled, with a recorded charge. */
  ghost predicate Closed(w: World) {
    w.reservation.Some? && w.reservation.value.phase == Settled && w.settlement.Some?
  }

  /** The bill is above what the request was sent with: the books stay open, the answer stays durable. */
  ghost predicate LeftOpen(w: World, usage: Usage) {
    && w.reservation.Some? && w.reservation.value.phase == Persisted && w.settlement.None?
    && !WithinBounds(usage, w.reservation.value.bounds)
  }

  /** A settlement the protocol attempts closes the books, with its own usage or over somebody's charge
      at the maximum, or is refused for its bill. */
  lemma SettleOutcome(trace: seq<Event>, me: nat, copy: Reservation, report: Option<Report>, next: PC)
    requires Exec(INITIAL, trace).Some? && me < |Exec(INITIAL, trace).value.callers|
    requires SettlesAt(Exec(INITIAL, trace).value.callers[me].pc, copy, report, next)
    ensures
      var s := Exec(INITIAL, trace).value;
      var t, usage := SettleFrom(s.world, s.callers[me], me, copy, report, next), UsageFor(copy, report);
      && (if t.caller.pc == next then Closed(t.world) else LeftOpen(t.world, usage))
      && t.world.reservation.Some? && t.world.reservation.value.bounds == copy.bounds
  {
    hide Exec, SettleFrom, WorldInv, CallerInv, SettlesAt, WithinBounds, UsageFor;
    ReachableInv(trace);
    var s := Exec(INITIAL, trace).value;
    assert CallerInv(s.world, me, s.callers[me]);
    SettlerHolds(s.world, me, s.callers[me], copy, report, next);
    SettleEvolves(s.world, s.callers[me], me, copy, report, next);
    if s.world.settlement.None? && copy.phase == Persisted { OpenRow(s.world, copy); }
  }

  lemma SettlerHolds(w: World, i: nat, c: Caller, copy: Reservation, report: Option<Report>, next: PC)
    requires CallerInv(w, i, c) && SettlesAt(c.pc, copy, report, next)
    ensures CopyOf(w, copy) && copy.phase != Released && next.Returned?
    ensures UsageFor(copy, report) != AuthorizedMaximum ==> w.winner == Some(i)
  {
  }

  lemma OpenRow(w: World, copy: Reservation)
    requires WorldInv(w) && CopyOf(w, copy) && copy.phase == Persisted && w.settlement.None?
    ensures w.reservation.value.phase == Persisted
  {
  }

  class LeafRequest {
    var state: State
    var schedule: seq<Turn>
    const me: nat
    ghost var trace: seq<Event>

    /** The schedule this caller came with, and the input read for the await at hand. */
    ghost const turns: seq<Turn>
    ghost var offered: Option<Choice>

    ghost predicate Valid()
      reads this
    {
      && Exec(INITIAL, trace) == Some(state) && me < |state.callers| && state.callers[me].role == Leaf
      && Scheduled(turns, schedule, Choices(trace, me), offered)
    }

    /** Between two awaits. */
    ghost predicate Ready()
      reads this
    {
      Valid() && offered.None?
    }

    ghost predicate At(pc: PC)
      reads this
    {
      Ready() && state.callers[me].pc == pc
    }

    /** Returned an outcome, or threw. */
    ghost predicate Ended(r: Option<Outcome>)
      reads this
    {
      At(if r.Some? then Returned(r.value) else Gone)
    }

    /** A new caller arrives after any history. */
    constructor (before: State, body: string, bounds: Bounds, schedule: seq<Turn>, ghost history: seq<Event>)
      requires Exec(INITIAL, history) == Some(before)
      ensures At(Enter) && this.schedule == schedule && state.world == before.world
      ensures trace == history + [Arrive(Leaf, body, bounds)] && turns == schedule
    {
      hide StepCaller, Scheduled, Choices;
      ArrivedUnused(history, body, bounds, schedule);
      turns, offered := schedule, None;
      state := before.(callers := before.callers + [Caller(Leaf, body, bounds, Enter, false, false, false, None)]);
      me := |before.callers|;
      this.schedule := schedule;
      trace := history + [Arrive(Leaf, body, bounds)];
      ExecExtend(history, Arrive(Leaf, body, bounds));
    }

    method Yield() returns (ch: Choice)
      requires Ready()
      modifies this
      ensures Extends(old(trace), trace)
      ensures Valid() && offered == Some(ch) && state.callers[me] == old(state.callers[me])
    {
      hide Scheduled, Exec, Next;
      OffersNext(turns, schedule, Choices(trace, me));
      ch := if |schedule| == 0 then IDLE else schedule[0].choice;
      offered := Some(ch);
      if |schedule| > 0 {
        var others := schedule[0].others;
        schedule := schedule[1..];
        for k := 0 to |others|
          invariant Valid() && offered == Some(ch) && state.callers[me] == old(state.callers[me])
          invariant Extends(old(trace), trace)
        {
          var after := Next(state, others[k]);
          if Foreign(others[k], me) && after.Some? {
            ForeignLeavesMe(state, others[k], me);
            ExecExtend(trace, others[k]);
            ChoicesExtend(trace, others[k], me);
            assert Choices(trace + [others[k]], me) == Choices(trace, me);
            state := after.value;
            trace := trace + [others[k]];
          }
        }
      }
    }

    /** This caller's await: on the input just read, the code computed what the protocol prescribes. */
    method Advance(ch: Choice, world: World, caller: Caller)
      requires Valid() && offered == Some(ch) && caller.role == Leaf
      requires StepCaller(state.world, me, state.callers[me], ch) == Step(world, caller)
      modifies this`state, this`trace, this`offered
      ensures Ready() && state == State(world, old(state.callers)[me := caller])
      ensures Extends(old(trace), trace)
    {
      hide Exec, StepCaller, Scheduled, Choices;
      ExecExtend(trace, Await(me, ch));
      ChoicesExtend(trace, Await(me, ch), me);
      AwaitUses(turns, schedule, Choices(trace, me), ch);
      state := State(world, state.callers[me := caller]);
      trace, offered := trace + [Await(me, ch)], None;
    }

    /** Settle once; finding it settled already is not an error. False when the store refuses, which is
        exactly when the books are open and the bill is above what the request was sent with. */
    method SettleFromDurableFacts(copy: Reservation, report: Option<Report>, next: PC) returns (ok: bool)
      requires Ready() && SettlesAt(state.callers[me].pc, copy, report, next)
      modifies this
      ensures Extends(old(trace), trace)
      ensures At(if ok then next else Gone)
      ensures if ok then Closed(state.world) else LeftOpen(state.world, UsageFor(copy, report))
      ensures WithinBounds(UsageFor(copy, report), copy.bounds) || report.None? ==> ok
    {
      hide Exec, Extends, Scheduled, Choices, StepCaller, SettlesAt, Closed;
      ExtensionsCompose();
      var ch := Yield();
      ghost var before := trace;
      var w, c := state.world, state.callers[me];
      SettlesThere(w, me, c, ch, copy, report, next);
      var usage := UsageFor(copy, report);
      ok := true;
      if copy.phase != Settled {
        if MaySettle(w, usage) {
          w := SettledBy(w, me, usage);
        } else {
          ok := w.reservation.Some? && (w.reservation.value.phase == Settled || w.reservation.value.phase == Released);
        }
      }
      Advance(ch, w, c.(pc := if ok then next else Gone));
      SettleOutcome(before, me, copy, report, next);
    }

    /** Another caller started the request: reuse its answer, report it, or close it. */
    method ResolveStartedRequest(copy: Reservation) returns (r: Option<Outcome>)
      requires At(Resolve(copy))
      modifies this
      ensures Extends(old(trace), trace)
      ensures Ended(r)
      ensures r.Some? && (r.value.Reused? || r.value.Unresolved? ==> Closed(state.world))
    {
      hide Exec, Extends, Scheduled, Choices, LeftOpen, WithinBounds, UsageFor, SettleFrom, Closed;
      ExtensionsCompose();
      var ch := Yield();
      var w, c := state.world, state.callers[me];
      if copy.phase == Persisted || copy.phase == Settled {
        Advance(ch, w, c.(pc := Reuse(copy)));
        var ok := SettleFromDurableFacts(copy, None, Returned(Reused(copy.response)));
        return if ok then Some(Reused(copy.response)) else None;
      }
      var classification := ClassifyRecovery(false, true, copy.startedClaim, w.claim, w.live, false);
      if w.live && classification == Some(DeliveryUncertain) {
        Advance(ch, w, c.(pc := Returned(Uncertain)));
        return Some(Uncertain);
      }
      if w.live {
        Advance(ch, w, c.(pc := Returned(InFlight)));
        return Some(InFlight);
      }
      if c.lost {
        Advance(ch, w, c.(pc := Returned(InFlight), sawDead := true));
        return Some(InFlight);
      }
      Advance(ch, w, c.(pc := CloseObserved(copy), sawDead := true));
      var ok := SettleFromDurableFacts(copy, None, Returned(Unresolved));
      return if ok then Some(Unresolved) else None;
    }

    /** The winner: send the persisted bytes, make the answer durable, settle it. */
    method DispatchAndSettle(started: Reservation) returns (r: Option<Outcome>)
      requires At(Dispatch(started))
      modifies this
      ensures Extends(old(trace), trace)
      ensures Ended(r)
    {
      hide Exec, Extends, Scheduled, Choices, LeftOpen, WithinBounds, UsageFor, SettleFrom;
      ExtensionsCompose();
      var ch := Yield();
      var w, c := state.world, state.callers[me];
      if started.phase != Started || started.bytes == "" {
        Advance(ch, w, c.(pc := Gone));
        return None;
      }
      w := w.(sent := w.sent + [Sending(me, started.bytes)]);
      if ch.reply.Failed? {
        Advance(ch, w, c.(pc := CloseFailed(started)));
        var ok := SettleFromDurableFacts(started, None, Returned(DispatchFailed));
        return if ok then Some(DispatchFailed) else None;
      }
      var response, report := ch.reply.response, ch.reply.report;
      Advance(ch, w.(answer := Some(response)), c.(pc := Persist(response, report)));
      r := PersistAndSettle(response, report);
    }

    method PersistAndSettle(response: string, report: Option<Report>) returns (r: Option<Outcome>)
      requires At(Persist(response, report))
      modifies this
      ensures Extends(old(trace), trace)
      ensures Ended(r)
    {
      hide Exec, Extends, Scheduled, Choices, LeftOpen, WithinBounds, UsageFor, SettleFrom;
      ExtensionsCompose();
      var ch := Yield();
      var w, c := state.world, state.callers[me];
      if w.reservation.None? || w.reservation.value.phase != Started {
        Advance(ch, w, c.(pc := Gone));
        return None;
      }
      w := w.(reservation := Some(w.reservation.value.(phase := Persisted, response := Some(response))));
      Advance(ch, w, c.(pc := RereadSettle(response, report)));
      r := SettleAnswer(response, report);
    }

    /** Settle what was just made durable, from the row as it now stands. */
    method SettleAnswer(response: string, report: Option<Report>) returns (r: Option<Outcome>)
      requires At(RereadSettle(response, report))
      modifies this
      ensures Extends(old(trace), trace)
      ensures Ended(r)
    {
      hide Exec, Extends, Scheduled, Choices, LeftOpen, WithinBounds, UsageFor, SettleFrom;
      ExtensionsCompose();
      var ch := Yield();
      var w, c := state.world, state.callers[me];
      if w.reservation.None? {
        Advance(ch, w, c.(pc := Gone));
        return None;
      }
      var copy := w.reservation.value;
      Advance(ch, w, c.(pc := Settle(copy, response, report)));
      var ok := SettleFromDurableFacts(copy, report, Returned(Received(response, report)));
      return if ok then Some(Received(response, report)) else None;
    }

    /** Without a credential give the reservation back; with one, try to win the start. */
    method StartAndRun(claim: Option<nat>) returns (r: Option<Outcome>)
      requires At(Credentials(claim))
      modifies this
      ensures Extends(old(trace), trace)
      ensures Ended(r)
    {
      hide Exec, Extends, Scheduled, Choices, LeftOpen, WithinBounds, UsageFor, SettleFrom;
      ExtensionsCompose();
      var ch := Yield();
      var c := state.callers[me];
      if ch.credentials {
        Advance(ch, state.world, c.(pc := Start(claim)));
        r := StartOrObserve(claim);
      } else {
        Advance(ch, state.world, c.(pc := Release));
        r := ReleaseUndispatched();
      }
    }

    method ReleaseUndispatched() returns (r: Option<Outcome>)
      requires At(Release)
      modifies this
      ensures Extends(old(trace), trace)
      ensures Ended(r)
    {
      hide Exec, Extends, Scheduled, Choices, LeftOpen, WithinBounds, UsageFor, SettleFrom;
      ExtensionsCompose();
      var ch := Yield();
      var w, c := state.world, state.callers[me];
      if w.reservation.None? || w.reservation.value.phase != Reserved {
        Advance(ch, w, c.(pc := Gone));
        return None;
      }
      w := w.(reservation := Some(w.reservation.value.(phase := Released)));
      Advance(ch, w, c.(pc := Returned(CredentialsUnavailable)));
      return Some(CredentialsUnavailable);
    }

    method StartOrObserve(claim: Option<nat>) returns (r: Option<Outcome>)
      requires At(Start(claim))
      modifies this
      ensures Extends(old(trace), trace)
      ensures Ended(r)
    {
      hide Exec, Extends, Scheduled, Choices, LeftOpen, WithinBounds, UsageFor, SettleFrom;
      ExtensionsCompose();
      var ch := Yield();
      var w, c := state.world, state.callers[me];
      if StaleClaim(w, claim) {
        Advance(ch, w, c.(pc := Returned(ReservationRefused)));
        return Some(ReservationRefused);
      }
      if w.reservation.Some? && w.reservation.value.phase == Reserved {
        var won := StartWon(w, me, Leaf, claim);
        Advance(ch, won, c.(pc := Dispatch(won.reservation.value)));
        r := DispatchAndSettle(won.reservation.value);
        return;
      }
      Advance(ch, w, c.(pc := RereadLost, lost := true));
      r := ObserveWinner();
    }

    /** The start was lost: the freshly read row decides. */
    method ObserveWinner() returns (r: Option<Outcome>)
      requires At(RereadLost)
      modifies this
      ensures Extends(old(trace), trace)
      ensures Ended(r)
    {
      hide Exec, Extends, Scheduled, Choices, LeftOpen, WithinBounds, UsageFor, SettleFrom;
      ExtensionsCompose();
      var ch := Yield();
      var w, c := state.world, state.callers[me];
      if w.reservation.None? {
        Advance(ch, w, c.(pc := Gone));
        return None;
      }
      Advance(ch, w, c.(pc := Resolve(w.reservation.value)));
      r := ResolveStartedRequest(w.reservation.value);
    }

    /** Reserve or find the reservation, and let its durable lifecycle decide. */
    method ReserveAndRun(claim: Option<nat>) returns (r: Option<Outcome>)
      requires At(Reserve(claim))
      modifies this
      ensures Extends(old(trace), trace)
      ensures Ended(r)
    {
      hide Exec, Extends, Scheduled, Choices, LeftOpen, WithinBounds, UsageFor, SettleFrom;
      ExtensionsCompose();
      var ch := Yield();
      var w, c := state.world, state.callers[me];
      if ch.refused {
        Advance(ch, w, c.(pc := Returned(ReservationRefused)));
        return Some(ReservationRefused);
      }
      if w.reservation.None? {
        w := w.(reservation := Some(Reservation(Reserved, c.body, c.bounds, None, None)));
        Advance(ch, w, c.(pc := Credentials(claim)));
        r := StartAndRun(claim);
        return;
      }
      var found := w.reservation.value;
      Advance(ch, w, AfterReserve(c, found, claim));
      match found.phase
      case Reserved => r := StartAndRun(claim);
      case Started => r := ResolveStartedRequest(found);
      case Persisted =>
        var ok := SettleFromDurableFacts(found, None, Returned(Reused(found.response)));
        r := if ok then Some(Reused(found.response)) else None;
      case Settled => r := Some(Reused(found.response));
      case Released => r := Some(WasReleased);
    }

    /**
     `runGovernedLeafRequest`. Whatever came before and whatever interleaves, the transport has
     been used at most once, and `received` means this caller's own durable, settled answer.
     */
    method RunGovernedLeafRequest() returns (r: Option<Outcome>)
      requires At(Enter)
      modifies this
      ensures Extends(old(trace), trace)
      ensures Ended(r)
      ensures Grows(old(state.world), state.world) && |state.world.sent| <= 1
      ensures r.Some? && r.value.Received? ==>
        && state.world.reservation.Some?
        && state.world.sent == [Sending(me, state.world.reservation.value.bytes)]
        && state.world.reservation.value.phase == Settled
        && state.world.reservation.value.response == Some(r.value.response)
      ensures r.Some? ==> Told(r.value, Choices(trace, me)) && Obeys(turns, Choices(trace, me))
    {
      hide Exec, Extends, Scheduled, Choices, StepObserve, StepWin;
      ExtensionsCompose();
      var ch := Yield();
      var c := state.callers[me];
      var claim := state.world.claim;
      Advance(ch, state.world, c.(pc := Reserve(claim), entered := claim));
      r := ReserveAndRun(claim);
      HistoryGrows(old(trace), trace);
      TransportAtMostOnce(trace);
      OutcomesFollowInputs(trace, me);
      AllObeyed(turns, schedule, Choices(trace, me));
      if r.Some? && r.value.Received? { ReceivedIsDurable(trace, me); }
    }
  }
}
