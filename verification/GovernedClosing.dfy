/**
 How the books of a started request are closed: by any later caller, and not by a winner whose bill is
 above what the request was sent with.
 */
module GovernedClosing {
  import opened Basics
  import opened GovernedDispatch
  import opened GovernedRuns
  import opened GovernedReports
  import EconomicAccount
  import Money = Settlement
  import Pricing

  // ---------------------------------------------------------------- one more caller is enough

  /** Started, and nothing was charged yet. */
  predicate Owing(w: World) {
    w.reservation.Some? && (w.reservation.value.phase == Started || w.reservation.value.phase == Persisted)
  }

  predicate HasAnswer(w: World) {
    w.reservation.Some? && w.reservation.value.phase == Persisted
  }

  predicate IsClosed(w: World) {
    w.reservation.Some? && w.reservation.value.phase == Settled && w.settlement.Some?
  }

  /** Awaits a caller on its way to the settlement still needs. */
  function AwaitsLeft(pc: PC): nat {
    match pc
    case Enter => 4
    case Reserve(_) => 3
    case Resolve(_) => 2
    case Reuse(_) => 1
    case CloseObserved(_) => 1
    case _ => 0
  }

  /** Caller `me` is on its way: nothing can stop it but a crash, a refused reservation or, while no
      answer is durable (`quiet`), a new claim. */
  predicate OnTheWay(w: World, c: Caller, quiet: bool) {
    && c.role == Leaf && !c.lost && (quiet ==> !w.live)
    && (IsClosed(w) || (if quiet then Owing(w) else HasAnswer(w)))
    && match c.pc
       case Enter => true
       case Reserve(_) => true
       case Resolve(res) => quiet && res.phase == Started
       case Reuse(res) => res.phase == Persisted
       case CloseObserved(res) => quiet && res.phase == Started
       case Returned(o) => IsClosed(w) && (o.Reused? || o.Unresolved?)
       case _ => false
  }

  /** The caller lives, its reservation is not refused, and no claim makes the lease live again. */
  predicate Lets(e: Event, me: nat, quiet: bool) {
    && e != Crash(me)
    && (e.Await? && e.i == me ==> !e.choice.refused)
    && (quiet ==> !e.Claim?)
  }

  function AwaitsOf(es: seq<Event>, me: nat): nat {
    if |es| == 0 then 0
    else
      var last := es[|es| - 1];
      AwaitsOf(es[..|es| - 1], me) + if last.Await? && last.i == me then 1 else 0
  }

  lemma OpeningMoves(w: World, me: nat, c: Caller, ch: Choice, quiet: bool)
    requires WorldInv(w) && CallerInv(w, me, c) && OnTheWay(w, c, quiet) && !ch.refused && (c.pc.Enter? || c.pc.Reserve?)
    ensures
      var t := StepCaller(w, me, c, ch);
      OnTheWay(t.world, t.caller, quiet) && AwaitsLeft(t.caller.pc) < AwaitsLeft(c.pc)
  {
  }

  lemma ClosingMoves(w: World, me: nat, c: Caller, ch: Choice, quiet: bool)
    requires WorldInv(w) && CallerInv(w, me, c) && OnTheWay(w, c, quiet) && !c.pc.Enter? && !c.pc.Reserve?
    ensures
      var t := StepCaller(w, me, c, ch);
      && OnTheWay(t.world, t.caller, quiet)
      && (AwaitsLeft(c.pc) > 0 ==> AwaitsLeft(t.caller.pc) < AwaitsLeft(c.pc))
      && (AwaitsLeft(c.pc) == 0 ==> t.caller == c)
  {
    LeaseUntouched(w, me, c, ch);
    hide WorldInv, SettleFrom;
    match c.pc
    case Reuse(res) => SettleEvolves(w, c, me, res, None, Returned(Reused(res.response)));
    case CloseObserved(res) => SettleEvolves(w, c, me, res, None, Returned(Unresolved));
    case _ =>
  }

  /** What other callers do leaves the caller on its way. */
  lemma OthersLetItPass(w: World, i: nat, other: Caller, ch: Choice, c: Caller, quiet: bool)
    requires WorldInv(w) && CallerInv(w, i, other) && OnTheWay(w, c, quiet)
    ensures OnTheWay(StepCaller(w, i, other, ch).world, c, quiet)
  {
    var t := StepCaller(w, i, other, ch);
    LeaseUntouched(w, i, other, ch);
    hide CallerInv, StepCaller;
    assert Evolves(w, t.world, i) && WorldInv(t.world) by { hide *; StepEvolves(w, i, other, ch); }
  }

  lemma LeaseUntouched(w: World, i: nat, c: Caller, ch: Choice)
    ensures StepCaller(w, i, c, ch).world.live == w.live
  {
  }

  lemma NextLetsItPass(s: State, e: Event, me: nat, quiet: bool)
    requires Inv(s) && me < |s.callers| && OnTheWay(s.world, s.callers[me], quiet)
    requires Lets(e, me, quiet) && Next(s, e).Some?
    ensures
      var t := Next(s, e).value;
      && me < |t.callers| && OnTheWay(t.world, t.callers[me], quiet)
      && AwaitsLeft(t.callers[me].pc) <= AwaitsLeft(s.callers[me].pc)
      && (e.Await? && e.i == me && AwaitsLeft(s.callers[me].pc) > 0 ==>
            AwaitsLeft(t.callers[me].pc) < AwaitsLeft(s.callers[me].pc))
  {
    hide WorldInv, CallerInv, SettlerInv, StepCaller, AwaitsLeft;
    if e.Await? {
      assert CallerInv(s.world, e.i, s.callers[e.i]);
      if e.i != me {
        OthersLetItPass(s.world, e.i, s.callers[e.i], e.choice, s.callers[me], quiet);
      } else if s.callers[me].pc.Enter? || s.callers[me].pc.Reserve? {
        OpeningMoves(s.world, me, s.callers[me], e.choice, quiet);
      } else {
        ClosingMoves(s.world, me, s.callers[me], e.choice, quiet);
      }
    }
  }

  lemma {:induction false} RunLetsItPass(s: State, es: seq<Event>, me: nat, quiet: bool)
    requires Inv(s) && me < |s.callers| && OnTheWay(s.world, s.callers[me], quiet)
    requires Exec(s, es).Some? && forall e :: e in es ==> Lets(e, me, quiet)
    ensures
      var t := Exec(s, es).value;
      && me < |t.callers| && OnTheWay(t.world, t.callers[me], quiet)
      && (AwaitsLeft(t.callers[me].pc) == 0 || AwaitsLeft(t.callers[me].pc) + AwaitsOf(es, me) <= AwaitsLeft(s.callers[me].pc))
  {
    hide Inv, Next, OnTheWay, Lets, AwaitsLeft;
    if |es| > 0 {
      var front := es[..|es| - 1];
      assert forall e :: e in front ==> e in es;
      RunLetsItPass(s, front, me, quiet);
      RunKeepsInv(s, front);
      NextLetsItPass(Exec(s, front).value, es[|es| - 1], me, quiet);
    }
  }

  /**
   No started request stays unsettled for want of anything but a caller. After any history that left it
   owing, one leaf caller that is not crashed closes the books within four of its own awaits and
   returns, whatever the others do meanwhile: at once when an answer is durable, and otherwise
   as long as the lease has lapsed and no new claim is made.
   */
  lemma OneMoreCallerCloses(past: seq<Event>, body: string, bounds: Bounds, later: seq<Event>)
    requires Exec(INITIAL, past).Some? && Owing(Exec(INITIAL, past).value.world)
    requires
      var s := Exec(INITIAL, past).value;
      var quiet := !HasAnswer(s.world);
      && (quiet ==> !s.world.live)
      && (forall e :: e in later ==> Lets(e, |s.callers|, quiet))
      && AwaitsOf(later, |s.callers|) >= 4
    requires Exec(INITIAL, past + [Arrive(Leaf, body, bounds)] + later).Some?
    ensures
      var me := |Exec(INITIAL, past).value.callers|;
      var t := Exec(INITIAL, past + [Arrive(Leaf, body, bounds)] + later).value;
      && IsClosed(t.world) && me < |t.callers| && t.callers[me].pc.Returned?
      && (t.callers[me].pc.outcome.Reused? || t.callers[me].pc.outcome.Unresolved?)
  {
    hide Exec, WorldInv, SettlerInv, CallerInv, AwaitsOf, Lets;
    var s := Exec(INITIAL, past).value;
    var quiet := !HasAnswer(s.world);
    var arrived := s.(callers := s.callers + [Caller(Leaf, body, bounds, Enter, false, false, false, None)]);
    var all := past + [Arrive(Leaf, body, bounds)];
    assert all[..|past|] == past;
    assert Exec(INITIAL, all) == Some(arrived) by { ExecStep(all); }
    assert Inv(arrived) by { hide Inv; ReachableInv(all); }
    ExecConcat(INITIAL, all, later);
    RunLetsItPass(arrived, later, |s.callers|, quiet);
  }

  lemma ExecStep(es: seq<Event>)
    requires |es| > 0 && Exec(INITIAL, es[..|es| - 1]).Some?
    ensures Exec(INITIAL, es) == Next(Exec(INITIAL, es[..|es| - 1]).value, es[|es| - 1])
  {
    hide Next;
  }

  // ---------------------------------------------------------------- the account settles the same rows

  /** What a prepared request is sent with. */
  function BoundsOf(q: Money.Prepared): Bounds {
    Bounds(q.outputCap, q.authority.contextWindow)
  }

  function Billed(usage: Usage): Money.Usage {
    match usage
    case AuthorizedMaximum => Money.AssumedMaximum
    case ProviderReported(input, output) => Money.Metered(input, output)
  }

  /** In every reachable state the protocol settles a usage if and only if the account can build a
      receipt for it from the same row, prepared as the governed paths prepare it: for the
      authority's whole per-request maximum. */
  lemma AccountAgrees(
    es: seq<Event>, report: Option<Report>, row: EconomicAccount.Row,
    p: Money.Policy, e: Pricing.Entry, model: Pricing.Model)
    requires Exec(INITIAL, es).Some? && Exec(INITIAL, es).value.world.reservation.Some?
    requires EconomicAccount.Sound(row) && Pricing.WellFormed(e) && Money.BuildAuthority(p, e, model).Ok?
    requires
      var a := Money.BuildAuthority(p, e, model).value;
      Money.Prepare(a, row.request.ordinal, row.request.outputCap, a.perRequest) == Ok(row.request)
    requires
      var res := Exec(INITIAL, es).value.world.reservation.value;
      row.phase == res.phase && BoundsOf(row.request) == res.bounds
    ensures MaySettle(Exec(INITIAL, es).value.world, DeriveUsage(report)) <==>
      EconomicAccount.Settleable(row, Billed(DeriveUsage(report)))
  {
    hide Exec, Next, CallerInv, SettlerInv;
    ReachableInv(es);
    hide Money.BuildAuthority, Money.BuildReceipt;
    Money.SettlesIffWithinBounds(p, e, model, row.request.ordinal, row.request.outputCap, Billed(DeriveUsage(report)));
  }

  // ---------------------------------------------------------------- a bill nobody can settle

  const TOO_LONG := Some(Report(Some(10), Some(101)))
  const LONG_ANSWER := Choice(false, true, Answered("ok", TOO_LONG))

  /** The winner's answer becomes durable and reports one token more than its request was capped at. */
  const OVERRUN := [Await(0, LONG_ANSWER), Await(0, EASY)]
  const REFUSED := [Await(0, EASY), Await(0, EASY)]
  const BILLED_STATE := State(DURABLE, [DUPLICATE.(pc := RereadSettle("ok", TOO_LONG))])
  const OPEN_STATE := State(DURABLE, [DUPLICATE.(pc := Gone)])
  const CLOSED_STATE := State(CHARGED, [DUPLICATE.(pc := Gone), REUSED])

  lemma LongAnswerIsDurable()
    ensures Exec(WON_STATE, OVERRUN) == Some(BILLED_STATE)
  {
    var answered := WON.(sent := [Sending(0, "a")], answer := Some("ok"));
    assert [] + [Sending(0, "a")] == [Sending(0, "a")];
    var states := [WON_STATE, State(answered, [DUPLICATE.(pc := Persist("ok", TOO_LONG))]), BILLED_STATE];
    CallerLists();
    ExecFollows(states, OVERRUN);
  }

  lemma WinnerThrows()
    ensures Exec(BILLED_STATE, REFUSED) == Some(OPEN_STATE)
  {
    var states := [BILLED_STATE, State(DURABLE, [DUPLICATE.(pc := Settle(STORED, "ok", TOO_LONG))]), OPEN_STATE];
    CallerLists();
    ExecFollows(states, REFUSED);
  }

  lemma DuplicateCloses()
    ensures Exec(OPEN_STATE, OVERTAKE) == Some(CLOSED_STATE)
  {
    var a, thrown := DUPLICATE, DUPLICATE.(pc := Gone);
    var states := [
      OPEN_STATE, State(DURABLE, [thrown, a]), State(DURABLE, [thrown, a.(pc := Reserve(None))]),
      State(DURABLE, [thrown, a.(pc := Reuse(STORED))]), CLOSED_STATE];
    CallerLists();
    ExecFollows(states, OVERTAKE);
  }

  /** The report was usable and the row still said `response_persisted`, yet nothing is charged and the
      winner throws; a later duplicate charges the maximum. */
  lemma OverrunIsNotCharged()
    ensures
      var open := Exec(INITIAL, TO_START + OVERRUN + REFUSED);
      && open.Some? && DeriveUsage(TOO_LONG) == ProviderReported(10, 101)
      && open.value.world.reservation == Some(STORED) && STORED.phase == Persisted
      && open.value.world.settlement.None? && open.value.callers == [DUPLICATE.(pc := Gone)]
    ensures
      var end := Exec(INITIAL, TO_START + OVERRUN + REFUSED + OVERTAKE);
      end.Some? && end.value.world.settlement == Some(Settlement(1, AuthorizedMaximum, true))
  {
    hide Exec, Next;
    WinnerStarts();
    LongAnswerIsDurable();
    WinnerThrows();
    DuplicateCloses();
    ExecConcat(INITIAL, TO_START, OVERRUN);
    ExecConcat(INITIAL, TO_START + OVERRUN, REFUSED);
    ExecConcat(INITIAL, TO_START + OVERRUN + REFUSED, OVERTAKE);
  }
}
