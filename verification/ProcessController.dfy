/**
 The process-execution controller in its own form: methods that step the durable world
 await by await while holding the operation lock.

 Every method is proved to follow the transition system of ProcessProtocol, whatever the
 unlocked parties do between two awaits, so what is proved of all its runs holds here.
 */
module ProcessController {
  import opened Basics
  import opened ProcessWorld
  import opened ProcessProtocol
  import opened ProcessInvariant
  import opened ProcessRuns
  import opened ProcessRecovery
  import opened ProcessCancellation
  import opened ProcessSessions

  /** What happens around one await: unlocked parties' events, then this session's inputs. */
  datatype Turn = Turn(others: seq<Event>, choice: Choice)

  /** What an await reads once the schedule is spent. */
  const IDLE := Choice(false, Refuses, false, 0)
  const UNWATCHED := IDLE.(giveUp := true)

  /** What the `j`-th await of a session reads: the schedule's input, and nothing else. */
  function Offer(turns: seq<Turn>, j: nat): Choice {
    if j < |turns| then turns[j].choice.(giveUp := false) else IDLE
  }

  /** The inputs a session has read, in order, are those it was offered; it gave up, if at all, only once
      the schedule was spent. */
  ghost predicate Obeys(turns: seq<Turn>, used: seq<Choice>) {
    forall j :: 0 <= j < |used| ==> used[j] == Offer(turns, j) || (used[j] == UNWATCHED && |turns| <= j)
  }

  function Used(since: seq<Event>, offered: Option<Choice>): seq<Choice> {
    Choices(since) + if offered.Some? then [offered.value] else []
  }

  /** Every turn consumed went into one await, or is the input just read. */
  ghost predicate Scheduled(turns: seq<Turn>, schedule: seq<Turn>, since: seq<Event>, offered: Option<Choice>) {
    var used := Used(since, offered);
    && Obeys(turns, used)
    && schedule == if |used| <= |turns| then turns[|used|..] else []
  }

  /** The next turn is offered. */
  lemma OffersNext(turns: seq<Turn>, schedule: seq<Turn>, since: seq<Event>)
    requires Scheduled(turns, schedule, since, None)
    ensures
      var ch := if schedule == [] then IDLE else schedule[0].choice.(giveUp := false);
      Scheduled(turns, if schedule == [] then [] else schedule[1..], since, Some(ch))
  {
  }

  lemma OthersUseNothing(turns: seq<Turn>, schedule: seq<Turn>, since: seq<Event>, offered: Option<Choice>, e: Event)
    requires Scheduled(turns, schedule, since, offered) && !e.Await?
    ensures Scheduled(turns, schedule, since + [e], offered)
  {
    ChoicesExtend(since, e);
  }

  lemma AwaitUses(turns: seq<Turn>, schedule: seq<Turn>, since: seq<Event>, offered: Option<Choice>, ch: Choice)
    requires Scheduled(turns, schedule, since, offered)
    requires offered == Some(ch) || (offered.None? && schedule == [] && ch == UNWATCHED)
    ensures Scheduled(turns, schedule, since + [Await(ch)], None)
  {
    ChoicesExtend(since, Await(ch));
    var after := Used(since + [Await(ch)], None);
    assert after == Choices(since) + [ch];
    if offered.None? { assert Used(since, None) == Choices(since); }
  }

  /** Giving up means that the schedule was spent. */
  lemma GaveUpLate(turns: seq<Turn>, schedule: seq<Turn>, since: seq<Event>)
    requires Scheduled(turns, schedule, since, None)
    requires Choices(since) != [] && Choices(since)[|Choices(since)| - 1].giveUp
    ensures schedule == []
  {
    assert Used(since, None) == Choices(since);
  }

  /** Unlocked parties neither see nor move the session's point. */
  lemma OthersLeaveSession(w: World, pc: PC, e: Event)
    requires Calm(e) && !e.Await? && Next(State(w, Unlocked), e).Some?
    ensures Next(State(w, pc), e) == Some(State(Next(State(w, Unlocked), e).value.world, pc))
  {
  }

  /** One more event at the end of a calm run. */
  lemma ExecExtend(s: State, es: seq<Event>, e: Event)
    requires Exec(s, es).Some?
    ensures Exec(s, es + [e]) == Next(Exec(s, es).value, e)
    ensures AllCalm(es) && Calm(e) ==> AllCalm(es + [e])
  {
    hide Next, AllCalm, Calm;
    assert (es + [e])[..|es + [e]| - 1] == es;
    CalmExtends(es, e);
  }

  lemma CalmExtends(es: seq<Event>, e: Event)
    ensures AllCalm(es) && Calm(e) ==> AllCalm(es + [e])
  {
    hide Calm;
  }

  lemma ExecuteStarts(s: State)
    requires Free(s.pc)
    ensures Next(s, StartExecute) == Some(State(s.world,
      if s.world.record.Some? then Begin(s.world.record.value, false, None) else Admit))
  {
  }

  lemma RunFinished(past: seq<Event>, since: seq<Event>, s: State)
    requires Exec(INITIAL, past).Some? && Exec(Exec(INITIAL, past).value, since) == Some(s) && s.pc.Done?
    ensures s.pc.action == ExpectedAction(s.pc.action.result)
    ensures OperationFinished(s.world, s.pc.action.result)
  {
    hide Exec, Inv, OperationFinished, ExpectedAction;
    InitialInv();
    RunKeepsInv(INITIAL, past);
    RunKeepsInv(Exec(INITIAL, past).value, since);
    ReturnedMeansFinished(s);
  }

  /** A returned action is the one its result demands, of an operation recorded and acknowledged in full. */
  ghost predicate Delivered(w: World, r: Result<ActionResult, Failure>) {
    r.Ok? ==> r.value == ExpectedAction(r.value.result) && OperationFinished(w, r.value.result)
  }

  /** Terminal evidence, receipt and, for complete output, both artifacts with their evidence are durable. */
  ghost predicate EvidencePublished(w: World) {
    w.record.Some? && w.record.value.terminal.Some? && DurableOutputs(w, w.record.value.terminal.value)
  }

  ghost predicate BothAcknowledged(w: World) {
    w.record.Some? && w.record.value.acknowledged && w.entry.Some? && w.entry.value.acknowledged
  }

  /** The launcher was asked exactly once. It refused, and so says the session; or it accepted, and the
      session returned the outcome of its process or gave up once the schedule was spent. */
  ghost predicate AskedOnce(before: World, reply: LaunchReply, w: World, left: seq<Turn>, r: Result<ActionResult, Failure>) {
    && w.asks == before.asks + 1
    && if reply.Refuses? then w.entry.None? && r == Err(LaunchRefused)
       else
         && w.entry.Some?
         && (|| (r == Err(ObservationFailed) && left == [])
             || (w.entry.value.run.Ended? && r == Ok(ExpectedAction(w.entry.value.run.result))))
  }

  /** Nothing was launched, and this outcome was recorded. */
  ghost predicate NeverAsked(before: World, outcome: Outcome, now: int, w: World, r: Result<ActionResult, Failure>) {
    w.asks == before.asks && w.entry.None? && r == Ok(ExpectedAction(UnlaunchedResult(outcome, now)))
  }

  /** A new operation: no capability, no row and no launch; with it a row, and unless a cancellation was
      requested meanwhile, one ask. */
  ghost predicate NewOutcome(before: World, turns: seq<Turn>, w: World, left: seq<Turn>, r: Result<ActionResult, Failure>) {
    if !Offer(turns, 0).authority
    then r == Err(CapabilityUnavailable) && w.record.None? && w.asks == before.asks
    else w.record.Some? && (!CancelRequested(w) ==> AskedOnce(before, Offer(turns, 4).launch, w, left, r))
  }

  /** An intent the launcher never heard of: unless a cancellation was requested meanwhile, an earlier
      request or a missing capability is recorded as its outcome, and otherwise there is one ask. */
  ghost predicate IntentOutcome(before: World, turns: seq<Turn>, w: World, left: seq<Turn>, r: Result<ActionResult, Failure>) {
    CancelRequested(w) == CancelRequested(before) ==>
      if CancelRequested(before) then NeverAsked(before, Cancelled, Offer(turns, 1).now, w, r)
      else if !Offer(turns, 2).authority then NeverAsked(before, FailedToStart, Offer(turns, 2).now, w, r)
      else AskedOnce(before, Offer(turns, 3).launch, w, left, r)
  }

  lemma ReadsOffer(turns: seq<Turn>, schedule: seq<Turn>, since: seq<Event>, j: nat)
    requires Scheduled(turns, schedule, since, None) && j < |Choices(since)|
    ensures
      var c := Choices(since)[j];
      c.authority == Offer(turns, j).authority && c.launch == Offer(turns, j).launch && c.now == Offer(turns, j).now
  {
    assert Used(since, None) == Choices(since);
  }

  /** What the session's inputs decided, said on the schedule. */
  lemma EndedAsOffered(
    before: World, turns: seq<Turn>, schedule: seq<Turn>, since: seq<Event>, t: State, en: Reading,
    r: Result<ActionResult, Failure>)
    requires Scheduled(turns, schedule, since, None) && EndsAs(t, Choices(since), en) && en.asks == before.asks
    requires t.pc == (match r case Ok(a) => Done(a) case Err(f) => Threw(f))
    ensures en.cancelled ==> NeverAsked(before, Cancelled, Offer(turns, en.opening + 1).now, t.world, r)
    ensures !en.cancelled && !en.capable && !Offer(turns, en.opening + 2).authority ==>
      NeverAsked(before, FailedToStart, Offer(turns, en.opening + 2).now, t.world, r)
    ensures !en.cancelled && (en.capable || Offer(turns, en.opening + 2).authority) ==>
      AskedOnce(before, Offer(turns, LaunchAt(en)).launch, t.world, schedule, r)
  {
    hide Scheduled, ExpectedAction;
    var c, o := Choices(since), en.opening;
    if |c| > o + 1 { ReadsOffer(turns, schedule, since, o + 1); }
    if |c| > o + 2 { ReadsOffer(turns, schedule, since, o + 2); }
    if |c| > LaunchAt(en) { ReadsOffer(turns, schedule, since, LaunchAt(en)); }
    if c != [] && c[|c| - 1].giveUp { GaveUpLate(turns, schedule, since); }
  }

  lemma NewSessionOutcome(
    past: seq<Event>, turns: seq<Turn>, schedule: seq<Turn>, since: seq<Event>, t: State,
    r: Result<ActionResult, Failure>)
    requires Exec(INITIAL, past).Some? && Free(Exec(INITIAL, past).value.pc)
    requires Exec(INITIAL, past).value.world.record.None? && AllUncrashed(since)
    requires Exec(State(Exec(INITIAL, past).value.world, Admit), since) == Some(t)
    requires t.pc == (match r case Ok(a) => Done(a) case Err(f) => Threw(f))
    requires Scheduled(turns, schedule, since, None)
    ensures NewOutcome(Exec(INITIAL, past).value.world, turns, t.world, schedule, r)
  {
    hide Exec, AllUncrashed, Scheduled, EndsAs, AskedOnce, NeverAsked;
    NewSession(past, since);
    ReadsOffer(turns, schedule, since, 0);
    var before := Exec(INITIAL, past).value.world;
    var en := Reading(2, true, false, before.asks);
    if EndsAs(t, Choices(since), en) { EndedAsOffered(before, turns, schedule, since, t, en, r); }
  }

  lemma IntentSessionOutcome(
    past: seq<Event>, start: Event, turns: seq<Turn>, schedule: seq<Turn>, since: seq<Event>, t: State,
    r: Result<ActionResult, Failure>)
    requires Exec(INITIAL, past).Some? && (start == StartExecute || start == StartReconcile(None))
    requires Idle(Exec(INITIAL, past).value.world, Exec(INITIAL, past).value.world.asks)
    requires Next(Exec(INITIAL, past).value, start).Some? && AllUncrashed(since)
    requires Exec(Next(Exec(INITIAL, past).value, start).value, since) == Some(t)
    requires t.pc == (match r case Ok(a) => Done(a) case Err(f) => Threw(f))
    requires Scheduled(turns, schedule, since, None)
    ensures IntentOutcome(Exec(INITIAL, past).value.world, turns, t.world, schedule, r)
  {
    hide Exec, Next, Idle, AllUncrashed, Scheduled, EndsAs, AskedOnce, NeverAsked;
    IntentSession(past, start, since);
    var before := Exec(INITIAL, past).value.world;
    var en := Reading(0, false, CancelRequested(before), before.asks);
    if EndsAs(t, Choices(since), en) { EndedAsOffered(before, turns, schedule, since, t, en, r); }
  }

  lemma InvAtPoints(s: State)
    requires Inv(s)
    ensures s.pc.RereadFinal? ==> EvidencePublished(s.world)
    ensures s.pc.AckReread? ==> BothAcknowledged(s.world)
  {
    hide DurableOutputs;
  }

  /** What the world holds when a session stands at these points. */
  lemma PointReached(past: seq<Event>, since: seq<Event>, s: State)
    requires Exec(INITIAL, past).Some? && Exec(Exec(INITIAL, past).value, since) == Some(s)
    ensures s.pc.RereadFinal? ==> EvidencePublished(s.world)
    ensures s.pc.AckReread? ==> BothAcknowledged(s.world)
  {
    hide Exec, Inv, EvidencePublished, BothAcknowledged;
    InitialInv();
    RunKeepsInv(INITIAL, past);
    RunKeepsInv(Exec(INITIAL, past).value, since);
    InvAtPoints(s);
  }

  /** At point `pc` the session publishes this evidence and then stands at `next`. */
  predicate Due(pc: PC, key: EvidenceKey, payload: Payload, next: PC) {
    match pc
    case AdmitEvidence(rec) => key == IntentAdmitted && payload == Plain && next == Begin(rec, true, None)
    case AcceptEvidence(rec, status) =>
      && key == LauncherAccepted && payload == Plain
      && next == if status.StillRunning? then Observe(rec) else CommitFinalizing(rec, status.result)
    case EvidenceTerminal(rec, out, err) =>
      && key == TerminalEvidence && rec.terminal.Some? && payload == TerminalFacts(rec.terminal.value)
      && next == EvidenceStdout(rec, out, err)
    case EvidenceStdout(rec, out, err) =>
      && key == StdoutEvidence && out.Some? && payload == ArtifactFacts(out.value)
      && next == EvidenceStderr(rec, out, err)
    case EvidenceStderr(rec, out, err) =>
      && key == StderrEvidence && err.Some? && payload == ArtifactFacts(err.value)
      && next == WriteReceipt(rec, out, err)
    case _ => false
  }

  /** From position `from` on, only other parties acted. */
  ghost predicate NoAwaits(es: seq<Event>, from: nat) {
    forall k :: from <= k < |es| ==> !es[k].Await?
  }

  /** The events so far are kept: nothing that happened is rewritten. */
  ghost predicate Extends(before: seq<Event>, after: seq<Event>) {
    before <= after
  }

  lemma ExtensionsCompose()
    ensures forall a, b, c :: Extends(a, b) && Extends(b, c) ==> Extends(a, c)
    ensures forall a :: Extends(a, a)
  {
  }

  /** The session completed exactly one await, as the last event. */
  ghost predicate OneAwait(before: seq<Event>, after: seq<Event>) {
    && before < after && after[|after| - 1].Await?
    && NoAwaits(after[..|after| - 1], |before|)
  }

  lemma OneAwaitAfter(before: seq<Event>, mid: seq<Event>, ch: Choice)
    requires Extends(before, mid) && NoAwaits(mid, |before|)
    ensures OneAwait(before, mid + [Await(ch)]) && Extends(before, mid + [Await(ch)])
  {
    var after := mid + [Await(ch)];
    assert after[..|after| - 1] == mid;
  }

  /** What one more locked session adds to a history only lets the world grow. */
  lemma HistoryGrows(past: seq<Event>, since: seq<Event>, e: Event, later: seq<Event>, w: World, s: State)
    requires Exec(INITIAL, past).Some? && Exec(Exec(INITIAL, past).value, since).Some?
    requires Exec(Exec(INITIAL, past).value, since).value.world == w
    requires Exec(INITIAL, past + since + [e]).Some?
    requires Exec(Exec(INITIAL, past + since + [e]).value, later) == Some(s)
    ensures Grows(w, s.world)
  {
    hide Next, Exec, Inv, Grows;
    var history, more := past + since, [e] + later;
    ExecConcat(INITIAL, past, since);
    ExecConcat(INITIAL, history + [e], later);
    assert history + [e] + later == history + more;
    ExecConcat(INITIAL, history, more);
    InitialInv();
    RunKeepsInv(INITIAL, history);
    NothingIsUndone(Exec(INITIAL, history).value, more);
  }

  lemma Judging(w: World, rec: Record, st: Status, ch: Choice)
    requires st.Finished?
    ensures Step(State(w, Judge(rec, st)), ch) == State(w, Judged(rec, st))
  {
  }

  lemma StartReads(s: State, e: Event)
    requires (e.StartExecute? || e.StartReconcile?) && Next(s, e).Some?
    ensures Next(s, e).value.world == s.world
  {
    hide StatusWasTrue;
  }

  lemma NoEvents(s: State)
    ensures Exec(s, []) == Some(s)
  {
  }

  lemma SessionScheduled(schedule: seq<Turn>)
    ensures Scheduled(schedule, schedule, [], None)
  {
  }

  lemma LauncherAcknowledgement(w: World, rec: Record, ch: Choice)
    ensures Step(State(w, AckLauncher(rec)), ch) ==
      if rec.terminal.None? then State(w, Threw(StateInvalid))
      else
        var told := AcknowledgeOutput(w, ResultHash(rec.terminal.value));
        if told.None? then State(w, Threw(AcknowledgementFailed)) else State(told.value, AckRecord(rec))
  {
  }

  lemma RowAcknowledgement(w: World, rec: Record, ch: Choice)
    ensures
      var after := Transition(w, {Terminal}, rec.revision, AcknowledgeRecord);
      Step(State(w, AckRecord(rec)), ch) ==
        if after.None? then State(w, Threw(AcknowledgementFailed)) else State(after.value, AckReread)
  {
  }

  lemma FinalReread(w: World, out: Option<Artifact>, err: Option<Artifact>, ch: Choice)
    ensures Step(State(w, RereadFinal(out, err)), ch) == State(w,
      if w.record.None? then Threw(StateInvalid)
      else if w.record.value.state == Terminal then Close(w.record.value)
      else CommitTerminal(w.record.value, out, err))
  {
  }

  lemma TerminalCommit(w: World, rec: Record, out: Option<Artifact>, err: Option<Artifact>, ch: Choice)
    ensures
      var after := Transition(w, {Finalizing, Intent}, rec.revision, ToTerminal(out, err));
      && (after.Some? ==> after.value.record.Some?)
      && Step(State(w, CommitTerminal(rec, out, err)), ch)
         == if after.None? then State(w, Threw(StateInvalid)) else State(after.value, Close(after.value.record.value))
  {
  }

  class ProcessExecutionController {
    var world: World
    var schedule: seq<Turn>

    /** The session's program point; the events up to its start; the events since. */
    ghost var pc: PC
    ghost var past: seq<Event>
    ghost var base: State
    ghost var since: seq<Event>

    /** The schedule at its start, and the input read for the await at hand. */
    ghost var turns: seq<Turn>
    ghost var offered: Option<Choice>

    ghost predicate Valid()
      reads this
    {
      && Exec(INITIAL, past) == Some(base)
      && Exec(base, since) == Some(State(world, pc))
      && AllUncrashed(since) && (pc != Threw(ObservationFailed) ==> AllCalm(since))
      && Scheduled(turns, schedule, since, offered)
    }

    /** Between two awaits. */
    ghost predicate Ready()
      reads this
    {
      Valid() && offered.None?
    }

    /** A session's result is the protocol's verdict, and delivers what it says. */
    ghost predicate Settled(r: Result<ActionResult, Failure>)
      reads this
    {
      Ready() && pc == (match r case Ok(a) => Done(a) case Err(f) => Threw(f)) && Delivered(world, r)
    }

    /** A runtime starts on whatever world any earlier history left behind. */
    constructor (world: World, schedule: seq<Turn>, ghost history: seq<Event>)
      requires Exec(INITIAL, history).Some? && Exec(INITIAL, history).value.world == world
      requires Free(Exec(INITIAL, history).value.pc)
      ensures Ready() && Free(pc) && this.world == world && this.schedule == schedule && past == history
    {
      this.world := world;
      this.schedule := schedule;
      turns, offered := schedule, None;
      past, base, since := history, Exec(INITIAL, history).value, [];
      pc := Exec(INITIAL, history).value.pc;
    }

    /** The world as it was when the session's last event began. */
    ghost function Before(): World
      requires Valid() && since != []
      reads this
    {
      Exec(base, since[..|since| - 1]).value.world
    }

    // ---------------------------------------------------------------- awaiting

    /** Unlocked parties act; the session learns its next inputs. */
    method Yield() returns (ch: Choice)
      requires Ready() && !pc.Threw?
      modifies this`world, this`schedule, this`since, this`offered
      ensures Valid() && !ch.giveUp && offered == Some(ch)
      ensures schedule == if old(schedule) == [] then [] else old(schedule)[1..]
      ensures Extends(old(since), since) && NoAwaits(since, |old(since)|)
    {
      ch := IDLE;
      ExtensionsCompose();
      OffersNext(turns, schedule, since);
      if |schedule| == 0 {
        offered := Some(ch);
      } else {
        hide Scheduled, Extends;
        var others := schedule[0].others;
        ch := schedule[0].choice.(giveUp := false);
        schedule, offered := schedule[1..], Some(ch);
        OthersAct(others);
      }
    }

    /** Whatever of this the other parties can do now, they do. */
    method OthersAct(others: seq<Event>)
      requires Valid() && !pc.Threw?
      modifies this`world, this`since
      ensures Valid() && Extends(old(since), since) && NoAwaits(since, |old(since)|)
    {
      hide Next, Exec, Calm, Scheduled;
      for i := 0 to |others|
        invariant Valid() && Extends(old(since), since) && NoAwaits(since, |old(since)|)
      {
        var e := others[i];
        var after := Next(State(world, Unlocked), e);
        if Calm(e) && !e.Await? && after.Some? {
          OthersLeaveSession(world, pc, e);
          ExecExtend(base, since, e);
          OthersUseNothing(turns, schedule, since, offered, e);
          world := after.value.world;
          since := since + [e];
        }
      }
    }

    /** The session's own await: on the input just read, the code computed what the protocol's step
        prescribes. Once the schedule is spent it may give up instead. */
    method Advance(ch: Choice, next: World, ghost point: PC)
      requires Valid() && !Free(pc)
      requires offered == Some(ch) || (offered.None? && schedule == [] && ch == UNWATCHED)
      requires Step(State(world, pc), ch) == State(next, point)
      requires ch.giveUp ==> point == Threw(ObservationFailed)
      modifies this`world, this`pc, this`since, this`offered
      ensures Ready() && world == next && pc == point
      ensures since == old(since) + [Await(ch)] && Extends(old(since), since)
      ensures Before() == old(world)
    {
      hide Exec, Step, Scheduled;
      ExecExtend(base, since, Await(ch));
      AwaitUses(turns, schedule, since, offered, ch);
      world := next;
      pc := point;
      since, offered := since + [Await(ch)], None;
      assert since[..|since| - 1] == old(since);
    }

    /** Take the operation lock and read the row. */
    method Lock(e: Event)
      requires Ready() && Free(pc) && Next(State(world, pc), e).Some?
      requires e.StartExecute? || e.StartReconcile?
      modifies this`pc, this`past, this`base, this`since, this`turns
      ensures Ready() && since == [] && past == old(past) + old(since) + [e] && turns == schedule
      ensures base == Next(old(State(world, pc)), e).value == State(world, pc)
    {
      hide Scheduled, Next, Exec;
      StartReads(State(world, pc), e);
      SessionScheduled(schedule);
      NoEvents(Next(State(world, pc), e).value);
      var before := State(world, pc);
      ExecConcat(INITIAL, past, since);
      ExecExtend(INITIAL, past + since, e);
      past := past + since + [e];
      base := Next(before, e).value;
      pc := base.pc;
      since, turns := [], schedule;
    }

    // ---------------------------------------------------------------- evidence and rows

    method MarkActive(record: Record, status: Status) returns (r: Result<Record, Failure>)
      requires Ready() && pc == CommitActive(record, status)
      modifies this`world, this`schedule, this`pc, this`since, this`offered
      ensures Extends(old(since), since)
      ensures Ready()
      ensures r.Ok? ==> pc == AcceptEvidence(r.value, status)
      ensures r.Err? ==> pc == Threw(r.error)
      ensures OneAwait(old(since), since)
      ensures r.Err? ==> Before() == world
      ensures r.Ok? ==>
        (if record.state == Active then Before() == world && r.value == record
         else Transition(Before(), {Intent}, record.revision, ToActive) == Some(world) && world.record == Some(r.value))
    {
      hide Valid, Extends, NoAwaits, OneAwait, Before;
      var ch := Yield();
      OneAwaitAfter(old(since), since, ch);
      if record.state == Active {
        Advance(ch, world, AcceptEvidence(record, status));
        return Ok(record);
      }
      var after := Transition(world, {Intent}, record.revision, ToActive);
      if after.None? {
        Advance(ch, world, Threw(StateInvalid));
        return Err(StateInvalid);
      }
      Advance(ch, after.value, AcceptEvidence(after.value.record.value, status));
      return Ok(after.value.record.value);
    }

    method PublishKeyed(key: EvidenceKey, payload: Payload, ghost next: PC) returns (r: Result<(), Failure>)
      requires Ready() && Due(pc, key, payload, next)
      modifies this`world, this`schedule, this`pc, this`since, this`offered
      ensures Extends(old(since), since)
      ensures Ready()
      ensures r.Ok? ==> pc == next
      ensures r.Err? ==> pc == Threw(r.error)
    {
      hide Valid, Extends;
      ExtensionsCompose();
      var ch := Yield();
      var after := PublishEvidence(world, key, payload);
      if after.None? {
        Advance(ch, world, Threw(EvidenceFailed));
        return Err(EvidenceFailed);
      }
      Advance(ch, after.value, next);
      return Ok(());
    }

    /** Poll until the launcher reports a terminal status, or give up when the schedule is spent. */
    method ObserveTerminal(record: Record) returns (r: Result<Status, Failure>)
      requires Ready() && pc == Observe(record)
      modifies this`world, this`schedule, this`pc, this`since, this`offered
      ensures Extends(old(since), since)
      ensures Ready()
      ensures r.Ok? ==> r.value.Finished? && pc == Refresh(r.value)
      ensures r.Err? ==> pc == Threw(r.error) && (schedule == [] || world.entry.None?)
    {
      hide Valid, Extends;
      ExtensionsCompose();
      while |schedule| > 0
        invariant Ready() && pc == Observe(record) && Extends(old(since), since)
        decreases |schedule|
      {
        var ch := Yield();
        if world.entry.None? {
          Advance(ch, world, Threw(ObservationFailed));
          return Err(ObservationFailed);
        }
        var status := StatusOf(world.entry.value);
        if status.Finished? {
          Advance(ch, world, Refresh(status));
          return Ok(status);
        }
        Advance(ch, world, pc);
      }
      Advance(UNWATCHED, world, Threw(ObservationFailed));
      return Err(ObservationFailed);
    }

    method MarkFinalizing(record: Record, result: TerminalResult) returns (r: Result<Record, Failure>)
      requires Ready() && pc == CommitFinalizing(record, result)
      modifies this`world, this`schedule, this`pc, this`since, this`offered
      ensures Extends(old(since), since)
      ensures Ready()
      ensures r.Ok? ==> pc == PublishStdout(r.value)
      ensures r.Err? ==> pc == Threw(r.error)
      ensures OneAwait(old(since), since)
      ensures r.Err? ==> Before() == world
      ensures r.Ok? ==>
        && Transition(Before(), {record.state}, record.revision, ToFinalizing(true, result)) == Some(world)
        && world.record == Some(r.value)
    {
      hide Valid, Extends, NoAwaits, OneAwait, Before;
      var ch := Yield();
      OneAwaitAfter(old(since), since, ch);
      var after := Transition(world, {record.state}, record.revision, ToFinalizing(true, result));
      if after.None? {
        Advance(ch, world, Threw(StateInvalid));
        return Err(StateInvalid);
      }
      Advance(ch, after.value, PublishStdout(after.value.record.value));
      return Ok(after.value.record.value);
    }

    // ---------------------------------------------------------------- finalization

    /** Publish the missing output artifacts and bind them to the row. */
    method PublishOutputs(record: Record)
      returns (r: Result<(Record, Option<Artifact>, Option<Artifact>), Failure>)
      requires Ready() && pc == PublishStdout(record)
      modifies this`world, this`schedule, this`pc, this`since, this`offered
      ensures Extends(old(since), since)
      ensures Ready()
      ensures r.Ok? ==> pc == EvidenceTerminal(r.value.0, r.value.1, r.value.2)
      ensures r.Err? ==> pc == Threw(r.error)
    {
      hide Valid, Extends;
      ExtensionsCompose();
      var ch := Yield();
      var out, err := record.stdoutArtifact, record.stderrArtifact;
      if record.terminal.None? {
        Advance(ch, world, Threw(StateInvalid));
        return Err(StateInvalid);
      }
      var result := record.terminal.value;
      if !result.outputComplete {
        Advance(ch, world, EvidenceTerminal(record, out, err));
        return Ok((record, out, err));
      }
      if out.None? {
        out := Some(ArtifactOf(Stdout, result));
        var published := PublishOutput(world, Stdout, result);
        if published.None? {
          Advance(ch, world, Threw(ArtifactFailed));
          return Err(ArtifactFailed);
        }
        Advance(ch, published.value, PublishStderr(record, out));
      } else {
        Advance(ch, world, PublishStderr(record, out));
      }
      r := PublishErrorOutput(record, result, out);
    }

    method PublishErrorOutput(record: Record, result: TerminalResult, out: Option<Artifact>)
      returns (r: Result<(Record, Option<Artifact>, Option<Artifact>), Failure>)
      requires Ready() && pc == PublishStderr(record, out) && record.terminal == Some(result)
      modifies this`world, this`schedule, this`pc, this`since, this`offered
      ensures Extends(old(since), since)
      ensures Ready()
      ensures r.Ok? ==> pc == EvidenceTerminal(r.value.0, r.value.1, r.value.2)
      ensures r.Err? ==> pc == Threw(r.error)
    {
      hide Valid, Extends;
      ExtensionsCompose();
      var err := record.stderrArtifact;
      var ch := Yield();
      if err.None? {
        err := Some(ArtifactOf(Stderr, result));
        var published := PublishOutput(world, Stderr, result);
        if published.None? {
          Advance(ch, world, Threw(ArtifactFailed));
          return Err(ArtifactFailed);
        }
        Advance(ch, published.value, Bind(record, out, err));
      } else {
        Advance(ch, world, Bind(record, out, err));
      }
      r := BindOutputs(record, out, err);
    }

    method BindOutputs(record: Record, out: Option<Artifact>, err: Option<Artifact>)
      returns (r: Result<(Record, Option<Artifact>, Option<Artifact>), Failure>)
      requires Ready() && pc == Bind(record, out, err)
      modifies this`world, this`schedule, this`pc, this`since, this`offered
      ensures Extends(old(since), since)
      ensures Ready()
      ensures r.Ok? ==> pc == EvidenceTerminal(r.value.0, r.value.1, r.value.2)
      ensures r.Err? ==> pc == Threw(r.error)
    {
      hide Valid, Extends;
      ExtensionsCompose();
      var ch := Yield();
      if record.stdoutArtifact.Some? && record.stderrArtifact.Some? {
        Advance(ch, world, EvidenceTerminal(record, out, err));
        return Ok((record, out, err));
      }
      var after := Transition(world, {Finalizing}, record.revision, BindArtifacts(out, err));
      if after.None? {
        Advance(ch, world, Threw(StateInvalid));
        return Err(StateInvalid);
      }
      Advance(ch, after.value, EvidenceTerminal(after.value.record.value, out, err));
      return Ok((after.value.record.value, out, err));
    }

    /** Terminal evidence, artifact evidence, then the operation receipt. */
    method PublishTerminalEvidence(record: Record, out: Option<Artifact>, err: Option<Artifact>)
      returns (r: Result<(), Failure>)
      requires Ready() && pc == EvidenceTerminal(record, out, err)
      modifies this`world, this`schedule, this`pc, this`since, this`offered
      ensures Extends(old(since), since)
      ensures Ready()
      ensures r.Ok? ==> pc == RereadFinal(out, err) && EvidencePublished(world)
      ensures r.Err? ==> pc == Threw(r.error)
    {
      hide Valid, Extends, EvidencePublished, StepEarly, StepMiddle, StepPublish;
      ExtensionsCompose();
      if record.terminal.None? {
        var ch := Yield();
        Advance(ch, world, Threw(StateInvalid));
        return Err(StateInvalid);
      }
      var result := record.terminal.value;
      var _ :- PublishKeyed(TerminalEvidence, TerminalFacts(result), EvidenceStdout(record, out, err));
      if out.Some? {
        var _ :- PublishKeyed(StdoutEvidence, ArtifactFacts(out.value), EvidenceStderr(record, out, err));
      } else {
        var ch := Yield();
        Advance(ch, world, EvidenceStderr(record, out, err));
      }
      r := PublishErrorEvidence(record, out, err);
    }

    method PublishErrorEvidence(record: Record, out: Option<Artifact>, err: Option<Artifact>)
      returns (r: Result<(), Failure>)
      requires Ready() && pc == EvidenceStderr(record, out, err) && record.terminal.Some?
      modifies this`world, this`schedule, this`pc, this`since, this`offered
      ensures Extends(old(since), since)
      ensures Ready()
      ensures r.Ok? ==> pc == RereadFinal(out, err) && EvidencePublished(world)
      ensures r.Err? ==> pc == Threw(r.error)
    {
      hide Valid, Extends, EvidencePublished;
      ExtensionsCompose();
      if err.Some? {
        var _ :- PublishKeyed(StderrEvidence, ArtifactFacts(err.value), WriteReceipt(record, out, err));
      } else {
        var ch := Yield();
        Advance(ch, world, WriteReceipt(record, out, err));
      }
      r := PublishReceipt(record, out, err);
    }

    method PublishReceipt(record: Record, out: Option<Artifact>, err: Option<Artifact>)
      returns (r: Result<(), Failure>)
      requires Ready() && pc == WriteReceipt(record, out, err) && record.terminal.Some?
      modifies this`world, this`schedule, this`pc, this`since, this`offered
      ensures Extends(old(since), since)
      ensures Ready()
      ensures r.Ok? ==> pc == RereadFinal(out, err) && EvidencePublished(world)
      ensures r.Err? ==> pc == Threw(r.error)
    {
      hide Valid, Extends, EvidencePublished;
      ExtensionsCompose();
      var ch := Yield();
      var after := RecordReceipt(world, ReceiptFor(record.terminal.value, out, err));
      if after.None? {
        Advance(ch, world, Threw(EvidenceFailed));
        return Err(EvidenceFailed);
      }
      Advance(ch, after.value, RereadFinal(out, err));
      Reached();
      return Ok(());
    }

    method FinishFinalization(record: Record) returns (r: Result<ActionResult, Failure>)
      requires Ready() && pc == PublishStdout(record)
      modifies this`world, this`schedule, this`pc, this`since, this`offered
      ensures Extends(old(since), since)
      ensures Settled(r)
    {
      hide Valid, Extends, OperationFinished, ExpectedAction, DurableOutputs, StepEarly, StepMiddle, StepPublish;
      ExtensionsCompose();
      var published :- PublishOutputs(record);
      var (bound, out, err) := published;
      var _ :- PublishTerminalEvidence(bound, out, err);
      r := CommitAndClose(out, err);
    }

    /** Read the row again, commit it as terminal unless it already is, and close it. */
    method CommitAndClose(out: Option<Artifact>, err: Option<Artifact>) returns (r: Result<ActionResult, Failure>)
      requires Ready() && pc == RereadFinal(out, err)
      modifies this`world, this`schedule, this`pc, this`since, this`offered
      ensures Extends(old(since), since)
      ensures Settled(r)
    {
      hide Valid, Extends, OperationFinished, ExpectedAction, Step, Close;
      ExtensionsCompose();
      var ch := Yield();
      FinalReread(world, out, err, ch);
      if world.record.None? {
        Advance(ch, world, Threw(StateInvalid));
        return Err(StateInvalid);
      }
      var current := world.record.value;
      if current.state == Terminal {
        Advance(ch, world, Close(current));
        r := CloseTerminal(current);
      } else {
        Advance(ch, world, CommitTerminal(current, out, err));
        r := MarkTerminal(current, out, err);
      }
    }

    method MarkTerminal(record: Record, out: Option<Artifact>, err: Option<Artifact>)
      returns (r: Result<ActionResult, Failure>)
      requires Ready() && pc == CommitTerminal(record, out, err)
      modifies this`world, this`schedule, this`pc, this`since, this`offered
      ensures Extends(old(since), since)
      ensures Settled(r)
    {
      hide Valid, Extends, OperationFinished, ExpectedAction, Step, Close, Transition;
      ExtensionsCompose();
      var ch := Yield();
      TerminalCommit(world, record, out, err, ch);
      var after := Transition(world, {Finalizing, Intent}, record.revision, ToTerminal(out, err));
      if after.None? {
        Advance(ch, world, Threw(StateInvalid));
        return Err(StateInvalid);
      }
      var current := after.value.record.value;
      Advance(ch, after.value, Close(current));
      r := CloseTerminal(current);
    }

    /** Acknowledge the launcher's output if that is still owed, and return the recorded action. */
    method CloseTerminal(record: Record) returns (r: Result<ActionResult, Failure>)
      requires Ready() && pc == Close(record)
      modifies this`world, this`schedule, this`pc, this`since, this`offered
      ensures Extends(old(since), since)
      ensures Settled(r)
    {
      hide Valid, Extends, OperationFinished, ExpectedAction;
      ExtensionsCompose();
      var current := record;
      if record.accepted && !record.acknowledged {
        var _ :- Acknowledge(record);
        var ch := Yield();
        if world.record.None? {
          Advance(ch, world, Threw(StateInvalid));
          return Err(StateInvalid);
        }
        current := world.record.value;
        Advance(ch, world, Return(current));
      }
      r := if current.terminal.Some? then Ok(ResultOf(current)) else Err(StateInvalid);
      Deliver(r);
    }

    /** A session that returned an action has delivered it. */
    lemma Deliver(r: Result<ActionResult, Failure>)
      requires Valid() && pc == (match r case Ok(a) => Done(a) case Err(f) => Threw(f))
      ensures Delivered(world, r)
    {
      hide Exec, OperationFinished, ExpectedAction;
      if r.Ok? { RunFinished(past, since, State(world, pc)); }
    }

    /** What the session's own program point says about the world. */
    lemma Reached()
      requires Valid()
      ensures pc.RereadFinal? ==> EvidencePublished(world)
      ensures pc.AckReread? ==> BothAcknowledged(world)
    {
      hide Exec, EvidencePublished, BothAcknowledged;
      PointReached(past, since, State(world, pc));
    }

    method Acknowledge(record: Record) returns (r: Result<(), Failure>)
      requires Ready() && pc == AckLauncher(record)
      modifies this`world, this`schedule, this`pc, this`since, this`offered
      ensures Extends(old(since), since)
      ensures Ready()
      ensures r.Ok? ==> pc == AckReread && BothAcknowledged(world)
      ensures r.Err? ==> pc == Threw(r.error)
    {
      hide Valid, Extends, BothAcknowledged, Step, AcknowledgeOutput, Transition;
      ExtensionsCompose();
      var ch := Yield();
      LauncherAcknowledgement(world, record, ch);
      if record.terminal.None? {
        Advance(ch, world, Threw(StateInvalid));
        return Err(StateInvalid);
      }
      var told := AcknowledgeOutput(world, ResultHash(record.terminal.value));
      if told.None? {
        Advance(ch, world, Threw(AcknowledgementFailed));
        return Err(AcknowledgementFailed);
      }
      Advance(ch, told.value, AckRecord(record));
      ch := Yield();
      RowAcknowledgement(world, record, ch);
      var after := Transition(world, {Terminal}, record.revision, AcknowledgeRecord);
      if after.None? {
        Advance(ch, world, Threw(AcknowledgementFailed));
        return Err(AcknowledgementFailed);
      }
      Advance(ch, after.value, AckReread);
      Reached();
      return Ok(());
    }

    method FinalizeUnlaunched(record: Record, result: TerminalResult) returns (r: Result<ActionResult, Failure>)
      requires Ready() && pc == CommitUnlaunched(record, result)
      modifies this`world, this`schedule, this`pc, this`since, this`offered
      ensures Extends(old(since), since)
      ensures Settled(r)
    {
      hide Valid, Extends, OperationFinished, ExpectedAction, DurableOutputs;
      ExtensionsCompose();
      var ch := Yield();
      var after := Transition(world, {Intent}, record.revision, ToFinalizing(false, result));
      if after.None? {
        Advance(ch, world, Threw(StateInvalid));
        return Err(StateInvalid);
      }
      Advance(ch, after.value, PublishStdout(after.value.record.value));
      r := FinishFinalization(after.value.record.value);
    }

    // ---------------------------------------------------------------- reconciliation

    /** Ask the launcher about an operation it does not know. */
    method LaunchOrFinalize(record: Record, authority: bool, ch0: Choice)
      returns (r: Result<ActionResult, Failure>, status: Option<Status>)
      requires Valid() && offered == Some(ch0) && pc == Query(record, authority) && world.entry.None? && !ch0.giveUp
      modifies this`world, this`schedule, this`pc, this`since, this`offered
      ensures Extends(old(since), since)
      ensures status.Some? ==> Ready() && pc == WithStatus(record, status.value)
      ensures status.None? ==> Settled(r)
    {
      hide Valid, Extends, OperationFinished, ExpectedAction, DurableOutputs;
      ExtensionsCompose();
      var ch := ch0;
      r, status := Err(OperationLost), None;
      if record.state == Active || record.accepted {
        Advance(ch, world, Threw(OperationLost));
        return;
      }
      if record.cancellationRequested {
        var result := UnlaunchedResult(Cancelled, ch.now);
        Advance(ch, world, CommitUnlaunched(record, result));
        r := FinalizeUnlaunched(record, result);
        return;
      }
      if authority {
        Advance(ch, world, Launch(record));
      } else {
        Advance(ch, world, ResolveAuthority(record));
        ch := Yield();
        if !ch.authority {
          var result := UnlaunchedResult(FailedToStart, ch.now);
          Advance(ch, world, CommitUnlaunched(record, result));
          r := FinalizeUnlaunched(record, result);
          return;
        }
        Advance(ch, world, Launch(record));
      }
      r, status := AskLauncher(record);
    }

    /** The one launch request of a session. */
    method AskLauncher(record: Record) returns (r: Result<ActionResult, Failure>, status: Option<Status>)
      requires Ready() && pc == Launch(record)
      modifies this`world, this`schedule, this`pc, this`since, this`offered
      ensures Extends(old(since), since)
      ensures status.Some? ==> Ready() && pc == WithStatus(record, status.value)
      ensures status.None? ==> Settled(r)
    {
      hide Valid, Extends, OperationFinished, ExpectedAction, DurableOutputs;
      ExtensionsCompose();
      r, status := Err(LaunchRefused), None;
      var ch := Yield();
      var asked := world.(asks := world.asks + 1);
      if ch.launch.Refuses? && world.entry.None? {
        Advance(ch, asked.(refusals := world.refusals + 1), Threw(LaunchRefused));
        return;
      }
      var after := Register(asked.(answered := world.answered + 1), ch.launch);
      status := Some(StatusOf(after.entry.value));
      Advance(ch, after, WithStatus(record, status.value));
    }

    method ReconcileLocked(record: Record, authority: bool, known: Option<Status>)
      returns (r: Result<ActionResult, Failure>)
      requires Ready() && pc == Begin(record, authority, known)
      modifies this`world, this`schedule, this`pc, this`since, this`offered
      ensures Extends(old(since), since)
      ensures Settled(r)
    {
      hide Valid, Extends, OperationFinished, ExpectedAction, DurableOutputs, StepMiddle, StepPublish, StepFinish;
      ExtensionsCompose();
      var ch := Yield();
      if record.state == Terminal {
        Advance(ch, world, Close(record));
        r := CloseTerminal(record);
        return;
      }
      if record.state == Finalizing {
        Advance(ch, world, PublishStdout(record));
        r := FinishFinalization(record);
        return;
      }
      var status := known;
      if known.Some? {
        Advance(ch, world, WithStatus(record, known.value));
      } else {
        Advance(ch, world, Query(record, authority));
        ch := Yield();
        if world.entry.Some? {
          status := Some(StatusOf(world.entry.value));
          Advance(ch, world, WithStatus(record, status.value));
        } else {
          r, status := LaunchOrFinalize(record, authority, ch);
          if status.None? { return; }
        }
      }
      r := FollowStatus(record, status.value);
    }

    /** Follow a launcher status to its terminal result, then finalize. */
    method FollowStatus(record: Record, status: Status) returns (r: Result<ActionResult, Failure>)
      requires Ready() && pc == WithStatus(record, status)
      modifies this`world, this`schedule, this`pc, this`since, this`offered
      ensures Extends(old(since), since)
      ensures Settled(r)
    {
      hide Valid, Extends, OperationFinished, ExpectedAction, DurableOutputs, StepEarly, StepPublish, StepFinish;
      ExtensionsCompose();
      if status.Finished? {
        r := Judgement(record, status);
        return;
      }
      var active :- MarkActive(record, status);
      var _ :- PublishKeyed(LauncherAccepted, Plain, Observe(active));
      r := FollowRunning(active);
    }

    /** The process runs: wait for its end, then read the row again. */
    method FollowRunning(record: Record) returns (r: Result<ActionResult, Failure>)
      requires Ready() && pc == Observe(record)
      modifies this`world, this`schedule, this`pc, this`since, this`offered
      ensures Extends(old(since), since)
      ensures Settled(r)
    {
      hide Valid, Extends, OperationFinished, ExpectedAction, DurableOutputs, StepEarly, StepPublish, StepFinish;
      ExtensionsCompose();
      var status :- ObserveTerminal(record);
      var ch := Yield();
      if world.record.None? {
        Advance(ch, world, Threw(StateInvalid));
        return Err(StateInvalid);
      }
      var latest := world.record.value;
      Advance(ch, world, Judge(latest, status));
      r := Judgement(latest, status);
    }

    /** The launcher's terminal status meets the row. */
    method Judgement(record0: Record, status: Status) returns (r: Result<ActionResult, Failure>)
      requires Ready() && pc == Judge(record0, status) && status.Finished?
      modifies this`world, this`schedule, this`pc, this`since, this`offered
      ensures Extends(old(since), since)
      ensures Settled(r)
    {
      hide Valid, Extends, OperationFinished, ExpectedAction, Step;
      ExtensionsCompose();
      var record := record0;
      var ch := Yield();
      Judging(world, record, status, ch);
      Advance(ch, world, Judged(record, status));
      if status.result.outputComplete && !status.available {
        return Err(OutputUnavailable);
      }
      if record.state == Finalizing || record.state == Terminal {
        if record.terminal != Some(status.result) {
          return Err(StateInvalid);
        }
        if record.state == Finalizing {
          r := FinishFinalization(record);
        } else {
          r := CloseTerminal(record);
        }
        return;
      }
      if record.state == Intent {
        record :- MarkActive(record, status);
        var _ :- PublishKeyed(LauncherAccepted, Plain, CommitFinalizing(record, status.result));
      }
      record :- MarkFinalizing(record, status.result);
      r := FinishFinalization(record);
    }

    /**
     One locked reconciliation. Whatever history came before, if the operation's outcome was
     fixed when the lock was taken, the call gives up observing, or loses to the operation's
     one cancellation request, or returns the outcome's action with the operation finished.
     */
    method Reconcile(known: Option<Status>) returns (r: Result<ActionResult, Failure>)
      requires Ready() && Free(pc) && world.record.Some?
      requires known.Some? ==> StatusWasTrue(world, known.value)
      modifies this
      ensures Settled(r)
      ensures past == old(past) + old(since) + [StartReconcile(known)] && Grows(old(world), world)
      ensures forall t :: EndedWith(old(world), t) ==>
        || r == Err(ObservationFailed)
        || (r == Err(StateInvalid) && CancelRequested(world) && !CancelRequested(old(world)))
        || (r == Ok(ExpectedAction(t)) && OperationFinished(world, t))
      ensures forall t :: EndedWith(old(world), t) && Assured(old(world), StartReconcile(known)) ==>
        r == Ok(ExpectedAction(t))
      ensures known.None? && Idle(old(world), old(world).asks) ==>
        IntentOutcome(old(world), old(schedule), world, schedule, r)
    {
      hide Scheduled, Idle, Exec, IntentOutcome, OperationFinished, ExpectedAction, StatusWasTrue, EndedWith, Assured, Grows;
      ghost var history := past + since;
      ghost var before := State(world, pc);
      ExecConcat(INITIAL, past, since);
      Lock(StartReconcile(known));
      r := ReconcileLocked(world.record.value, false, known);
      HistoryGrows(old(past), old(since), StartReconcile(known), since, old(world), State(world, pc));
      if known.None? && Idle(old(world), old(world).asks) {
        IntentSessionOutcome(history, StartReconcile(None), turns, schedule, since, State(world, pc), r);
      }
      forall t | EndedWith(before.world, t) && r != Err(ObservationFailed)
        ensures
          || (r == Err(StateInvalid) && CancelRequested(world) && !CancelRequested(before.world))
          || (r == Ok(ExpectedAction(t)) && OperationFinished(world, t))
      {
        hide EndedWith, Exec, Next, OperationFinished, ExpectedAction, CancelRequested;
        Recovery(history, StartReconcile(known), since, t);
      }
      forall t | EndedWith(before.world, t) && Assured(before.world, StartReconcile(known))
        ensures r == Ok(ExpectedAction(t))
      {
        hide EndedWith, Exec, Next, OperationFinished, ExpectedAction, Assured, AllUncrashed, AllCalm;
        SureToDeliverIff(history, StartReconcile(known), t);
      }
    }

    /**
     `execute`: admit the intent unless it exists, then reconcile. A returned action always
     describes a finished operation.
     */
    method Execute() returns (r: Result<ActionResult, Failure>)
      requires Ready() && Free(pc)
      modifies this
      ensures Settled(r)
      ensures past == old(past) + old(since) + [StartExecute] && Grows(old(world), world)
      ensures turns == old(schedule)
      ensures old(world).record.None? ==> NewOutcome(old(world), old(schedule), world, schedule, r)
      ensures Idle(old(world), old(world).asks) ==> IntentOutcome(old(world), old(schedule), world, schedule, r)
    {
      hide Exec, Next, OperationFinished, ExpectedAction, Scheduled, Idle, NewOutcome, IntentOutcome;
      ghost var history := past + since;
      ExecConcat(INITIAL, past, since);
      ExecuteStarts(State(world, pc));
      Lock(StartExecute);
      r := AdmitAndReconcile();
      HistoryGrows(old(past), old(since), StartExecute, since, old(world), State(world, pc));
      if old(world).record.None? {
        NewSessionOutcome(history, turns, schedule, since, State(world, pc), r);
      }
      if Idle(old(world), old(world).asks) {
        IntentSessionOutcome(history, StartExecute, turns, schedule, since, State(world, pc), r);
      }
    }

    method AdmitAndReconcile() returns (r: Result<ActionResult, Failure>)
      requires Ready()
      requires pc == if world.record.Some? then Begin(world.record.value, false, None) else Admit
      modifies this`world, this`schedule, this`pc, this`since, this`offered
      ensures Extends(old(since), since)
      ensures Settled(r)
    {
      hide Valid, Extends, OperationFinished, ExpectedAction, DurableOutputs;
      ExtensionsCompose();
      if world.record.Some? {
        r := ReconcileLocked(world.record.value, false, None);
        return;
      }
      var ch := Yield();
      if !ch.authority {
        Advance(ch, world, Threw(CapabilityUnavailable));
        return Err(CapabilityUnavailable);
      }
      var record := if world.record.Some? then world.record.value else NEW_RECORD;
      Advance(ch, world.(record := Some(record)), AdmitEvidence(record));
      var _ :- PublishKeyed(IntentAdmitted, Plain, Begin(record, true, None));
      r := ReconcileLocked(record, true, None);
    }
  }
}
