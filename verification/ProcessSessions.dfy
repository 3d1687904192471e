/**
 What a locked session does with an operation the launcher does not know: whether it launches is decided
 by the capability, the cancellation request and the launcher's reply, read await by await.
 */
module ProcessSessions {
  import opened Basics
  import opened ProcessWorld
  import opened ProcessProtocol
  import opened ProcessInvariant
  import opened ProcessRuns
  import opened ProcessRecovery
  import opened ProcessCancellation

  /** The inputs of a session's awaits, in order. */
  function Choices(es: seq<Event>): seq<Choice> {
    if |es| == 0 then []
    else Choices(es[..|es| - 1]) + if es[|es| - 1].Await? then [es[|es| - 1].choice] else []
  }

  lemma ChoicesExtend(es: seq<Event>, e: Event)
    ensures Choices(es + [e]) == Choices(es) + if e.Await? then [e.choice] else []
  {
    assert (es + [e])[..|es|] == es;
  }

  // ---------------------------------------------------------------- where such a session stands

  /** How the session came to read the row: after `opening` awaits, with or without its launch capability
      in hand, with or without a cancellation requested, and after so many asks. */
  datatype Reading = Reading(opening: nat, capable: bool, cancelled: bool, asks: nat)

  /** The launcher knows nothing, nothing is on its way to it, and the row is as it was admitted. */
  predicate Idle(w: World, asks: nat) {
    && w.record.Some? && w.record.value.state == Intent && !w.record.value.accepted
    && w.entry.None? && w.orphans == 0 && w.asks == asks
  }

  /** The launcher took the request: the session watches the process, or finishes what it left. */
  predicate Following(s: State, c: seq<Choice>) {
    && s.world.entry.Some? && s.world.record.Some? && !Unlaunched(s.world.record.value) && Fresh(s)
    && (|| (s.pc == Threw(ObservationFailed) && c != [] && c[|c| - 1].giveUp)
        || (s.world.entry.value.run.Running? && Watching(s.pc) && !s.pc.Begin?)
        || (s.world.entry.value.run.Ended? && (Converging(s.pc) || s.pc.Done?)))
  }

  /** Nothing was launched, and `t` is being recorded as the outcome. */
  predicate Declining(s: State, t: TerminalResult, asks: nat) {
    && s.world.record.Some? && Unlaunched(s.world.record.value) && s.world.record.value.terminal == Some(t)
    && s.world.entry.None? && s.world.orphans == 0 && s.world.asks == asks
    && Fresh(s) && (Converging(s.pc) || s.pc.Done?)
  }

  predicate Refused(s: State, asks: nat) {
    Idle(s.world, asks) && s.pc == Threw(LaunchRefused)
  }

  /** The await that asks the launcher, unless the session declines first. */
  function LaunchAt(en: Reading): nat {
    en.opening + if en.capable then 2 else 3
  }

  predicate Stage(s: State, c: seq<Choice>, en: Reading)
    requires |c| >= en.opening
  {
    var k, w := |c| - en.opening, s.world;
    if k == 0 then Idle(w, en.asks) && s.pc == Begin(w.record.value, en.capable, None)
    else if k == 1 then Idle(w, en.asks) && s.pc == Query(w.record.value, en.capable)
    else if en.cancelled then
      var t := UnlaunchedResult(Cancelled, c[en.opening + 1].now);
      if k == 2 then Idle(w, en.asks) && s.pc == CommitUnlaunched(w.record.value, t)
      else Declining(s, t, en.asks)
    else if !en.capable && k == 2 then Idle(w, en.asks) && s.pc == ResolveAuthority(w.record.value)
    else if !en.capable && !c[en.opening + 2].authority then
      var t := UnlaunchedResult(FailedToStart, c[en.opening + 2].now);
      if k == 3 then Idle(w, en.asks) && s.pc == CommitUnlaunched(w.record.value, t)
      else Declining(s, t, en.asks)
    else if |c| == LaunchAt(en) then Idle(w, en.asks) && s.pc == Launch(w.record.value)
    else if c[LaunchAt(en)].launch.Refuses? then Refused(s, en.asks + 1)
    else Following(s, c) && w.asks == en.asks + 1
  }

  // ---------------------------------------------------------------- one await

  lemma FollowsRunning(s: State, c: seq<Choice>, ch: Choice)
    requires Inv(s) && Following(s, c) && s.world.entry.value.run.Running? && !Free(s.pc)
    ensures Following(Step(s, ch), c + [ch]) && Step(s, ch).world.asks == s.world.asks
  {
    hide StatusWasTrue, Judged;
  }

  lemma FollowsEnded(s: State, c: seq<Choice>, ch: Choice)
    requires Inv(s) && Following(s, c) && s.world.entry.value.run.Ended? && !Free(s.pc)
    ensures Following(Step(s, ch), c + [ch]) && Step(s, ch).world.asks == s.world.asks
  {
    if s.pc.Observe? && ch.giveUp {
      hide Inv;
    } else {
      var calm := ch.(giveUp := false);
      var r := s.world.entry.value.run.result;
      assert EndedWith(s.world, r);
      StepAdvances(s, calm, r);
      SameStep(s, ch);
      StaysLaunched(s, ch);
      hide Inv, Step, Fresh, Converging, EndedWith;
    }
  }

  /** Only the observer can give up. */
  lemma SameStep(s: State, ch: Choice)
    requires !(s.pc.Observe? && ch.giveUp)
    ensures Step(s, ch) == Step(s, ch.(giveUp := false))
  {
    hide StatusOf;
  }

  lemma MiddleStaysLaunched(s: State, ch: Choice)
    requires Middle(s.pc) && !s.pc.CommitUnlaunched? && s.world.record.Some? && !Unlaunched(s.world.record.value)
    ensures StepMiddle(s, ch).world.record.Some? && !Unlaunched(StepMiddle(s, ch).world.record.value)
  {
    hide StatusOf, Judged;
  }

  /** Publishing and acknowledging happen to accepted rows only, unless nothing was launched. */
  lemma LateIsAccepted(s: State)
    requires Inv(s) && Converging(s.pc) && !Early(s.pc) && !Middle(s.pc)
    requires s.world.record.Some? && !Unlaunched(s.world.record.value)
    ensures s.world.record.value.accepted
  {
  }

  lemma OpeningMovesNothing(s: State, ch: Choice)
    requires s.pc.Begin? || s.pc.Query?
    ensures Step(s, ch).world == s.world
  {
  }

  lemma StaysLaunched(s: State, ch: Choice)
    requires Inv(s) && s.world.entry.Some? && s.world.entry.value.run.Ended? && Converging(s.pc)
    requires s.world.record.Some? && !Unlaunched(s.world.record.value)
    ensures
      var w := Step(s, ch).world;
      && w.entry.Some? && w.entry.value.run == s.world.entry.value.run && w.asks == s.world.asks
      && w.record.Some? && !Unlaunched(w.record.value)
  {
    hide Inv, StepEarly, StepMiddle, StepPublish, StepFinish;
    if Early(s.pc) {
      OpeningMovesNothing(s, ch);
    } else {
      NextGrows(s, Await(ch));
      LateNeverAsks(s, ch);
      if Middle(s.pc) { MiddleStaysLaunched(s, ch); } else { LateIsAccepted(s); }
    }
  }

  lemma Declines(s: State, t: TerminalResult, asks: nat, ch: Choice)
    requires Inv(s) && Declining(s, t, asks) && !Free(s.pc) && !s.pc.Observe?
    ensures Declining(Step(s, ch), t, asks)
  {
    hide StepEarly, StepMiddle, StepPublish, StepFinish, Inv;
    StepAdvances(s, ch.(giveUp := false), t);
    SameStep(s, ch);
    NextGrows(s, Await(ch));
    NextKeepsInv(s, Await(ch));
    if Early(s.pc) { OpeningMovesNothing(s, ch); } else { LateNeverAsks(s, ch); }
    NothingAccepted(Step(s, ch));
    hide Fresh, Converging, Step;
  }

  lemma NothingAccepted(s: State)
    requires Inv(s) && s.world.record.Some? && s.world.entry.None?
    ensures !s.world.record.value.accepted
  {
  }

  lemma CommitsUnlaunched(s: State, t: TerminalResult, asks: nat, ch: Choice)
    requires Idle(s.world, asks) && s.pc == CommitUnlaunched(s.world.record.value, t)
    ensures Declining(Step(s, ch), t, asks)
  {
  }

  lemma AsksLauncher(s: State, c: seq<Choice>, asks: nat, ch: Choice)
    requires Inv(s) && Idle(s.world, asks) && s.pc == Launch(s.world.record.value)
    ensures
      if ch.launch.Refuses? then Refused(Step(s, ch), asks + 1)
      else Following(Step(s, ch), c + [ch]) && Step(s, ch).world.asks == asks + 1
  {
  }

  lemma Opens(s: State, asks: nat, capable: bool, ch: Choice)
    requires Idle(s.world, asks)
    ensures
      var rec := s.world.record.value;
      && (s.pc == Begin(rec, capable, None) ==> Step(s, ch) == State(s.world, Query(rec, capable)))
      && (s.pc == Query(rec, capable) ==> Step(s, ch) == State(s.world,
            if rec.cancellationRequested then CommitUnlaunched(rec, UnlaunchedResult(Cancelled, ch.now))
            else if capable then Launch(rec) else ResolveAuthority(rec)))
      && (s.pc == ResolveAuthority(rec) ==> Step(s, ch) == State(s.world,
            if ch.authority then Launch(rec) else CommitUnlaunched(rec, UnlaunchedResult(FailedToStart, ch.now))))
  {
  }

  lemma DecliningNeverWatches(s: State, t: TerminalResult, asks: nat)
    requires Inv(s) && Declining(s, t, asks)
    ensures !s.pc.Observe?
  {
  }

  lemma Follows(s: State, c: seq<Choice>, ch: Choice)
    requires Inv(s) && Following(s, c) && !Free(s.pc)
    ensures Following(Step(s, ch), c + [ch]) && Step(s, ch).world.asks == s.world.asks
  {
    if s.world.entry.value.run.Running? {
      hide *;
      FollowsRunning(s, c, ch);
    } else {
      hide *;
      FollowsEnded(s, c, ch);
    }
  }

  lemma StageAwaits(s: State, c: seq<Choice>, en: Reading, ch: Choice)
    requires Inv(s) && |c| >= en.opening && Stage(s, c, en) && !Free(s.pc)
    requires CancelRequested(s.world) == en.cancelled
    ensures Stage(Step(s, ch), c + [ch], en)
  {
    hide Inv, Step, Following, Declining, Fresh, Converging;
    var k, all := |c| - en.opening, c + [ch];
    assert forall j :: 0 <= j < |c| ==> all[j] == c[j];
    assert all[|c|] == ch;
    if k <= 1 {
      Opens(s, en.asks, en.capable, ch);
    } else if en.cancelled {
      DeclineAwaits(s, UnlaunchedResult(Cancelled, c[en.opening + 1].now), en.asks, ch);
    } else if !en.capable && k == 2 {
      Opens(s, en.asks, en.capable, ch);
    } else if !en.capable && !c[en.opening + 2].authority {
      DeclineAwaits(s, UnlaunchedResult(FailedToStart, c[en.opening + 2].now), en.asks, ch);
    } else if |c| == LaunchAt(en) {
      AsksLauncher(s, c, en.asks, ch);
    } else {
      Follows(s, c, ch);
    }
  }

  lemma DeclineAwaits(s: State, t: TerminalResult, asks: nat, ch: Choice)
    requires Inv(s) && !Free(s.pc)
    requires Declining(s, t, asks) || (Idle(s.world, asks) && s.pc == CommitUnlaunched(s.world.record.value, t))
    ensures Declining(Step(s, ch), t, asks)
  {
    hide Inv, Step, Declining;
    if Declining(s, t, asks) {
      DecliningNeverWatches(s, t, asks);
      Declines(s, t, asks, ch);
    } else {
      CommitsUnlaunched(s, t, asks, ch);
    }
  }

  // ---------------------------------------------------------------- what others do meanwhile

  /** Without a cancellation, calm events of others change of the row nothing, and of the launcher only
      what it does itself. */
  lemma OthersKeep(s: State, e: Event)
    requires Calm(e) && !e.Await? && Next(s, e).Some? && s.world.record.Some?
    requires CancelRequested(Next(s, e).value.world) == CancelRequested(s.world)
    ensures
      var t := Next(s, e).value;
      && t.pc == s.pc && t.world.record == s.world.record && t.world.asks == s.world.asks
      && t.world.orphans <= s.world.orphans
      && (s.world.orphans == 0 && s.world.entry.None? ==> t.world.entry.None?)
      && (s.world.entry.Some? ==> t.world.entry.Some?)
      && (s.world.entry.Some? && s.world.entry.value.run.Ended? ==> t.world.entry.value.run == s.world.entry.value.run)
  {
    hide CompactionAuthorized, StatusWasTrue;
  }

  lemma FollowingSurvives(s: State, c: seq<Choice>, e: Event)
    requires Following(s, c) && Calm(e) && !e.Await? && Next(s, e).Some?
    requires CancelRequested(Next(s, e).value.world) == CancelRequested(s.world)
    ensures Following(Next(s, e).value, c)
  {
    OthersKeep(s, e);
    hide Calm, Next, CancelRequested;
  }

  lemma StageSurvives(s: State, c: seq<Choice>, en: Reading, e: Event)
    requires |c| >= en.opening && Stage(s, c, en) && s.world.record.Some?
    requires Calm(e) && !e.Await? && Next(s, e).Some?
    requires CancelRequested(Next(s, e).value.world) == CancelRequested(s.world)
    ensures Stage(Next(s, e).value, c, en)
  {
    OthersKeep(s, e);
    if Following(s, c) { FollowingSurvives(s, c, e); }
    hide Calm, Next, CancelRequested, Following, Converging;
  }

  // ---------------------------------------------------------------- a whole session

  /** As long as no cancellation arrived since, the session stands where its inputs put it. */
  predicate Tracked(s: State, c: seq<Choice>, en: Reading) {
    && s.world.record.Some? && |c| >= en.opening
    && (en.cancelled ==> CancelRequested(s.world))
    && (CancelRequested(s.world) == en.cancelled ==> Stage(s, c, en))
  }

  lemma TrackedNext(s: State, c: seq<Choice>, en: Reading, e: Event)
    requires Inv(s) && Tracked(s, c, en) && Uncrashed(e) && Next(s, e).Some?
    ensures Tracked(Next(s, e).value, c + if e.Await? then [e.choice] else [], en)
  {
    hide Stage;
    NextGrows(s, e);
    hide Inv;
    var t := Next(s, e).value;
    if e.Await? {
      AwaitsKeepRequest(s, e.choice);
      if CancelRequested(s.world) == en.cancelled { StageAwaits(s, c, en, e.choice); }
      hide Step;
    } else {
      assert c + [] == c;
      if CancelRequested(t.world) == en.cancelled { StageSurvives(s, c, en, e); }
      hide Next;
    }
  }

  lemma {:induction false} TrackedRun(s: State, es: seq<Event>, c: seq<Choice>, en: Reading)
    requires Inv(s) && Tracked(s, c, en) && AllUncrashed(es) && Exec(s, es).Some?
    ensures Tracked(Exec(s, es).value, c + Choices(es), en)
  {
    hide Inv, Tracked, Next, Uncrashed;
    if |es| == 0 {
      assert c + Choices(es) == c;
    } else {
      var front, last := es[..|es| - 1], es[|es| - 1];
      TrackedRun(s, front, c, en);
      RunKeepsInv(s, front);
      TrackedNext(Exec(s, front).value, c + Choices(front), en, last);
      assert c + Choices(es) == c + Choices(front) + if last.Await? then [last.choice] else [];
    }
  }

  /** How the session ends: declined for a cancellation or a missing capability with nothing launched, or
      asked exactly once, and then refused, given up watching, or returned with the process's outcome. */
  predicate EndsAs(t: State, c: seq<Choice>, en: Reading) {
    var w, o := t.world, en.opening;
    if en.cancelled then
      && |c| > o + 1 && w.entry.None? && w.asks == en.asks
      && t.pc == Done(ExpectedAction(UnlaunchedResult(Cancelled, c[o + 1].now)))
    else if !en.capable && |c| > o + 2 && !c[o + 2].authority then
      && w.entry.None? && w.asks == en.asks
      && t.pc == Done(ExpectedAction(UnlaunchedResult(FailedToStart, c[o + 2].now)))
    else
      && |c| > LaunchAt(en) && w.asks == en.asks + 1
      && if c[LaunchAt(en)].launch.Refuses? then w.entry.None? && t.pc == Threw(LaunchRefused)
         else
           && w.entry.Some?
           && (|| (t.pc == Threw(ObservationFailed) && c[|c| - 1].giveUp)
               || (w.entry.value.run.Ended? && t.pc == Done(ExpectedAction(w.entry.value.run.result))))
  }

  lemma FollowingEnds(t: State, c: seq<Choice>)
    requires Inv(t) && Following(t, c) && Free(t.pc)
    ensures
      || (t.pc == Threw(ObservationFailed) && c != [] && c[|c| - 1].giveUp)
      || (t.world.entry.value.run.Ended? && t.pc == Done(ExpectedAction(t.world.entry.value.run.result)))
  {
    hide Inv;
    if t.pc.Done? { ReturnedIsExpected(t, t.world.entry.value.run.result); }
  }

  lemma DecliningEnds(t: State, r: TerminalResult, asks: nat)
    requires Inv(t) && Declining(t, r, asks) && Free(t.pc)
    ensures t.pc == Done(ExpectedAction(r))
  {
    hide Inv;
    ReturnedIsExpected(t, r);
  }

  lemma StageEnds(t: State, c: seq<Choice>, en: Reading)
    requires Inv(t) && |c| >= en.opening && Stage(t, c, en) && Free(t.pc)
    ensures EndsAs(t, c, en)
  {
    var o := en.opening;
    if Following(t, c) { FollowingEnds(t, c); }
    if |c| > o + 1 && Declining(t, UnlaunchedResult(Cancelled, c[o + 1].now), en.asks) {
      DecliningEnds(t, UnlaunchedResult(Cancelled, c[o + 1].now), en.asks);
    }
    if |c| > o + 2 && Declining(t, UnlaunchedResult(FailedToStart, c[o + 2].now), en.asks) {
      DecliningEnds(t, UnlaunchedResult(FailedToStart, c[o + 2].now), en.asks);
    }
    hide Inv, Fresh, Converging, ExpectedAction, Watching;
  }

  /**
   Reconciling an intent the launcher has never heard of. However calm events interleave, unless a
   cancellation arrives meanwhile: a requested cancellation or a missing capability is recorded as the
   outcome with nothing launched; otherwise the launcher is asked exactly once.
   */
  lemma IntentSession(past: seq<Event>, start: Event, es: seq<Event>)
    requires Exec(INITIAL, past).Some? && (start == StartExecute || start == StartReconcile(None))
    requires Idle(Exec(INITIAL, past).value.world, Exec(INITIAL, past).value.world.asks)
    requires Next(Exec(INITIAL, past).value, start).Some? && AllUncrashed(es)
    requires Exec(Next(Exec(INITIAL, past).value, start).value, es).Some?
    requires Free(Exec(Next(Exec(INITIAL, past).value, start).value, es).value.pc)
    ensures
      var s := Exec(INITIAL, past).value;
      var t := Exec(Next(s, start).value, es).value;
      CancelRequested(t.world) == CancelRequested(s.world) ==>
        EndsAs(t, Choices(es), Reading(0, false, CancelRequested(s.world), s.world.asks))
  {
    var s := Exec(INITIAL, past).value;
    var begun := Next(s, start).value;
    assert Inv(begun) by { hide *; InitialInv(); RunKeepsInv(INITIAL, past); NextKeepsInv(s, start); }
    assert begun == State(s.world, Begin(s.world.record.value, false, None));
    var en := Reading(0, false, CancelRequested(s.world), s.world.asks);
    assert Tracked(begun, [], en);
    hide Inv, Next, Exec, Stage, EndsAs, Idle, AllUncrashed;
    TrackedRun(begun, es, [], en);
    RunKeepsInv(begun, es);
    assert [] + Choices(es) == Choices(es);
    var t := Exec(begun, es).value;
    if CancelRequested(t.world) == en.cancelled { StageEnds(t, Choices(es), en); }
  }

  // ---------------------------------------------------------------- a new operation

  predicate Admitting(s: State, c: seq<Choice>, asks: nat) {
    var w := s.world;
    if |c| == 0 then s.pc == Admit && w.record.None? && w.asks == asks
    else if !c[0].authority then s.pc == Threw(CapabilityUnavailable) && w.record.None? && w.asks == asks
    else if |c| == 1 then
      w.record.Some? && (CancelRequested(w) || (Idle(w, asks) && s.pc == AdmitEvidence(w.record.value)))
    else Tracked(s, c, Reading(2, true, false, asks))
  }

  lemma AdmitsAwait(s: State, c: seq<Choice>, asks: nat, ch: Choice)
    requires Inv(s) && Admitting(s, c, asks) && |c| <= 1 && !Free(s.pc)
    ensures Admitting(Step(s, ch), c + [ch], asks)
  {
    if |c| == 1 && CancelRequested(s.world) {
      AwaitsKeepRequest(s, ch);
      NextGrows(s, Await(ch));
      hide Inv, Step, Stage;
    } else {
      hide MiddleInv, FinishInv;
    }
  }

  lemma AdmitsOthers(s: State, c: seq<Choice>, asks: nat, e: Event)
    requires Inv(s) && Admitting(s, c, asks) && |c| <= 1 && Calm(e) && !e.Await? && Next(s, e).Some?
    ensures Admitting(Next(s, e).value, c, asks)
  {
    if s.world.record.None? {
      hide EarlyInv, MiddleInv, FinishInv, StatusWasTrue, CompactionAuthorized;
    } else if CancelRequested(Next(s, e).value.world) == CancelRequested(s.world) {
      OthersKeep(s, e);
      hide Inv, Next, Calm;
    } else {
      hide Inv, Calm, StatusWasTrue, CompactionAuthorized, PublishEvidence;
      OnlyCancelRequests(s, e);
    }
  }

  lemma OnlyCancelRequests(s: State, e: Event)
    requires s.world.record.Some? && Calm(e) && !e.Await? && Next(s, e).Some?
    requires CancelRequested(Next(s, e).value.world) != CancelRequested(s.world)
    ensures CancelRequested(Next(s, e).value.world) && Next(s, e).value.world.record.Some?
  {
    hide CompactionAuthorized, StatusWasTrue;
  }

  lemma AdmitsNext(s: State, c: seq<Choice>, asks: nat, e: Event)
    requires Inv(s) && Admitting(s, c, asks) && Uncrashed(e) && Next(s, e).Some?
    ensures Admitting(Next(s, e).value, c + if e.Await? then [e.choice] else [], asks)
  {
    var more := c + if e.Await? then [e.choice] else [];
    assert !e.Await? ==> more == c;
    if |c| >= 2 && c[0].authority {
      hide Inv, Stage, Next;
      TrackedNext(s, c, Reading(2, true, false, asks), e);
    } else if |c| <= 1 {
      hide Inv, Admitting, Step;
      if e.Await? { AdmitsAwait(s, c, asks, e.choice); } else { AdmitsOthers(s, c, asks, e); }
    } else {
      RowlessStays(s, e);
      hide Inv, Stage;
    }
  }

  lemma RowlessStays(s: State, e: Event)
    requires Inv(s) && s.world.record.None? && Free(s.pc) && Uncrashed(e) && Next(s, e).Some?
    ensures
      var t := Next(s, e).value;
      !e.Await? && t.pc == s.pc && t.world.record.None? && t.world.asks == s.world.asks
  {
    hide EarlyInv, MiddleInv, FinishInv, StatusWasTrue, CompactionAuthorized;
  }

  lemma {:induction false} AdmitsRun(s: State, es: seq<Event>, asks: nat)
    requires Inv(s) && Admitting(s, [], asks) && AllUncrashed(es) && Exec(s, es).Some?
    ensures Admitting(Exec(s, es).value, Choices(es), asks)
  {
    hide Inv, Admitting, Next, Uncrashed;
    if |es| > 0 {
      var front, last := es[..|es| - 1], es[|es| - 1];
      AdmitsRun(s, front, asks);
      RunKeepsInv(s, front);
      AdmitsNext(Exec(s, front).value, Choices(front), asks, last);
    }
  }

  /**
   A new operation. Without the capability nothing is admitted and nothing is launched. With it the row
   is created, and unless a cancellation arrives meanwhile the launcher is asked exactly once: refused,
   the session says so; accepted, it returns the outcome of the process, or gives up watching it.
   */
  lemma NewSession(past: seq<Event>, es: seq<Event>)
    requires Exec(INITIAL, past).Some? && Free(Exec(INITIAL, past).value.pc)
    requires Exec(INITIAL, past).value.world.record.None? && AllUncrashed(es)
    requires Exec(State(Exec(INITIAL, past).value.world, Admit), es).Some?
    requires Free(Exec(State(Exec(INITIAL, past).value.world, Admit), es).value.pc)
    ensures
      var s := Exec(INITIAL, past).value;
      var t, c := Exec(State(s.world, Admit), es).value, Choices(es);
      && |c| > 0
      && (if c[0].authority
          then t.world.record.Some? && (!CancelRequested(t.world) ==> EndsAs(t, c, Reading(2, true, false, s.world.asks)))
          else t.pc == Threw(CapabilityUnavailable) && t.world.record.None? && t.world.asks == s.world.asks)
  {
    hide Inv, Next, Exec, Admitting, EndsAs, AllUncrashed;
    var s := Exec(INITIAL, past).value;
    var begun := State(s.world, Admit);
    InitialInv();
    RunKeepsInv(INITIAL, past);
    NewStarts(s);
    AdmitsRun(begun, es, s.world.asks);
    RunKeepsInv(begun, es);
    AdmittingEnds(Exec(begun, es).value, Choices(es), s.world.asks);
  }

  lemma NewStarts(s: State)
    requires Inv(s) && Free(s.pc) && s.world.record.None?
    ensures Inv(State(s.world, Admit)) && Admitting(State(s.world, Admit), [], s.world.asks)
  {
    hide Inv;
    NextKeepsInv(s, StartExecute);
  }

  lemma AdmittingEnds(t: State, c: seq<Choice>, asks: nat)
    requires Inv(t) && Admitting(t, c, asks) && Free(t.pc)
    ensures |c| > 0
    ensures
      if c[0].authority
      then t.world.record.Some? && (!CancelRequested(t.world) ==> EndsAs(t, c, Reading(2, true, false, asks)))
      else t.pc == Threw(CapabilityUnavailable) && t.world.record.None? && t.world.asks == asks
  {
    hide Inv, Stage, EndsAs, Idle;
    if |c| >= 2 && c[0].authority && !CancelRequested(t.world) { StageEnds(t, c, Reading(2, true, false, asks)); }
  }

  // ---------------------------------------------------------------- cancelling

  /** A cancelling session on an intent the launcher never heard of, its request already on the row. */
  predicate Cancelling(s: State, c: seq<Choice>, asks: nat) {
    && CancelRequested(s.world)
    && if |c| == 0 then Idle(s.world, asks) && s.pc == CancelBegin(s.world.record.value)
       else if |c| == 1 then Idle(s.world, asks) && s.pc == CancelQuery(s.world.record.value)
       else
         var t := UnlaunchedResult(Cancelled, c[1].now);
         if |c| == 2 then Idle(s.world, asks) && s.pc == CommitUnlaunched(s.world.record.value, t)
         else Declining(s, t, asks)
  }

  lemma CancelOpens(s: State, asks: nat, ch: Choice)
    requires Idle(s.world, asks) && CancelRequested(s.world)
    ensures
      var rec := s.world.record.value;
      && (s.pc == CancelBegin(rec) ==> Step(s, ch) == State(s.world, CancelQuery(rec)))
      && (s.pc == CancelQuery(rec) ==>
            Step(s, ch) == State(s.world, CommitUnlaunched(rec, UnlaunchedResult(Cancelled, ch.now))))
  {
  }

  lemma CancellingNext(s: State, c: seq<Choice>, asks: nat, e: Event)
    requires Inv(s) && Cancelling(s, c, asks) && Uncrashed(e) && Next(s, e).Some?
    ensures Cancelling(Next(s, e).value, c + if e.Await? then [e.choice] else [], asks)
  {
    NextGrows(s, e);
    var t := Next(s, e).value;
    assert CancelRequested(t.world) by { hide Inv, Next; }
    if e.Await? {
      hide Inv, Step, Declining;
      assert forall j :: 0 <= j < |c| ==> (c + [e.choice])[j] == c[j];
      if |c| <= 1 { CancelOpens(s, asks, e.choice); }
      else { DeclineAwaits(s, UnlaunchedResult(Cancelled, c[1].now), asks, e.choice); }
    } else {
      assert c + [] == c;
      hide Inv;
      OthersKeep(s, e);
      hide Next, Calm, Converging;
    }
  }

  lemma {:induction false} CancellingRun(s: State, es: seq<Event>, asks: nat)
    requires Inv(s) && Cancelling(s, [], asks) && AllUncrashed(es) && Exec(s, es).Some?
    ensures Cancelling(Exec(s, es).value, Choices(es), asks)
  {
    hide Inv, Cancelling, Next, Uncrashed;
    if |es| > 0 {
      var front, last := es[..|es| - 1], es[|es| - 1];
      CancellingRun(s, front, asks);
      RunKeepsInv(s, front);
      CancellingNext(Exec(s, front).value, Choices(front), asks, last);
    }
  }

  /** Cancelling before launch: an intent the launcher never heard of ends as cancelled, with nothing
      launched and everything about it recorded, whatever calm events interleave. */
  lemma CancelSession(past: seq<Event>, es: seq<Event>)
    requires Exec(INITIAL, past).Some? && Free(Exec(INITIAL, past).value.pc)
    requires Idle(Exec(INITIAL, past).value.world, Exec(INITIAL, past).value.world.asks)
    requires CancelRequested(Exec(INITIAL, past).value.world) && AllUncrashed(es)
    requires
      var s := Exec(INITIAL, past).value;
      Exec(State(s.world, CancelBegin(s.world.record.value)), es).Some?
    requires
      var s := Exec(INITIAL, past).value;
      Free(Exec(State(s.world, CancelBegin(s.world.record.value)), es).value.pc)
    ensures
      var s := Exec(INITIAL, past).value;
      var t, c := Exec(State(s.world, CancelBegin(s.world.record.value)), es).value, Choices(es);
      && |c| > 2 && t.world.entry.None? && t.world.asks == s.world.asks
      && t.pc == Done(ExpectedAction(UnlaunchedResult(Cancelled, c[1].now)))
      && OperationFinished(t.world, UnlaunchedResult(Cancelled, c[1].now))
  {
    hide Inv, Next, Exec, AllUncrashed;
    var s := Exec(INITIAL, past).value;
    var begun := State(s.world, CancelBegin(s.world.record.value));
    InitialInv();
    RunKeepsInv(INITIAL, past);
    CancelStarts(s);
    CancellingRun(begun, es, s.world.asks);
    RunKeepsInv(begun, es);
    var t, c := Exec(begun, es).value, Choices(es);
    hide Fresh, Converging;
    if |c| > 2 { ReturnedIsExpected(t, UnlaunchedResult(Cancelled, c[1].now)); }
  }

  lemma CancelStarts(s: State)
    requires Inv(s) && Free(s.pc) && s.world.record.Some?
    ensures Inv(State(s.world, CancelBegin(s.world.record.value)))
  {
    hide Inv;
    NextKeepsInv(s, StartCancel);
  }

  /** Anything else a cancelling session leaves alone: it unlocks, or complains that nothing was requested. */
  lemma CancelLeavesAlone(s: State, ch: Choice)
    requires s.pc.CancelBegin? || s.pc.CancelQuery?
    ensures Step(s, ch).world == s.world
    ensures s.pc.CancelBegin? ==>
      var rec := s.pc.rec;
      && (Step(s, ch).pc == Threw(CancellationFailed) <==>
            (rec.state == Intent || rec.state == Active) && !rec.cancellationRequested)
      && (Step(s, ch).pc == CancelQuery(rec) <==> rec.state == Intent && !rec.accepted && rec.cancellationRequested)
      && (Step(s, ch).pc == Unlocked <==>
            || rec.state == Finalizing || rec.state == Terminal
            || (rec.cancellationRequested && (rec.state == Active || rec.accepted)))
    ensures s.pc.CancelQuery? ==> (Step(s, ch).pc == Unlocked <==> s.world.entry.Some?)
  {
  }
}
