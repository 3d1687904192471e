/**
 Replaying a Run's windows: what each verifies, and how long nothing was verified.
 */
module ProgressStreak {
  import opened Basics
  import opened ProgressWindows

  type Fact = string
  type Claims = map<nat, set<Fact>>

  // ---------------------------------------------------------------- verified progress of one window

  /** `classifyObservation`: failed, refused and inspection receipts never advance anything. */
  predicate Usable(r: Receipt) {
    r.outcome != Failed && r.outcome != Refused && !r.inspection
  }

  function ClaimedBy(r: Receipt, claims: Claims): set<Fact> {
    if Usable(r) && r.id in claims then claims[r.id] else {}
  }

  /** The declared facts some usable receipt of the window claims. */
  ghost predicate ClaimedIn(observations: seq<Receipt>, claims: Claims, f: Fact) {
    exists k :: 0 <= k < |observations| && f in ClaimedBy(observations[k], claims)
  }

  /** The facts a window newly verifies, given what earlier windows had satisfied. */
  function VerifiedFacts(observations: seq<Receipt>, claims: Claims, declared: set<Fact>, satisfied: set<Fact>)
    : (facts: set<Fact>)
    ensures forall f :: f in facts <==> ClaimedIn(observations, claims, f) && f in declared && f !in satisfied
  {
    if observations == [] then {}
    else
      var front, last := observations[..|observations| - 1], observations[|observations| - 1];
      var before := VerifiedFacts(front, claims, declared, satisfied);
      ClaimedOneMore(front, last, claims);
      assert observations == front + [last];
      before + set f | f in ClaimedBy(last, claims) && f in declared && f !in satisfied
  }

  lemma ClaimedOneMore(observations: seq<Receipt>, r: Receipt, claims: Claims)
    ensures forall f :: ClaimedIn(observations + [r], claims, f) <==>
      ClaimedIn(observations, claims, f) || f in ClaimedBy(r, claims)
  {
    forall f ensures ClaimedIn(observations + [r], claims, f) <==>
                     ClaimedIn(observations, claims, f) || f in ClaimedBy(r, claims) {
      var all := observations + [r];
      assert all[|observations|] == r;
      if k :| 0 <= k < |observations| && f in ClaimedBy(observations[k], claims) { assert all[k] == observations[k]; }
    }
  }

  /** The projection's loop: facts already satisfied, before or within the window, do not count again. */
  method Project(observations: seq<Receipt>, claims: Claims, declared: set<Fact>, satisfied: set<Fact>)
    returns (verified: set<Fact>)
    ensures verified == VerifiedFacts(observations, claims, declared, satisfied)
  {
    var known := satisfied;
    verified := {};
    for k := 0 to |observations|
      invariant verified == VerifiedFacts(observations[..k], claims, declared, satisfied)
      invariant known == satisfied + verified
    {
      var claimed := ClaimedBy(observations[k], claims);
      var newly := set f | f in claimed && f in declared && f !in known;
      assert observations[..k + 1][..k] == observations[..k];
      verified, known := verified + newly, known + newly;
    }
    assert observations[..|observations|] == observations;
  }

  // ---------------------------------------------------------------- the streak

  /** `isChurnEligibleWindow`: answered, not known to be undelivered. */
  predicate ChurnEligible(w: Window, observations: seq<Receipt>) {
    w.hasDurableResponse && w.delivered != Some(false) && (|observations| > 0 || w.ordinal > 0)
  }

  datatype Input = Input(windows: seq<Window>, observed: seq<seq<Receipt>>, claims: Claims, declared: set<Fact>)

  predicate Paired(inp: Input) {
    |inp.windows| == |inp.observed|
  }

  /** Facts satisfied by the first `n` windows. */
  function SatisfiedBy(inp: Input, n: nat): set<Fact>
    requires Paired(inp) && n <= |inp.windows|
  {
    if n == 0 then {}
    else
      var before := SatisfiedBy(inp, n - 1);
      before + VerifiedFacts(inp.observed[n - 1], inp.claims, inp.declared, before)
  }

  /** Window `i` verified something new. */
  predicate Progressed(inp: Input, i: nat)
    requires Paired(inp) && i < |inp.windows|
  {
    VerifiedFacts(inp.observed[i], inp.claims, inp.declared, SatisfiedBy(inp, i)) != {}
  }

  /** The counter as it is replayed. */
  function Streak(inp: Input, n: nat): nat
    requires Paired(inp) && n <= |inp.windows|
  {
    if n == 0 then 0
    else if Progressed(inp, n - 1) then 0
    else Streak(inp, n - 1) + if ChurnEligible(inp.windows[n - 1], inp.observed[n - 1]) then 1 else 0
  }

  // ---------------------------------------------------------------- unanswered windows

  function Without(inp: Input, i: nat): Input
    requires Paired(inp) && i < |inp.windows|
  {
    inp.(windows := inp.windows[..i] + inp.windows[i + 1..], observed := inp.observed[..i] + inp.observed[i + 1..])
  }

  lemma {:induction false} SatisfiedWithout(inp: Input, i: nat, m: nat)
    requires Paired(inp) && i < |inp.windows| && m <= |inp.windows| && !Progressed(inp, i)
    ensures Paired(Without(inp, i)) && |Without(inp, i).windows| == |inp.windows| - 1
    ensures m <= i ==> SatisfiedBy(Without(inp, i), m) == SatisfiedBy(inp, m)
    ensures m > i ==> SatisfiedBy(Without(inp, i), m - 1) == SatisfiedBy(inp, m)
  {
    hide VerifiedFacts;
    if m > 0 { SatisfiedWithout(inp, i, m - 1); }
  }

  lemma {:induction false} StreakWithout(inp: Input, i: nat, m: nat)
    requires Paired(inp) && i < |inp.windows| && m <= |inp.windows|
    requires !Progressed(inp, i) && !ChurnEligible(inp.windows[i], inp.observed[i])
    ensures Paired(Without(inp, i)) && |Without(inp, i).windows| == |inp.windows| - 1
    ensures m <= i ==> Streak(Without(inp, i), m) == Streak(inp, m)
    ensures m > i ==> Streak(Without(inp, i), m - 1) == Streak(inp, m)
  {
    hide VerifiedFacts, ChurnEligible, SatisfiedBy;
    SatisfiedWithout(inp, i, m);
    if m > 0 {
      SatisfiedWithout(inp, i, m - 1);
      StreakWithout(inp, i, m - 1);
    }
  }

  /** A window that was never answered, or whose answer was never delivered, leaves no mark on the
      counter: the Run stands as if that request had never been made. */
  lemma UnansweredNeverCounts(inp: Input, i: nat)
    requires Paired(inp) && i < |inp.windows| && !Progressed(inp, i)
    requires !inp.windows[i].hasDurableResponse || inp.windows[i].delivered == Some(false)
    ensures Paired(Without(inp, i))
    ensures Streak(Without(inp, i), |inp.windows| - 1) == Streak(inp, |inp.windows|)
  {
    StreakWithout(inp, i, |inp.windows|);
  }

  // ---------------------------------------------------------------- replaying

  /** The replay loop of `evaluateGovernedRunProgress`. */
  method Replay(inp: Input) returns (streak: nat, latest: set<Fact>)
    requires Paired(inp)
    ensures streak == Streak(inp, |inp.windows|)
    ensures latest == LatestVerified(inp)
  {
    var satisfied: set<Fact> := {};
    streak, latest := 0, {};
    for i := 0 to |inp.windows|
      invariant satisfied == SatisfiedBy(inp, i) && streak == Streak(inp, i)
      invariant latest == if i == 0 then {} else
        VerifiedFacts(inp.observed[i - 1], inp.claims, inp.declared, SatisfiedBy(inp, i - 1))
    {
      latest := Project(inp.observed[i], inp.claims, inp.declared, satisfied);
      satisfied := satisfied + latest;
      if latest != {} {
        streak := 0;
      } else if ChurnEligible(inp.windows[i], inp.observed[i]) {
        streak := streak + 1;
      }
    }
  }

  function LatestVerified(inp: Input): set<Fact>
    requires Paired(inp)
  {
    var n := |inp.windows|;
    if n == 0 then {} else VerifiedFacts(inp.observed[n - 1], inp.claims, inp.declared, SatisfiedBy(inp, n - 1))
  }

  // ---------------------------------------------------------------- what the counter counts

  /** Some receipt of window `i` that neither failed, was refused nor only looked shows fact `f`. */
  ghost predicate Shows(inp: Input, i: int, f: Fact)
    requires 0 <= i < |inp.observed|
  {
    exists k :: 0 <= k < |inp.observed[i]| && Shown(inp.observed[i][k], inp.claims, f)
  }

  predicate Shown(r: Receipt, claims: Claims, f: Fact) {
    r.outcome != Failed && r.outcome != Refused && !r.inspection && r.id in claims && f in claims[r.id]
  }

  /** Window `i` is the first to show some declared fact. */
  ghost predicate Advances(inp: Input, i: int)
    requires 0 <= i < |inp.observed|
  {
    exists f :: f in inp.declared && Shows(inp, i, f) && forall j :: 0 <= j < i ==> !Shows(inp, j, f)
  }

  /** Among the first `n` windows, those that were answered to the Run and that no advance followed. */
  ghost function ChurnWindows(inp: Input, n: nat): set<int>
    requires Paired(inp) && n <= |inp.windows|
  {
    set i | 0 <= i < n && Answered(inp.windows[i], |inp.observed[i]|) && forall j :: i <= j < n ==> !Advances(inp, j)
  }

  predicate Answered(w: Window, receipts: nat) {
    w.hasDurableResponse && (w.delivered.None? || w.delivered.value) && (receipts > 0 || w.ordinal > 0)
  }

  lemma ShowsMeans(inp: Input, i: nat, f: Fact)
    requires i < |inp.observed|
    ensures ClaimedIn(inp.observed[i], inp.claims, f) <==> Shows(inp, i, f)
  {
    assert forall k :: 0 <= k < |inp.observed[i]| ==>
      (f in ClaimedBy(inp.observed[i][k], inp.claims) <==> Shown(inp.observed[i][k], inp.claims, f));
  }

  lemma {:induction false} SatisfiedMeans(inp: Input, n: nat, f: Fact)
    requires Paired(inp) && n <= |inp.windows|
    ensures f in SatisfiedBy(inp, n) <==> f in inp.declared && exists j :: 0 <= j < n && Shows(inp, j, f)
  {
    if n > 0 {
      SatisfiedMeans(inp, n - 1, f);
      ShowsMeans(inp, n - 1, f);
      hide Shows, ClaimedIn;
    }
  }

  lemma ProgressedMeans(inp: Input, i: nat)
    requires Paired(inp) && i < |inp.windows|
    ensures Progressed(inp, i) <==> Advances(inp, i)
  {
    var verified := VerifiedFacts(inp.observed[i], inp.claims, inp.declared, SatisfiedBy(inp, i));
    forall f
      ensures f in verified <==> f in inp.declared && Shows(inp, i, f) && forall j :: 0 <= j < i ==> !Shows(inp, j, f)
    {
      SatisfiedMeans(inp, i, f);
      ShowsMeans(inp, i, f);
    }
    hide Shows, VerifiedFacts, SatisfiedBy;
    if verified != {} { var f :| f in verified; }
  }

  /** The replayed counter counts exactly those windows. */
  lemma {:induction false} StreakCounts(inp: Input, n: nat)
    requires Paired(inp) && n <= |inp.windows|
    ensures Streak(inp, n) == |ChurnWindows(inp, n)|
  {
    hide ChurnWindows, Progressed, Advances, ChurnEligible;
    if n == 0 {
      NoWindows(inp);
    } else {
      StreakCounts(inp, n - 1);
      ProgressedMeans(inp, n - 1);
      OneMoreWindow(inp, n);
    }
  }

  lemma NoWindows(inp: Input)
    requires Paired(inp)
    ensures ChurnWindows(inp, 0) == {}
  {
  }

  lemma OneMoreWindow(inp: Input, n: nat)
    requires Paired(inp) && 0 < n <= |inp.windows|
    ensures Advances(inp, n - 1) ==> ChurnWindows(inp, n) == {}
    ensures !Advances(inp, n - 1) ==>
      && ChurnWindows(inp, n) == ChurnWindows(inp, n - 1)
         + (if ChurnEligible(inp.windows[n - 1], inp.observed[n - 1]) then {n - 1} else {})
      && n - 1 !in ChurnWindows(inp, n - 1)
  {
    hide Advances;
  }
}
