/**
 Assigning a Run's durable receipts to its governed request windows.
 */
module ProgressWindows {
  import opened Basics
  import opened CanonicalOrder

  datatype Outcome = Succeeded | Failed | Refused | OtherOutcome

  datatype Receipt = Receipt(
    id: nat, recordedAt: Option<int>, outcome: Outcome, inspection: bool,
    path: Option<string>, fingerprint: Option<string>)

  datatype Reservation = Reservation(
    ordinal: int, startedAt: Option<int>, hasDurableResponse: bool, delivered: Option<bool>)

  /** A half-open interval of instants; the receipts it observes are kept beside it. */
  datatype Window = Window(
    ordinal: int, hasDurableResponse: bool, delivered: Option<bool>, from: int, until: Option<int>)

  // ---------------------------------------------------------------- ordering the started reservations

  predicate Ascending(rs: seq<Reservation>) {
    forall i, j :: 0 <= i < j < |rs| ==> rs[i].ordinal <= rs[j].ordinal
  }

  predicate OrdinalLe(a: Reservation, b: Reservation) {
    a.ordinal <= b.ordinal
  }

  /** Started reservations in ordinal order. */
  function Ordered(reservations: seq<Reservation>): seq<Reservation> {
    Sort(Started(reservations), OrdinalLe)
  }

  lemma OrderedMeans(reservations: seq<Reservation>)
    ensures Ascending(Ordered(reservations))
    ensures multiset(Ordered(reservations)) == multiset(Started(reservations))
  {
    assert Ordering(OrdinalLe);
    SortPermutes(Started(reservations), OrdinalLe);
    SortSorts(Started(reservations), OrdinalLe);
  }

  function Started(reservations: seq<Reservation>): (r: seq<Reservation>)
    ensures forall k :: 0 <= k < |r| ==> r[k].startedAt.Some? && r[k] in reservations
    ensures forall x :: x in reservations && x.startedAt.Some? ==> x in r
  {
    if reservations == [] then []
    else if reservations[0].startedAt.Some? then [reservations[0]] + Started(reservations[1..])
    else Started(reservations[1..])
  }

  // ---------------------------------------------------------------- which window

  predicate Covers(w: Window, recordedAt: Option<int>) {
    recordedAt.Some? && w.from <= recordedAt.value && (w.until.None? || recordedAt.value < w.until.value)
  }

  /** Consecutive half-open intervals: each window ends where the next one starts. */
  ghost predicate Chained(ws: seq<Window>) {
    forall i :: 0 <= i < |ws| ==> ws[i].until == NextStart(ws, i)
  }

  ghost function NextStart(ws: seq<Window>, i: nat): Option<int> {
    if i + 1 < |ws| then Some(ws[i + 1].from) else None
  }

  /** The first window that covers the instant. */
  ghost predicate Assigned(ws: seq<Window>, recordedAt: Option<int>, i: nat) {
    && i < |ws| && Covers(ws[i], recordedAt)
    && forall j :: 0 <= j < i ==> !Covers(ws[j], recordedAt)
  }

  ghost predicate Homeless(ws: seq<Window>, recordedAt: Option<int>) {
    forall j :: 0 <= j < |ws| ==> !Covers(ws[j], recordedAt)
  }

  /** A receipt belongs to no window exactly when it has no instant, or precedes every start. */
  lemma UnassignedIff(ws: seq<Window>, recordedAt: Option<int>)
    requires Chained(ws)
    ensures Homeless(ws, recordedAt) <==>
      recordedAt.None? || forall i :: 0 <= i < |ws| ==> recordedAt.value < ws[i].from
  {
    if recordedAt.Some? {
      if i :| 0 <= i < |ws| && ws[i].from <= recordedAt.value {
        var k := LastStarted(ws, recordedAt.value, i);
      }
    }
  }

  /** From a window that has started, follow the chain to one that covers the instant. */
  lemma {:induction false} LastStarted(ws: seq<Window>, t: int, i: nat) returns (k: nat)
    requires Chained(ws) && i < |ws| && ws[i].from <= t
    ensures i <= k < |ws| && Covers(ws[k], Some(t))
    decreases |ws| - i
  {
    if Covers(ws[i], Some(t)) { k := i; }
    else { k := LastStarted(ws, t, i + 1); }
  }

  /** When starts never go backwards, a receipt lands in the last window started by its instant. */
  lemma AssignedIsLastStarted(ws: seq<Window>, t: int, i: nat)
    requires Chained(ws) && Assigned(ws, Some(t), i)
    requires forall a, b :: 0 <= a < b < |ws| ==> ws[a].from <= ws[b].from
    ensures ws[i].from <= t && forall j :: i < j < |ws| ==> t < ws[j].from
  {
    assert ws[i].until == NextStart(ws, i);
    forall j | i < j < |ws| ensures t < ws[j].from {
      if j > i + 1 { assert ws[i + 1].from <= ws[j].from; }
    }
  }

  // ---------------------------------------------------------------- the partition

  function OneIf(chosen: bool, receipt: Receipt): seq<Receipt> {
    if chosen then [receipt] else []
  }

  predicate HomeIs(ws: seq<Window>, receipt: Receipt, i: nat) {
    FirstCover(ws, receipt.recordedAt) == Some(i)
  }

  function Assignees(ws: seq<Window>, receipts: seq<Receipt>, i: nat): seq<Receipt>
  {
    if receipts == [] then []
    else
      var last := receipts[|receipts| - 1];
      Assignees(ws, receipts[..|receipts| - 1], i) + OneIf(HomeIs(ws, last, i), last)
  }

  function Leftovers(ws: seq<Window>, receipts: seq<Receipt>): seq<Receipt>
  {
    if receipts == [] then []
    else
      var last := receipts[|receipts| - 1];
      Leftovers(ws, receipts[..|receipts| - 1]) + OneIf(FirstCover(ws, last.recordedAt).None?, last)
  }

  /** `windows.find`. */
  function FirstCover(ws: seq<Window>, recordedAt: Option<int>): (r: Option<nat>)
    ensures r.None? <==> Homeless(ws, recordedAt)
    ensures r.Some? ==> Assigned(ws, recordedAt, r.value)
  {
    FirstCoverFrom(ws, recordedAt, 0)
  }

  function FirstCoverFrom(ws: seq<Window>, recordedAt: Option<int>, i: nat): (r: Option<nat>)
    requires i <= |ws|
    ensures r.None? <==> forall j :: i <= j < |ws| ==> !Covers(ws[j], recordedAt)
    ensures r.Some? ==>
      && i <= r.value < |ws| && Covers(ws[r.value], recordedAt)
      && forall j :: i <= j < r.value ==> !Covers(ws[j], recordedAt)
    decreases |ws| - i
  {
    if i == |ws| then None
    else if Covers(ws[i], recordedAt) then Some(i)
    else FirstCoverFrom(ws, recordedAt, i + 1)
  }

  /** All the receipts some window observes. */
  ghost function Gathered(observed: seq<seq<Receipt>>): multiset<Receipt> {
    if observed == [] then multiset{}
    else Gathered(observed[..|observed| - 1]) + multiset(observed[|observed| - 1])
  }

  lemma {:induction false} GatherOne(observed: seq<seq<Receipt>>, i: nat, receipt: Receipt)
    requires i < |observed|
    ensures Gathered(observed[i := observed[i] + [receipt]]) == Gathered(observed) + multiset{receipt}
  {
    var last := |observed| - 1;
    var after := observed[i := observed[i] + [receipt]];
    if i == last {
      assert after[..last] == observed[..last];
    } else {
      assert after[..last] == observed[..last][i := observed[i] + [receipt]];
      GatherOne(observed[..last], i, receipt);
    }
  }

  ghost predicate WindowFor(w: Window, r: Reservation) {
    && r.startedAt == Some(w.from) && w.ordinal == r.ordinal
    && w.hasDurableResponse == r.hasDurableResponse && w.delivered == r.delivered
  }

  /** One window per started reservation, each open until the next start. */
  function WindowsOf(ordered: seq<Reservation>): (ws: seq<Window>)
    ensures |ws| == |ordered|
    ensures forall i :: 0 <= i < |ws| ==> ws[i] == WindowAt(ordered, i)
  {
    seq(|ordered|, i requires 0 <= i < |ordered| => WindowAt(ordered, i))
  }

  function WindowAt(ordered: seq<Reservation>, i: nat): Window
    requires i < |ordered|
  {
    var r := ordered[i];
    Window(r.ordinal, r.hasDurableResponse, r.delivered, if r.startedAt.Some? then r.startedAt.value else 0,
           if i + 1 < |ordered| then ordered[i + 1].startedAt else None)
  }

  lemma WindowsOfChained(ordered: seq<Reservation>)
    requires forall k :: 0 <= k < |ordered| ==> ordered[k].startedAt.Some?
    ensures Chained(WindowsOf(ordered))
    ensures forall k :: 0 <= k < |ordered| ==> WindowFor(WindowsOf(ordered)[k], ordered[k])
  {
  }

  method OpenWindows(ordered: seq<Reservation>) returns (ws: seq<Window>)
    ensures ws == WindowsOf(ordered)
  {
    ws := [];
    for i := 0 to |ordered|
      invariant |ws| == i && forall k :: 0 <= k < i ==> ws[k] == WindowAt(ordered, k)
    {
      var r := ordered[i];
      var from := if r.startedAt.Some? then r.startedAt.value else 0;
      var until := if i + 1 < |ordered| then ordered[i + 1].startedAt else None;
      ws := ws + [Window(r.ordinal, r.hasDurableResponse, r.delivered, from, until)];
    }
  }

  lemma AssignOne(ws: seq<Window>, receipts: seq<Receipt>, receipt: Receipt)
    ensures forall i: nat ::
      Assignees(ws, receipts + [receipt], i) == Assignees(ws, receipts, i) + OneIf(HomeIs(ws, receipt, i), receipt)
    ensures Leftovers(ws, receipts + [receipt]) ==
            Leftovers(ws, receipts) + OneIf(FirstCover(ws, receipt.recordedAt).None?, receipt)
  {
    assert (receipts + [receipt])[..|receipts|] == receipts;
  }

  /** Receipt by receipt into the first window that covers it, in order. */
  method Assign(windows: seq<Window>, receipts: seq<Receipt>)
    returns (observed: seq<seq<Receipt>>, unassigned: seq<Receipt>)
    ensures observed == Observed(windows, receipts)
    ensures unassigned == Leftovers(windows, receipts)
  {
    observed, unassigned := seq(|windows|, _ => []), [];
    assert observed == Observed(windows, []);
    for k := 0 to |receipts|
      invariant observed == Observed(windows, receipts[..k])
      invariant unassigned == Leftovers(windows, receipts[..k])
    {
      hide Assignees, Leftovers, Observed, FirstCover;
      var receipt := receipts[k];
      assert receipts[..k + 1] == receipts[..k] + [receipt];
      AssignOne(windows, receipts[..k], receipt);
      ObservedOne(windows, receipts[..k], receipt);
      var home := FirstCover(windows, receipt.recordedAt);
      if home.None? {
        unassigned := unassigned + [receipt];
      } else {
        observed := observed[home.value := observed[home.value] + [receipt]];
      }
    }
    assert receipts[..|receipts|] == receipts;
  }

  function Observed(ws: seq<Window>, receipts: seq<Receipt>): (r: seq<seq<Receipt>>)
    ensures |r| == |ws| && forall i :: 0 <= i < |ws| ==> r[i] == Assignees(ws, receipts, i)
  {
    seq(|ws|, i requires 0 <= i => Assignees(ws, receipts, i))
  }

  lemma ObservedOne(ws: seq<Window>, receipts: seq<Receipt>, receipt: Receipt)
    ensures
      var home := FirstCover(ws, receipt.recordedAt);
      var before, after := Observed(ws, receipts), Observed(ws, receipts + [receipt]);
      after == if home.None? then before else before[home.value := before[home.value] + [receipt]]
  {
    AssignOne(ws, receipts, receipt);
    hide Assignees, Leftovers;
    var home := FirstCover(ws, receipt.recordedAt);
    var before, after := Observed(ws, receipts), Observed(ws, receipts + [receipt]);
    forall i | 0 <= i < |ws|
      ensures after[i] == if home == Some(i) then before[i] + [receipt] else before[i]
    {
      assert after[i] == before[i] + OneIf(home == Some(i), receipt);
    }
  }

  lemma OneMoreGathered(ws: seq<Window>, receipts: seq<Receipt>, receipt: Receipt)
    ensures Gathered(Observed(ws, receipts + [receipt])) + multiset(Leftovers(ws, receipts + [receipt])) ==
            Gathered(Observed(ws, receipts)) + multiset(Leftovers(ws, receipts)) + multiset{receipt}
  {
    AssignOne(ws, receipts, receipt);
    ObservedOne(ws, receipts, receipt);
    hide Observed, Leftovers, Gathered, Assignees;
    var home := FirstCover(ws, receipt.recordedAt);
    if home.Some? { GatherOne(Observed(ws, receipts), home.value, receipt); }
  }

  /** Every receipt is in exactly one window or left over, none lost or doubled. */
  lemma {:induction false} NothingLost(ws: seq<Window>, receipts: seq<Receipt>)
    ensures Gathered(Observed(ws, receipts)) + multiset(Leftovers(ws, receipts)) == multiset(receipts)
  {
    if receipts == [] {
      NothingGathered(Observed(ws, receipts));
    } else {
      var front, last := receipts[..|receipts| - 1], receipts[|receipts| - 1];
      NothingLost(ws, front);
      assert receipts == front + [last];
      OneMoreGathered(ws, front, last);
    }
  }

  lemma {:induction false} NothingGathered(observed: seq<seq<Receipt>>)
    requires forall i :: 0 <= i < |observed| ==> observed[i] == []
    ensures Gathered(observed) == multiset{}
  {
    if observed != [] { NothingGathered(observed[..|observed| - 1]); }
  }

  /** `partitionReceiptsIntoWindows`. */
  method Partition(reservations: seq<Reservation>, receipts: seq<Receipt>)
    returns (windows: seq<Window>, observed: seq<seq<Receipt>>, unassigned: seq<Receipt>)
    ensures windows == WindowsOf(Ordered(reservations))
    ensures Chained(windows) && |windows| == |Started(reservations)| == |observed|
    ensures forall i, j :: 0 <= i < j < |windows| ==> windows[i].ordinal <= windows[j].ordinal
    ensures forall r :: r in Started(reservations) ==> exists k :: 0 <= k < |windows| && WindowFor(windows[k], r)
    ensures Gathered(observed) + multiset(unassigned) == multiset(receipts)
    ensures observed == Observed(windows, receipts)
    ensures unassigned == Leftovers(windows, receipts)
  {
    var ordered := Ordered(reservations);
    OrderedMeans(reservations);
    hide Ordered;
    assert |ordered| == |multiset(ordered)| == |multiset(Started(reservations))| == |Started(reservations)|;
    forall k | 0 <= k < |ordered| ensures ordered[k].startedAt.Some? {
      assert ordered[k] in multiset(Started(reservations));
    }
    windows := OpenWindows(ordered);
    WindowsOfChained(ordered);
    hide WindowsOf;
    forall r | r in Started(reservations) ensures exists k :: 0 <= k < |windows| && WindowFor(windows[k], r) {
      assert r in multiset(ordered);
      var k :| 0 <= k < |ordered| && ordered[k] == r;
      assert WindowFor(windows[k], r);
    }
    observed, unassigned := Assign(windows, receipts);
    NothingLost(windows, receipts);
  }
}
