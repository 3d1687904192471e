/**
 Which declared facts a Run genuinely advanced, and in which batch.

 The builder works as the source does, filling maps in loops; its contract is the short
 declarative account: a fact is credited in the first batch that reads it satisfied after
 an unsatisfied baseline.
 */
module FactTransitions {
  import opened Basics

  type Fact = string

  datatype Verdict = Verdict(satisfied: bool, through: Option<nat>)

  /** A post-batch row names its batch step and, separately, the request that batch implies. */
  datatype Kind = Baseline | PostBatch(step: nat, requestStep: nat)

  /** One durable verdict; its evidence hash is injective in the verdict. */
  datatype Row = Row(run: nat, item: Option<nat>, fact: Fact, kind: Kind, verdict: Verdict, id: nat)

  datatype Refusal = Foreign | BaselineConflict | BaselineIncomplete | WindowAmbiguous | EvidenceIncomplete

  datatype Window = Window(
    step: nat, through: Option<nat>,
    newly: set<Fact>, repeated: set<Fact>, unsatisfied: set<Fact>, supporting: set<nat>)

  datatype Transitions = Transitions(
    windows: seq<Window>, creditedAt: map<Fact, nat>, byReceipt: map<nat, set<Fact>>)

  // ---------------------------------------------------------------- the declarative account

  ghost predicate BaselineReads(rows: seq<Row>, f: Fact, satisfied: bool) {
    exists row :: row in rows && row.kind.Baseline? && row.fact == f && row.verdict.satisfied == satisfied
  }

  ghost predicate Reads(rows: seq<Row>, step: nat, f: Fact, satisfied: bool) {
    exists row :: row in rows && IsReading(row, step, f, satisfied)
  }

  ghost predicate IsReading(row: Row, step: nat, f: Fact, satisfied: bool) {
    row.kind.PostBatch? && row.kind.step == step && row.fact == f && row.verdict.satisfied == satisfied
  }

  /** The first batch that reads `f` satisfied, after a baseline that did not. */
  ghost predicate CreditedIn(rows: seq<Row>, f: Fact, step: nat) {
    && BaselineReads(rows, f, false)
    && Reads(rows, step, f, true)
    && forall earlier: nat :: earlier < step ==> !Reads(rows, earlier, f, true)
  }

  predicate IsAbout(row: Row, step: nat, f: Fact) {
    row.kind.PostBatch? && row.kind.step == step && row.fact == f
  }

  /** The row that stands for a batch's verdict on a fact: the last one recorded. */
  function LastReading(rows: seq<Row>, step: nat, f: Fact): Option<Row> {
    if rows == [] then None
    else if IsAbout(rows[|rows| - 1], step, f) then Some(rows[|rows| - 1])
    else LastReading(rows[..|rows| - 1], step, f)
  }

  lemma LastReadingAppend(rows: seq<Row>, row: Row)
    ensures forall step: nat, f ::
      LastReading(rows + [row], step, f) == if IsAbout(row, step, f) then Some(row) else LastReading(rows, step, f)
  {
    assert (rows + [row])[..|rows|] == rows;
  }

  /** The receipt a batch is anchored on: that of the first admitted fact it has a verdict for. */
  function AnchorAt(rows: seq<Row>, eligible: seq<Fact>, step: nat): Option<nat> {
    if eligible == [] then None
    else if LastReading(rows, step, eligible[0]).Some? then LastReading(rows, step, eligible[0]).value.verdict.through
    else AnchorAt(rows, eligible[1..], step)
  }

  ghost predicate Twice(q: seq<Fact>, f: Fact) {
    exists i, j :: 0 <= i < j < |q| && q[i] == f && q[j] == f
  }

  /** Everything one batch contributes, in terms of the evidence alone. */
  ghost function WindowAt(rows: seq<Row>, eligible: seq<Fact>, step: nat): Window {
    Window(
      step, AnchorAt(rows, eligible, step),
      set f | f in eligible && CreditedIn(rows, f, step),
      set f | f in eligible && Reads(rows, step, f, true) && (!CreditedIn(rows, f, step) || Twice(eligible, f)),
      set f | f in eligible && Reads(rows, step, f, false),
      set f | f in eligible && LastReading(rows, step, f).Some? :: LastReading(rows, step, f).value.id)
  }

  ghost predicate IsForeign(row: Row, run: nat, item: Option<nat>) {
    row.run != run || (item.Some? && row.item != item)
  }

  /** Credit happens at most once, in one batch. */
  lemma CreditedOnce(rows: seq<Row>, f: Fact, a: nat, b: nat)
    requires CreditedIn(rows, f, a) && CreditedIn(rows, f, b)
    ensures a == b
  {
  }

  /** Credit happens whenever the baseline was unsatisfied and some batch reads it satisfied. */
  lemma {:induction false} CreditedSomewhere(rows: seq<Row>, f: Fact, step: nat)
    requires BaselineReads(rows, f, false) && Reads(rows, step, f, true)
    ensures exists first: nat :: first <= step && CreditedIn(rows, f, first)
    decreases step
  {
    if earlier: nat :| earlier < step && Reads(rows, earlier, f, true) {
      CreditedSomewhere(rows, f, earlier);
    } else {
      assert CreditedIn(rows, f, step);
    }
  }

  lemma {:induction false} LaterReadings(rows: seq<Row>, more: seq<Row>, last: nat, f: Fact, step: nat)
    requires forall row :: row in more ==> row.kind.PostBatch? && row.kind.step > last
    requires step <= last
    ensures LastReading(rows + more, step, f) == LastReading(rows, step, f)
  {
    if more == [] {
      assert rows + more == rows;
    } else {
      var front, final := more[..|more| - 1], more[|more| - 1];
      assert final in more && rows + more == (rows + front) + [final];
      LastReadingAppend(rows + front, final);
      LaterReadings(rows, front, last, f, step);
    }
  }

  lemma {:induction false} LaterAnchors(rows: seq<Row>, more: seq<Row>, last: nat, eligible: seq<Fact>, step: nat)
    requires forall row :: row in more ==> row.kind.PostBatch? && row.kind.step > last
    requires step <= last
    ensures AnchorAt(rows + more, eligible, step) == AnchorAt(rows, eligible, step)
  {
    if eligible != [] {
      LaterReadings(rows, more, last, eligible[0], step);
      LaterAnchors(rows, more, last, eligible[1..], step);
    }
  }

  lemma LaterReads(rows: seq<Row>, more: seq<Row>, last: nat, f: Fact, step: nat)
    requires forall row :: row in more ==> row.kind.PostBatch? && row.kind.step > last
    requires step <= last
    ensures forall s: nat, b :: s <= step ==> (Reads(rows + more, s, f, b) <==> Reads(rows, s, f, b))
    ensures CreditedIn(rows + more, f, step) <==> CreditedIn(rows, f, step)
  {
    forall s: nat, b | s <= step ensures Reads(rows + more, s, f, b) <==> Reads(rows, s, f, b) {
      if row :| row in rows && IsReading(row, s, f, b) { assert row in rows + more; }
    }
    if row :| row in rows && row.kind.Baseline? && row.fact == f && !row.verdict.satisfied {
      assert row in rows + more;
    }
  }

  /** Evidence of later batches never changes anything about an earlier batch: its credit, its
      repeated and unsatisfied facts, the evidence behind them and the receipt it is anchored on. */
  lemma LaterEvidenceChangesNothing(rows: seq<Row>, more: seq<Row>, last: nat, eligible: seq<Fact>, step: nat)
    requires forall row :: row in more ==> row.kind.PostBatch? && row.kind.step > last
    requires step <= last
    ensures WindowAt(rows + more, eligible, step) == WindowAt(rows, eligible, step)
  {
    hide Reads, CreditedIn, LastReading, AnchorAt, Twice;
    LaterAnchors(rows, more, last, eligible, step);
    forall f | f in eligible
      ensures CreditedIn(rows + more, f, step) <==> CreditedIn(rows, f, step)
      ensures Reads(rows + more, step, f, true) <==> Reads(rows, step, f, true)
      ensures Reads(rows + more, step, f, false) <==> Reads(rows, step, f, false)
      ensures LastReading(rows + more, step, f) == LastReading(rows, step, f)
    {
      LaterReads(rows, more, last, f, step);
      LaterReadings(rows, more, last, f, step);
    }
  }

  // ---------------------------------------------------------------- collecting rows

  /** The rows about admitted facts; a row of another Run or item refuses the whole derivation. */
  method CollectOwn(run: nat, item: Option<nat>, eligible: set<Fact>, rows: seq<Row>)
    returns (r: Result<seq<Row>, Refusal>)
    ensures r.Ok? <==> forall k :: 0 <= k < |rows| ==> !IsForeign(rows[k], run, item)
    ensures r.Err? ==> r.error == Foreign
    ensures r.Ok? ==> forall row :: row in r.value <==> row in rows && row.fact in eligible
    ensures r.Ok? ==> forall step: nat, f :: f in eligible ==> LastReading(r.value, step, f) == LastReading(rows, step, f)
  {
    var own: seq<Row> := [];
    for i := 0 to |rows|
      invariant forall k :: 0 <= k < i ==> !IsForeign(rows[k], run, item)
      invariant forall row :: row in own <==> row in rows[..i] && row.fact in eligible
      invariant forall step: nat, f :: f in eligible ==> LastReading(own, step, f) == LastReading(rows[..i], step, f)
    {
      LastReadingAppend(rows[..i], rows[i]);
      LastReadingAppend(own, rows[i]);
      hide LastReading;
      if rows[i].run != run || (item.Some? && rows[i].item != item) {
        return Err(Foreign);
      }
      if rows[i].fact in eligible {
        own := own + [rows[i]];
      }
      assert rows[..i + 1] == rows[..i] + [rows[i]];
    }
    assert rows[..|rows|] == rows;
    return Ok(own);
  }

  ghost predicate BaselineIndexed(own: seq<Row>, baseline: map<Fact, Verdict>) {
    && (forall row :: row in own && row.kind.Baseline? ==>
          row.fact in baseline && baseline[row.fact] == row.verdict)
    && (forall f :: f in baseline ==> exists row :: row in own && row.kind.Baseline? && row.fact == f)
  }

  /** One verdict per fact; two different ones conflict. */
  method CollectBaselines(own: seq<Row>) returns (r: Result<map<Fact, Verdict>, Refusal>)
    ensures r.Ok? ==> BaselineIndexed(own, r.value)
    ensures r.Err? ==> r.error == BaselineConflict && exists a, b ::
      a in own && b in own && a.kind.Baseline? && b.kind.Baseline? && a.fact == b.fact && a.verdict != b.verdict
  {
    var baseline: map<Fact, Verdict> := map[];
    for i := 0 to |own|
      invariant BaselineIndexed(own[..i], baseline)
    {
      var row := own[i];
      assert own[..i + 1] == own[..i] + [row];
      if row.kind.Baseline? {
        if row.fact in baseline && baseline[row.fact] != row.verdict {
          var other :| other in own[..i] && other.kind.Baseline? && other.fact == row.fact;
          assert other in own && row in own;
          return Err(BaselineConflict);
        }
        baseline := baseline[row.fact := row.verdict];
      }
    }
    assert own[..|own|] == own;
    return Ok(baseline);
  }

  type Buckets = map<nat, map<Fact, Row>>

  ghost predicate BatchesIndexed(own: seq<Row>, byBatch: Buckets) {
    && (forall row :: row in own && row.kind.PostBatch? ==>
          && row.kind.requestStep == row.kind.step
          && row.kind.step in byBatch && row.fact in byBatch[row.kind.step]
          && byBatch[row.kind.step][row.fact].verdict == row.verdict)
    && (forall step, f :: step in byBatch && f in byBatch[step] ==>
          && byBatch[step][f] in own && byBatch[step][f].kind.PostBatch?
          && byBatch[step][f].kind.step == step && byBatch[step][f].fact == f)
    && (forall step :: step in byBatch ==> byBatch[step] != map[])
  }

  function BucketAt(byBatch: Buckets, step: nat, f: Fact): Option<Row> {
    if step in byBatch && f in byBatch[step] then Some(byBatch[step][f]) else None
  }

  /** Each bucket holds the last reading of its slot. */
  ghost predicate BatchesLatest(own: seq<Row>, byBatch: Buckets) {
    forall step: nat, f :: BucketAt(byBatch, step, f) == LastReading(own, step, f)
  }

  lemma LatestOne(own: seq<Row>, row: Row, byBatch: Buckets)
    requires BatchesLatest(own, byBatch)
    ensures row.kind.Baseline? ==> BatchesLatest(own + [row], byBatch)
    ensures row.kind.PostBatch? ==>
      var bucket := if row.kind.step in byBatch then byBatch[row.kind.step] else map[];
      BatchesLatest(own + [row], byBatch[row.kind.step := bucket[row.fact := row]])
  {
    LastReadingAppend(own, row);
    hide LastReading;
  }

  ghost predicate Ambiguous(own: seq<Row>) {
    || (exists row :: row in own && row.kind.PostBatch? && row.kind.requestStep != row.kind.step)
    || (exists a, b :: a in own && b in own && a.kind.PostBatch? && b.kind.PostBatch?
          && a.kind.step == b.kind.step && a.fact == b.fact && a.verdict != b.verdict)
  }

  lemma IndexOne(own: seq<Row>, row: Row, byBatch: Buckets, bucket: map<Fact, Row>)
    requires BatchesIndexed(own, byBatch) && row.kind.PostBatch? && row.kind.requestStep == row.kind.step
    requires bucket == if row.kind.step in byBatch then byBatch[row.kind.step] else map[]
    requires row.fact in bucket ==> bucket[row.fact].verdict == row.verdict
    ensures BatchesIndexed(own + [row], byBatch[row.kind.step := bucket[row.fact := row]])
  {
    var after := byBatch[row.kind.step := bucket[row.fact := row]];
    assert row.fact in after[row.kind.step];
  }

  method CollectBatches(own: seq<Row>) returns (r: Result<Buckets, Refusal>)
    ensures r.Ok? ==> BatchesIndexed(own, r.value) && BatchesLatest(own, r.value)
    ensures r.Err? ==> r.error == WindowAmbiguous && Ambiguous(own)
  {
    var byBatch: Buckets := map[];
    for i := 0 to |own|
      invariant BatchesIndexed(own[..i], byBatch) && BatchesLatest(own[..i], byBatch)
    {
      var row := own[i];
      assert own[..i + 1] == own[..i] + [row] && row in own;
      LatestOne(own[..i], row, byBatch);
      hide BatchesLatest;
      if row.kind.PostBatch? {
        if row.kind.requestStep != row.kind.step {
          return Err(WindowAmbiguous);
        }
        var bucket := if row.kind.step in byBatch then byBatch[row.kind.step] else map[];
        if row.fact in bucket && bucket[row.fact].verdict != row.verdict {
          assert bucket[row.fact] in own[..i];
          return Err(WindowAmbiguous);
        }
        IndexOne(own[..i], row, byBatch, bucket);
        byBatch := byBatch[row.kind.step := bucket[row.fact := row]];
      }
    }
    assert own[..|own|] == own;
    return Ok(byBatch);
  }

  ghost predicate StrictlyIncreasing(q: seq<nat>) {
    forall i, j :: 0 <= i < j < |q| ==> q[i] < q[j]
  }

  /** Batch steps in durable order. */
  method SortSteps(steps: set<nat>) returns (q: seq<nat>)
    ensures StrictlyIncreasing(q)
    ensures forall x :: x in q <==> x in steps
  {
    q := [];
    var rest := steps;
    while rest != {}
      invariant StrictlyIncreasing(q) && rest <= steps
      invariant forall x :: x in q <==> x in steps - rest
      invariant forall i, y :: 0 <= i < |q| && y in rest ==> q[i] < y
      decreases |rest|
    {
      var least :| least in rest;
      var others := rest - {least};
      while others != {}
        invariant others <= rest && least in rest && least !in others
        invariant forall x :: x in rest && x !in others ==> least <= x
        decreases |others|
      {
        var x :| x in others;
        others := others - {x};
        if x < least { least := x; }
      }
      q := q + [least];
      rest := rest - {least};
    }
  }

  // ---------------------------------------------------------------- walking the windows

  ghost predicate TrueIn(byBatch: Buckets, step: nat, f: Fact) {
    step in byBatch && f in byBatch[step] && byBatch[step][f].verdict.satisfied
  }

  ghost predicate FalseIn(byBatch: Buckets, step: nat, f: Fact) {
    step in byBatch && f in byBatch[step] && !byBatch[step][f].verdict.satisfied
  }

  ghost predicate FirstTrue(byBatch: Buckets, step: nat, f: Fact) {
    TrueIn(byBatch, step, f) && forall earlier: nat :: earlier < step ==> !TrueIn(byBatch, earlier, f)
  }

  /** The receipt anchor of a batch: that of the first admitted fact it has a verdict for. */
  function Anchor(eligible: seq<Fact>, bucket: map<Fact, Row>): Option<nat> {
    if eligible == [] then None
    else if eligible[0] in bucket then bucket[eligible[0]].verdict.through
    else Anchor(eligible[1..], bucket)
  }

  function Supporting(eligible: seq<Fact>, bucket: map<Fact, Row>): set<nat> {
    set f | f in eligible && f in bucket :: bucket[f].id
  }

  lemma TwiceAppend(q: seq<Fact>, x: Fact)
    ensures forall f :: Twice(q + [x], f) <==> Twice(q, f) || (f == x && f in q)
    ensures forall f :: Twice(q, f) ==> f in q
  {
    var all := q + [x];
    forall f ensures Twice(all, f) <==> Twice(q, f) || (f == x && f in q) {
      if i, j :| 0 <= i < j < |q| && q[i] == f && q[j] == f { assert all[i] == f && all[j] == f; }
      if f == x && f in q {
        var i :| 0 <= i < |q| && q[i] == f;
        assert all[i] == f && all[|q|] == f;
      }
    }
  }

  /** What one batch contributes. */
  ghost predicate WindowOf(
    w: Window, eligible: seq<Fact>, baseline: map<Fact, Verdict>, byBatch: Buckets, step: nat)
    requires step in byBatch
  {
    && w.step == step
    && w.through == Anchor(eligible, byBatch[step])
    && (forall f :: f in w.newly <==>
          f in eligible && f in baseline && !baseline[f].satisfied && FirstTrue(byBatch, step, f))
    && (forall f :: f in w.repeated <==>
          f in eligible && TrueIn(byBatch, step, f) && (f !in w.newly || Twice(eligible, f)))
    && (forall f :: f in w.unsatisfied <==>
          f in eligible && f in byBatch[step] && !byBatch[step][f].verdict.satisfied)
    && w.supporting == Supporting(eligible, byBatch[step])
  }

  /** `creditedAt` after the batches before `bound`. */
  ghost predicate CreditedBefore(
    creditedAt: map<Fact, nat>, eligible: seq<Fact>, baseline: map<Fact, Verdict>, byBatch: Buckets, bound: int)
  {
    && (forall f :: f in creditedAt ==>
          f in eligible && f in baseline && !baseline[f].satisfied
          && creditedAt[f] < bound && FirstTrue(byBatch, creditedAt[f], f))
    && (forall f, step: nat ::
          (f in eligible && f in baseline && !baseline[f].satisfied && step < bound && TrueIn(byBatch, step, f))
          ==> f in creditedAt)
  }

  method AnchorOf(eligible: seq<Fact>, bucket: map<Fact, Row>) returns (through: Option<nat>)
    ensures through == Anchor(eligible, bucket)
  {
    for i := 0 to |eligible|
      invariant Anchor(eligible, bucket) == Anchor(eligible[i..], bucket)
    {
      if eligible[i] in bucket { return bucket[eligible[i]].verdict.through; }
    }
    return None;
  }

  lemma NeverTwice()
    ensures forall f :: !Twice([], f)
  {
  }

  /** One batch: classify every admitted fact it has a verdict for. */
  method WalkBatch(
    eligible: seq<Fact>, ghost baseline: map<Fact, Verdict>, ghost byBatch: Buckets, bucket: map<Fact, Row>,
    step: nat, satisfiedSoFar: set<Fact>, creditedAt0: map<Fact, nat>)
    returns (w: Window, creditedAt: map<Fact, nat>)
    requires step in byBatch && byBatch[step] == bucket
    requires forall f :: f in eligible ==> f in baseline
    requires CreditedBefore(creditedAt0, eligible, baseline, byBatch, step)
    requires forall f :: f in eligible ==>
      (f in satisfiedSoFar <==> baseline[f].satisfied || f in creditedAt0)
    ensures WindowOf(w, eligible, baseline, byBatch, step)
    ensures CreditedBefore(creditedAt, eligible, baseline, byBatch, step + 1)
    ensures creditedAt.Keys == creditedAt0.Keys + w.newly
    ensures forall f :: f in creditedAt0 ==> creditedAt[f] == creditedAt0[f]
    ensures forall f :: f in w.newly ==> f !in creditedAt0 && creditedAt[f] == step
  {
    hide CreditedBefore, WindowOf, FirstTrue, Twice;
    assert forall f :: !Twice(eligible[..0], f) by { NeverTwice(); }
    var newly, repeated, unsatisfied: set<Fact> := {}, {}, {};
    creditedAt := creditedAt0;
    for i := 0 to |eligible|
      invariant forall f :: f in newly <==>
        f in eligible[..i] && !baseline[f].satisfied && f !in creditedAt0 && TrueIn(byBatch, step, f)
      invariant forall f :: f in repeated <==>
        f in eligible[..i] && TrueIn(byBatch, step, f) && (f !in newly || Twice(eligible[..i], f))
      invariant forall f :: f in unsatisfied <==>
        f in eligible[..i] && f in bucket && !bucket[f].verdict.satisfied
      invariant creditedAt.Keys == creditedAt0.Keys + newly
      invariant forall f :: f in creditedAt0 ==> creditedAt[f] == creditedAt0[f]
      invariant forall f :: f in newly ==> creditedAt[f] == step
    {
      var f := eligible[i];
      assert eligible[..i + 1] == eligible[..i] + [f];
      TwiceAppend(eligible[..i], f);
      if f in bucket {
        if !bucket[f].verdict.satisfied {
          unsatisfied := unsatisfied + {f};
        } else if f in creditedAt || f in satisfiedSoFar {
          repeated := repeated + {f};
        } else {
          assert f !in eligible[..i];
          creditedAt := creditedAt[f := step];
          newly := newly + {f};
        }
      }
    }
    assert eligible[..|eligible|] == eligible;
    var through := AnchorOf(eligible, bucket);
    w := Window(step, through, newly, repeated, unsatisfied, Supporting(eligible, bucket));
    BatchWalked(w, eligible, baseline, byBatch, creditedAt0, creditedAt);
  }

  /** Reading true now, with no credit before, is reading true first. */
  lemma BatchWalked(
    w: Window, eligible: seq<Fact>, baseline: map<Fact, Verdict>, byBatch: Buckets,
    before: map<Fact, nat>, after: map<Fact, nat>)
    requires w.step in byBatch && (forall f :: f in eligible ==> f in baseline)
    requires CreditedBefore(before, eligible, baseline, byBatch, w.step)
    requires w.through == Anchor(eligible, byBatch[w.step]) && w.supporting == Supporting(eligible, byBatch[w.step])
    requires forall f :: f in w.newly <==>
      f in eligible && !baseline[f].satisfied && f !in before && TrueIn(byBatch, w.step, f)
    requires forall f :: f in w.repeated <==>
      f in eligible && TrueIn(byBatch, w.step, f) && (f !in w.newly || Twice(eligible, f))
    requires forall f :: f in w.unsatisfied <==>
      f in eligible && f in byBatch[w.step] && !byBatch[w.step][f].verdict.satisfied
    requires after.Keys == before.Keys + w.newly
    requires (forall f :: f in before ==> after[f] == before[f]) && (forall f :: f in w.newly ==> after[f] == w.step)
    ensures WindowOf(w, eligible, baseline, byBatch, w.step)
    ensures CreditedBefore(after, eligible, baseline, byBatch, w.step + 1)
  {
  }

  ghost predicate Walked(
    windows: seq<Window>, steps: seq<nat>, eligible: seq<Fact>, baseline: map<Fact, Verdict>, byBatch: Buckets)
  {
    && |windows| <= |steps|
    && forall i :: 0 <= i < |windows| ==>
         steps[i] in byBatch && WindowOf(windows[i], eligible, baseline, byBatch, steps[i])
  }

  ghost function Bound(steps: seq<nat>, i: nat): int
    requires i <= |steps|
  {
    if i == 0 then 0 else steps[i - 1] + 1
  }

  /** Between two recorded batches there is nothing to credit. */
  lemma NoBatchBetween(
    creditedAt: map<Fact, nat>, eligible: seq<Fact>, baseline: map<Fact, Verdict>, byBatch: Buckets,
    steps: seq<nat>, i: nat)
    requires i < |steps| && StrictlyIncreasing(steps) && (forall step :: step in steps <==> step in byBatch)
    requires CreditedBefore(creditedAt, eligible, baseline, byBatch, Bound(steps, i))
    ensures CreditedBefore(creditedAt, eligible, baseline, byBatch, steps[i])
  {
    forall f, step: nat | step < steps[i] && TrueIn(byBatch, step, f) ensures step < Bound(steps, i) {
      var k :| 0 <= k < |steps| && steps[k] == step;
    }
  }

  lemma NothingWalked(steps: seq<nat>, eligible: seq<Fact>, baseline: map<Fact, Verdict>, byBatch: Buckets)
    ensures Walked([], steps, eligible, baseline, byBatch)
    ensures CreditedBefore(map[], eligible, baseline, byBatch, 0)
  {
  }

  lemma OneMoreWalked(
    windows: seq<Window>, w: Window, steps: seq<nat>, eligible: seq<Fact>, baseline: map<Fact, Verdict>,
    byBatch: Buckets)
    requires Walked(windows, steps, eligible, baseline, byBatch) && |windows| < |steps|
    requires steps[|windows|] in byBatch && WindowOf(w, eligible, baseline, byBatch, steps[|windows|])
    ensures Walked(windows + [w], steps, eligible, baseline, byBatch)
  {
    hide WindowOf;
  }

  /** Windows in durable order, each credited against what came before it. */
  method Walk(eligible: seq<Fact>, baseline: map<Fact, Verdict>, byBatch: Buckets)
    returns (windows: seq<Window>, creditedAt: map<Fact, nat>, ghost steps: seq<nat>)
    requires forall f :: f in eligible ==> f in baseline
    ensures StrictlyIncreasing(steps) && (forall step :: step in steps <==> step in byBatch)
    ensures |windows| == |steps| && Walked(windows, steps, eligible, baseline, byBatch)
    ensures CreditIndexed(creditedAt, eligible, baseline, byBatch)
  {
    hide WindowOf, FirstTrue, TrueIn, CreditedBefore, Walked, CreditIndexed;
    var ordered := SortSteps(byBatch.Keys);
    steps := ordered;
    windows, creditedAt := [], map[];
    NothingWalked(ordered, eligible, baseline, byBatch);
    var satisfiedSoFar := set f | f in eligible && baseline[f].satisfied;
    for i := 0 to |ordered|
      invariant |windows| == i && Walked(windows, ordered, eligible, baseline, byBatch)
      invariant CreditedBefore(creditedAt, eligible, baseline, byBatch, Bound(ordered, i))
      invariant forall f :: f in eligible ==> (f in satisfiedSoFar <==> baseline[f].satisfied || f in creditedAt)
    {
      var step := ordered[i];
      assert step in byBatch;
      NoBatchBetween(creditedAt, eligible, baseline, byBatch, ordered, i);
      var w, after := WalkBatch(eligible, baseline, byBatch, byBatch[step], step, satisfiedSoFar, creditedAt);
      satisfiedSoFar := satisfiedSoFar + w.newly;
      OneMoreWalked(windows, w, ordered, eligible, baseline, byBatch);
      windows, creditedAt := windows + [w], after;
    }
    AllCredited(creditedAt, eligible, baseline, byBatch, ordered);
  }

  lemma AllCredited(
    creditedAt: map<Fact, nat>, eligible: seq<Fact>, baseline: map<Fact, Verdict>, byBatch: Buckets,
    steps: seq<nat>)
    requires forall f :: f in eligible ==> f in baseline
    requires CreditedBefore(creditedAt, eligible, baseline, byBatch, Bound(steps, |steps|))
    requires StrictlyIncreasing(steps) && (forall step :: step in steps <==> step in byBatch)
    ensures CreditIndexed(creditedAt, eligible, baseline, byBatch)
  {
    forall step | step in byBatch ensures step < Bound(steps, |steps|) {
      var k :| 0 <= k < |steps| && steps[k] == step;
    }
  }

  // ---------------------------------------------------------------- the whole derivation

  ghost predicate Anchored(windows: seq<Window>, id: nat, f: Fact) {
    exists i :: 0 <= i < |windows| && windows[i].through == Some(id) && f in windows[i].newly
  }

  ghost predicate ReceiptIndex(byReceipt: map<nat, set<Fact>>, windows: seq<Window>) {
    forall id: nat, f :: (id in byReceipt && f in byReceipt[id]) <==> Anchored(windows, id, f)
  }

  lemma AnchoredOneMore(windows: seq<Window>, w: Window, id: nat, f: Fact)
    ensures Anchored(windows + [w], id, f) <==> Anchored(windows, id, f) || (w.through == Some(id) && f in w.newly)
  {
    var all := windows + [w];
    if i :| 0 <= i < |windows| && windows[i].through == Some(id) && f in windows[i].newly {
      assert all[i] == windows[i];
    }
    assert all[|windows|] == w;
  }

  lemma IndexOneMore(byReceipt: map<nat, set<Fact>>, windows: seq<Window>, w: Window)
    requires ReceiptIndex(byReceipt, windows)
    ensures w.newly == {} || w.through.None? ==> ReceiptIndex(byReceipt, windows + [w])
    ensures w.through.Some? ==>
      var existing := if w.through.value in byReceipt then byReceipt[w.through.value] else {};
      ReceiptIndex(byReceipt[w.through.value := existing + w.newly], windows + [w])
  {
    forall id: nat, f
      ensures Anchored(windows + [w], id, f) <==> Anchored(windows, id, f) || (w.through == Some(id) && f in w.newly)
    {
      AnchoredOneMore(windows, w, id, f);
    }
    hide Anchored;
  }

  /** Keyed by the receipt each credited window is anchored on. */
  method IndexByReceipt(windows: seq<Window>) returns (byReceipt: map<nat, set<Fact>>)
    ensures ReceiptIndex(byReceipt, windows)
  {
    byReceipt := map[];
    for k := 0 to |windows|
      invariant ReceiptIndex(byReceipt, windows[..k])
    {
      var w := windows[k];
      assert windows[..k + 1] == windows[..k] + [w];
      IndexOneMore(byReceipt, windows[..k], w);
      hide ReceiptIndex;
      if w.newly != {} && w.through.Some? {
        var existing := if w.through.value in byReceipt then byReceipt[w.through.value] else {};
        byReceipt := byReceipt[w.through.value := existing + w.newly];
      }
    }
    assert windows[..|windows|] == windows;
  }

  ghost predicate BaselinesConflict(rows: seq<Row>, eligible: seq<Fact>) {
    exists a, b :: a in rows && b in rows && a.kind.Baseline? && b.kind.Baseline?
      && a.fact in eligible && a.fact == b.fact && a.verdict != b.verdict
  }

  ghost predicate BaselineMissing(rows: seq<Row>, eligible: seq<Fact>) {
    exists f :: f in eligible && !BaselineReads(rows, f, true) && !BaselineReads(rows, f, false)
  }

  ghost predicate WindowsAmbiguous(rows: seq<Row>, eligible: seq<Fact>) {
    || (exists row :: row in rows && row.fact in eligible && row.kind.PostBatch? && row.kind.requestStep != row.kind.step)
    || (exists a, b :: a in rows && b in rows && a.fact in eligible && a.kind.PostBatch? && b.kind.PostBatch?
          && a.kind.step == b.kind.step && a.fact == b.fact && a.verdict != b.verdict)
  }

  /** The admitted facts a batch recorded a verdict for. */
  ghost function RecordedFacts(rows: seq<Row>, eligible: seq<Fact>, step: nat): set<Fact> {
    set row | row in rows && row.fact in eligible && row.kind.PostBatch? && row.kind.step == step :: row.fact
  }

  /** Why the derivation refuses, checked in this order. */
  ghost function FirstRefusal(run: nat, item: Option<nat>, eligible: seq<Fact>, rows: seq<Row>, owed: seq<nat>)
    : Option<Refusal>
  {
    if exists k :: 0 <= k < |rows| && IsForeign(rows[k], run, item) then Some(Foreign)
    else if BaselinesConflict(rows, eligible) then Some(BaselineConflict)
    else if BaselineMissing(rows, eligible) then Some(BaselineIncomplete)
    else BatchRefusal(eligible, rows, owed)
  }

  ghost function BatchRefusal(eligible: seq<Fact>, rows: seq<Row>, owed: seq<nat>): Option<Refusal> {
    if WindowsAmbiguous(rows, eligible) then Some(WindowAmbiguous)
    else if exists k :: 0 <= k < |owed| && |RecordedFacts(rows, eligible, owed[k])| != |eligible|
    then Some(EvidenceIncomplete)
    else None
  }

  ghost predicate OwnRows(own: seq<Row>, rows: seq<Row>, eligible: seq<Fact>) {
    && (forall row :: row in own <==> row in rows && row.fact in eligible)
    && (forall step: nat, f :: f in eligible ==> LastReading(own, step, f) == LastReading(rows, step, f))
  }

  lemma BaselineMeans(own: seq<Row>, rows: seq<Row>, eligible: seq<Fact>, baseline: map<Fact, Verdict>)
    requires OwnRows(own, rows, eligible) && BaselineIndexed(own, baseline)
    ensures !BaselinesConflict(rows, eligible)
    ensures forall f :: f in eligible ==>
      && (BaselineReads(rows, f, false) <==> f in baseline && !baseline[f].satisfied)
      && (BaselineReads(rows, f, true) <==> f in baseline && baseline[f].satisfied)
  {
  }

  lemma BatchesMean(own: seq<Row>, rows: seq<Row>, eligible: seq<Fact>, byBatch: Buckets)
    requires OwnRows(own, rows, eligible) && BatchesIndexed(own, byBatch)
    ensures !WindowsAmbiguous(rows, eligible)
    ensures forall f, step: nat :: f in eligible ==>
      && (Reads(rows, step, f, true) <==> TrueIn(byBatch, step, f))
      && (Reads(rows, step, f, false) <==> FalseIn(byBatch, step, f))
  {
    forall f, step: nat | f in eligible
      ensures Reads(rows, step, f, true) <==> TrueIn(byBatch, step, f)
      ensures Reads(rows, step, f, false) <==> FalseIn(byBatch, step, f)
    {
      if TrueIn(byBatch, step, f) { assert IsReading(byBatch[step][f], step, f, true); }
      if FalseIn(byBatch, step, f) { assert IsReading(byBatch[step][f], step, f, false); }
    }
  }

  lemma BucketMeans(own: seq<Row>, rows: seq<Row>, eligible: seq<Fact>, byBatch: Buckets, step: nat)
    requires OwnRows(own, rows, eligible) && BatchesIndexed(own, byBatch)
    ensures step in byBatch ==> byBatch[step].Keys == RecordedFacts(rows, eligible, step)
    ensures step in byBatch <==> RecordedFacts(rows, eligible, step) != {}
  {
    if step in byBatch {
      forall f | f in byBatch[step] ensures f in RecordedFacts(rows, eligible, step) {
        assert byBatch[step][f] in own;
      }
      var f :| f in byBatch[step];
      assert f in RecordedFacts(rows, eligible, step);
    }
  }

  function Recorded(byBatch: Buckets, step: nat): nat {
    if step in byBatch then |byBatch[step].Keys| else 0
  }

  ghost predicate HasWindow(windows: seq<Window>, step: nat) {
    exists i :: 0 <= i < |windows| && windows[i].step == step
  }

  /** Credit is exactly the first satisfied reading after an unsatisfied baseline. */
  ghost predicate CreditMeans(creditedAt: map<Fact, nat>, eligible: seq<Fact>, rows: seq<Row>) {
    forall f, step: nat ::
      (f in creditedAt && creditedAt[f] == step) <==> f in eligible && CreditedIn(rows, f, step)
  }

  /** Each window is exactly what the evidence says of its batch. */
  ghost predicate WindowsMean(windows: seq<Window>, eligible: seq<Fact>, rows: seq<Row>) {
    forall i :: 0 <= i < |windows| ==> windows[i] == WindowAt(rows, eligible, windows[i].step)
  }

  /** One window for every batch with a verdict about an admitted fact, in durable order. */
  ghost predicate WindowsCover(windows: seq<Window>, eligible: seq<Fact>, rows: seq<Row>) {
    && (forall i, j :: 0 <= i < j < |windows| ==> windows[i].step < windows[j].step)
    && (forall step: nat :: HasWindow(windows, step) <==> RecordedFacts(rows, eligible, step) != {})
  }

  /** The declarative meaning of a finished derivation. */
  ghost predicate Faithful(t: Transitions, eligible: seq<Fact>, rows: seq<Row>) {
    && CreditMeans(t.creditedAt, eligible, rows)
    && WindowsMean(t.windows, eligible, rows)
    && WindowsCover(t.windows, eligible, rows)
    && ReceiptIndex(t.byReceipt, t.windows)
  }

  /** A batch that reads some admitted fact has its window. */
  lemma WindowOfReading(t: Transitions, eligible: seq<Fact>, rows: seq<Row>, f: Fact, step: nat) returns (i: nat)
    requires Faithful(t, eligible, rows) && f in eligible && CreditedIn(rows, f, step)
    ensures i < |t.windows| && t.windows[i].step == step && f in t.windows[i].newly
  {
    var row :| row in rows && IsReading(row, step, f, true);
    assert f in RecordedFacts(rows, eligible, step);
    i :| 0 <= i < |t.windows| && t.windows[i].step == step;
    assert t.windows[i] == WindowAt(rows, eligible, step);
  }

  /** Windows never share a credited fact, and together they hold all of them. */
  lemma CreditIsPartitioned(t: Transitions, eligible: seq<Fact>, rows: seq<Row>)
    requires Faithful(t, eligible, rows)
    ensures forall i, j :: 0 <= i < j < |t.windows| ==> t.windows[i].newly !! t.windows[j].newly
    ensures forall f :: f in t.creditedAt <==> exists i :: 0 <= i < |t.windows| && f in t.windows[i].newly
  {
    forall f | f in t.creditedAt ensures exists i :: 0 <= i < |t.windows| && f in t.windows[i].newly {
      assert CreditedIn(rows, f, t.creditedAt[f]);
      var i := WindowOfReading(t, eligible, rows, f, t.creditedAt[f]);
    }
    forall i, f | 0 <= i < |t.windows| && f in t.windows[i].newly
      ensures f in t.creditedAt && t.creditedAt[f] == t.windows[i].step
    {
      assert t.windows[i] == WindowAt(rows, eligible, t.windows[i].step);
    }
    forall i, j | 0 <= i < j < |t.windows| ensures t.windows[i].newly !! t.windows[j].newly {
      forall f | f in t.windows[i].newly ensures f !in t.windows[j].newly {
        assert t.creditedAt[f] == t.windows[i].step;
      }
    }
  }

  /** The batches up to `last` are the same in both histories. */
  lemma SameBatches(
    short: Transitions, long: Transitions, eligible: seq<Fact>, rows: seq<Row>, more: seq<Row>, last: nat, step: nat)
    requires Faithful(short, eligible, rows) && Faithful(long, eligible, rows + more)
    requires forall row :: row in more ==> row.kind.PostBatch? && row.kind.step > last
    requires step <= last
    ensures HasWindow(short.windows, step) <==> HasWindow(long.windows, step)
  {
    hide HasWindow, CreditMeans, WindowsMean, ReceiptIndex;
    var before, after := RecordedFacts(rows, eligible, step), RecordedFacts(rows + more, eligible, step);
    assert before == after;
  }

  /** By index: the window of a batch up to `last` has the same place and the same contents. */
  lemma {:induction false} EarlierWindowStands(
    short: Transitions, long: Transitions, eligible: seq<Fact>, rows: seq<Row>, more: seq<Row>, last: nat, i: nat)
    requires Faithful(short, eligible, rows) && Faithful(long, eligible, rows + more)
    requires forall row :: row in more ==> row.kind.PostBatch? && row.kind.step > last
    requires i < |short.windows| && short.windows[i].step <= last
    ensures i < |long.windows| && long.windows[i] == short.windows[i]
  {
    hide CreditMeans, ReceiptIndex, WindowAt, RecordedFacts;
    forall m | 0 <= m < i ensures m < |long.windows| && long.windows[m] == short.windows[m] {
      EarlierWindowStands(short, long, eligible, rows, more, last, m);
    }
    var step := short.windows[i].step;
    SameBatches(short, long, eligible, rows, more, last, step);
    assert HasWindow(short.windows, step);
    var j :| 0 <= j < |long.windows| && long.windows[j].step == step;
    if j > i {
      SameBatches(short, long, eligible, rows, more, last, long.windows[i].step);
    }
    assert j == i;
    LaterEvidenceChangesNothing(rows, more, last, eligible, step);
  }

  /** A longer history never changes an earlier window: the windows up to `last` are a common prefix of
      both derivations, equal in every field, and the credit they hold is the same. */
  lemma EarlierWindowsStand(
    short: Transitions, long: Transitions, eligible: seq<Fact>, rows: seq<Row>, more: seq<Row>, last: nat)
    requires Faithful(short, eligible, rows) && Faithful(long, eligible, rows + more)
    requires forall row :: row in more ==> row.kind.PostBatch? && row.kind.step > last
    ensures forall i :: 0 <= i < |short.windows| && short.windows[i].step <= last ==>
      i < |long.windows| && long.windows[i] == short.windows[i]
    ensures forall f :: f in short.creditedAt && short.creditedAt[f] <= last ==>
      f in long.creditedAt && long.creditedAt[f] == short.creditedAt[f]
  {
    forall i | 0 <= i < |short.windows| && short.windows[i].step <= last
      ensures i < |long.windows| && long.windows[i] == short.windows[i]
    {
      EarlierWindowStands(short, long, eligible, rows, more, last, i);
    }
    forall f | f in short.creditedAt && short.creditedAt[f] <= last
      ensures f in long.creditedAt && long.creditedAt[f] == short.creditedAt[f]
    {
      LaterReads(rows, more, last, f, short.creditedAt[f]);
      assert CreditedIn(rows + more, f, short.creditedAt[f]);
    }
  }

  ghost predicate CreditIndexed(
    creditedAt: map<Fact, nat>, eligible: seq<Fact>, baseline: map<Fact, Verdict>, byBatch: Buckets)
  {
    && (forall f :: f in creditedAt ==>
          f in eligible && f in baseline && !baseline[f].satisfied && FirstTrue(byBatch, creditedAt[f], f))
    && (forall f, step ::
          f in eligible && f in baseline && !baseline[f].satisfied && TrueIn(byBatch, step, f) ==> f in creditedAt)
  }

  lemma CreditFaithful(
    creditedAt: map<Fact, nat>, eligible: seq<Fact>, rows: seq<Row>, own: seq<Row>,
    baseline: map<Fact, Verdict>, byBatch: Buckets)
    requires OwnRows(own, rows, eligible) && BaselineIndexed(own, baseline) && BatchesIndexed(own, byBatch)
    requires CreditIndexed(creditedAt, eligible, baseline, byBatch)
    ensures CreditMeans(creditedAt, eligible, rows)
  {
    BaselineMeans(own, rows, eligible, baseline);
    BatchesMean(own, rows, eligible, byBatch);
    hide BaselineIndexed, BatchesIndexed, BaselineReads, Reads, TrueIn;
  }

  lemma {:induction false} AnchorFaithful(
    eligible: seq<Fact>, rows: seq<Row>, byBatch: Buckets, step: nat)
    requires step in byBatch && forall f :: f in eligible ==> BucketAt(byBatch, step, f) == LastReading(rows, step, f)
    ensures Anchor(eligible, byBatch[step]) == AnchorAt(rows, eligible, step)
  {
    hide LastReading;
    if eligible != [] {
      assert eligible[0] in eligible;
      assert BucketAt(byBatch, step, eligible[0]) == LastReading(rows, step, eligible[0]);
      AnchorFaithful(eligible[1..], rows, byBatch, step);
    }
  }

  /** The maps say of every admitted fact what the rows say. */
  ghost predicate SameReadings(rows: seq<Row>, eligible: seq<Fact>, baseline: map<Fact, Verdict>, byBatch: Buckets) {
    && (forall f :: f in eligible ==> f in baseline && (BaselineReads(rows, f, false) <==> !baseline[f].satisfied))
    && (forall f, step: nat :: f in eligible ==>
          && (Reads(rows, step, f, true) <==> TrueIn(byBatch, step, f))
          && (Reads(rows, step, f, false) <==> FalseIn(byBatch, step, f)))
    && (forall f, step: nat :: f in eligible ==> BucketAt(byBatch, step, f) == LastReading(rows, step, f))
  }

  lemma MapsReadTheSame(
    eligible: seq<Fact>, rows: seq<Row>, own: seq<Row>, baseline: map<Fact, Verdict>, byBatch: Buckets)
    requires OwnRows(own, rows, eligible) && BaselineIndexed(own, baseline)
    requires BatchesIndexed(own, byBatch) && BatchesLatest(own, byBatch)
    requires forall f :: f in eligible ==> f in baseline
    ensures SameReadings(rows, eligible, baseline, byBatch)
  {
    hide LastReading;
    BaselineMeans(own, rows, eligible, baseline);
    BatchesMean(own, rows, eligible, byBatch);
    hide BaselineIndexed, BatchesIndexed, BaselineReads, Reads, TrueIn, FalseIn, BucketAt;
  }

  lemma CreditTheSame(rows: seq<Row>, eligible: seq<Fact>, baseline: map<Fact, Verdict>, byBatch: Buckets, step: nat)
    requires SameReadings(rows, eligible, baseline, byBatch)
    ensures forall f :: f in eligible ==>
      (CreditedIn(rows, f, step) <==> !baseline[f].satisfied && FirstTrue(byBatch, step, f))
  {
    hide BaselineReads, Reads, TrueIn, FalseIn, BucketAt, LastReading;
  }

  lemma SupportTheSame(rows: seq<Row>, eligible: seq<Fact>, baseline: map<Fact, Verdict>, byBatch: Buckets, step: nat)
    requires SameReadings(rows, eligible, baseline, byBatch) && step in byBatch
    ensures Supporting(eligible, byBatch[step]) == WindowAt(rows, eligible, step).supporting
  {
    hide BaselineReads, Reads, TrueIn, FalseIn, LastReading, CreditedIn, AnchorAt, Twice;
    var bucket := byBatch[step];
    forall f | f in eligible
      ensures f in bucket <==> LastReading(rows, step, f).Some?
      ensures f in bucket ==> bucket[f] == LastReading(rows, step, f).value
    {
      assert BucketAt(byBatch, step, f) == LastReading(rows, step, f);
    }
    hide SameReadings;
  }

  /** A walked window says exactly what the evidence says of its batch. */
  lemma WindowFaithful(
    w: Window, eligible: seq<Fact>, rows: seq<Row>, baseline: map<Fact, Verdict>, byBatch: Buckets, step: nat)
    requires SameReadings(rows, eligible, baseline, byBatch)
    requires step in byBatch && WindowOf(w, eligible, baseline, byBatch, step)
    ensures w == WindowAt(rows, eligible, step)
  {
    hide BaselineReads, Reads, LastReading, AnchorAt, Twice, CreditedIn, FirstTrue, Anchor, Supporting, BucketAt;
    AnchorFaithful(eligible, rows, byBatch, step);
    CreditTheSame(rows, eligible, baseline, byBatch, step);
    SupportTheSame(rows, eligible, baseline, byBatch, step);
    var at := WindowAt(rows, eligible, step);
    assert w.newly == at.newly;
    assert w.repeated == at.repeated;
    assert w.unsatisfied == at.unsatisfied;
  }

  lemma WindowsFaithful(
    windows: seq<Window>, eligible: seq<Fact>, rows: seq<Row>, own: seq<Row>,
    baseline: map<Fact, Verdict>, byBatch: Buckets, steps: seq<nat>)
    requires OwnRows(own, rows, eligible) && BaselineIndexed(own, baseline)
    requires BatchesIndexed(own, byBatch) && BatchesLatest(own, byBatch)
    requires forall f :: f in eligible ==> f in baseline
    requires |windows| == |steps| && Walked(windows, steps, eligible, baseline, byBatch)
    ensures WindowsMean(windows, eligible, rows)
  {
    hide WindowOf, WindowAt, OwnRows, BaselineIndexed, BatchesIndexed, BatchesLatest, SameReadings;
    MapsReadTheSame(eligible, rows, own, baseline, byBatch);
    forall i | 0 <= i < |windows| ensures windows[i] == WindowAt(rows, eligible, windows[i].step) {
      WindowFaithful(windows[i], eligible, rows, baseline, byBatch, steps[i]);
      WindowStep(rows, eligible, steps[i]);
    }
  }

  lemma WindowStep(rows: seq<Row>, eligible: seq<Fact>, step: nat)
    ensures WindowAt(rows, eligible, step).step == step
  {
  }

  lemma CoverFaithful(
    windows: seq<Window>, eligible: seq<Fact>, rows: seq<Row>, own: seq<Row>,
    baseline: map<Fact, Verdict>, byBatch: Buckets, steps: seq<nat>)
    requires OwnRows(own, rows, eligible) && BatchesIndexed(own, byBatch)
    requires StrictlyIncreasing(steps) && (forall step :: step in steps <==> step in byBatch)
    requires |windows| == |steps| && Walked(windows, steps, eligible, baseline, byBatch)
    ensures WindowsCover(windows, eligible, rows)
  {
    hide FirstTrue, TrueIn, Anchor, Twice, Supporting;
    forall i | 0 <= i < |windows| ensures windows[i].step == steps[i] {
      assert WindowOf(windows[i], eligible, baseline, byBatch, steps[i]);
    }
    hide WindowOf;
    forall step: nat ensures HasWindow(windows, step) <==> RecordedFacts(rows, eligible, step) != {} {
      BucketMeans(own, rows, eligible, byBatch, step);
      hide BatchesIndexed, RecordedFacts;
      if step in steps {
        var i :| 0 <= i < |steps| && steps[i] == step;
        assert windows[i].step == step;
      }
    }
  }

  /** The batches, refused when ambiguous or when one that owed evidence is incomplete. */
  method CollectComplete(eligible: seq<Fact>, ghost rows: seq<Row>, own: seq<Row>, owed: seq<nat>)
    returns (r: Result<Buckets, Refusal>)
    requires OwnRows(own, rows, eligible)
    ensures (if r.Err? then Some(r.error) else None) == BatchRefusal(eligible, rows, owed)
    ensures r.Ok? ==> BatchesIndexed(own, r.value) && BatchesLatest(own, r.value)
  {
    hide BatchesIndexed, BatchesLatest, RecordedFacts, Reads, TrueIn, FalseIn;
    r := CollectBatches(own);
    if r.Err? { return; }
    BatchesMean(own, rows, eligible, r.value);
    hide OwnRows, WindowsAmbiguous;
    for i := 0 to |owed|
      invariant forall k :: 0 <= k < i ==> |RecordedFacts(rows, eligible, owed[k])| == |eligible|
    {
      BucketMeans(own, rows, eligible, r.value, owed[i]);
      if Recorded(r.value, owed[i]) != |eligible| { return Err(EvidenceIncomplete); }
    }
  }

  /** The baselines, one per admitted fact. */
  method CollectBaseline(eligible: seq<Fact>, ghost rows: seq<Row>, own: seq<Row>)
    returns (r: Result<map<Fact, Verdict>, Refusal>)
    requires OwnRows(own, rows, eligible)
    ensures r.Err? ==> r.error == if BaselinesConflict(rows, eligible) then BaselineConflict else BaselineIncomplete
    ensures r.Ok? <==> !BaselinesConflict(rows, eligible) && !BaselineMissing(rows, eligible)
    ensures r.Ok? ==> BaselineIndexed(own, r.value) && forall f :: f in eligible ==> f in r.value
  {
    hide BaselineIndexed, BaselineReads;
    r := CollectBaselines(own);
    if r.Err? { return; }
    BaselineMeans(own, rows, eligible, r.value);
    for i := 0 to |eligible|
      invariant forall k :: 0 <= k < i ==> eligible[k] in r.value
    {
      if eligible[i] !in r.value { return Err(BaselineIncomplete); }
    }
  }

  /** Read the evidence, refusing for the first reason that applies. */
  method Collect(run: nat, item: Option<nat>, eligible: seq<Fact>, rows: seq<Row>, owed: seq<nat>)
    returns (r: Result<(map<Fact, Verdict>, Buckets), Refusal>, ghost own: seq<Row>)
    ensures (if r.Err? then Some(r.error) else None) == FirstRefusal(run, item, eligible, rows, owed)
    ensures r.Ok? ==>
      && OwnRows(own, rows, eligible) && BaselineIndexed(own, r.value.0)
      && BatchesIndexed(own, r.value.1) && BatchesLatest(own, r.value.1)
      && forall f :: f in eligible ==> f in r.value.0
  {
    hide BaselineIndexed, BatchesIndexed, BatchesLatest, LastReading, BaselinesConflict, BaselineMissing, BatchRefusal;
    own := [];
    var admitted := set f | f in eligible :: f;
    var collected := CollectOwn(run, item, admitted, rows);
    if collected.Err? { return Err(collected.error), own; }
    own := collected.value;
    assert OwnRows(own, rows, eligible);
    hide OwnRows;
    var baselines := CollectBaseline(eligible, rows, collected.value);
    if baselines.Err? { return Err(baselines.error), own; }
    var batches := CollectComplete(eligible, rows, collected.value, owed);
    if batches.Err? { return Err(batches.error), own; }
    r := Ok((baselines.value, batches.value));
  }

  /** `buildGovernedSatisfiedFactTransitions`. */
  method Build(run: nat, item: Option<nat>, eligible: seq<Fact>, rows: seq<Row>, owed: seq<nat>)
    returns (r: Result<Transitions, Refusal>)
    ensures (if r.Err? then Some(r.error) else None) == FirstRefusal(run, item, eligible, rows, owed)
    ensures r.Ok? ==> Faithful(r.value, eligible, rows)
  {
    hide *;
    hide Walked;
    var collected, own := Collect(run, item, eligible, rows, owed);
    if collected.Err? { return Err(collected.error); }
    var (baseline, byBatch) := collected.value;
    var windows, creditedAt, steps := Walk(eligible, baseline, byBatch);
    var byReceipt := IndexByReceipt(windows);
    CreditFaithful(creditedAt, eligible, rows, own, baseline, byBatch);
    WindowsFaithful(windows, eligible, rows, own, baseline, byBatch, steps);
    CoverFaithful(windows, eligible, rows, own, baseline, byBatch, steps);
    r := Ok(Transitions(windows, creditedAt, byReceipt));
    FaithfulParts(r.value, eligible, rows);
  }

  lemma FaithfulParts(t: Transitions, eligible: seq<Fact>, rows: seq<Row>)
    requires CreditMeans(t.creditedAt, eligible, rows) && WindowsMean(t.windows, eligible, rows)
    requires WindowsCover(t.windows, eligible, rows) && ReceiptIndex(t.byReceipt, t.windows)
    ensures Faithful(t, eligible, rows)
  {
  }
}
