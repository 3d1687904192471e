/**
 The no-progress signals of one window: what its receipts repeat, fail at and write back.
 */
module ProgressSignals {
  import opened Basics
  import opened ProgressWindows

  /** A receipt that wrote something identifiable. */
  predicate Mutates(r: Receipt) {
    r.outcome == Succeeded && r.path.Some? && r.fingerprint.Some?
  }

  // ---------------------------------------------------------------- what the signals mean

  /** Receipt `k` successfully writes content that an earlier receipt already wrote to the same path. */
  ghost predicate Repeats(observations: seq<Receipt>, k: int)
    requires 0 <= k < |observations|
  {
    Mutates(observations[k]) && exists j :: 0 <= j < k && SameWrite(observations[j], observations[k])
  }

  predicate SameWrite(a: Receipt, b: Receipt) {
    a.outcome == Succeeded && b.outcome == Succeeded && a.path == b.path && a.fingerprint == b.fingerprint
  }

  /** Receipt `j` is the last write to the path of receipt `k` before it. */
  ghost predicate LastWrite(observations: seq<Receipt>, k: int, j: int)
    requires 0 <= k < |observations|
  {
    && 0 <= j < k && Mutates(observations[j]) && observations[j].path == observations[k].path
    && forall m :: j < m < k && Mutates(observations[m]) ==> observations[m].path != observations[k].path
  }

  /** Receipt `k` writes content back: the path held it before, and held something else just now. */
  ghost predicate Reverts(observations: seq<Receipt>, k: int)
    requires 0 <= k < |observations|
  {
    Repeats(observations, k) &&
    exists j :: LastWrite(observations, k, j) && observations[j].fingerprint != observations[k].fingerprint
  }

  ghost function RepeatIndices(observations: seq<Receipt>): set<int> {
    set k | 0 <= k < |observations| && Repeats(observations, k)
  }

  ghost function RevertIndices(observations: seq<Receipt>): set<int> {
    set k | 0 <= k < |observations| && Reverts(observations, k)
  }

  /** The last `n` receipts all failed or were refused. */
  ghost predicate LastFailed(observations: seq<Receipt>, n: nat) {
    && n <= |observations|
    && forall k :: |observations| - n <= k < |observations| ==>
         observations[k].outcome == Failed || observations[k].outcome == Refused
  }

  datatype Signals = Signals(repeated: nat, failed: nat, reversals: nat)

  /** The counts, said without a loop. */
  ghost predicate Counted(observations: seq<Receipt>, s: Signals) {
    && s.repeated == |RepeatIndices(observations)| && s.reversals == |RevertIndices(observations)|
    && LastFailed(observations, s.failed) && !LastFailed(observations, s.failed + 1)
  }

  /** A streak is at least `n` long exactly when the last `n` failed. */
  lemma FailedBelow(observations: seq<Receipt>, streak: nat, n: nat)
    requires LastFailed(observations, streak) && !LastFailed(observations, streak + 1)
    ensures LastFailed(observations, n) <==> n <= streak
  {
  }

  // ---------------------------------------------------------------- what a path held

  /** The fingerprints a path has held, in order. */
  ghost function History(observations: seq<Receipt>, path: string): seq<string> {
    if observations == [] then []
    else
      var last := observations[|observations| - 1];
      History(observations[..|observations| - 1], path)
        + if Mutates(last) && last.path.value == path then [last.fingerprint.value] else []
  }

  lemma {:induction false} HistoryHolds(observations: seq<Receipt>, path: string, fingerprint: string)
    ensures fingerprint in History(observations, path) <==>
      exists j :: 0 <= j < |observations| && Wrote(observations[j], path, fingerprint)
  {
    if observations != [] {
      var front, last := observations[..|observations| - 1], observations[|observations| - 1];
      HistoryHolds(front, path, fingerprint);
      assert forall j :: 0 <= j < |front| ==> front[j] == observations[j];
    }
  }

  predicate Wrote(r: Receipt, path: string, fingerprint: string) {
    r.outcome == Succeeded && r.path == Some(path) && r.fingerprint == Some(fingerprint)
  }

  /** Receipt `j` is the last of the first `n` to write to `path`. */
  ghost predicate LastTo(observations: seq<Receipt>, n: int, path: string, j: int) {
    && 0 <= j < n <= |observations| && Mutates(observations[j]) && observations[j].path == Some(path)
    && forall m :: j < m < n && Mutates(observations[m]) ==> observations[m].path != Some(path)
  }

  lemma {:induction false} HistoryEnds(observations: seq<Receipt>, path: string)
    ensures History(observations, path) != [] ==>
      exists j :: LastTo(observations, |observations|, path, j)
        && Some(History(observations, path)[|History(observations, path)| - 1]) == observations[j].fingerprint
  {
    if observations != [] {
      var n := |observations| - 1;
      var front, last := observations[..n], observations[n];
      if Mutates(last) && last.path.value == path {
        assert LastTo(observations, n + 1, path, n);
      } else if History(front, path) != [] {
        HistoryEnds(front, path);
        var j :| LastTo(front, n, path, j) && Some(History(front, path)[|History(front, path)| - 1]) == front[j].fingerprint;
        assert LastTo(observations, n + 1, path, j);
      }
    }
  }

  // ---------------------------------------------------------------- one more receipt

  lemma PrefixRepeats(observations: seq<Receipt>, n: nat, k: int)
    requires 0 <= k < n <= |observations|
    ensures Repeats(observations[..n], k) <==> Repeats(observations, k)
    ensures Reverts(observations[..n], k) <==> Reverts(observations, k)
  {
    var front := observations[..n];
    assert forall j :: LastWrite(front, k, j) <==> LastWrite(observations, k, j);
  }

  lemma OneMoreIndex(observations: seq<Receipt>)
    requires observations != []
    ensures
      var n := |observations| - 1;
      var front := observations[..n];
      && RepeatIndices(observations) == RepeatIndices(front) + (if Repeats(observations, n) then {n} else {})
      && RevertIndices(observations) == RevertIndices(front) + (if Reverts(observations, n) then {n} else {})
      && n !in RepeatIndices(front) && n !in RevertIndices(front)
  {
    var n := |observations| - 1;
    forall k | 0 <= k < n
      ensures Repeats(observations[..n], k) <==> Repeats(observations, k)
      ensures Reverts(observations[..n], k) <==> Reverts(observations, k)
    {
      PrefixRepeats(observations, n, k);
    }
    hide Repeats, Reverts;
  }

  lemma RepeatLookedUp(observations: seq<Receipt>)
    requires observations != [] && Mutates(observations[|observations| - 1])
    ensures
      var n := |observations| - 1;
      Repeats(observations, n) <==>
        observations[n].fingerprint.value in History(observations[..n], observations[n].path.value)
  {
    var n := |observations| - 1;
    var front, last := observations[..n], observations[n];
    HistoryHolds(front, last.path.value, last.fingerprint.value);
    hide History;
    forall j | 0 <= j < n
      ensures Wrote(front[j], last.path.value, last.fingerprint.value) <==> SameWrite(observations[j], last)
    {
      assert front[j] == observations[j];
    }
    hide Wrote, SameWrite, Mutates;
  }

  lemma LastWriteLookedUp(observations: seq<Receipt>)
    requires observations != [] && Mutates(observations[|observations| - 1])
    requires
      var n := |observations| - 1;
      History(observations[..n], observations[n].path.value) != []
    ensures
      var n := |observations| - 1;
      var history := History(observations[..n], observations[n].path.value);
      (exists j :: LastWrite(observations, n, j) && observations[j].fingerprint != observations[n].fingerprint)
        <==> history[|history| - 1] != observations[n].fingerprint.value
  {
    var n := |observations| - 1;
    var front, last := observations[..n], observations[n];
    HistoryEnds(front, last.path.value);
    var history := History(front, last.path.value);
    hide History;
    var j :| LastTo(front, n, last.path.value, j) && Some(history[|history| - 1]) == front[j].fingerprint;
    assert front[j] == observations[j];
    assert LastWrite(observations, n, j);
    assert forall i :: LastWrite(observations, n, i) ==> i == j;
    hide LastWrite, LastTo;
  }

  /** What the loop looks up about the last receipt is what the signals mean. */
  lemma LookedUp(observations: seq<Receipt>)
    requires observations != [] && Mutates(observations[|observations| - 1])
    ensures
      var n := |observations| - 1;
      var last := observations[n];
      var history := History(observations[..n], last.path.value);
      && (Repeats(observations, n) <==> last.fingerprint.value in history)
      && (Reverts(observations, n) <==>
            last.fingerprint.value in history && history[|history| - 1] != last.fingerprint.value)
  {
    hide Repeats, History, LastWrite;
    RepeatLookedUp(observations);
    var n := |observations| - 1;
    if History(observations[..n], observations[n].path.value) != [] { LastWriteLookedUp(observations); }
  }

  // ---------------------------------------------------------------- the loop

  ghost predicate KnowsWrites(seen: set<(string, string)>, observations: seq<Receipt>) {
    forall p, f :: (p, f) in seen <==> f in History(observations, p)
  }

  ghost predicate KnowsPaths(histories: map<string, seq<string>>, observations: seq<Receipt>) {
    forall p :: Held(histories, p) == History(observations, p)
  }

  /** The loop's memory: every write seen, and every path's history. */
  ghost predicate Remembers(seen: set<(string, string)>, histories: map<string, seq<string>>, observations: seq<Receipt>) {
    KnowsWrites(seen, observations) && KnowsPaths(histories, observations)
  }

  function Held(histories: map<string, seq<string>>, path: string): seq<string> {
    if path in histories then histories[path] else []
  }

  lemma HistoryMore(observations: seq<Receipt>, r: Receipt, path: string)
    ensures History(observations + [r], path) == History(observations, path)
      + if Mutates(r) && r.path.value == path then [r.fingerprint.value] else []
  {
    assert (observations + [r])[..|observations|] == observations;
  }

  lemma WritesMore(seen: set<(string, string)>, observations: seq<Receipt>, r: Receipt)
    requires KnowsWrites(seen, observations)
    ensures !Mutates(r) ==> KnowsWrites(seen, observations + [r])
    ensures Mutates(r) ==> KnowsWrites(seen + {(r.path.value, r.fingerprint.value)}, observations + [r])
  {
    forall p, f
      ensures f in History(observations + [r], p) <==>
        f in History(observations, p) || (Mutates(r) && r.path.value == p && r.fingerprint.value == f)
    {
      HistoryMore(observations, r, p);
    }
    hide History;
  }

  lemma PathsMore(histories: map<string, seq<string>>, observations: seq<Receipt>, r: Receipt)
    requires KnowsPaths(histories, observations)
    ensures !Mutates(r) ==> KnowsPaths(histories, observations + [r])
    ensures Mutates(r) ==>
      var p := r.path.value;
      KnowsPaths(histories[p := Held(histories, p) + [r.fingerprint.value]], observations + [r])
  {
    forall p
      ensures History(observations + [r], p) == History(observations, p)
        + if Mutates(r) && r.path.value == p then [r.fingerprint.value] else []
    {
      HistoryMore(observations, r, p);
    }
    hide History;
  }

  lemma FailedMore(observations: seq<Receipt>, r: Receipt, n: nat)
    requires LastFailed(observations, n) && !LastFailed(observations, n + 1)
    ensures
      var m := if r.outcome == Failed || r.outcome == Refused then n + 1 else 0;
      LastFailed(observations + [r], m) && !LastFailed(observations + [r], m + 1)
  {
    var all := observations + [r];
    assert forall k :: 0 <= k < |observations| ==> all[k] == observations[k];
    assert all[|observations|] == r;
  }

  lemma CountsMore(observations: seq<Receipt>, r: Receipt)
    ensures
      var all, n := observations + [r], |observations|;
      && |RepeatIndices(all)| == |RepeatIndices(observations)| + (if Repeats(all, n) then 1 else 0)
      && |RevertIndices(all)| == |RevertIndices(observations)| + (if Reverts(all, n) then 1 else 0)
  {
    var all := observations + [r];
    assert all[..|observations|] == observations;
    OneMoreIndex(all);
    hide Repeats, Reverts, RepeatIndices, RevertIndices;
  }

  /** What the loop asks its memory about the next receipt. */
  lemma Recalled(seen: set<(string, string)>, histories: map<string, seq<string>>, observations: seq<Receipt>, r: Receipt)
    requires Remembers(seen, histories, observations)
    ensures
      var all, n := observations + [r], |observations|;
      && (!Mutates(r) ==> !Repeats(all, n) && !Reverts(all, n))
      && (Mutates(r) ==>
            var p, f, history := r.path.value, r.fingerprint.value, Held(histories, r.path.value);
            && (Repeats(all, n) <==> (p, f) in seen)
            && (Reverts(all, n) <==> |history| > 0 && f in history && history[|history| - 1] != f))
  {
    var all := observations + [r];
    assert all[..|observations|] == observations && all[|observations|] == r;
    if Mutates(r) { LookedUp(all); }
    hide History;
  }

  lemma NothingSeen()
    ensures Remembers({}, map[], []) && RepeatIndices([]) == {} && RevertIndices([]) == {}
    ensures LastFailed([], 0) && !LastFailed([], 1)
  {
  }

  /** `detectNoProgressSignals`: one pass, remembering every write and every path's history. */
  method DetectSignals(observations: seq<Receipt>) returns (s: Signals)
    ensures Counted(observations, s)
  {
    hide KnowsWrites, KnowsPaths, RepeatIndices, RevertIndices, Repeats, Reverts, LastFailed;
    NothingSeen();
    assert observations[..0] == [];
    var seen: set<(string, string)> := {};
    var histories: map<string, seq<string>> := map[];
    var failed, repeated, reversals := 0, 0, 0;
    for k := 0 to |observations|
      invariant Remembers(seen, histories, observations[..k])
      invariant repeated == |RepeatIndices(observations[..k])| && reversals == |RevertIndices(observations[..k])|
      invariant LastFailed(observations[..k], failed) && !LastFailed(observations[..k], failed + 1)
    {
      var r := observations[k];
      assert observations[..k + 1] == observations[..k] + [r];
      WritesMore(seen, observations[..k], r);
      PathsMore(histories, observations[..k], r);
      Recalled(seen, histories, observations[..k], r);
      CountsMore(observations[..k], r);
      FailedMore(observations[..k], r, failed);
      failed := if r.outcome == Failed || r.outcome == Refused then failed + 1 else 0;
      if r.outcome == Succeeded && r.path.Some? && r.fingerprint.Some? {
        var path, fingerprint := r.path.value, r.fingerprint.value;
        if (path, fingerprint) in seen { repeated := repeated + 1; }
        seen := seen + {(path, fingerprint)};
        var history := Held(histories, path);
        if |history| > 0 && fingerprint in history && history[|history| - 1] != fingerprint {
          reversals := reversals + 1;
        }
        histories := histories[path := history + [fingerprint]];
      }
    }
    assert observations[..|observations|] == observations;
    s := Signals(repeated, failed, reversals);
  }
}
