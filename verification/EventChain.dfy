/**
 The hash chain of a Run's events and its verifier.
 */
module EventChain {
  import opened Basics
  import opened WorkspacePaths

  /** A field that may be missing, null or text. */
  datatype Link = Absent | Null | Is(hash: string)

  /** The hashed part of an event. */
  datatype Canon = Canon(
    schemaVersion: int, id: string, ts: string, kind: string, ticketId: Option<int>, runId: Option<int>,
    stepId: Option<string>, seq_: Option<int>, prevHash: Link, payload: string)

  /** One journal line. `parsed` is false for a line that is not JSON; the three checks of the
      envelope that need a calendar or a type test are facts about the line. */
  datatype Event = Event(parsed: bool, timestampOk: bool, payloadOk: bool, canon: Canon, hash: Option<string>)

  const SCHEMA_VERSION := 1
  const MAX_SAFE_INTEGER := 9007199254740991

  /** SHA-256 over the canonical JSON: opaque and injective. */
  type Digest = Canon -> string

  ghost predicate Injective(h: Digest) {
    forall a, b :: h(a) == h(b) ==> a == b
  }

  predicate ValidId(n: Option<int>) {
    n.None? || 0 < n.value <= MAX_SAFE_INTEGER
  }

  predicate Named(s: string) {
    Trim(s) != ""
  }

  /** The envelope is in order. */
  predicate EnvelopeOk(e: Event) {
    && e.canon.schemaVersion == SCHEMA_VERSION
    && Named(e.canon.id) && e.timestampOk && Named(e.canon.kind)
    && ValidId(e.canon.ticketId) && ValidId(e.canon.runId) && e.payloadOk
    && (e.canon.runId.None? ==> e.canon.seq_.None? && e.canon.prevHash.Absent? && e.hash.None?)
  }

  function StoredLink(e: Event): Link {
    if e.hash.Some? then Is(e.hash.value) else Absent
  }

  function ExpectedLink(events: seq<Event>, i: nat): Link
    requires i < |events|
  {
    if i == 0 then Null else StoredLink(events[i - 1])
  }

  // ---------------------------------------------------------------- the declarative chain

  ghost predicate IdSeenBefore(events: seq<Event>, i: nat)
    requires i < |events|
  {
    exists j :: 0 <= j < i && events[j].parsed && Named(events[j].canon.id) && events[j].canon.id == events[i].canon.id
  }

  ghost predicate SeqSeenBefore(events: seq<Event>, i: nat)
    requires i < |events|
  {
    exists j :: 0 <= j < i && events[j].parsed && events[j].canon.seq_ == events[i].canon.seq_
  }

  /** No finding about event `i`. */
  ghost predicate Clean(events: seq<Event>, i: nat, h: Digest)
    requires i < |events|
  {
    var e := events[i];
    && e.parsed && EnvelopeOk(e) && !IdSeenBefore(events, i)
    && e.canon.seq_ == Some(i) && !SeqSeenBefore(events, i)
    && e.canon.prevHash == ExpectedLink(events, i)
    && e.hash == Some(h(e.canon))
  }

  /** Every event has a valid envelope, an id of its own, its index as seq, the previous stored hash
      and its own correct hash. */
  ghost predicate ChainValid(events: seq<Event>, h: Digest) {
    && (forall i :: 0 <= i < |events| ==>
          && events[i].parsed && EnvelopeOk(events[i])
          && events[i].canon.seq_ == Some(i)
          && events[i].canon.prevHash == ExpectedLink(events, i)
          && events[i].hash == Some(h(events[i].canon)))
    && (forall i, j :: 0 <= i < j < |events| ==> events[i].canon.id != events[j].canon.id)
  }

  lemma ValidIffAllClean(events: seq<Event>, h: Digest)
    ensures ChainValid(events, h) <==> forall i :: 0 <= i < |events| ==> Clean(events, i, h)
  {
    hide EnvelopeOk, Named;
    if ChainValid(events, h) {
      forall i | 0 <= i < |events| ensures Clean(events, i, h) {
        assert events[i].canon.seq_ == Some(i);
      }
    }
    if forall i :: 0 <= i < |events| ==> Clean(events, i, h) {
      forall i | 0 <= i < |events| ensures events[i].canon.seq_ == Some(i) { assert Clean(events, i, h); }
      forall i, j | 0 <= i < j < |events| ensures events[i].canon.id != events[j].canon.id {
        assert Clean(events, i, h) && Clean(events, j, h);
        EnvelopeNames(events[i]);
      }
      forall i | 0 <= i < |events|
        ensures events[i].parsed && EnvelopeOk(events[i])
             && events[i].canon.prevHash == ExpectedLink(events, i) && events[i].hash == Some(h(events[i].canon))
      {
        assert Clean(events, i, h);
      }
    }
  }

  lemma EnvelopeNames(e: Event)
    ensures EnvelopeOk(e) ==> Named(e.canon.id)
  {
  }

  // ---------------------------------------------------------------- the verifier

  datatype Finding =
    | Parse
    | SchemaVersion | MissingId | InvalidTimestamp | InvalidType | InvalidTicketId | InvalidRunId | InvalidPayload
    | UnexpectedChainFields
    | DuplicateId | MissingSeq | DuplicateSeq | FirstSeq | SeqGap
    | FirstPrevHash | PrevHashMismatch | MissingHash | HashMismatch

  datatype Report = Report(
    chainValid: bool, errors: seq<(nat, Finding)>, lastVerifiedSeq: Option<int>, lastVerifiedHash: Option<string>)

  /** The seq checks of one event, given the seqs already seen. */
  function SeqFindings(seq_: Option<int>, index: nat, seen: set<int>): (fs: seq<Finding>)
    ensures fs == [] <==> seq_ == Some(index) && index !in seen
  {
    if seq_.None? || seq_.value < 0 then [MissingSeq]
    else
      var duplicate := if seq_.value in seen then [DuplicateSeq] else [];
      if seq_.value == index then duplicate
      else if seq_.value < index then [DuplicateSeq]
      else duplicate + [if index == 0 then FirstSeq else SeqGap]
  }

  /** `validateCurrentEventEnvelope`. */
  function EnvelopeFindings(e: Event): (fs: seq<Finding>)
    ensures fs == [] <==> EnvelopeOk(e)
  {
    var c := e.canon;
    (if c.schemaVersion != SCHEMA_VERSION then [SchemaVersion] else [])
    + (if !Named(c.id) then [MissingId] else [])
    + (if !e.timestampOk then [InvalidTimestamp] else [])
    + (if !Named(c.kind) then [InvalidType] else [])
    + (if !ValidId(c.ticketId) then [InvalidTicketId] else [])
    + (if !ValidId(c.runId) then [InvalidRunId] else [])
    + (if !e.payloadOk then [InvalidPayload] else [])
    + (if c.runId.None? && (c.seq_.Some? || !c.prevHash.Absent? || e.hash.Some?) then [UnexpectedChainFields] else [])
  }

  /** All findings about one event. */
  function Findings(e: Event, index: nat, expected: Link, seenIds: set<string>, seenSeqs: set<int>, h: Digest)
    : (fs: seq<Finding>)
    ensures fs == [] <==>
      && e.parsed && EnvelopeOk(e) && e.canon.id !in seenIds
      && e.canon.seq_ == Some(index) && index !in seenSeqs
      && e.canon.prevHash == expected && e.hash == Some(h(e.canon))
  {
    if !e.parsed then [Parse]
    else
      EnvelopeFindings(e)
      + (if Named(e.canon.id) && e.canon.id in seenIds then [DuplicateId] else [])
      + SeqFindings(e.canon.seq_, index, seenSeqs)
      + (if e.canon.prevHash == expected then [] else [if index == 0 then FirstPrevHash else PrevHashMismatch])
      + (if e.hash.None? then [MissingHash] else if e.hash.value != h(e.canon) then [HashMismatch] else [])
  }

  /** What is wrong with event `i`, fault by fault. */
  ghost predicate Faulty(events: seq<Event>, i: nat, f: Finding, h: Digest)
    requires i < |events|
  {
    var e, c := events[i], events[i].canon;
    if f.Parse? then !e.parsed
    else
      e.parsed &&
      match f
      case Parse => false
      case SchemaVersion => c.schemaVersion != 1
      case MissingId => Trim(c.id) == ""
      case InvalidTimestamp => !e.timestampOk
      case InvalidType => Trim(c.kind) == ""
      case InvalidTicketId => c.ticketId.Some? && !(1 <= c.ticketId.value < 9007199254740992)
      case InvalidRunId => c.runId.Some? && !(1 <= c.runId.value < 9007199254740992)
      case InvalidPayload => !e.payloadOk
      case UnexpectedChainFields => c.runId.None? && !(c.seq_.None? && c.prevHash == Absent && e.hash.None?)
      case DuplicateId => Trim(c.id) != "" && IdSeenBefore(events, i)
      case MissingSeq => c.seq_.None? || c.seq_.value < 0
      case DuplicateSeq => c.seq_.Some? && c.seq_.value >= 0 && (c.seq_.value < i || SeqSeenBefore(events, i))
      case FirstSeq => i == 0 && c.seq_.Some? && c.seq_.value > 0
      case SeqGap => i > 0 && c.seq_.Some? && c.seq_.value > i
      case FirstPrevHash => i == 0 && c.prevHash != Null
      case PrevHashMismatch =>
        i > 0 && c.prevHash != (if events[i - 1].hash.Some? then Is(events[i - 1].hash.value) else Absent)
      case MissingHash => e.hash.None?
      case HashMismatch => e.hash.Some? && e.hash.value != h(c)
  }

  lemma EnvelopeMembers(e: Event, f: Finding)
    ensures f in EnvelopeFindings(e) <==>
      var c := e.canon;
      match f
      case SchemaVersion => c.schemaVersion != 1
      case MissingId => Trim(c.id) == ""
      case InvalidTimestamp => !e.timestampOk
      case InvalidType => Trim(c.kind) == ""
      case InvalidTicketId => c.ticketId.Some? && !(1 <= c.ticketId.value < 9007199254740992)
      case InvalidRunId => c.runId.Some? && !(1 <= c.runId.value < 9007199254740992)
      case InvalidPayload => !e.payloadOk
      case UnexpectedChainFields => c.runId.None? && !(c.seq_.None? && c.prevHash == Absent && e.hash.None?)
      case _ => false
  {
    hide Trim;
  }

  lemma SeqMembers(seq_: Option<int>, i: nat, seen: set<int>, f: Finding)
    ensures f in SeqFindings(seq_, i, seen) <==>
      match f
      case MissingSeq => seq_.None? || seq_.value < 0
      case DuplicateSeq => seq_.Some? && seq_.value >= 0 && (seq_.value < i || seq_.value in seen)
      case FirstSeq => i == 0 && seq_.Some? && seq_.value > 0
      case SeqGap => i > 0 && seq_.Some? && seq_.value > i
      case _ => false
  {
  }

  lemma FindingsMembers(e: Event, i: nat, expected: Link, seenIds: set<string>, seenSeqs: set<int>, h: Digest, f: Finding)
    ensures f in Findings(e, i, expected, seenIds, seenSeqs, h) <==>
      if !e.parsed then f == Parse
      else
        || f in EnvelopeFindings(e) || f in SeqFindings(e.canon.seq_, i, seenSeqs)
        || (f == DuplicateId && Named(e.canon.id) && e.canon.id in seenIds)
        || (e.canon.prevHash != expected && f == if i == 0 then FirstPrevHash else PrevHashMismatch)
        || (f == MissingHash && e.hash.None?)
        || (f == HashMismatch && e.hash.Some? && e.hash.value != h(e.canon))
  {
    hide EnvelopeFindings, SeqFindings, Named;
  }

  lemma SeenMeans(events: seq<Event>, i: nat, seenIds: set<string>, seenSeqs: set<int>)
    requires i < |events| && SeenIds(seenIds, events[..i]) && SeenSeqs(seenSeqs, events[..i])
    ensures
      var c := events[i].canon;
      && (Named(c.id) ==> (c.id in seenIds <==> IdSeenBefore(events, i)))
      && (c.seq_.Some? && c.seq_.value >= 0 ==> (c.seq_.value in seenSeqs <==> SeqSeenBefore(events, i)))
  {
    hide Named;
    assert forall j :: 0 <= j < i ==> events[..i][j] == events[j];
  }

  lemma FindingsAreFaults(
    events: seq<Event>, i: nat, seenIds: set<string>, seenSeqs: set<int>, h: Digest, f: Finding)
    requires i < |events| && SeenIds(seenIds, events[..i]) && SeenSeqs(seenSeqs, events[..i])
    ensures f in Findings(events[i], i, ExpectedLink(events, i), seenIds, seenSeqs, h) <==> Faulty(events, i, f, h)
  {
    hide EnvelopeFindings, SeqFindings, Findings, Trim, SeenIds, SeenSeqs, IdSeenBefore, SeqSeenBefore;
    var e := events[i];
    SeenMeans(events, i, seenIds, seenSeqs);
    EnvelopeMembers(e, f);
    SeqMembers(e.canon.seq_, i, seenSeqs, f);
    FindingsMembers(e, i, ExpectedLink(events, i), seenIds, seenSeqs, h, f);
  }

  lemma TaggedMembers(errors: seq<(nat, Finding)>, index: nat, fs: seq<Finding>)
    ensures forall i: nat, f :: (i, f) in errors + Tagged(index, fs) <==> (i, f) in errors || (i == index && f in fs)
  {
    forall i: nat, f ensures (i, f) in Tagged(index, fs) <==> i == index && f in fs {
      if f in fs { var k :| 0 <= k < |fs| && fs[k] == f; assert Tagged(index, fs)[k] == (index, f); }
    }
  }

  ghost predicate SeenIds(seen: set<string>, events: seq<Event>) {
    forall id :: id in seen <==>
      exists j :: 0 <= j < |events| && events[j].parsed && Named(events[j].canon.id) && events[j].canon.id == id
  }

  ghost predicate SeenSeqs(seen: set<int>, events: seq<Event>) {
    forall n :: n in seen <==>
      n >= 0 && exists j :: 0 <= j < |events| && events[j].parsed && events[j].canon.seq_ == Some(n)
  }

  /** The last event with no finding of its own, whether or not an earlier one had any. */
  ghost predicate LastClean(events: seq<Event>, n: nat, h: Digest, last: Option<nat>)
    requires n <= |events|
  {
    match last
    case None => forall i :: 0 <= i < n ==> !Clean(events, i, h)
    case Some(k) => k < n && Clean(events, k, h) && forall i :: k < i < n ==> !Clean(events, i, h)
  }

  lemma SeenOne(seenIds: set<string>, seenSeqs: set<int>, events: seq<Event>, i: nat)
    requires i < |events| && SeenIds(seenIds, events[..i]) && SeenSeqs(seenSeqs, events[..i])
    ensures
      var e := events[i];
      && SeenIds(if e.parsed && Named(e.canon.id) then seenIds + {e.canon.id} else seenIds, events[..i + 1])
      && SeenSeqs(if e.parsed && e.canon.seq_.Some? && e.canon.seq_.value >= 0
                  then seenSeqs + {e.canon.seq_.value} else seenSeqs, events[..i + 1])
  {
    hide Named;
    assert events[..i + 1] == events[..i] + [events[i]];
    assert forall j :: 0 <= j < i ==> events[..i + 1][j] == events[..i][j];
  }

  lemma FindingsMeanUnclean(events: seq<Event>, i: nat, seenIds: set<string>, seenSeqs: set<int>, h: Digest)
    requires i < |events| && SeenIds(seenIds, events[..i]) && SeenSeqs(seenSeqs, events[..i])
    ensures Findings(events[i], i, ExpectedLink(events, i), seenIds, seenSeqs, h) == [] <==> Clean(events, i, h)
  {
    hide EnvelopeOk, Named, Findings;
    EnvelopeNames(events[i]);
    assert forall j :: 0 <= j < i ==> events[..i][j] == events[j];
  }

  /** Some error is about event `i`. */
  ghost predicate Blamed(errors: seq<(nat, Finding)>, i: nat) {
    exists k :: 0 <= k < |errors| && errors[k].0 == i
  }

  lemma BlameMore(errors: seq<(nat, Finding)>, index: nat, fs: seq<Finding>)
    requires forall k :: 0 <= k < |errors| ==> errors[k].0 < index
    ensures forall i: nat :: i < index ==> (Blamed(errors + Tagged(index, fs), i) <==> Blamed(errors, i))
    ensures Blamed(errors + Tagged(index, fs), index) <==> fs != []
    ensures forall k :: 0 <= k < |errors + Tagged(index, fs)| ==> (errors + Tagged(index, fs))[k].0 <= index
  {
    var all := errors + Tagged(index, fs);
    forall i: nat | i < index ensures Blamed(all, i) <==> Blamed(errors, i) {
      if k :| 0 <= k < |errors| && errors[k].0 == i { assert all[k].0 == i; }
    }
    if fs != [] { assert all[|errors|].0 == index; }
  }

  /** `verifyCurrentRunEventChain`. */
  method Verify(events: seq<Event>, h: Digest) returns (r: Report, ghost last: Option<nat>)
    ensures r.chainValid <==> ChainValid(events, h)
    ensures r.chainValid <==> r.errors == []
    ensures forall i :: 0 <= i < |events| ==> (Clean(events, i, h) <==> !Blamed(r.errors, i))
    ensures forall i: nat, f :: (i, f) in r.errors <==> i < |events| && Faulty(events, i, f, h)
    ensures LastClean(events, |events|, h, last)
    ensures r.lastVerifiedSeq == if last.None? then None else events[last.value].canon.seq_
    ensures r.lastVerifiedHash == if last.None? then None else events[last.value].hash
    ensures r.lastVerifiedSeq.Some? ==>
      var k := r.lastVerifiedSeq.value;
      && last == Some(k) && k < |events|
      && (ChainValid(events[..k + 1], h) <==> forall j :: 0 <= j < |r.errors| ==> r.errors[j].0 > k)
  {
    hide EnvelopeOk, Named, ChainValid, Findings, Faulty;
    var errors: seq<(nat, Finding)> := [];
    var seenIds, seenSeqs: set<int> := {}, {};
    var lastSeq, lastHash := None, None;
    last := None;
    for index := 0 to |events|
      invariant SeenIds(seenIds, events[..index]) && SeenSeqs(seenSeqs, events[..index])
      invariant forall k :: 0 <= k < |errors| ==> errors[k].0 < index
      invariant forall i :: 0 <= i < index ==> (Clean(events, i, h) <==> !Blamed(errors, i))
      invariant forall i: nat, f :: (i, f) in errors <==> i < index && Faulty(events, i, f, h)
      invariant LastClean(events, index, h, last)
      invariant lastSeq == (if last.None? then None else events[last.value].canon.seq_)
      invariant lastHash == (if last.None? then None else events[last.value].hash)
    {
      var e := events[index];
      var found := Findings(e, index, ExpectedLink(events, index), seenIds, seenSeqs, h);
      FindingsMeanUnclean(events, index, seenIds, seenSeqs, h);
      SeenOne(seenIds, seenSeqs, events, index);
      BlameMore(errors, index, found);
      TaggedMembers(errors, index, found);
      forall f ensures f in found <==> Faulty(events, index, f, h) {
        FindingsAreFaults(events, index, seenIds, seenSeqs, h, f);
      }
      hide SeenIds, SeenSeqs, Clean, Blamed;
      errors := errors + Tagged(index, found);
      if e.parsed && Named(e.canon.id) { seenIds := seenIds + {e.canon.id}; }
      if e.parsed && e.canon.seq_.Some? && e.canon.seq_.value >= 0 { seenSeqs := seenSeqs + {e.canon.seq_.value}; }
      if found == [] {
        lastSeq, lastHash := e.canon.seq_, e.hash;
        last := Some(index);
      }
    }
    ValidIffAllClean(events, h);
    if errors != [] { assert Blamed(errors, errors[0].0); }
    if last.Some? { VerifiedPrefixIff(events, last.value, errors, h); }
    r := Report(errors == [], errors, lastSeq, lastHash);
  }

  function Tagged(index: nat, fs: seq<Finding>): (r: seq<(nat, Finding)>)
    ensures |r| == |fs| && forall k :: 0 <= k < |fs| ==> r[k] == (index, fs[k])
  {
    seq(|fs|, k requires 0 <= k < |fs| => (index, fs[k]))
  }

  // ---------------------------------------------------------------- what a valid chain pins down

  lemma EventAt(events: seq<Event>, i: nat, h: Digest)
    requires ChainValid(events, h) && i < |events|
    ensures events[i].canon.seq_ == Some(i) && events[i].hash == Some(h(events[i].canon))
    ensures i > 0 ==> events[i - 1].hash.Some? && events[i].canon.prevHash == Is(events[i - 1].hash.value)
  {
    hide EnvelopeOk;
    if i > 0 { assert events[i - 1].hash == Some(h(events[i - 1].canon)); }
  }

  /** With an injective hash, the last stored hash determines the whole chain. */
  lemma {:induction false} LastHashDeterminesChain(a: seq<Event>, b: seq<Event>, h: Digest)
    requires Injective(h) && ChainValid(a, h) && ChainValid(b, h)
    requires a != [] && b != [] && a[|a| - 1].hash == b[|b| - 1].hash
    ensures |a| == |b| && forall i :: 0 <= i < |a| ==> a[i].canon == b[i].canon && a[i].hash == b[i].hash
  {
    hide ChainValid;
    var n, m := |a| - 1, |b| - 1;
    EventAt(a, n, h);
    EventAt(b, m, h);
    assert a[n].canon == b[m].canon && n == m;
    if n > 0 {
      PrefixValid(a, n, h);
      PrefixValid(b, n, h);
      LastHashDeterminesChain(a[..n], b[..n], h);
      assert forall i :: 0 <= i < n ==> a[i] == a[..n][i] && b[i] == b[..n][i];
    }
  }

  lemma PrefixValid(events: seq<Event>, n: nat, h: Digest)
    requires ChainValid(events, h) && n <= |events|
    ensures ChainValid(events[..n], h)
  {
    hide EnvelopeOk;
    var front := events[..n];
    forall i | 0 <= i < n ensures ExpectedLink(front, i) == ExpectedLink(events, i) && front[i] == events[i] {
      if i > 0 { assert front[i - 1] == events[i - 1]; }
    }
  }

  /** Dropping events from a valid chain leaves a valid chain only when a tail was dropped. */
  lemma ValidSubsequenceIsPrefix(events: seq<Event>, kept: seq<nat>, h: Digest)
    requires ChainValid(events, h)
    requires forall k :: 0 <= k < |kept| ==> kept[k] < |events|
    requires forall j, k :: 0 <= j < k < |kept| ==> kept[j] < kept[k]
    requires ChainValid(seq(|kept|, k requires 0 <= k < |kept| => events[kept[k]]), h)
    ensures |kept| <= |events| && forall k :: 0 <= k < |kept| ==> kept[k] == k
  {
    hide EnvelopeOk;
    var sub := seq(|kept|, k requires 0 <= k < |kept| => events[kept[k]]);
    forall k | 0 <= k < |kept| ensures kept[k] == k {
      assert sub[k] == events[kept[k]] && sub[k].canon.seq_ == Some(k);
    }
    if |kept| > 0 { assert kept[|kept| - 1] == |kept| - 1; }
  }

  // ---------------------------------------------------------------- the last verified event

  /** Up to an event, cleanness looks only at what came before. */
  lemma CleanInPrefix(events: seq<Event>, n: nat, i: nat, h: Digest)
    requires i < n <= |events|
    ensures Clean(events[..n], i, h) <==> Clean(events, i, h)
  {
    hide EnvelopeOk, Named;
    var front := events[..n];
    assert forall j :: 0 <= j <= i ==> front[j] == events[j];
    assert ExpectedLink(front, i) == ExpectedLink(events, i);
    assert IdSeenBefore(front, i) <==> IdSeenBefore(events, i);
    assert SeqSeenBefore(front, i) <==> SeqSeenBefore(events, i);
  }

  /** What the last verified event vouches for: the chain up to it is valid if and only if every
      reported error is about a later event. */
  lemma VerifiedPrefixIff(events: seq<Event>, k: nat, errors: seq<(nat, Finding)>, h: Digest)
    requires LastClean(events, |events|, h, Some(k))
    requires forall i :: 0 <= i < |events| ==> (Clean(events, i, h) <==> !Blamed(errors, i))
    ensures events[k].canon.seq_ == Some(k)
    ensures ChainValid(events[..k + 1], h) <==> forall j :: 0 <= j < |errors| ==> errors[j].0 > k
  {
    var front := events[..k + 1];
    ValidIffAllClean(front, h);
    forall i | 0 <= i <= k ensures Clean(front, i, h) <==> !Blamed(errors, i) { CleanInPrefix(events, k + 1, i, h); }
    hide Clean, ChainValid;
    if exists j :: 0 <= j < |errors| && errors[j].0 <= k {
      var j :| 0 <= j < |errors| && errors[j].0 <= k;
      assert Blamed(errors, errors[j].0);
      assert !Clean(front, errors[j].0, h);
    }
  }

  function CanonOf(id: string, seq_: int, prev: Link): Canon {
    Canon(SCHEMA_VERSION, id, "t", "k", None, Some(1), None, Some(seq_), prev, "{}")
  }

  /** The first event carries a hash that is not its own; the second is in order. */
  function BrokenThenClean(h: Digest): seq<Event> {
    var first := CanonOf("a", 0, Null);
    var wrong := h(first) + "x";
    var second := CanonOf("b", 1, Is(wrong));
    [Event(true, true, true, first, Some(wrong)), Event(true, true, true, second, Some(h(second)))]
  }

  lemma LetterIsNamed(s: string)
    requires |s| == 1 && !IsSpace(s[0])
    ensures Named(s)
  {
    hide Trim, IsSpace;
  }

  /** The chain is broken at its first event, and the verifier still names the second as verified. */
  lemma LastVerifiedOutlivesABreak(h: Digest)
    ensures
      var events := BrokenThenClean(h);
      && !Clean(events, 0, h) && Clean(events, 1, h)
      && LastClean(events, 2, h, Some(1)) && !ChainValid(events, h)
  {
    hide Named, Trim;
    LetterIsNamed("a");
    LetterIsNamed("b");
    LetterIsNamed("k");
    var events := BrokenThenClean(h);
    assert events[0].hash != Some(h(events[0].canon)) by { assert |h(events[0].canon) + "x"| != |h(events[0].canon)|; }
    assert "a" != "b" by { assert "a"[0] != "b"[0]; }
    assert EnvelopeOk(events[1]);
  }
}
