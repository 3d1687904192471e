/**
 Storing a plan and writing item statuses: the authority, its hash and its provenance survive.
 */
module PlanStorage {
  import opened Basics
  import opened CanonicalOrder
  import opened AllocationPlan
  import opened PlanReadBack

  /** SHA-256 of a canonical body: an opaque injective image. */
  datatype PlanHash = PlanHash(preimage: Body)

  datatype Plan = Plan(body: Body, hash: PlanHash)

  datatype ItemStatus = ItemStatus(id: nat, status: string, createdAt: int)

  /** The stored row body, and what reading it back projects. */
  datatype Stored = Stored(plan: Plan, statuses: seq<ItemStatus>, provenance: Option<string>, decision: Option<string>)

  /** `buildAllocationPlanV2`. */
  function Build(src: Body, key: Identity): Option<Plan> {
    match BuildBody(src, key) case Some(b) => Some(Plan(b, PlanHash(b))) case None => None
  }

  /** `normalizeAllocationPlanV2`: rebuild, and refuse a hash that does not match. */
  function Normalize(p: Plan, key: Identity): Option<Plan> {
    var rebuilt := Build(p.body, key);
    if rebuilt.Some? && rebuilt.value.hash == p.hash then rebuilt else None
  }

  predicate StatusLe(a: ItemStatus, b: ItemStatus) {
    a.id <= b.id
  }

  function StatusId(s: ItemStatus): Option<nat> { Some(s.id) }

  /** `normalizeItemStatuses`: every allocation item exactly once, in item order. */
  function NormalizeStatuses(statuses: seq<ItemStatus>, items: seq<Item>): Option<seq<ItemStatus>> {
    var sorted := Sort(statuses, StatusLe);
    if MapAll(StatusId, sorted) == MapAll(IdOf, items) then Some(sorted) else None
  }

  /** `createAllocationPlanV2StorageBody`. */
  function Create(p: Plan, createdAt: int, provenance: Option<string>, key: Identity): Option<Stored> {
    match Normalize(p, key)
    case None => None
    case Some(authority) =>
      Some(Stored(authority, Pending(authority.body.items, createdAt), provenance, None))
  }

  function Pending(items: seq<Item>, createdAt: int): seq<ItemStatus> {
    if items == [] then [] else [ItemStatus(items[0].id, "pending", createdAt)] + Pending(items[1..], createdAt)
  }

  /** `normalizeStoredAllocationPlanV2`: what a reader gets from a stored row. */
  function Read(s: Stored, key: Identity): Option<Stored> {
    match Normalize(s.plan, key)
    case None => None
    case Some(authority) =>
      match NormalizeStatuses(s.statuses, authority.body.items)
      case None => None
      case Some(statuses) => Some(Stored(authority, statuses, s.provenance, s.decision))
  }

  /** `serializeAllocationPlanV2StorageBody`: one status write over what was read. */
  function Serialize(s: Stored, statuses: seq<ItemStatus>, decision: Option<string>, key: Identity): Option<Stored> {
    match Normalize(s.plan, key)
    case None => None
    case Some(authority) =>
      match NormalizeStatuses(statuses, authority.body.items)
      case None => None
      case Some(normal) => Some(Stored(authority, normal, s.provenance, decision))
  }

  datatype Write = Write(statuses: seq<ItemStatus>, decision: Option<string>)

  /** Read, change the statuses, write back. */
  function Apply(s: Stored, w: Write, key: Identity): Option<Stored> {
    match Read(s, key)
    case None => None
    case Some(projection) => Serialize(projection, w.statuses, w.decision, key)
  }

  function ApplyAll(s: Stored, ws: seq<Write>, key: Identity): Option<Stored> {
    if ws == [] then Some(s)
    else
      match ApplyAll(s, ws[..|ws| - 1], key)
      case None => None
      case Some(before) => Apply(before, ws[|ws| - 1], key)
  }

  /** A plan that is its own normal form. */
  ghost predicate Settled(p: Plan, key: Identity) {
    BuildBody(p.body, key) == Some(p.body) && p.hash == PlanHash(p.body)
  }

  lemma {:induction false} PendingIds(items: seq<Item>, createdAt: int)
    ensures MapAll(StatusId, Pending(items, createdAt)) == MapAll(IdOf, items)
    ensures |Pending(items, createdAt)| == |items|
    ensures forall k :: 0 <= k < |items| ==> Pending(items, createdAt)[k].id == items[k].id
  {
    if items != [] { PendingIds(items[1..], createdAt); }
  }

  lemma StatusOrdering()
    ensures Ordering(StatusLe)
  {
  }

  /** Normalized statuses are in item order, so normalizing them again changes nothing. */
  lemma StatusesFixed(statuses: seq<ItemStatus>, items: seq<Item>)
    requires Distinct(Column(IdOf, items)) && MapAll(StatusId, statuses) == MapAll(IdOf, items)
    requires Sorted(statuses, StatusLe)
    ensures NormalizeStatuses(statuses, items) == Some(statuses)
  {
    StatusOrdering();
    MapAllMeans(StatusId, statuses);
    MapAllMeans(IdOf, items);
    forall a, b | a in statuses && b in statuses && StatusLe(a, b) && StatusLe(b, a) ensures a == b {
      var i :| 0 <= i < |statuses| && statuses[i] == a;
      var j :| 0 <= j < |statuses| && statuses[j] == b;
      assert Column(IdOf, items)[i] == a.id && Column(IdOf, items)[j] == b.id;
    }
    SortFixed(statuses, StatusLe);
  }

  // ---------------------------------------------------------------- naming every item once

  function StatusIds(statuses: seq<ItemStatus>): seq<nat> {
    match MapAll(StatusId, statuses) case Some(ids) => ids case None => []
  }

  /** The statuses name the plan's items, each exactly once, in any order. */
  ghost predicate NamesEveryItemOnce(statuses: seq<ItemStatus>, items: seq<Item>) {
    multiset(StatusIds(statuses)) == multiset(Column(IdOf, items))
  }

  predicate NatLe(a: nat, b: nat) {
    a <= b
  }

  lemma SortedIds(statuses: seq<ItemStatus>, items: seq<Item>)
    requires Sorted(statuses, StatusLe) && Sorted(items, IdLe)
    ensures Sorted(StatusIds(statuses), NatLe) && Sorted(Column(IdOf, items), NatLe)
  {
    MapAllMeans(StatusId, statuses);
    MapAllMeans(IdOf, items);
    var a, b := StatusIds(statuses), Column(IdOf, items);
    forall i, j | 0 <= i < j < |a| ensures NatLe(a[i], a[j]) { assert StatusLe(statuses[i], statuses[j]); }
    forall i, j | 0 <= i < j < |b| ensures NatLe(b[i], b[j]) { assert IdLe(items[i], items[j]); }
  }

  /** A status list is accepted if and only if it names every item exactly once. */
  lemma AcceptedIffEveryItemOnce(statuses: seq<ItemStatus>, items: seq<Item>)
    requires Sorted(items, IdLe)
    ensures NormalizeStatuses(statuses, items).Some? <==> NamesEveryItemOnce(statuses, items)
  {
    hide Sort;
    var sorted := Sort(statuses, StatusLe);
    StatusOrdering();
    SortSorts(statuses, StatusLe);
    SortPermutes(statuses, StatusLe);
    MapAllPermutes(StatusId, sorted, statuses);
    MapAllMeans(StatusId, sorted);
    MapAllMeans(StatusId, statuses);
    MapAllMeans(IdOf, items);
    SortedIds(sorted, items);
    if NamesEveryItemOnce(statuses, items) {
      assert Ordering(NatLe);
      SortedUnique(StatusIds(sorted), Column(IdOf, items), NatLe);
    }
  }

  // ---------------------------------------------------------------- sound rows

  /** A stored row holds a settled plan and a complete, ordered status list. */
  ghost predicate Sound(s: Stored, key: Identity) {
    && Settled(s.plan, key)
    && MapAll(StatusId, s.statuses) == MapAll(IdOf, s.plan.body.items)
    && Sorted(s.statuses, StatusLe)
  }

  lemma SettledItems(p: Plan, key: Identity)
    requires Settled(p, key)
    ensures Distinct(Column(IdOf, p.body.items)) && Sorted(p.body.items, IdLe)
  {
    hide NormalizeList, Normalizer, ConstraintsAllowed, AllText, NoSiblingOverlap, Column, MapAll;
    SortSorts(MapAll(Normalizer(p.body.parent, key), p.body.items).value, IdLe);
  }

  /** Storing a settled plan gives a sound row. */
  lemma CreateSound(p: Plan, createdAt: int, provenance: Option<string>, key: Identity)
    requires Settled(p, key)
    ensures Create(p, createdAt, provenance, key).Some? && Sound(Create(p, createdAt, provenance, key).value, key)
  {
    hide BuildBody;
    SettledItems(p, key);
    PendingIds(p.body.items, createdAt);
  }

  /** The row holds this write's statuses and decision. */
  ghost predicate Wrote(s: Stored, w: Write) {
    multiset(s.statuses) == multiset(w.statuses) && s.decision == w.decision
  }

  /** Nothing has been decided, and every item is pending since the plan was stored. */
  ghost predicate Untouched(s: Stored, createdAt: int) {
    && s.decision.None? && |s.statuses| == |s.plan.body.items|
    && forall k :: 0 <= k < |s.statuses| ==> s.statuses[k] == ItemStatus(s.plan.body.items[k].id, "pending", createdAt)
  }

  /** One status write succeeds exactly when its statuses name every item once, and then changes
      nothing but statuses and decision, which are those it brought. */
  lemma WriteKeepsAuthority(s: Stored, w: Write, key: Identity)
    requires Sound(s, key)
    ensures Read(s, key) == Some(s)
    ensures Apply(s, w, key).Some? <==> NamesEveryItemOnce(w.statuses, s.plan.body.items)
    ensures Apply(s, w, key).Some? ==>
      && Sound(Apply(s, w, key).value, key)
      && Apply(s, w, key).value.plan == s.plan && Apply(s, w, key).value.provenance == s.provenance
      && Wrote(Apply(s, w, key).value, w)
  {
    hide BuildBody;
    SettledItems(s.plan, key);
    SortPermutes(w.statuses, StatusLe);
    StatusesFixed(s.statuses, s.plan.body.items);
    AcceptedIffEveryItemOnce(w.statuses, s.plan.body.items);
    StatusOrdering();
    SortSorts(w.statuses, StatusLe);
    hide NamesEveryItemOnce;
  }

  lemma WritePreserves(s: Stored, w: Write, key: Identity)
    requires s.plan.hash == PlanHash(s.plan.body) && Apply(s, w, key).Some?
    ensures Apply(s, w, key).value.plan == s.plan && Apply(s, w, key).value.provenance == s.provenance
  {
    hide BuildBody, NormalizeStatuses;
  }

  /** Whatever is created and then written any number of times, the authority, its hash and its
      provenance are those it was created with: a write either keeps them or is refused. */
  lemma {:induction false} WritesPreserve(s: Stored, ws: seq<Write>, key: Identity)
    requires s.plan.hash == PlanHash(s.plan.body) && ApplyAll(s, ws, key).Some?
    ensures ApplyAll(s, ws, key).value.plan == s.plan && ApplyAll(s, ws, key).value.provenance == s.provenance
  {
    hide Apply;
    if ws != [] {
      WritesPreserve(s, ws[..|ws| - 1], key);
      WritePreserves(ApplyAll(s, ws[..|ws| - 1], key).value, ws[|ws| - 1], key);
    }
  }

  ghost predicate EachNamesEveryItem(ws: seq<Write>, items: seq<Item>) {
    forall k :: 0 <= k < |ws| ==> NamesEveryItemOnce(ws[k].statuses, items)
  }

  lemma EachNamesLast(ws: seq<Write>, items: seq<Item>)
    requires ws != []
    ensures EachNamesEveryItem(ws, items) <==>
      EachNamesEveryItem(ws[..|ws| - 1], items) && NamesEveryItemOnce(ws[|ws| - 1].statuses, items)
  {
    hide NamesEveryItemOnce;
    var front := ws[..|ws| - 1];
    assert forall k :: 0 <= k < |front| ==> front[k] == ws[k];
  }

  /** On a sound row a sequence of writes succeeds if and only if each of them names every item once. */
  lemma {:induction false} WritesStaySound(s: Stored, ws: seq<Write>, key: Identity)
    requires Sound(s, key)
    ensures ApplyAll(s, ws, key).Some? <==> EachNamesEveryItem(ws, s.plan.body.items)
    ensures ApplyAll(s, ws, key).Some? ==>
      Sound(ApplyAll(s, ws, key).value, key) && ApplyAll(s, ws, key).value.plan == s.plan
      && ApplyAll(s, ws, key).value.provenance == s.provenance
  {
    hide Sound, Apply, NamesEveryItemOnce;
    if ws != [] {
      hide EachNamesEveryItem;
      var front := ws[..|ws| - 1];
      WritesStaySound(s, front, key);
      EachNamesLast(ws, s.plan.body.items);
      if ApplyAll(s, front, key).Some? {
        WriteKeepsAuthority(ApplyAll(s, front, key).value, ws[|ws| - 1], key);
      }
    }
  }

  lemma CreatedIsSettled(p: Plan, createdAt: int, provenance: Option<string>, key: Identity)
    requires p.hash == PlanHash(p.body)
    ensures Create(p, createdAt, provenance, key).Some? <==> Settled(p, key)
    ensures Settled(p, key) ==> Create(p, createdAt, provenance, key).value.plan == p
  {
    hide BuildBody;
  }

  /**
   A built, stored and repeatedly written plan. It can be stored if and only if its stored paths are
   visibly stable; from then on any sequence of status writes succeeds if and only if each names
   every item once, and the authority, its hash and its provenance are still those that were built, with
   the statuses and the decision of the last write, or every item pending if there was none.
   */
  lemma BuiltStoredWritten(
    src: Body, createdAt: int, provenance: Option<string>, ws: seq<Write>, key: Identity)
    requires Injective(key) && Build(src, key).Some?
    ensures
      var plan := Build(src, key).value;
      var created := Create(plan, createdAt, provenance, key);
      && (created.Some? <==> forall it :: it in plan.body.items ==> VisiblyStable(it))
      && (created.Some? ==>
            && (ApplyAll(created.value, ws, key).Some? <==> EachNamesEveryItem(ws, plan.body.items))
            && (ApplyAll(created.value, ws, key).Some? ==>
                  var stored := ApplyAll(created.value, ws, key).value;
                  && stored.plan == plan && stored.provenance == provenance && Read(stored, key) == Some(stored)
                  && (if ws == [] then Untouched(stored, createdAt) else Wrote(stored, ws[|ws| - 1]))))
  {
    hide BuildBody, VisiblyStable, Sound, ApplyAll, EachNamesEveryItem, NamesEveryItemOnce, Read, Create, Untouched, Wrote;
    var plan := Build(src, key).value;
    PlanReadsBackIff(src, key);
    CreatedIsSettled(plan, createdAt, provenance, key);
    if Create(plan, createdAt, provenance, key).Some? {
      CreateSound(plan, createdAt, provenance, key);
      var created := Create(plan, createdAt, provenance, key).value;
      CreateKeepsProvenance(plan, createdAt, provenance, key);
      WritesStaySound(created, ws, key);
      if ApplyAll(created, ws, key).Some? {
        if ws == [] {
          CreatedUntouched(plan, createdAt, provenance, key);
          NoWrites(created, key);
        } else {
          LastWriteStands(created, ws, key);
        }
        WriteKeepsAuthority(ApplyAll(created, ws, key).value, Write([], None), key);
      }
    }
  }

  lemma {:induction false} PendingAll(items: seq<Item>, createdAt: int)
    ensures |Pending(items, createdAt)| == |items|
    ensures forall k :: 0 <= k < |items| ==> Pending(items, createdAt)[k] == ItemStatus(items[k].id, "pending", createdAt)
  {
    if items != [] { PendingAll(items[1..], createdAt); }
  }

  lemma CreatedUntouched(p: Plan, createdAt: int, provenance: Option<string>, key: Identity)
    requires Create(p, createdAt, provenance, key).Some?
    ensures Untouched(Create(p, createdAt, provenance, key).value, createdAt)
  {
    hide BuildBody;
    PendingAll(Create(p, createdAt, provenance, key).value.plan.body.items, createdAt);
  }

  lemma NoWrites(s: Stored, key: Identity)
    ensures ApplyAll(s, [], key) == Some(s)
  {
  }

  /** Of any number of writes the last one stands. */
  lemma LastWriteStands(s: Stored, ws: seq<Write>, key: Identity)
    requires Sound(s, key) && ws != [] && ApplyAll(s, ws, key).Some?
    ensures Wrote(ApplyAll(s, ws, key).value, ws[|ws| - 1])
  {
    hide Sound, Apply, Wrote, NamesEveryItemOnce;
    var front := ws[..|ws| - 1];
    WritesStaySound(s, front, key);
    WriteKeepsAuthority(ApplyAll(s, front, key).value, ws[|ws| - 1], key);
  }

  lemma CreateKeepsProvenance(p: Plan, createdAt: int, provenance: Option<string>, key: Identity)
    requires Create(p, createdAt, provenance, key).Some?
    ensures Create(p, createdAt, provenance, key).value.provenance == provenance
  {
    hide BuildBody;
  }
}
