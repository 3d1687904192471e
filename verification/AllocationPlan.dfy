/**
 Structured allocation plans: canonical declared work, path ownership and stored authority.
 */
module AllocationPlan {
  import opened Basics
  import opened CanonicalOrder
  import opened WorkspacePaths
  import opened PlanPaths

  const MAX_DECLARATIONS := 64
  const MAX_DECLARATION_LENGTH := 20000

  const ARTIFACT := "workflow-artifact"

  /** One declared output, criterion or evidence requirement. `family` is its capability identity, `rank`
      its provenance precedence (smaller is stronger), `criterionHash` the typed criterion it names. */
  datatype Declaration = Declaration(family: string, text: string, rank: nat, criterionHash: Option<string>)

  /** The canonical JSON identity of a declaration: opaque and injective. */
  type Identity = Declaration -> string

  ghost predicate Injective(key: Identity) {
    forall a, b :: key(a) == key(b) ==> a == b
  }

  function ByIdentity(key: Identity): (Declaration, Declaration) -> bool {
    (a, b) => TextLe(key(a), key(b))
  }

  lemma IdentityOrdering(key: Identity)
    requires Injective(key)
    ensures Ordering(ByIdentity(key))
    ensures forall s: seq<Declaration> :: NoTies(s, ByIdentity(key))
  {
    TextOrdering();
    forall s: seq<Declaration>, a, b |
      a in s && b in s && ByIdentity(key)(a, b) && ByIdentity(key)(b, a) ensures a == b
    {
      TextAntisymmetric(key(a), key(b));
    }
  }

  predicate Distinct<T(==)>(s: seq<T>) {
    forall i, j :: 0 <= i < j < |s| ==> s[i] != s[j]
  }

  // ---------------------------------------------------------------- declarations

  function NormalizeText(d: Declaration): Option<Declaration> {
    var text := Trim(d.text);
    if text == "" || |text| > MAX_DECLARATION_LENGTH then None else Some(d.(text := text))
  }

  /** `normalizeArray`: bounded, normalized, sorted by identity, no duplicates. */
  function NormalizeList(ds: seq<Declaration>, key: Identity): Option<seq<Declaration>> {
    if |ds| > MAX_DECLARATIONS then None
    else
      var normalized := MapAll(NormalizeText, ds);
      if normalized.None? then None
      else
        var sorted := Sort(normalized.value, ByIdentity(key));
        if Distinct(sorted) then Some(sorted) else None
  }

  lemma DistinctPermutes<T>(a: seq<T>, b: seq<T>)
    requires multiset(a) == multiset(b)
    ensures Distinct(a) <==> Distinct(b)
  {
    DistinctMeans(a);
    DistinctMeans(b);
  }

  lemma {:induction false} DistinctMeans<T>(s: seq<T>)
    ensures Distinct(s) <==> forall x :: multiset(s)[x] <= 1
  {
    if s != [] {
      var front, last := s[..|s| - 1], s[|s| - 1];
      DistinctMeans(front);
      assert s == front + [last];
      assert multiset(s) == multiset(front) + multiset{last};
      if Distinct(s) {
        assert last !in front;
      } else if Distinct(front) {
        assert last in front;
        assert multiset(s)[last] >= 2;
      } else {
        var x :| multiset(front)[x] > 1;
        assert multiset(s)[x] > 1;
      }
    }
  }

  lemma ListOrderIndependent(a: seq<Declaration>, b: seq<Declaration>, key: Identity)
    requires Injective(key) && multiset(a) == multiset(b)
    ensures NormalizeList(a, key) == NormalizeList(b, key)
  {
    IdentityOrdering(key);
    SameElements(a, b);
    MapAllPermutes(NormalizeText, a, b);
    var x, y := MapAll(NormalizeText, a), MapAll(NormalizeText, b);
    if x.Some? { SortCanonical(x.value, y.value, ByIdentity(key)); }
  }

  /** A list that has been normalized is in canonical form: reading it again changes nothing. */
  ghost predicate Canonical(ds: seq<Declaration>, key: Identity) {
    && |ds| <= MAX_DECLARATIONS && Distinct(ds) && Sorted(ds, ByIdentity(key))
    && forall k :: 0 <= k < |ds| ==> NormalizeText(ds[k]) == Some(ds[k])
  }

  lemma NormalizedIsCanonical(ds: seq<Declaration>, key: Identity)
    requires Injective(key) && NormalizeList(ds, key).Some?
    ensures Canonical(NormalizeList(ds, key).value, key)
  {
    hide NormalizeText;
    IdentityOrdering(key);
    var xs := MapAll(NormalizeText, ds).value;
    MapAllMeans(NormalizeText, ds);
    SortPermutes(xs, ByIdentity(key));
    SortSorts(xs, ByIdentity(key));
    var sorted := Sort(xs, ByIdentity(key));
    SameElements(xs, sorted);
    forall k | 0 <= k < |sorted| ensures NormalizeText(sorted[k]) == Some(sorted[k]) {
      assert sorted[k] in xs;
      var j :| 0 <= j < |xs| && xs[j] == sorted[k];
      assert NormalizeText(ds[j]) == Some(xs[j]);
      TextTwice(ds[j]);
    }
  }

  lemma TextTwice(d: Declaration)
    requires NormalizeText(d).Some?
    ensures NormalizeText(NormalizeText(d).value) == NormalizeText(d)
  {
    hide Trim;
    TrimTwice(d.text);
  }

  lemma {:induction false} MapAllIdentity<T>(f: T -> Option<T>, s: seq<T>)
    requires forall k :: 0 <= k < |s| ==> f(s[k]) == Some(s[k])
    ensures MapAll(f, s) == Some(s)
  {
    if s != [] {
      MapAllIdentity(f, s[1..]);
      assert s == [s[0]] + s[1..];
    }
  }

  lemma CanonicalIsFixed(ds: seq<Declaration>, key: Identity)
    requires Injective(key) && Canonical(ds, key)
    ensures NormalizeList(ds, key) == Some(ds)
  {
    IdentityOrdering(key);
    MapAllIdentity(NormalizeText, ds);
    SortFixed(ds, ByIdentity(key));
  }

  // ---------------------------------------------------------------- items

  datatype Parent = Parent(
    objectiveRank: nat, outputs: seq<Declaration>, criteria: seq<Declaration>, evidence: seq<Declaration>)

  datatype Item = Item(
    id: nat, agent: nat, owned: seq<string>, objective: string, objectiveRank: nat,
    outputs: seq<Declaration>, criteria: seq<Declaration>, evidence: seq<Declaration>)

  function OwnedOption(p: string): Option<string> {
    match OwnedPath(p) case Ok(q) => Some(q) case Err(_) => None
  }

  function NormalizeOwned(paths: seq<string>): Option<seq<string>> {
    var normalized := MapAll(OwnedOption, paths);
    if |paths| == 0 || normalized.None? then None
    else
      var sorted := Sort(normalized.value, TextLe);
      if Distinct(sorted) then Some(sorted) else None
  }

  function PathOutput(d: Declaration): Option<Declaration> {
    if d.family != ARTIFACT then Some(d)
    else match OutputPath(d.text) case Ok(q) => Some(d.(text := q)) case Err(_) => None
  }

  function NormalizeOutputs(ds: seq<Declaration>, key: Identity): Option<seq<Declaration>> {
    var first := NormalizeList(ds, key);
    if first.None? then None
    else
      var placed := MapAll(PathOutput, first.value);
      if placed.None? then None else NormalizeList(placed.value, key)
  }

  /** Nothing broader than the parent: its family is there, with a provenance at least as strong. */
  predicate WithinParent(ds: seq<Declaration>, parent: seq<Declaration>) {
    forall k :: 0 <= k < |ds| ==>
      exists j :: 0 <= j < |parent| && parent[j].family == ds[k].family && parent[j].rank <= ds[k].rank
  }

  function Typed(ds: seq<Declaration>): seq<(nat, string)> {
    if ds == [] then []
    else if ds[0].criterionHash.Some? then [(ds[0].rank, ds[0].criterionHash.value)] + Typed(ds[1..])
    else Typed(ds[1..])
  }

  /** Typed criteria and evidence requirements match one to one. */
  predicate EvidenceMatches(criteria: seq<Declaration>, evidence: seq<Declaration>) {
    && Distinct(Typed(criteria))
    && (forall x :: x in Typed(criteria) ==> x in Typed(evidence))
    && (forall x :: x in Typed(evidence) ==> x in Typed(criteria))
  }

  predicate OutputsOwned(outputs: seq<Declaration>, owned: seq<string>) {
    forall k :: 0 <= k < |outputs| && outputs[k].family == ARTIFACT ==> Inside(outputs[k].text, owned)
  }

  /** The checks on an item whose lists are already canonical. */
  predicate ItemAccepted(it: Item, parent: Parent) {
    && |it.outputs| > 0 && |it.criteria| > 0
    && EvidenceMatches(it.criteria, it.evidence)
    && OutputsOwned(it.outputs, it.owned)
    && it.objectiveRank >= parent.objectiveRank
    && WithinParent(it.outputs, parent.outputs)
    && WithinParent(it.criteria, parent.criteria)
    && WithinParent(it.evidence, parent.evidence)
  }

  /** `normalizeItem`. */
  function NormalizeItem(it: Item, parent: Parent, key: Identity): Option<Item> {
    var owned, outputs := NormalizeOwned(it.owned), NormalizeOutputs(it.outputs, key);
    var criteria, evidence := NormalizeList(it.criteria, key), NormalizeList(it.evidence, key);
    var objective := Trim(it.objective);
    if owned.None? || outputs.None? || criteria.None? || evidence.None? then None
    else if objective == "" || |objective| > MAX_DECLARATION_LENGTH then None
    else
      var normal := Item(it.id, it.agent, owned.value, objective, it.objectiveRank,
                         outputs.value, criteria.value, evidence.value);
      if it.id > 0 && it.agent > 0 && ItemAccepted(normal, parent) then Some(normal) else None
  }

  /** The same item, its lists written in any order. */
  ghost predicate SameItem(a: Item, b: Item) {
    && a.(owned := b.owned, outputs := b.outputs, criteria := b.criteria, evidence := b.evidence) == b
    && multiset(a.owned) == multiset(b.owned) && multiset(a.outputs) == multiset(b.outputs)
    && multiset(a.criteria) == multiset(b.criteria) && multiset(a.evidence) == multiset(b.evidence)
  }

  lemma OwnedOrderIndependent(a: seq<string>, b: seq<string>)
    requires multiset(a) == multiset(b)
    ensures NormalizeOwned(a) == NormalizeOwned(b)
  {
    SameElements(a, b);
    MapAllPermutes(OwnedOption, a, b);
    var x, y := MapAll(OwnedOption, a), MapAll(OwnedOption, b);
    if x.Some? { TextSortCanonical(x.value, y.value); }
  }

  lemma ItemOrderIndependent(a: Item, b: Item, parent: Parent, key: Identity)
    requires Injective(key) && SameItem(a, b)
    ensures NormalizeItem(a, parent, key) == NormalizeItem(b, parent, key)
  {
    hide NormalizeOwned, NormalizeList, ItemAccepted, Trim;
    OwnedOrderIndependent(a.owned, b.owned);
    ListOrderIndependent(a.outputs, b.outputs, key);
    ListOrderIndependent(a.criteria, b.criteria, key);
    ListOrderIndependent(a.evidence, b.evidence, key);
  }

  // ---------------------------------------------------------------- plans

  /** The immutable authority of a plan. */
  datatype Body = Body(id: nat, ticket: nat, parent: Parent, constraints: seq<Declaration>, items: seq<Item>)

  predicate IdLe(a: Item, b: Item) {
    a.id <= b.id
  }

  function IdOf(it: Item): Option<nat> { Some(it.id) }

  function AgentOf(it: Item): Option<nat> { Some(it.agent) }

  /** One value per item. */
  function Column(f: Item -> Option<nat>, items: seq<Item>): seq<nat> {
    match MapAll(f, items) case Some(column) => column case None => []
  }

  predicate ItemsOverlap(a: Item, b: Item) {
    exists p, q :: p in a.owned && q in b.owned && Overlap(p, q)
  }

  /** No owned path of one item overlaps one of another. */
  predicate NoSiblingOverlap(items: seq<Item>) {
    forall i, j :: 0 <= i < j < |items| ==> !ItemsOverlap(items[i], items[j])
  }

  /** `assertNoSiblingOwnedPathOverlap`: every pair of owners, by index. */
  method CheckSiblingOverlap(items: seq<Item>) returns (ok: bool)
    ensures ok <==> NoSiblingOverlap(items)
  {
    hide ItemsOverlap;
    for i := 0 to |items|
      invariant forall a, b :: 0 <= a < i && a < b < |items| ==> !ItemsOverlap(items[a], items[b])
    {
      for j := i + 1 to |items|
        invariant forall b :: i < b < j ==> !ItemsOverlap(items[i], items[b])
      {
        var clash := ItemsClash(items[i], items[j]);
        if clash { return false; }
      }
    }
    return true;
  }

  method ItemsClash(a: Item, b: Item) returns (clash: bool)
    ensures clash <==> ItemsOverlap(a, b)
  {
    hide Overlap;
    var left, right := a.owned, b.owned;
    for i := 0 to |left|
      invariant forall p, q :: p in left[..i] && q in right ==> !Overlap(p, q)
    {
      for j := 0 to |right|
        invariant forall q :: q in right[..j] ==> !Overlap(left[i], q)
      {
        if Overlap(left[i], right[j]) { return true; }
      }
    }
    return false;
  }

  /** A shared constraint claims no stronger provenance than everything in the parent. */
  predicate ConstraintsAllowed(constraints: seq<Declaration>, parent: Parent) {
    forall k :: 0 <= k < |constraints| ==>
      || parent.objectiveRank <= constraints[k].rank
      || exists d :: d in parent.outputs + parent.criteria + parent.evidence && d.rank <= constraints[k].rank
  }

  predicate AllText(ds: seq<Declaration>) {
    forall d :: d in ds ==> d.family == "text"
  }

  function Normalizer(parent: Parent, key: Identity): Item -> Option<Item> {
    it => NormalizeItem(it, parent, key)
  }

  function FinishItems(items: seq<Item>): Option<seq<Item>> {
    var sorted := Sort(items, IdLe);
    if Distinct(Column(AgentOf, sorted)) && Distinct(Column(IdOf, sorted)) && NoSiblingOverlap(sorted)
    then Some(sorted) else None
  }

  /** `normalizePlanCore`: the authority a plan source denotes, or nothing. */
  function BuildBody(src: Body, key: Identity): Option<Body> {
    var constraints := NormalizeList(src.constraints, key);
    var items := MapAll(Normalizer(src.parent, key), src.items);
    if src.id == 0 || src.ticket == 0 || |src.items| == 0 || constraints.None? || items.None? then None
    else if !AllText(src.constraints) || !ConstraintsAllowed(constraints.value, src.parent) then None
    else match FinishItems(items.value)
      case None => None
      case Some(sorted) => Some(src.(constraints := constraints.value, items := sorted))
  }

  // ---------------------------------------------------------------- order independence

  /** The same source with its items, owned paths and declarations in any order. */
  ghost predicate SameSource(x: Body, y: Body, arranged: seq<Item>) {
    && x.id == y.id && x.ticket == y.ticket && x.parent == y.parent
    && multiset(x.constraints) == multiset(y.constraints)
    && multiset(arranged) == multiset(y.items)
    && |x.items| == |arranged| && forall k :: 0 <= k < |arranged| ==> SameItem(x.items[k], arranged[k])
  }

  lemma {:induction false} MapAllPointwise(f: Item -> Option<Item>, a: seq<Item>, b: seq<Item>)
    requires |a| == |b| && forall k :: 0 <= k < |a| ==> f(a[k]) == f(b[k])
    ensures MapAll(f, a) == MapAll(f, b)
  {
    if a != [] { MapAllPointwise(f, a[1..], b[1..]); }
  }

  lemma ColumnPermutes(f: Item -> Option<nat>, a: seq<Item>, b: seq<Item>)
    requires multiset(a) == multiset(b)
    ensures Distinct(Column(f, a)) <==> Distinct(Column(f, b))
  {
    MapAllPermutes(f, a, b);
    DistinctPermutes(Column(f, a), Column(f, b));
  }

  lemma DistinctIdsNoTies(items: seq<Item>)
    requires Distinct(Column(IdOf, items))
    ensures NoTies(items, IdLe)
  {
    MapAllMeans(IdOf, items);
    forall a, b | a in items && b in items && IdLe(a, b) && IdLe(b, a) ensures a == b {
      var i :| 0 <= i < |items| && items[i] == a;
      var j :| 0 <= j < |items| && items[j] == b;
      assert Column(IdOf, items)[i] == a.id && Column(IdOf, items)[j] == b.id;
    }
  }

  lemma FinishOrderIndependent(a: seq<Item>, b: seq<Item>)
    requires multiset(a) == multiset(b)
    ensures FinishItems(a) == FinishItems(b)
  {
    hide NoSiblingOverlap, Column;
    SortPermutes(a, IdLe);
    SortPermutes(b, IdLe);
    ColumnPermutes(IdOf, Sort(a, IdLe), a);
    ColumnPermutes(IdOf, Sort(b, IdLe), a);
    if Distinct(Column(IdOf, a)) {
      DistinctIdsNoTies(a);
      SortCanonical(a, b, IdLe);
    }
  }

  /** Building a plan forgets the order everything was listed in. */
  lemma PlanOrderIndependent(x: Body, y: Body, arranged: seq<Item>, key: Identity)
    requires Injective(key) && SameSource(x, y, arranged)
    ensures BuildBody(x, key) == BuildBody(y, key)
  {
    hide NormalizeItem, NormalizeList, FinishItems, ConstraintsAllowed;
    ListOrderIndependent(x.constraints, y.constraints, key);
    SameElements(x.constraints, y.constraints);
    var f := Normalizer(x.parent, key);
    forall k | 0 <= k < |arranged| ensures f(x.items[k]) == f(arranged[k]) {
      ItemOrderIndependent(x.items[k], arranged[k], x.parent, key);
    }
    MapAllPointwise(f, x.items, arranged);
    MapAllPermutes(f, arranged, y.items);
    SameElements(arranged, y.items);
    if MapAll(f, x.items).Some? {
      FinishOrderIndependent(MapAll(f, x.items).value, MapAll(f, y.items).value);
    }
  }

  // ---------------------------------------------------------------- ownership

  lemma FinishedItems(items: seq<Item>)
    requires FinishItems(items).Some?
    ensures NoSiblingOverlap(FinishItems(items).value)
    ensures multiset(FinishItems(items).value) == multiset(items)
  {
    SortPermutes(items, IdLe);
  }

  /** In an accepted plan no path lies inside the owned paths of two items. */
  lemma OwnersAreDisjoint(src: Body, key: Identity, i: nat, j: nat, p: string)
    requires BuildBody(src, key).Some? && i < j < |BuildBody(src, key).value.items|
    ensures
      var items := BuildBody(src, key).value.items;
      !(Inside(p, items[i].owned) && Inside(p, items[j].owned))
  {
    hide InsideOne, Overlap, NormalizeList, MapAll, Normalizer, Column, Sort, ConstraintsAllowed, AllText;
    var items := BuildBody(src, key).value.items;
    assert NoSiblingOverlap(items);
    hide Inside, ItemsOverlap;
    if Inside(p, items[i].owned) && Inside(p, items[j].owned) { InsideBothOverlaps(p, items[i], items[j]); }
  }

  lemma InsideBothOverlaps(p: string, x: Item, y: Item)
    requires Inside(p, x.owned) && Inside(p, y.owned)
    ensures ItemsOverlap(x, y)
  {
    hide InsideOne, Overlap;
    var a :| 0 <= a < |x.owned| && InsideOne(p, x.owned[a]);
    var b :| 0 <= b < |y.owned| && InsideOne(p, y.owned[b]);
    OverlapIff(x.owned[a], y.owned[b]);
  }

  /** Every artifact output lies inside its own item's paths and no other item's. */
  lemma OutputsBelongToOneItem(src: Body, key: Identity, i: nat, j: nat, k: nat)
    requires BuildBody(src, key).Some?
    requires i < |BuildBody(src, key).value.items| && j < |BuildBody(src, key).value.items| && i != j
    requires k < |BuildBody(src, key).value.items[i].outputs|
    requires BuildBody(src, key).value.items[i].outputs[k].family == ARTIFACT
    ensures
      var items := BuildBody(src, key).value.items;
      var path := items[i].outputs[k].text;
      Inside(path, items[i].owned) && !Inside(path, items[j].owned)
  {
    var items := BuildBody(src, key).value.items;
    var path := items[i].outputs[k].text;
    ItemsAccepted(src, key, i);
    hide BuildBody, Inside;
    if i < j { OwnersAreDisjoint(src, key, i, j, path); } else { OwnersAreDisjoint(src, key, j, i, path); }
  }

  lemma ItemsAccepted(src: Body, key: Identity, i: nat)
    requires BuildBody(src, key).Some? && i < |BuildBody(src, key).value.items|
    ensures ItemAccepted(BuildBody(src, key).value.items[i], src.parent)
  {
    hide NormalizeList, NormalizeOwned, NormalizeOutputs, ItemAccepted, FinishItems, ConstraintsAllowed, AllText;
    var f := Normalizer(src.parent, key);
    var xs := MapAll(f, src.items).value;
    MapAllMeans(f, src.items);
    FinishedItems(xs);
    var items := BuildBody(src, key).value.items;
    SameElements(items, xs);
    assert items[i] in xs;
    var j :| 0 <= j < |xs| && xs[j] == items[i];
    assert f(src.items[j]) == Some(xs[j]);
  }
}
