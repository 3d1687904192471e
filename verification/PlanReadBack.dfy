/**
 Reading a stored plan back: exactly when building a built plan gives the same plan.
 */
module PlanReadBack {
  import opened Basics
  import opened CanonicalOrder
  import opened WorkspacePaths
  import opened PlanPaths
  import opened AllocationPlan

  // ---------------------------------------------------------------- what a stored item looks like

  /** Some accepted source path is stored as `p`. */
  ghost predicate StoredOwned(p: string) {
    exists value :: OwnedPath(value) == Ok(p)
  }

  ghost predicate StoredOutput(text: string) {
    exists value :: OutputRule(value) == Some(text)
  }

  /** An item as `NormalizeItem` leaves it. */
  ghost predicate NormalItem(it: Item, parent: Parent, key: Identity) {
    && it.id > 0 && it.agent > 0 && NormalOwned(it.owned) && NormalOutputs(it.outputs, key)
    && Canonical(it.criteria, key) && Canonical(it.evidence, key)
    && it.objective != "" && |it.objective| <= MAX_DECLARATION_LENGTH && Trim(it.objective) == it.objective
    && ItemAccepted(it, parent)
  }

  ghost predicate NormalOwned(owned: seq<string>) {
    && |owned| > 0 && Distinct(owned) && Sorted(owned, TextLe)
    && forall p :: p in owned ==> StoredOwned(p)
  }

  ghost predicate NormalOutputs(outputs: seq<Declaration>, key: Identity) {
    && Canonical(outputs, key)
    && forall d :: d in outputs && d.family == ARTIFACT ==> StoredOutput(d.text)
  }

  /** Where each element of a normalized list came from. */
  lemma ListOrigin(ds: seq<Declaration>, key: Identity, d: Declaration) returns (from: Declaration)
    requires NormalizeList(ds, key).Some? && d in NormalizeList(ds, key).value
    ensures from in ds && NormalizeText(from) == Some(d)
  {
    hide NormalizeText;
    var xs := MapAll(NormalizeText, ds).value;
    MapAllMeans(NormalizeText, ds);
    SortPermutes(xs, ByIdentity(key));
    SameElements(xs, Sort(xs, ByIdentity(key)));
    var k :| 0 <= k < |xs| && xs[k] == d;
    from := ds[k];
  }

  lemma MappedIsStored(paths: seq<string>, p: string)
    requires MapAll(OwnedOption, paths).Some? && p in MapAll(OwnedOption, paths).value
    ensures StoredOwned(p)
  {
    hide OwnedPath;
    MapAllMeans(OwnedOption, paths);
    var xs := MapAll(OwnedOption, paths).value;
    var k :| 0 <= k < |xs| && xs[k] == p;
    assert OwnedOption(paths[k]) == Some(p);
    assert OwnedPath(paths[k]) == Ok(p);
  }

  lemma OwnedIsNormal(paths: seq<string>)
    requires NormalizeOwned(paths).Some?
    ensures NormalOwned(NormalizeOwned(paths).value)
  {
    hide StoredOwned, OwnedOption, OwnedPath, TextLe, Sort;
    var xs := MapAll(OwnedOption, paths).value;
    MapAllMeans(OwnedOption, paths);
    hide MapAll;
    TextOrdering();
    SortSorts(xs, TextLe);
    SortPermutes(xs, TextLe);
    var sorted := Sort(xs, TextLe);
    SameElements(xs, sorted);
    forall p | p in sorted ensures StoredOwned(p) { MappedIsStored(paths, p); }
  }

  lemma OutputsAreNormal(ds: seq<Declaration>, key: Identity)
    requires Injective(key) && NormalizeOutputs(ds, key).Some?
    ensures NormalOutputs(NormalizeOutputs(ds, key).value, key)
  {
    hide NormalizeList, Canonical, OutputPath, Trim;
    var first := NormalizeList(ds, key).value;
    var placed := MapAll(PathOutput, first).value;
    MapAllMeans(PathOutput, first);
    NormalizedIsCanonical(placed, key);
    forall d | d in NormalizeOutputs(ds, key).value && d.family == ARTIFACT ensures StoredOutput(d.text) {
      var there := ListOrigin(placed, key, d);
      var k :| 0 <= k < |placed| && placed[k] == there;
      assert PathOutput(first[k]) == Some(there) && first[k] in first;
      var origin := ListOrigin(ds, key, first[k]);
      TrimTwice(origin.text);
      assert OutputRule(first[k].text) == Some(d.text);
    }
  }

  lemma NormalizedItemIsNormal(it: Item, parent: Parent, key: Identity)
    requires Injective(key) && NormalizeItem(it, parent, key).Some?
    ensures NormalItem(NormalizeItem(it, parent, key).value, parent, key)
  {
    hide NormalizeList, NormalizeOwned, NormalizeOutputs, NormalOwned, NormalOutputs, Canonical, ItemAccepted, Trim;
    OwnedIsNormal(it.owned);
    OutputsAreNormal(it.outputs, key);
    NormalizedIsCanonical(it.criteria, key);
    NormalizedIsCanonical(it.evidence, key);
    TrimTwice(it.objective);
  }

  lemma BuiltItemsNormal(src: Body, key: Identity)
    requires Injective(key) && BuildBody(src, key).Some?
    ensures forall it :: it in BuildBody(src, key).value.items ==> NormalItem(it, src.parent, key)
  {
    hide NormalizeList, NormalizeItem, FinishItems, ConstraintsAllowed, AllText, NormalItem;
    var f := Normalizer(src.parent, key);
    var xs := MapAll(f, src.items).value;
    MapAllMeans(f, src.items);
    FinishedItems(xs);
    var items := BuildBody(src, key).value.items;
    SameElements(items, xs);
    forall it | it in items ensures NormalItem(it, src.parent, key) {
      var j :| 0 <= j < |xs| && xs[j] == it;
      assert f(src.items[j]) == Some(it);
      NormalizedItemIsNormal(src.items[j], src.parent, key);
    }
  }

  // ---------------------------------------------------------------- one list

  ghost predicate OwnedReadBack(owned: seq<string>) {
    forall p :: p in owned ==> OwnedPath(p) == Ok(p)
  }

  ghost predicate OutputsReadBack(outputs: seq<Declaration>) {
    forall d :: d in outputs && d.family == ARTIFACT ==> OutputRule(d.text) == Some(d.text)
  }

  function Length(p: string): nat {
    |p|
  }

  function TextLength(d: Declaration): nat {
    |d.text|
  }

  lemma OwnedLightens(p: string)
    requires StoredOwned(p)
    ensures Lightens(OwnedOption, Length, p)
  {
    hide OutputPath, Ownership;
    var value :| OwnedPath(value) == Ok(p);
    EmptyIsRefused();
    if OwnedPath(p).Ok? { OwnedShrinks(p); }
  }

  /** Owned paths cannot trade places: a path that changes gets shorter. */
  lemma OwnedFixedIff(owned: seq<string>)
    requires NormalOwned(owned)
    ensures NormalizeOwned(owned) == Some(owned) <==> OwnedReadBack(owned)
  {
    hide OwnedPath, StoredOwned;
    if NormalizeOwned(owned) == Some(owned) {
      SortPermutes(MapAll(OwnedOption, owned).value, TextLe);
      forall k | 0 <= k < |owned| ensures Lightens(OwnedOption, Length, owned[k]) {
        assert owned[k] in owned;
        OwnedLightens(owned[k]);
      }
      NoTradingPlaces(OwnedOption, owned, Length);
      MapAllMeans(OwnedOption, owned);
      forall p | p in owned ensures OwnedPath(p) == Ok(p) {
        var k :| 0 <= k < |owned| && owned[k] == p;
        assert OwnedOption(owned[k]) == Some(owned[k]);
      }
    }
    if OwnedReadBack(owned) {
      forall k | 0 <= k < |owned| ensures OwnedOption(owned[k]) == Some(owned[k]) { assert owned[k] in owned; }
      MapAllIdentity(OwnedOption, owned);
      TextSortFixed(owned);
    }
  }

  /** The path rule and the trimming after it. */
  function PlaceOutput(d: Declaration): Option<Declaration> {
    match PathOutput(d) case None => None case Some(e) => NormalizeText(e)
  }

  lemma {:induction false} MapAllCompose(ds: seq<Declaration>)
    requires MapAll(PathOutput, ds).Some?
    ensures MapAll(NormalizeText, MapAll(PathOutput, ds).value) == MapAll(PlaceOutput, ds)
  {
    hide PathOutput, NormalizeText;
    if ds != [] {
      MapAllCompose(ds[1..]);
      var placed := MapAll(PathOutput, ds).value;
      assert placed[0] == PathOutput(ds[0]).value && placed[1..] == MapAll(PathOutput, ds[1..]).value;
    }
  }

  lemma OutputLightens(d: Declaration)
    requires NormalizeText(d) == Some(d)
    ensures Lightens(PlaceOutput, TextLength, d)
    ensures d.family == ARTIFACT ==> (PlaceOutput(d) == Some(d) <==> OutputRule(d.text) == Some(d.text))
    ensures d.family != ARTIFACT ==> PlaceOutput(d) == Some(d)
    ensures PlaceOutput(d) == Some(d) ==> PathOutput(d) == Some(d)
  {
    hide OutputPath, Trim;
    if OutputRule(d.text).Some? { OutputShrinks(d.text); }
  }

  lemma OutputsFixedIff(ds: seq<Declaration>, key: Identity)
    requires Injective(key) && NormalOutputs(ds, key)
    ensures NormalizeOutputs(ds, key) == Some(ds) <==> OutputsReadBack(ds)
  {
    hide PlaceOutput, PathOutput, NormalizeText, OutputRule, StoredOutput;
    CanonicalIsFixed(ds, key);
    forall k | 0 <= k < |ds|
      ensures Lightens(PlaceOutput, TextLength, ds[k])
      ensures ds[k].family == ARTIFACT ==> (PlaceOutput(ds[k]) == Some(ds[k]) <==> OutputRule(ds[k].text) == Some(ds[k].text))
      ensures ds[k].family != ARTIFACT ==> PlaceOutput(ds[k]) == Some(ds[k])
      ensures PlaceOutput(ds[k]) == Some(ds[k]) ==> PathOutput(ds[k]) == Some(ds[k])
    {
      OutputLightens(ds[k]);
    }
    if NormalizeOutputs(ds, key) == Some(ds) {
      MapAllCompose(ds);
      SortPermutes(MapAll(PlaceOutput, ds).value, ByIdentity(key));
      NoTradingPlaces(PlaceOutput, ds, TextLength);
      MapAllMeans(PlaceOutput, ds);
      forall d | d in ds && d.family == ARTIFACT ensures OutputRule(d.text) == Some(d.text) {
        var k :| 0 <= k < |ds| && ds[k] == d;
        assert PlaceOutput(ds[k]) == Some(ds[k]);
      }
    }
    if OutputsReadBack(ds) {
      forall k | 0 <= k < |ds| ensures PathOutput(ds[k]) == Some(ds[k]) { assert ds[k] in ds; }
      MapAllIdentity(PathOutput, ds);
    }
  }

  // ---------------------------------------------------------------- one item, one plan

  ghost predicate ItemReadsBack(it: Item) {
    OwnedReadBack(it.owned) && OutputsReadBack(it.outputs)
  }

  lemma ItemFixedIff(it: Item, parent: Parent, key: Identity)
    requires Injective(key) && NormalItem(it, parent, key)
    ensures NormalizeItem(it, parent, key) == Some(it) <==> ItemReadsBack(it)
  {
    hide NormalizeList, NormalizeOwned, NormalizeOutputs, NormalOwned, NormalOutputs, Canonical, ItemAccepted, Trim;
    hide OwnedReadBack, OutputsReadBack;
    OutputsFixedIff(it.outputs, key);
    OwnedFixedIff(it.owned);
    CanonicalIsFixed(it.criteria, key);
    CanonicalIsFixed(it.evidence, key);
  }

  lemma FinishedIsFixed(items: seq<Item>)
    requires FinishItems(items).Some?
    ensures FinishItems(FinishItems(items).value) == FinishItems(items)
  {
    hide NoSiblingOverlap, Column;
    var sorted := Sort(items, IdLe);
    SortSorts(items, IdLe);
    DistinctIdsNoTies(sorted);
    SortFixed(sorted, IdLe);
  }

  lemma ConstraintsStayText(ds: seq<Declaration>, key: Identity)
    requires NormalizeList(ds, key).Some? && AllText(ds)
    ensures AllText(NormalizeList(ds, key).value)
  {
    var xs := MapAll(NormalizeText, ds).value;
    MapAllMeans(NormalizeText, ds);
    SortPermutes(xs, ByIdentity(key));
    SameElements(xs, Sort(xs, ByIdentity(key)));
    forall x | x in xs ensures x.family == "text" {
      var k :| 0 <= k < |xs| && xs[k] == x;
      assert NormalizeText(ds[k]) == Some(x) && ds[k] in ds;
    }
  }

  lemma SameIdSameItem(items: seq<Item>, j: nat, k: nat)
    requires Distinct(Column(IdOf, items)) && j < |items| && k < |items| && items[j].id == items[k].id
    ensures j == k
  {
    MapAllMeans(IdOf, items);
    assert Column(IdOf, items)[j] == items[j].id && Column(IdOf, items)[k] == items[k].id;
  }

  lemma NormalizeKeepsId(it: Item, parent: Parent, key: Identity)
    requires NormalizeItem(it, parent, key).Some?
    ensures NormalizeItem(it, parent, key).value.id == it.id
  {
    hide NormalizeList, NormalizeOwned, NormalizeOutputs, ItemAccepted, Trim;
  }

  /** Rebuilding gives the same items only when it leaves each one alone. */
  lemma RebuiltItems(items: seq<Item>, parent: Parent, key: Identity)
    requires MapAll(Normalizer(parent, key), items).Some?
    requires FinishItems(MapAll(Normalizer(parent, key), items).value) == Some(items)
    ensures forall k :: 0 <= k < |items| ==> NormalizeItem(items[k], parent, key) == Some(items[k])
  {
    hide NormalizeItem, NoSiblingOverlap, Column, Sort;
    var f := Normalizer(parent, key);
    var xs := MapAll(f, items).value;
    MapAllMeans(f, items);
    FinishedItems(xs);
    SameElements(xs, items);
    forall k | 0 <= k < |items| ensures NormalizeItem(items[k], parent, key) == Some(items[k]) {
      assert f(items[k]) == Some(xs[k]);
      NormalizeKeepsId(items[k], parent, key);
      assert xs[k] in items;
      var j :| 0 <= j < |items| && items[j] == xs[k];
      SameIdSameItem(items, j, k);
    }
  }

  /** A built plan is a fixed point of building if and only if every one of its paths reads back. */
  lemma PlanFixedIff(src: Body, key: Identity)
    requires Injective(key) && BuildBody(src, key).Some?
    ensures
      var built := BuildBody(src, key).value;
      BuildBody(built, key) == Some(built) <==> forall it :: it in built.items ==> ItemReadsBack(it)
  {
    hide NormalizeList, NormalizeItem, FinishItems, ConstraintsAllowed, AllText, NormalItem, ItemReadsBack, Canonical;
    var built := BuildBody(src, key).value;
    NormalizedIsCanonical(src.constraints, key);
    CanonicalIsFixed(built.constraints, key);
    ConstraintsStayText(src.constraints, key);
    BuiltItemsNormal(src, key);
    var f := Normalizer(src.parent, key);
    forall k | 0 <= k < |built.items|
      ensures f(built.items[k]) == Some(built.items[k]) <==> ItemReadsBack(built.items[k])
    {
      assert built.items[k] in built.items;
      ItemFixedIff(built.items[k], src.parent, key);
    }
    if BuildBody(built, key) == Some(built) {
      RebuiltItems(built.items, src.parent, key);
    }
    if forall it :: it in built.items ==> ItemReadsBack(it) {
      forall k | 0 <= k < |built.items| ensures f(built.items[k]) == Some(built.items[k]) {
        assert built.items[k] in built.items;
      }
      MapAllIdentity(f, built.items);
      var xs := MapAll(f, src.items).value;
      FinishedIsFixed(xs);
      FinishedItems(xs);
      MapAllMeans(f, src.items);
      SameElements(xs, built.items);
    }
  }

  // ---------------------------------------------------------------- in terms of the stored text

  /** Every path of the item is one its holder can see to be stable. */
  ghost predicate VisiblyStable(it: Item) {
    && (forall p :: p in it.owned ==> p != "" && Trim(p) == p && !HasHidden(p))
    && (forall d :: d in it.outputs && d.family == ARTIFACT ==>
          d.text != "" && d.text[0] != SLASH && !HasHidden(d.text))
  }

  lemma VisiblyStableIff(it: Item, parent: Parent, key: Identity)
    requires NormalItem(it, parent, key)
    ensures ItemReadsBack(it) <==> VisiblyStable(it)
  {
    hide OwnedPath, OutputRule, Trim, HasHidden, ItemAccepted, Canonical;
    forall p | p in it.owned ensures OwnedPath(p) == Ok(p) <==> p != "" && Trim(p) == p && !HasHidden(p) {
      var value :| OwnedPath(value) == Ok(p);
      OwnedReadsBackIff(value);
    }
    forall d | d in it.outputs && d.family == ARTIFACT
      ensures OutputRule(d.text) == Some(d.text) <==> d.text != "" && d.text[0] != SLASH && !HasHidden(d.text)
    {
      assert StoredOutput(d.text);
      var value :| OutputRule(value) == Some(d.text);
      OutputReadsBackIff(value);
      StoredOutputShape(value);
    }
  }

  /**
   Building a built plan gives the same plan if and only if no stored owned path is empty, starts
   with white space or names anything hidden, and no stored artifact output starts with a slash or
   names anything hidden.
   */
  lemma PlanReadsBackIff(src: Body, key: Identity)
    requires Injective(key) && BuildBody(src, key).Some?
    ensures
      var built := BuildBody(src, key).value;
      BuildBody(built, key) == Some(built) <==> forall it :: it in built.items ==> VisiblyStable(it)
  {
    hide BuildBody, ItemReadsBack, VisiblyStable, NormalItem;
    PlanFixedIff(src, key);
    BuiltItemsNormal(src, key);
    var built := BuildBody(src, key).value;
    forall it | it in built.items ensures ItemReadsBack(it) <==> VisiblyStable(it) {
      VisiblyStableIff(it, src.parent, key);
    }
  }

  // ---------------------------------------------------------------- what a caller can check beforehand

  /** What a caller can check of its own source: no path segment starts or ends with white space. */
  ghost predicate TrimmedItem(it: Item) {
    && (forall p :: p in it.owned ==> SegmentsTrimmed(p))
    && (forall d :: d in it.outputs && d.family == ARTIFACT ==> SegmentsTrimmed(d.text))
  }

  lemma TrimmedOwned(owned: seq<string>)
    requires NormalizeOwned(owned).Some? && forall p :: p in owned ==> SegmentsTrimmed(p)
    ensures OwnedReadBack(NormalizeOwned(owned).value)
  {
    hide SegmentsTrimmed, OutputPath;
    var xs := MapAll(OwnedOption, owned).value;
    MapAllMeans(OwnedOption, owned);
    SortPermutes(xs, TextLe);
    SameElements(xs, Sort(xs, TextLe));
    forall q | q in xs ensures OwnedPath(q) == Ok(q) {
      var k :| 0 <= k < |xs| && xs[k] == q;
      assert OwnedOption(owned[k]) == Some(q) && owned[k] in owned;
      TrimmedSegmentsReadBack(owned[k]);
    }
  }

  lemma TrimmedOutputs(outputs: seq<Declaration>, key: Identity)
    requires NormalizeOutputs(outputs, key).Some?
    requires forall d :: d in outputs && d.family == ARTIFACT ==> SegmentsTrimmed(d.text)
    ensures OutputsReadBack(NormalizeOutputs(outputs, key).value)
  {
    hide NormalizeList, OutputPath, SegmentsTrimmed, Trim;
    var first := NormalizeList(outputs, key).value;
    var placed := MapAll(PathOutput, first).value;
    MapAllMeans(PathOutput, first);
    forall d | d in NormalizeOutputs(outputs, key).value && d.family == ARTIFACT
      ensures OutputRule(d.text) == Some(d.text)
    {
      var there := ListOrigin(placed, key, d);
      var k :| 0 <= k < |placed| && placed[k] == there;
      assert PathOutput(first[k]) == Some(there) && first[k] in first;
      var origin := ListOrigin(outputs, key, first[k]);
      SameTrimmedSegments(origin.text);
      TrimmedRelative(first[k].text);
      TrimmedSegmentsReadBack(first[k].text);
    }
  }

  lemma SameTrimmedSegments(text: string)
    requires SegmentsTrimmed(text)
    ensures SegmentsTrimmed(Trim(text))
  {
    hide Trim, Split;
    TrimTwice(text);
  }

  lemma TrimmedItemReadsBack(it: Item, parent: Parent, key: Identity)
    requires NormalizeItem(it, parent, key).Some? && TrimmedItem(it)
    ensures ItemReadsBack(NormalizeItem(it, parent, key).value)
  {
    hide NormalizeList, NormalizeOwned, NormalizeOutputs, ItemAccepted, SegmentsTrimmed, OwnedReadBack, OutputsReadBack;
    TrimmedOwned(it.owned);
    TrimmedOutputs(it.outputs, key);
  }

  /** Building is idempotent for every source whose path segments carry no edge white space. */
  lemma TrimmedPlanReadsBack(src: Body, key: Identity)
    requires Injective(key) && BuildBody(src, key).Some?
    requires forall it :: it in src.items ==> TrimmedItem(it)
    ensures BuildBody(BuildBody(src, key).value, key) == BuildBody(src, key)
  {
    hide NormalizeList, NormalizeItem, FinishItems, ConstraintsAllowed, AllText, TrimmedItem, ItemReadsBack;
    var f := Normalizer(src.parent, key);
    var xs := MapAll(f, src.items).value;
    MapAllMeans(f, src.items);
    FinishedItems(xs);
    var items := BuildBody(src, key).value.items;
    SameElements(items, xs);
    forall it | it in items ensures ItemReadsBack(it) {
      var j :| 0 <= j < |xs| && xs[j] == it;
      assert f(src.items[j]) == Some(it) && src.items[j] in src.items;
      TrimmedItemReadsBack(src.items[j], src.parent, key);
    }
    PlanFixedIff(src, key);
  }
}
