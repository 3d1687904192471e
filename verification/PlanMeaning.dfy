/**
 Which plan sources are accepted, and what is stored for them, said on the source alone.
 */
module PlanMeaning {
  import opened Basics
  import opened CanonicalOrder
  import opened WorkspacePaths
  import opened PlanPaths
  import opened AllocationPlan

  // ---------------------------------------------------------------- lists of declarations

  function Tidied(d: Declaration): Declaration {
    d.(text := Trim(d.text))
  }

  /** Short enough, every text present and bounded, and no two alike once trimmed. */
  ghost predicate ListFits(ds: seq<Declaration>) {
    && |ds| <= 64
    && (forall k :: 0 <= k < |ds| ==> 0 < |Trim(ds[k].text)| <= 20000)
    && (forall i, j :: 0 <= i < j < |ds| ==> Tidied(ds[i]) != Tidied(ds[j]))
  }

  /** The stored list holds the trimmed declarations, and nothing else. */
  ghost predicate ListHolds(ds: seq<Declaration>, stored: seq<Declaration>) {
    && |stored| == |ds| && Distinct(stored)
    && (forall k :: 0 <= k < |ds| ==> Tidied(ds[k]) in stored)
    && (forall x :: x in stored ==> exists k :: 0 <= k < |ds| && x == Tidied(ds[k]))
  }

  lemma TidyMeans(d: Declaration)
    ensures NormalizeText(d).Some? <==> 0 < |Trim(d.text)| <= 20000
    ensures NormalizeText(d).Some? ==> NormalizeText(d).value == Tidied(d)
  {
    hide Trim;
  }

  lemma HoldsAll(ds: seq<Declaration>, xs: seq<Declaration>, stored: seq<Declaration>)
    requires |xs| == |ds| && (forall k :: 0 <= k < |ds| ==> xs[k] == Tidied(ds[k]))
    requires multiset(stored) == multiset(xs) && Distinct(stored)
    ensures ListHolds(ds, stored)
  {
    hide Tidied, Distinct;
    SameElements(xs, stored);
    forall k | 0 <= k < |ds| ensures Tidied(ds[k]) in stored { assert xs[k] in xs; }
    forall x | x in stored ensures exists k :: 0 <= k < |ds| && x == Tidied(ds[k]) {
      var k :| 0 <= k < |xs| && xs[k] == x;
      assert x == Tidied(ds[k]);
    }
  }

  lemma TidiedList(ds: seq<Declaration>)
    ensures MapAll(NormalizeText, ds).Some? <==> forall k :: 0 <= k < |ds| ==> 0 < |Trim(ds[k].text)| <= 20000
    ensures MapAll(NormalizeText, ds).Some? ==>
      var xs := MapAll(NormalizeText, ds).value;
      |xs| == |ds| && forall k :: 0 <= k < |ds| ==> xs[k] == Tidied(ds[k])
  {
    hide NormalizeText, Tidied, MapAll, Trim;
    MapAllMeans(NormalizeText, ds);
    forall k | 0 <= k < |ds|
      ensures NormalizeText(ds[k]).Some? <==> 0 < |Trim(ds[k].text)| <= 20000
      ensures NormalizeText(ds[k]).Some? ==> NormalizeText(ds[k]).value == Tidied(ds[k])
    {
      TidyMeans(ds[k]);
    }
  }

  lemma ListMeans(ds: seq<Declaration>, key: Identity)
    ensures NormalizeList(ds, key).Some? <==> ListFits(ds)
    ensures NormalizeList(ds, key).Some? ==> ListHolds(ds, NormalizeList(ds, key).value)
  {
    hide NormalizeText, Tidied, Sort, MapAll, Trim, ListHolds, Distinct;
    TidiedList(ds);
    if MapAll(NormalizeText, ds).Some? {
      var xs := MapAll(NormalizeText, ds).value;
      var sorted := Sort(xs, ByIdentity(key));
      SortPermutes(xs, ByIdentity(key));
      DistinctPermutes(xs, sorted);
      DistinctTidied(ds, xs);
      if Distinct(sorted) { HoldsAll(ds, xs, sorted); }
    }
  }

  lemma DistinctTidied(ds: seq<Declaration>, xs: seq<Declaration>)
    requires |xs| == |ds| && (forall k :: 0 <= k < |ds| ==> xs[k] == Tidied(ds[k]))
    ensures Distinct(xs) <==> forall i, j :: 0 <= i < j < |ds| ==> Tidied(ds[i]) != Tidied(ds[j])
  {
    hide Tidied;
  }

  // ---------------------------------------------------------------- outputs

  /** Where an output is stored: an artifact at its place, anything else trimmed. */
  function Placed(d: Declaration): Option<Declaration> {
    if d.family != "workflow-artifact" then Some(Tidied(d))
    else match OutputRule(d.text) case None => None case Some(text) => Some(d.(text := text))
  }

  ghost predicate OutputsFit(ds: seq<Declaration>) {
    && ListFits(ds)
    && (forall k :: 0 <= k < |ds| ==> Placed(ds[k]).Some?)
    && (forall i, j :: 0 <= i < j < |ds| ==> Placed(ds[i]) != Placed(ds[j]))
  }

  ghost predicate OutputsHold(ds: seq<Declaration>, stored: seq<Declaration>) {
    && |stored| == |ds|
    && (forall k :: 0 <= k < |ds| ==> Placed(ds[k]).Some? && Placed(ds[k]).value in stored)
    && (forall x :: x in stored ==> exists k :: 0 <= k < |ds| && Placed(ds[k]) == Some(x))
  }

  /** Placing a trimmed declaration and trimming again is storing it. */
  lemma PlacedMeans(d: Declaration)
    requires 0 < |Trim(d.text)| <= 20000
    ensures PathOutput(Tidied(d)).Some? && 0 < |Trim(PathOutput(Tidied(d)).value.text)| <= 20000 <==> Placed(d).Some?
    ensures Placed(d).Some? ==> Tidied(PathOutput(Tidied(d)).value) == Placed(d).value
  {
    TrimTwice(d.text);
    hide OutputPath, Trim;
    assert OutputRule(Trim(d.text)) == OutputRule(d.text);
    if d.family == ARTIFACT && OutputRule(d.text).Some? { OutputShrinks(Trim(d.text)); }
  }

  /** The outputs after the path rule, in the order the source lists them. */
  lemma PlacedList(ds: seq<Declaration>, key: Identity)
    requires Injective(key) && ListFits(ds) && MapAll(NormalizeText, ds).Some?
    ensures
      var xs := MapAll(NormalizeText, ds).value;
      var placed := MapAll(PathOutput, xs);
      NormalizeOutputs(ds, key) == if placed.None? then None else NormalizeList(placed.value, key)
  {
    hide NormalizeText, PathOutput, ListFits;
    ListMeans(ds, key);
    TidiedList(ds);
    hide Trim, Tidied, ListHolds;
    var xs := MapAll(NormalizeText, ds).value;
    var first := NormalizeList(ds, key).value;
    SortPermutes(xs, ByIdentity(key));
    MapAllPermutes(PathOutput, first, xs);
    if MapAll(PathOutput, xs).Some? {
      ListOrderIndependent(MapAll(PathOutput, first).value, MapAll(PathOutput, xs).value, key);
    }
  }

  lemma OutputsMean(ds: seq<Declaration>, key: Identity)
    requires Injective(key)
    ensures NormalizeOutputs(ds, key).Some? <==> OutputsFit(ds)
    ensures NormalizeOutputs(ds, key).Some? ==> OutputsHold(ds, NormalizeOutputs(ds, key).value)
  {
    ListMeans(ds, key);
    if ListFits(ds) {
      TidiedList(ds);
      PlacedList(ds, key);
      var xs := MapAll(NormalizeText, ds).value;
      hide NormalizeText, PathOutput, NormalizeList, NormalizeOutputs, MapAll, Trim, Tidied, Placed, OutputsHold;
      MapAllMeans(PathOutput, xs);
      forall k | 0 <= k < |ds|
        ensures PathOutput(xs[k]).Some? && 0 < |Trim(PathOutput(xs[k]).value.text)| <= 20000 <==> Placed(ds[k]).Some?
        ensures Placed(ds[k]).Some? ==> Tidied(PathOutput(xs[k]).value) == Placed(ds[k]).value
      {
        PlacedMeans(ds[k]);
      }
      if MapAll(PathOutput, xs).Some? {
        var placed := MapAll(PathOutput, xs).value;
        ListMeans(placed, key);
        PlacedFits(ds, placed);
        if NormalizeList(placed, key).Some? { PlacedHolds(ds, placed, NormalizeList(placed, key).value); }
      }
    }
  }

  lemma PlacedFits(ds: seq<Declaration>, placed: seq<Declaration>)
    requires ListFits(ds) && |placed| == |ds|
    requires forall k :: 0 <= k < |ds| ==>
      && (0 < |Trim(placed[k].text)| <= 20000 <==> Placed(ds[k]).Some?)
      && (Placed(ds[k]).Some? ==> Tidied(placed[k]) == Placed(ds[k]).value)
    ensures ListFits(placed) <==> OutputsFit(ds)
  {
    hide Trim, Tidied, Placed;
  }

  lemma PlacedHolds(ds: seq<Declaration>, placed: seq<Declaration>, stored: seq<Declaration>)
    requires |placed| == |ds| && ListHolds(placed, stored)
    requires forall k :: 0 <= k < |ds| ==> Placed(ds[k]).Some? && Tidied(placed[k]) == Placed(ds[k]).value
    ensures OutputsHold(ds, stored)
  {
    hide Trim, Tidied, Placed;
  }

  // ---------------------------------------------------------------- owned paths

  ghost predicate OwnedFit(paths: seq<string>) {
    && |paths| > 0
    && (forall k :: 0 <= k < |paths| ==> OwnedPath(paths[k]).Ok?)
    && (forall i, j :: 0 <= i < j < |paths| ==> OwnedPath(paths[i]) != OwnedPath(paths[j]))
  }

  ghost predicate OwnedHold(paths: seq<string>, stored: seq<string>) {
    && |stored| == |paths|
    && (forall k :: 0 <= k < |paths| ==> OwnedPath(paths[k]).Ok? && OwnedPath(paths[k]).value in stored)
    && (forall x :: x in stored ==> exists k :: 0 <= k < |paths| && OwnedPath(paths[k]) == Ok(x))
  }

  lemma OwnedMeans(paths: seq<string>)
    ensures NormalizeOwned(paths).Some? <==> OwnedFit(paths)
    ensures NormalizeOwned(paths).Some? ==> OwnedHold(paths, NormalizeOwned(paths).value)
  {
    hide OwnedPath, Sort, MapAll, Distinct, OwnedHold;
    MapAllMeans(OwnedOption, paths);
    if MapAll(OwnedOption, paths).Some? {
      var xs := MapAll(OwnedOption, paths).value;
      SortPermutes(xs, TextLe);
      DistinctPermutes(xs, Sort(xs, TextLe));
      OwnedDistinct(paths, xs);
      OwnedAll(paths, xs, Sort(xs, TextLe));
    }
  }

  lemma OwnedDistinct(paths: seq<string>, xs: seq<string>)
    requires |xs| == |paths| && forall k :: 0 <= k < |paths| ==> OwnedPath(paths[k]) == Ok(xs[k])
    ensures Distinct(xs) <==> forall i, j :: 0 <= i < j < |paths| ==> OwnedPath(paths[i]) != OwnedPath(paths[j])
  {
    hide OwnedPath;
  }

  lemma OwnedAll(paths: seq<string>, xs: seq<string>, stored: seq<string>)
    requires |xs| == |paths| && forall k :: 0 <= k < |paths| ==> OwnedPath(paths[k]) == Ok(xs[k])
    requires multiset(xs) == multiset(stored)
    ensures OwnedHold(paths, stored)
  {
    hide OwnedPath;
    SameElements(xs, stored);
    forall x | x in stored ensures exists k :: 0 <= k < |paths| && OwnedPath(paths[k]) == Ok(x) {
      var k :| 0 <= k < |xs| && xs[k] == x;
      assert OwnedPath(paths[k]) == Ok(x);
    }
    forall k | 0 <= k < |paths| ensures OwnedPath(paths[k]).value in stored { assert xs[k] in xs; }
  }

  // ---------------------------------------------------------------- items

  /** Every list of the item can be stored, and its identities and objective are there. */
  ghost predicate ItemFits(it: Item) {
    && it.id > 0 && it.agent > 0 && 0 < |Trim(it.objective)| <= 20000
    && OwnedFit(it.owned) && OutputsFit(it.outputs) && ListFits(it.criteria) && ListFits(it.evidence)
    && it.outputs != [] && it.criteria != []
  }

  /** What is stored for an item: the same item, trimmed and placed, with its lists in canonical order. */
  ghost predicate StoredAs(it: Item, stored: Item) {
    && stored.id == it.id && stored.agent == it.agent && stored.objectiveRank == it.objectiveRank
    && stored.objective == Trim(it.objective)
    && OwnedHold(it.owned, stored.owned) && OutputsHold(it.outputs, stored.outputs)
    && ListHolds(it.criteria, stored.criteria) && ListHolds(it.evidence, stored.evidence)
  }

  /** A declaration asks for nothing the parent does not declare, from a source no stronger. */
  ghost predicate Covered(d: Declaration, parent: seq<Declaration>) {
    exists p :: p in parent && p.family == d.family && p.rank <= d.rank
  }

  predicate SameCriterion(a: Declaration, b: Declaration) {
    a.criterionHash.Some? && a.criterionHash == b.criterionHash && a.rank == b.rank
  }

  /** What makes a stored item acceptable under its parent. */
  ghost predicate Allowed(it: Item, parent: Parent) {
    && (forall a, b :: a in it.criteria && b in it.criteria && a != b ==> !SameCriterion(a, b))
    && (forall a :: a in it.criteria && a.criterionHash.Some? ==> exists b :: b in it.evidence && SameCriterion(a, b))
    && (forall b :: b in it.evidence && b.criterionHash.Some? ==> exists a :: a in it.criteria && SameCriterion(b, a))
    && (forall d :: d in it.outputs && d.family == "workflow-artifact" ==> Inside(d.text, it.owned))
    && it.objectiveRank >= parent.objectiveRank
    && (forall d :: d in it.outputs ==> Covered(d, parent.outputs))
    && (forall d :: d in it.criteria ==> Covered(d, parent.criteria))
    && (forall d :: d in it.evidence ==> Covered(d, parent.evidence))
  }

  lemma CoveredMeans(ds: seq<Declaration>, parent: seq<Declaration>)
    ensures WithinParent(ds, parent) <==> forall d :: d in ds ==> Covered(d, parent)
  {
    forall d ensures Covered(d, parent) <==>
      exists j :: 0 <= j < |parent| && parent[j].family == d.family && parent[j].rank <= d.rank
    {
      if Covered(d, parent) {
        var p :| p in parent && p.family == d.family && p.rank <= d.rank;
        var j :| 0 <= j < |parent| && parent[j] == p;
      }
      if exists j :: 0 <= j < |parent| && parent[j].family == d.family && parent[j].rank <= d.rank {
        var j :| 0 <= j < |parent| && parent[j].family == d.family && parent[j].rank <= d.rank;
        assert parent[j] in parent;
      }
    }
    hide Covered;
    if WithinParent(ds, parent) {
      forall d | d in ds ensures Covered(d, parent) { var k :| 0 <= k < |ds| && ds[k] == d; }
    }
    if forall d :: d in ds ==> Covered(d, parent) {
      forall k | 0 <= k < |ds|
        ensures exists j :: 0 <= j < |parent| && parent[j].family == ds[k].family && parent[j].rank <= ds[k].rank
      {
        assert ds[k] in ds;
        assert Covered(ds[k], parent);
      }
    }
  }

  lemma {:induction false} TypedMembers(ds: seq<Declaration>, rank: nat, hash: string)
    ensures (rank, hash) in Typed(ds) <==> exists d :: d in ds && d.criterionHash == Some(hash) && d.rank == rank
  {
    if ds != [] {
      TypedMembers(ds[1..], rank, hash);
      assert ds == [ds[0]] + ds[1..];
    }
  }

  lemma {:induction false} TypedDistinct(ds: seq<Declaration>)
    requires Distinct(ds)
    ensures Distinct(Typed(ds)) <==> forall a, b :: a in ds && b in ds && a != b ==> !SameCriterion(a, b)
  {
    if ds != [] {
      var d, rest := ds[0], ds[1..];
      assert Distinct(rest) by { assert forall k :: 0 <= k < |rest| ==> rest[k] == ds[k + 1]; }
      TypedDistinct(rest);
      assert ds == [d] + rest;
      assert d !in rest;
      NoneLikeHead(d, rest);
      if d.criterionHash.Some? {
        TypedMembers(rest, d.rank, d.criterionHash.value);
        DistinctCons((d.rank, d.criterionHash.value), Typed(rest));
        assert (d.rank, d.criterionHash.value) in Typed(rest) <==> exists b :: b in rest && SameCriterion(d, b);
      }
      hide Distinct;
    }
  }

  lemma NoneLikeHead(d: Declaration, rest: seq<Declaration>)
    requires d !in rest
    ensures
      var ds := [d] + rest;
      (forall a, b :: a in ds && b in ds && a != b ==> !SameCriterion(a, b)) <==>
        && (forall a, b :: a in rest && b in rest && a != b ==> !SameCriterion(a, b))
        && !exists b :: b in rest && SameCriterion(d, b)
  {
    var ds := [d] + rest;
    assert forall x :: x in ds <==> x == d || x in rest;
    assert forall a, b :: SameCriterion(a, b) ==> SameCriterion(b, a);
    if forall a, b :: a in ds && b in ds && a != b ==> !SameCriterion(a, b) {
      forall b | b in rest ensures !SameCriterion(d, b) { assert b in ds && d in ds; }
    }
  }

  lemma DistinctCons<T>(x: T, rest: seq<T>)
    ensures Distinct([x] + rest) <==> x !in rest && Distinct(rest)
  {
    var all := [x] + rest;
    assert forall k :: 0 <= k < |rest| ==> all[k + 1] == rest[k];
    if x in rest { var k :| 0 <= k < |rest| && rest[k] == x; assert all[0] == all[k + 1]; }
    if Distinct(all) { forall i, j | 0 <= i < j < |rest| ensures rest[i] != rest[j] { assert all[i + 1] != all[j + 1]; } }
  }

  lemma MatchesMean(criteria: seq<Declaration>, evidence: seq<Declaration>)
    ensures (forall x :: x in Typed(criteria) ==> x in Typed(evidence)) <==>
      forall a :: a in criteria && a.criterionHash.Some? ==> exists b :: b in evidence && SameCriterion(a, b)
  {
    forall rank: nat, hash
      ensures (rank, hash) in Typed(criteria) <==> exists d :: d in criteria && d.criterionHash == Some(hash) && d.rank == rank
      ensures (rank, hash) in Typed(evidence) <==> exists d :: d in evidence && d.criterionHash == Some(hash) && d.rank == rank
    {
      TypedMembers(criteria, rank, hash);
      TypedMembers(evidence, rank, hash);
    }
    hide Typed;
    if forall x :: x in Typed(criteria) ==> x in Typed(evidence) {
      forall a | a in criteria && a.criterionHash.Some? ensures exists b :: b in evidence && SameCriterion(a, b) {
        assert (a.rank, a.criterionHash.value) in Typed(criteria);
        var b :| b in evidence && b.criterionHash == Some(a.criterionHash.value) && b.rank == a.rank;
        assert SameCriterion(a, b);
      }
    } else {
      var x :| x in Typed(criteria) && x !in Typed(evidence);
      assert x == (x.0, x.1);
      var a :| a in criteria && a.criterionHash == Some(x.1) && a.rank == x.0;
      assert forall b :: b in evidence ==> !SameCriterion(a, b);
    }
  }

  lemma AllowedMeans(it: Item, parent: Parent)
    requires it.outputs != [] && it.criteria != [] && Distinct(it.criteria)
    ensures ItemAccepted(it, parent) <==> Allowed(it, parent)
  {
    hide Distinct, Typed, WithinParent, Covered, Inside, SameCriterion;
    TypedDistinct(it.criteria);
    MatchesMean(it.criteria, it.evidence);
    MatchesMean(it.evidence, it.criteria);
    CoveredMeans(it.outputs, parent.outputs);
    CoveredMeans(it.criteria, parent.criteria);
    CoveredMeans(it.evidence, parent.evidence);
    OwnedOutputsMean(it.outputs, it.owned);
    hide OutputsOwned;
  }

  lemma OwnedOutputsMean(outputs: seq<Declaration>, owned: seq<string>)
    ensures OutputsOwned(outputs, owned) <==>
      forall d :: d in outputs && d.family == "workflow-artifact" ==> Inside(d.text, owned)
  {
    hide Inside;
    if OutputsOwned(outputs, owned) {
      forall d | d in outputs && d.family == "workflow-artifact" ensures Inside(d.text, owned) {
        var k :| 0 <= k < |outputs| && outputs[k] == d;
      }
    }
    if forall d :: d in outputs && d.family == "workflow-artifact" ==> Inside(d.text, owned) {
      forall k | 0 <= k < |outputs| && outputs[k].family == ARTIFACT ensures Inside(outputs[k].text, owned) {
        assert outputs[k] in outputs;
      }
    }
  }

  /** An item is accepted if and only if it fits and what would be stored for it is allowed; and that is
      what is stored. */
  lemma ItemMeans(it: Item, parent: Parent, key: Identity)
    requires Injective(key)
    ensures NormalizeItem(it, parent, key).Some? ==>
      var stored := NormalizeItem(it, parent, key).value;
      ItemFits(it) && StoredAs(it, stored) && Allowed(stored, parent)
    ensures ItemFits(it) && (exists stored :: StoredAs(it, stored) && Allowed(stored, parent)) ==>
      NormalizeItem(it, parent, key).Some?
  {
    hide NormalizeOwned, NormalizeOutputs, NormalizeList, ItemAccepted, Trim, OwnedFit, OutputsFit, ListFits;
    hide OwnedHold, OutputsHold, ListHolds, Allowed, Distinct;
    OwnedMeans(it.owned);
    OutputsMean(it.outputs, key);
    ListMeans(it.criteria, key);
    ListMeans(it.evidence, key);
    if NormalizeOwned(it.owned).Some? && NormalizeOutputs(it.outputs, key).Some?
       && NormalizeList(it.criteria, key).Some? && NormalizeList(it.evidence, key).Some?
    {
      var normal := Item(it.id, it.agent, NormalizeOwned(it.owned).value, Trim(it.objective), it.objectiveRank,
        NormalizeOutputs(it.outputs, key).value, NormalizeList(it.criteria, key).value, NormalizeList(it.evidence, key).value);
      HeldSizes(it, normal);
      NormalizedItemIs(it, normal, parent, key);
      if normal.outputs != [] && normal.criteria != [] {
        AllowedMeans(normal, parent);
        if exists stored :: StoredAs(it, stored) && Allowed(stored, parent) {
          var stored :| StoredAs(it, stored) && Allowed(stored, parent);
          StoredAlike(it, stored, normal);
          AllowedAlike(stored, normal, parent);
        }
      } else {
        NothingAccepted(normal, parent);
      }
    }
  }

  lemma NothingAccepted(it: Item, parent: Parent)
    requires it.outputs == [] || it.criteria == []
    ensures !ItemAccepted(it, parent)
  {
  }

  lemma NormalizedItemIs(it: Item, normal: Item, parent: Parent, key: Identity)
    requires NormalizeOwned(it.owned) == Some(normal.owned) && NormalizeOutputs(it.outputs, key) == Some(normal.outputs)
    requires NormalizeList(it.criteria, key) == Some(normal.criteria) && NormalizeList(it.evidence, key) == Some(normal.evidence)
    requires normal.id == it.id && normal.agent == it.agent && normal.objective == Trim(it.objective)
    requires normal.objectiveRank == it.objectiveRank
    ensures NormalizeItem(it, parent, key) ==
      if it.id > 0 && it.agent > 0 && 0 < |Trim(it.objective)| <= 20000 && ItemAccepted(normal, parent)
      then Some(normal) else None
  {
    hide NormalizeOwned, NormalizeOutputs, NormalizeList, ItemAccepted, Trim;
  }

  lemma HeldSizes(it: Item, stored: Item)
    requires OwnedHold(it.owned, stored.owned) && OutputsHold(it.outputs, stored.outputs)
    requires ListHolds(it.criteria, stored.criteria) && ListHolds(it.evidence, stored.evidence)
    ensures |stored.outputs| == |it.outputs| && |stored.criteria| == |it.criteria|
    ensures Distinct(stored.criteria) && Distinct(stored.evidence)
  {
    hide Tidied, Placed, OwnedPath, Distinct;
  }

  /** Two stored forms of one item hold the same things. */
  lemma StoredAlike(it: Item, a: Item, b: Item)
    requires StoredAs(it, a) && StoredAs(it, b)
    ensures a.(owned := b.owned, outputs := b.outputs, criteria := b.criteria, evidence := b.evidence) == b
    ensures forall x :: x in a.owned <==> x in b.owned
    ensures forall x :: x in a.outputs <==> x in b.outputs
    ensures forall x :: x in a.criteria <==> x in b.criteria
    ensures forall x :: x in a.evidence <==> x in b.evidence
  {
    hide Tidied, Placed, OwnedPath, Trim, Distinct;
  }

  lemma AllowedAlike(a: Item, b: Item, parent: Parent)
    requires Allowed(a, parent) && a.objectiveRank == b.objectiveRank
    requires forall x :: x in a.owned <==> x in b.owned
    requires forall x :: x in a.outputs <==> x in b.outputs
    requires forall x :: x in a.criteria <==> x in b.criteria
    requires forall x :: x in a.evidence <==> x in b.evidence
    ensures Allowed(b, parent)
  {
    forall d | d in b.outputs && d.family == "workflow-artifact" ensures Inside(d.text, b.owned) {
      InsideAlike(d.text, a.owned, b.owned);
    }
    hide Inside, SameCriterion, Covered;
  }

  lemma InsideAlike(p: string, a: seq<string>, b: seq<string>)
    requires Inside(p, a) && forall x :: x in a <==> x in b
    ensures Inside(p, b)
  {
    hide InsideOne;
    var k :| 0 <= k < |a| && InsideOne(p, a[k]);
    assert a[k] in b;
    var j :| 0 <= j < |b| && b[j] == a[k];
  }

  // ---------------------------------------------------------------- plans

  /** The item fits, and what would be stored for it is allowed. */
  ghost predicate ItemAllowed(it: Item, parent: Parent) {
    ItemFits(it) && exists stored :: StoredAs(it, stored) && Allowed(stored, parent)
  }

  /** A shared constraint is plain text, from a source no stronger than something in the parent. */
  ghost predicate ConstraintAllowed(d: Declaration, parent: Parent) {
    && d.family == "text"
    && (|| parent.objectiveRank <= d.rank
        || (exists p :: p in parent.outputs && p.rank <= d.rank)
        || (exists p :: p in parent.criteria && p.rank <= d.rank)
        || (exists p :: p in parent.evidence && p.rank <= d.rank))
  }

  /** No path lies inside an owned path of both. */
  ghost predicate Apart(a: Item, b: Item) {
    forall p, q, z :: p in a.owned && q in b.owned && InsideStored(z, p) ==> !InsideStored(z, q)
  }

  /** `z` lies inside what is stored for the owned path `p`. */
  ghost predicate InsideStored(z: string, p: string) {
    OwnedPath(p).Ok? && InsideOne(z, OwnedPath(p).value)
  }

  /** Everything a plan source must satisfy, on the source itself. */
  ghost predicate SourceAllowed(src: Body) {
    && src.id > 0 && src.ticket > 0 && src.items != []
    && ListFits(src.constraints) && (forall d :: d in src.constraints ==> ConstraintAllowed(d, src.parent))
    && (forall k :: 0 <= k < |src.items| ==> ItemAllowed(src.items[k], src.parent))
    && (forall i, j :: 0 <= i < j < |src.items| ==>
          && src.items[i].id != src.items[j].id && src.items[i].agent != src.items[j].agent
          && Apart(src.items[i], src.items[j]))
  }

  lemma ConstraintsMean(ds: seq<Declaration>, stored: seq<Declaration>, parent: Parent)
    requires ListHolds(ds, stored)
    ensures AllText(ds) && ConstraintsAllowed(stored, parent) <==> forall d :: d in ds ==> ConstraintAllowed(d, parent)
  {
    forall d | d in ds
      ensures Tidied(d) in stored && Tidied(d).rank == d.rank && Tidied(d).family == d.family
    {
      var k :| 0 <= k < |ds| && ds[k] == d;
    }
    forall d ensures ConstraintAllowed(d, parent) <==> d.family == "text" && Ranked(d.rank, parent) { RankedMeans(d, parent); }
    assert ConstraintsAllowed(stored, parent) <==> forall k :: 0 <= k < |stored| ==> Ranked(stored[k].rank, parent);
    hide ConstraintAllowed, Ranked, ConstraintsAllowed, Trim, Distinct;
    if AllText(ds) && (forall k :: 0 <= k < |stored| ==> Ranked(stored[k].rank, parent)) {
      forall d | d in ds ensures ConstraintAllowed(d, parent) {
        var k :| 0 <= k < |stored| && stored[k] == Tidied(d);
        assert Ranked(stored[k].rank, parent);
      }
    }
    if forall d :: d in ds ==> ConstraintAllowed(d, parent) {
      forall k | 0 <= k < |stored| ensures Ranked(stored[k].rank, parent) {
        assert stored[k] in stored;
        var j :| 0 <= j < |ds| && stored[k] == Tidied(ds[j]);
        assert ds[j] in ds;
      }
    }
  }

  predicate Ranked(rank: nat, parent: Parent) {
    || parent.objectiveRank <= rank
    || exists d :: d in parent.outputs + parent.criteria + parent.evidence && d.rank <= rank
  }

  lemma RankedMeans(d: Declaration, parent: Parent)
    ensures ConstraintAllowed(d, parent) <==> d.family == "text" && Ranked(d.rank, parent)
  {
    if exists p :: p in parent.outputs + parent.criteria + parent.evidence && p.rank <= d.rank {
      var p :| p in parent.outputs + parent.criteria + parent.evidence && p.rank <= d.rank;
      assert p in parent.outputs || p in parent.criteria || p in parent.evidence;
    }
  }

  // ---------------------------------------------------------------- siblings

  lemma OverlapSymmetric(p: string, q: string)
    ensures Overlap(p, q) <==> Overlap(q, p)
  {
    hide Overlap, InsideOne;
    OverlapIff(p, q);
    OverlapIff(q, p);
  }

  lemma ItemsOverlapSymmetric(a: Item, b: Item)
    ensures ItemsOverlap(a, b) <==> ItemsOverlap(b, a)
  {
    forall p, q ensures Overlap(p, q) <==> Overlap(q, p) { OverlapSymmetric(p, q); }
    hide Overlap;
  }

  /** With distinct ids, siblings are told apart by id, not by position. */
  lemma SiblingsMean(items: seq<Item>)
    requires forall i, j :: 0 <= i < j < |items| ==> items[i].id != items[j].id
    ensures NoSiblingOverlap(items) <==> forall a, b :: a in items && b in items && a.id != b.id ==> !ItemsOverlap(a, b)
  {
    hide ItemsOverlap;
    if NoSiblingOverlap(items) {
      forall a, b | a in items && b in items && a.id != b.id ensures !ItemsOverlap(a, b) {
        var i :| 0 <= i < |items| && items[i] == a;
        var j :| 0 <= j < |items| && items[j] == b;
        ItemsOverlapSymmetric(a, b);
      }
    }
    if forall a, b :: a in items && b in items && a.id != b.id ==> !ItemsOverlap(a, b) {
      forall i, j | 0 <= i < j < |items| ensures !ItemsOverlap(items[i], items[j]) {
        assert items[i] in items && items[j] in items;
      }
    }
  }

  lemma ColumnMeans(items: seq<Item>)
    ensures Distinct(Column(IdOf, items)) <==> forall i, j :: 0 <= i < j < |items| ==> items[i].id != items[j].id
    ensures Distinct(Column(AgentOf, items)) <==> forall i, j :: 0 <= i < j < |items| ==> items[i].agent != items[j].agent
  {
    hide MapAll;
    MapAllMeans(IdOf, items);
    MapAllMeans(AgentOf, items);
    assert forall k :: 0 <= k < |items| ==> Column(IdOf, items)[k] == items[k].id;
    assert forall k :: 0 <= k < |items| ==> Column(AgentOf, items)[k] == items[k].agent;
    hide Column;
  }

  /** Finishing accepts by ids, agents and overlap, in whatever order the items come. */
  lemma FinishMeans(items: seq<Item>)
    ensures FinishItems(items).Some? <==>
      && Distinct(Column(IdOf, items)) && Distinct(Column(AgentOf, items)) && NoSiblingOverlap(items)
  {
    var sorted := Sort(items, IdLe);
    SortPermutes(items, IdLe);
    hide Sort, Column, NoSiblingOverlap, Distinct;
    ColumnPermutes(IdOf, items, sorted);
    ColumnPermutes(AgentOf, items, sorted);
    if Distinct(Column(IdOf, items)) {
      ColumnMeans(items);
      ColumnMeans(sorted);
      SiblingsMean(items);
      SiblingsMean(sorted);
      SameElements(items, sorted);
    }
  }

  lemma ApartMeans(a: Item, b: Item, x: Item, y: Item)
    requires OwnedHold(a.owned, x.owned) && OwnedHold(b.owned, y.owned)
    ensures Apart(a, b) <==> !ItemsOverlap(x, y)
  {
    hide OwnedPath, InsideOne, Overlap;
    if ItemsOverlap(x, y) {
      var s, t :| s in x.owned && t in y.owned && Overlap(s, t);
      OverlapIff(s, t);
      var z :| InsideOne(z, s) && InsideOne(z, t);
      var i :| 0 <= i < |a.owned| && OwnedPath(a.owned[i]) == Ok(s);
      var j :| 0 <= j < |b.owned| && OwnedPath(b.owned[j]) == Ok(t);
      assert a.owned[i] in a.owned && b.owned[j] in b.owned && InsideStored(z, a.owned[i]) && InsideStored(z, b.owned[j]);
    }
    if !Apart(a, b) {
      var p, q, z :| p in a.owned && q in b.owned && InsideStored(z, p) && InsideStored(z, q);
      var i :| 0 <= i < |a.owned| && a.owned[i] == p;
      var j :| 0 <= j < |b.owned| && b.owned[j] == q;
      var s, t := OwnedPath(p).value, OwnedPath(q).value;
      assert s in x.owned && t in y.owned;
      OverlapIff(s, t);
    }
  }

  /** The items that would be stored, in the order the source lists them. */
  lemma StoredItems(src: Body, key: Identity)
    requires Injective(key)
    ensures MapAll(Normalizer(src.parent, key), src.items).Some? <==>
      forall k :: 0 <= k < |src.items| ==> ItemAllowed(src.items[k], src.parent)
    ensures MapAll(Normalizer(src.parent, key), src.items).Some? ==>
      var xs := MapAll(Normalizer(src.parent, key), src.items).value;
      && |xs| == |src.items|
      && forall k :: 0 <= k < |xs| ==> StoredAs(src.items[k], xs[k]) && Allowed(xs[k], src.parent)
  {
    hide NormalizeItem, StoredAs, Allowed, ItemFits, MapAll;
    var f := Normalizer(src.parent, key);
    MapAllMeans(f, src.items);
    forall k | 0 <= k < |src.items|
      ensures f(src.items[k]).Some? <==> ItemAllowed(src.items[k], src.parent)
      ensures f(src.items[k]).Some? ==>
        StoredAs(src.items[k], f(src.items[k]).value) && Allowed(f(src.items[k]).value, src.parent)
    {
      ItemMeans(src.items[k], src.parent, key);
    }
    hide ItemAllowed;
  }

  lemma SiblingsApart(items: seq<Item>, xs: seq<Item>)
    requires |xs| == |items| && forall k :: 0 <= k < |xs| ==> StoredAs(items[k], xs[k])
    ensures FinishItems(xs).Some? <==>
      forall i, j :: 0 <= i < j < |items| ==>
        items[i].id != items[j].id && items[i].agent != items[j].agent && Apart(items[i], items[j])
  {
    FinishMeans(xs);
    ColumnMeans(xs);
    forall i, j | 0 <= i < j < |items|
      ensures Apart(items[i], items[j]) <==> !ItemsOverlap(xs[i], xs[j])
    {
      ApartMeans(items[i], items[j], xs[i], xs[j]);
    }
    forall k | 0 <= k < |xs| ensures xs[k].id == items[k].id && xs[k].agent == items[k].agent {}
    hide FinishItems, StoredAs, Apart, ItemsOverlap, Column, Distinct;
  }

  /**
   A plan source is accepted if and only if its identities are positive, its constraints are bounded text no
   stronger than the parent, every item fits and asks for nothing broader than the parent, and no two items
   share an id, an agent or a path.
   */
  lemma PlanAcceptedIff(src: Body, key: Identity)
    requires Injective(key)
    ensures BuildBody(src, key).Some? <==> SourceAllowed(src)
  {
    hide NormalizeList, MapAll, Normalizer, FinishItems, ConstraintsAllowed, AllText, ListFits, ListHolds;
    hide ItemAllowed, ConstraintAllowed, Apart, StoredAs, Allowed;
    ListMeans(src.constraints, key);
    StoredItems(src, key);
    if NormalizeList(src.constraints, key).Some? {
      ConstraintsMean(src.constraints, NormalizeList(src.constraints, key).value, src.parent);
    }
    if MapAll(Normalizer(src.parent, key), src.items).Some? {
      SiblingsApart(src.items, MapAll(Normalizer(src.parent, key), src.items).value);
    }
  }

  /** Some stored item is what is stored for `it`. */
  ghost predicate KeptIn(stored: seq<Item>, it: Item) {
    exists x :: x in stored && StoredAs(it, x)
  }

  /** A stored item is what is stored for some item of the source. */
  ghost predicate CameFrom(items: seq<Item>, stored: Item) {
    exists k :: 0 <= k < |items| && StoredAs(items[k], stored)
  }

  /** What an accepted source is built into: the same plan, every constraint and item stored once, the
      items by increasing id, and nothing in any item broader than the parent. */
  lemma PlanHolds(src: Body, key: Identity)
    requires Injective(key) && BuildBody(src, key).Some?
    ensures
      var built := BuildBody(src, key).value;
      && built.id == src.id && built.ticket == src.ticket && built.parent == src.parent
      && ListHolds(src.constraints, built.constraints) && |built.items| == |src.items|
      && (forall k :: 0 <= k < |src.items| ==> KeptIn(built.items, src.items[k]))
      && (forall it :: it in built.items ==>
            Allowed(it, src.parent) && CameFrom(src.items, it))
      && (forall i, j :: 0 <= i < j < |built.items| ==> built.items[i].id < built.items[j].id)
  {
    hide NormalizeList, MapAll, Normalizer, ConstraintsAllowed, AllText, ListHolds, StoredAs, Allowed, FinishItems, KeptIn, CameFrom;
    ListMeans(src.constraints, key);
    StoredItems(src, key);
    var xs := MapAll(Normalizer(src.parent, key), src.items).value;
    FinishedOrder(xs);
    ItemsHeld(src, xs, FinishItems(xs).value);
  }

  lemma FinishedOrder(xs: seq<Item>)
    requires FinishItems(xs).Some?
    ensures
      var items := FinishItems(xs).value;
      && multiset(items) == multiset(xs)
      && forall i, j :: 0 <= i < j < |items| ==> items[i].id < items[j].id
  {
    hide NoSiblingOverlap;
    SortPermutes(xs, IdLe);
    assert Ordering(IdLe);
    SortSorts(xs, IdLe);
    ColumnMeans(FinishItems(xs).value);
    hide Sort, Column;
  }

  lemma ItemsHeld(src: Body, xs: seq<Item>, items: seq<Item>)
    requires |xs| == |src.items| && multiset(items) == multiset(xs)
    requires forall k :: 0 <= k < |xs| ==> StoredAs(src.items[k], xs[k]) && Allowed(xs[k], src.parent)
    ensures |items| == |src.items|
    ensures forall k :: 0 <= k < |src.items| ==> KeptIn(items, src.items[k])
    ensures forall it :: it in items ==>
      Allowed(it, src.parent) && CameFrom(src.items, it)
  {
    hide StoredAs, Allowed;
    SameElements(xs, items);
    forall k | 0 <= k < |src.items| ensures KeptIn(items, src.items[k]) {
      assert xs[k] in xs && xs[k] in items && StoredAs(src.items[k], xs[k]);
    }
    forall it | it in items
      ensures Allowed(it, src.parent) && CameFrom(src.items, it)
    {
      var k :| 0 <= k < |xs| && xs[k] == it;
    }
  }
}
