/**
 Two concrete plans: one that is accepted and stable, and one that is accepted and can never be
 read back.
 */
module PlanScenarios {
  import opened Basics
  import opened CanonicalOrder
  import opened WorkspacePaths
  import opened PlanPaths
  import opened AllocationPlan

  const ARTIFACT_OUTPUT := Declaration(ARTIFACT, "a", 0, None)
  const TEXT_OUTPUT := Declaration("text", "b", 0, None)
  const CRITERION := Declaration("text", "c", 0, None)
  const PARENT := Parent(0, [ARTIFACT_OUTPUT, TEXT_OUTPUT], [CRITERION], [])

  function ItemWith(owned: string, output: Declaration): Item {
    Item(1, 1, [owned], "o", 0, [output], [CRITERION], [])
  }

  function PlanWith(owned: string, output: Declaration): Body {
    Body(1, 1, PARENT, [], [ItemWith(owned, output)])
  }

  // ---------------------------------------------------------------- lists of one

  lemma MapOne<A, B>(f: A -> Option<B>, x: A)
    ensures MapAll(f, [x]) == match f(x) case Some(y) => Some([y]) case None => None
  {
    assert [x][1..] == [];
    assert MapAll(f, [x][1..]) == Some([]);
    if f(x).Some? { assert [f(x).value] + [] == [f(x).value]; }
  }

  lemma SortOne<T>(x: T, le: (T, T) -> bool)
    ensures Sort([x], le) == [x]
  {
    assert [x][1..] == [];
  }

  lemma OneDeclaration(d: Declaration, key: Identity)
    requires NormalizeText(d) == Some(d)
    ensures NormalizeList([d], key) == Some([d])
    ensures NormalizeList([], key) == Some([])
  {
    hide NormalizeText;
    MapOne(NormalizeText, d);
    SortOne(d, ByIdentity(key));
  }

  lemma OneLetter(text: string)
    requires |text| == 1 && !IsSpace(text[0])
    ensures Trim(text) == text
  {
    hide Trim, IsSpace;
  }

  lemma Letters()
    ensures Trim("a") == "a" && Trim("b") == "b" && Trim("c") == "c" && Trim("o") == "o"
  {
    hide Trim;
    OneLetter("a");
    OneLetter("b");
    OneLetter("c");
    OneLetter("o");
  }

  // ---------------------------------------------------------------- one item

  lemma TextOutputs(key: Identity)
    ensures NormalizeOutputs([TEXT_OUTPUT], key) == Some([TEXT_OUTPUT])
    ensures NormalizeList([CRITERION], key) == Some([CRITERION]) && NormalizeList([], key) == Some([])
  {
    hide Trim, NormalizeList, OutputPath;
    Letters();
    OneDeclaration(TEXT_OUTPUT, key);
    OneDeclaration(CRITERION, key);
    assert ARTIFACT != "text" by { assert |ARTIFACT| == 17; }
    MapOne(PathOutput, TEXT_OUTPUT);
  }

  lemma ArtifactOutputs(key: Identity)
    ensures NormalizeOutputs([ARTIFACT_OUTPUT], key) == Some([ARTIFACT_OUTPUT])
  {
    hide Trim, NormalizeList, OutputPath;
    Letters();
    OneDeclaration(ARTIFACT_OUTPUT, key);
    PlainPath();
    MapOne(PathOutput, ARTIFACT_OUTPUT);
  }

  lemma PlainPath()
    ensures OutputPath("a") == Ok("a") && OwnedPath("a") == Ok("a/") && ProperPath("a") && ProperPath("a/")
  {
    hide Trim, Split, OutputPath, Ownership;
    Letters();
    assert Proper(["a"]) && Join(["a"]) == "a" && "a" + "/" == "a/";
    ProperIsFixed("a");
    OwnershipOfProper("a");
  }

  lemma InsideItself()
    ensures Inside("a", ["a/"])
  {
    hide Trim, Split, Ownership, Normalize, ToPosix, OutputPath, ProperPath;
    Letters();
    PlainPath();
    ProperNormalizes("a");
    PosixIdentity("a");
    DirectoryTrim();
    OwnershipOfProper("a/");
    assert Located("a") == "a";
    assert DropLast("a/") == "a";
    assert InsideOne("a", ["a/"][0]);
  }

  lemma DirectoryTrim()
    ensures Trim("a/") == "a/"
  {
    hide Trim;
    assert "a/"[0] == 'a' && "a/"[|"a/"| - 1] == '/';
  }

  lemma OneOwned(owned: string, stored: string)
    requires OwnedPath(owned) == Ok(stored)
    ensures NormalizeOwned([owned]) == Some([stored])
  {
    hide OwnedPath;
    MapOne(OwnedOption, owned);
    SortOne(stored, TextLe);
  }

  lemma OneItem(owned: string, stored: string, output: Declaration, key: Identity)
    requires OwnedPath(owned) == Ok(stored) && NormalizeOutputs([output], key) == Some([output])
    requires output == TEXT_OUTPUT || (output == ARTIFACT_OUTPUT && Inside("a", [stored]))
    ensures NormalizeItem(ItemWith(owned, output), PARENT, key) == Some(ItemWith(stored, output))
  {
    hide OwnedPath, NormalizeOutputs, NormalizeList, NormalizeOwned, Trim, Inside;
    Letters();
    OneOwned(owned, stored);
    TextOutputs(key);
    var it := ItemWith(stored, output);
    assert ARTIFACT != "text" by { assert |ARTIFACT| == 17; }
    assert PARENT.outputs[0] == ARTIFACT_OUTPUT && PARENT.outputs[1] == TEXT_OUTPUT && PARENT.criteria[0] == CRITERION;
    assert Typed([CRITERION]) == Typed([CRITERION][1..]) == [] by { assert [CRITERION][1..] == []; }
    assert WithinParent(it.outputs, PARENT.outputs) && WithinParent(it.criteria, PARENT.criteria);
    assert EvidenceMatches(it.criteria, it.evidence) && OutputsOwned(it.outputs, it.owned);
  }

  lemma OnePlan(owned: string, stored: string, output: Declaration, key: Identity)
    requires NormalizeItem(ItemWith(owned, output), PARENT, key) == Some(ItemWith(stored, output))
    ensures BuildBody(PlanWith(owned, output), key) == Some(PlanWith(stored, output))
  {
    hide NormalizeItem;
    var it := ItemWith(stored, output);
    MapOne(Normalizer(PARENT, key), ItemWith(owned, output));
    SortOne(it, IdLe);
    MapOne(IdOf, it);
    MapOne(AgentOf, it);
    TextOutputs(key);
    hide NormalizeList;
    assert FinishItems([it]) == Some([it]);
  }

  // ---------------------------------------------------------------- the two plans

  /** An accepted plan that owns `a/`, outputs `a`, and is a fixed point of building. */
  lemma PlainPlanIsStable(key: Identity)
    ensures BuildBody(PlanWith("a", ARTIFACT_OUTPUT), key) == Some(PlanWith("a/", ARTIFACT_OUTPUT))
    ensures BuildBody(PlanWith("a/", ARTIFACT_OUTPUT), key) == Some(PlanWith("a/", ARTIFACT_OUTPUT))
  {
    hide OwnedPath, NormalizeOutputs, NormalizeItem, BuildBody, Inside;
    PlainPath();
    DirectoryPath();
    InsideItself();
    ArtifactOutputs(key);
    OneItem("a", "a/", ARTIFACT_OUTPUT, key);
    OnePlan("a", "a/", ARTIFACT_OUTPUT, key);
    OneItem("a/", "a/", ARTIFACT_OUTPUT, key);
    OnePlan("a/", "a/", ARTIFACT_OUTPUT, key);
  }

  lemma DirectoryPath()
    ensures OwnedPath("a/") == Ok("a/")
  {
    hide OutputPath, Ownership, Trim, ProperPath;
    PlainPath();
    DirectoryTrim();
    ProperIsFixed("a/");
    OwnershipOfProper("a/");
  }

  /** An accepted plan whose stored form is refused: building is not idempotent. */
  lemma ClimbingPlanIsUnreadable(key: Identity)
    ensures BuildBody(PlanWith("./ ../a", TEXT_OUTPUT), key) == Some(PlanWith("../a/", TEXT_OUTPUT))
    ensures BuildBody(PlanWith("../a/", TEXT_OUTPUT), key) == None
  {
    hide OwnedPath, NormalizeOutputs, NormalizeItem;
    ClimbingOwnedPathIsAccepted();
    TextOutputs(key);
    OneItem("./ ../a", "../a/", TEXT_OUTPUT, key);
    OnePlan("./ ../a", "../a/", TEXT_OUTPUT, key);
    UnreadableItem(key);
    MapOne(Normalizer(PARENT, key), ItemWith("../a/", TEXT_OUTPUT));
  }

  lemma UnreadableItem(key: Identity)
    ensures NormalizeItem(ItemWith("../a/", TEXT_OUTPUT), PARENT, key) == None
  {
    hide OwnedPath, NormalizeOutputs, NormalizeList, Trim, ItemAccepted;
    ClimbingOwnedPathIsAccepted();
    MapOne(OwnedOption, "../a/");
  }
}
