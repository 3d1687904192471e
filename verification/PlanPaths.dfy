/**
 The paths an allocation plan may name, and what reading a stored plan back does to them.
 */
module PlanPaths {
  import opened Basics
  import opened WorkspacePaths

  datatype PathRefusal =
    | EmptyPath | HasNul | HasBackslash | Escapes | Absolute | Hidden | NotAChild

  predicate HasSegment(p: string, seg: string) {
    exists k :: 0 <= k < |Split(p)| && Split(p)[k] == seg
  }

  predicate HasHidden(p: string) {
    exists k :: 0 <= k < |Split(p)| && Split(p)[k] != "" && Split(p)[k][0] == '.'
  }

  /** `normalizeWorkspaceRelativePath`. */
  function RelativePath(input: string): Result<string, PathRefusal> {
    var raw := Trim(input);
    if raw != "" && raw[0] == SLASH then Err(Absolute)
    else
      var normalized := Normalize(ToPosix(raw));
      var relative := if normalized == "." then "" else normalized;
      if HasSegment(relative, "..") then Err(Escapes)
      else if HasHidden(relative) then Err(Hidden)
      else Ok(relative)
  }

  /** `normalizeExpectedOutputPath`. */
  function OutputPath(value: string): Result<string, PathRefusal> {
    var raw := Trim(value);
    if raw == "" then Err(EmptyPath)
    else if '\0' in raw then Err(HasNul)
    else if '\\' in raw then Err(HasBackslash)
    else if HasSegment(raw, "..") then Err(Escapes)
    else
      var relative :- RelativePath(raw);
      if relative == "" then Err(NotAChild) else Ok(relative)
  }

  /** `normalizeOwnedOutputPath`. */
  function OwnedPath(value: string): Result<string, PathRefusal> {
    var relative :- OutputPath(value);
    Ok(Ownership(relative))
  }

  // ---------------------------------------------------------------- accepted paths are normal forms

  /** Segments no plan path may be without: real, visible and never climbing. */
  predicate Proper(segs: seq<string>) {
    && |segs| > 0 && Clean(segs) && Plain(segs)
    && forall k :: 0 <= k < |segs| ==> segs[k][0] != '.'
  }

  /** Proper segments, joined, with or without a trailing slash. */
  ghost predicate ProperPath(p: string) {
    && '\0' !in p && '\\' !in p
    && exists segs :: Proper(segs) && (p == Join(segs) || p == Join(segs) + "/")
  }

  lemma {:induction false} SplitJoined(segs: seq<string>)
    requires |segs| > 0 && Plain(segs)
    ensures Split(Join(segs)) == segs
  {
    if |segs| == 1 {
      SplitPlain(segs[0]);
    } else {
      SplitJoined(segs[1..]);
      SplitCons(segs[0], Join(segs[1..]));
    }
  }

  lemma {:induction false} SplitPlain(s: string)
    requires SLASH !in s
    ensures Split(s) == [s]
  {
    if s != "" {
      assert s[0] in s;
      SplitPlain(s[1..]);
      assert [s[0]] + s[1..] == s;
    }
  }

  lemma ProperSplit(p: string, segs: seq<string>)
    requires Proper(segs) && (p == Join(segs) || p == Join(segs) + "/")
    ensures Split(p) == segs || Split(p) == segs + [""]
    ensures !HasSegment(p, "..") && !HasHidden(p)
    ensures p != "" && p[0] != SLASH && p[0] != '.'
  {
    JoinFirst(segs);
    assert segs[0] != "" && segs[0][0] != '.';
    if p == Join(segs) {
      SplitJoined(segs);
    } else {
      SplitJoin(segs);
    }
  }

  lemma ProperNormalizes(p: string)
    requires ProperPath(p)
    ensures p != "" && Normalize(p) == p && Body(p) != "" && !HasSegment(p, "..") && !HasHidden(p)
  {
    var segs :| Proper(segs) && (p == Join(segs) || p == Join(segs) + "/");
    ProperSplit(p, segs);
    assert [] + segs == segs && segs + [] == segs;
    if Split(p) == segs { WalkKeeps([], segs, []); } else { WalkKeeps([], segs, [""]); }
    assert Body(p) == Join(segs);
    JoinFirst(segs);
    JoinLast(segs);
  }

  lemma PosixIdentity(p: string)
    requires '\\' !in p
    ensures ToPosix(p) == p
  {
  }

  /** Reading a proper path again changes nothing, unless its ends are white space. */
  lemma ProperIsFixed(p: string)
    requires ProperPath(p) && Trim(p) == p
    ensures OutputPath(p) == Ok(p)
  {
    hide Normalize, Split, Trim, ToPosix, Body, HasSegment, HasHidden;
    ProperNormalizes(p);
    PosixIdentity(p);
    ProperStarts(p);
  }

  lemma ProperStarts(p: string)
    requires ProperPath(p)
    ensures p != "" && p[0] != SLASH && p[0] != '.'
  {
    var segs :| Proper(segs) && (p == Join(segs) || p == Join(segs) + "/");
    ProperSplit(p, segs);
  }

  lemma DotSlashIsHidden()
    ensures HasHidden("./")
  {
    SplitCons(".", "");
    assert "." + "/" + "" == "./";
    assert Split("./")[0] == ".";
  }

  /** A normal form with no hidden segment has only proper ones. */
  lemma VisibleIsProper(y: string, segs: seq<string>)
    requires |segs| > 0 && Clean(segs) && Plain(segs) && (y == Join(segs) || y == Join(segs) + "/") && !HasHidden(y)
    ensures Proper(segs)
  {
    if y == Join(segs) { SplitJoined(segs); } else { SplitJoin(segs); }
    hide Split, Join;
    forall k | 0 <= k < |segs| ensures segs[k][0] != '.' {
      assert Split(y)[k] == segs[k] && segs[k] != "";
    }
  }

  /** What acceptance establishes about the trimmed input. */
  lemma AcceptedForm(value: string)
    requires OutputPath(value).Ok?
    ensures
      var raw, y := Trim(value), OutputPath(value).value;
      && raw != "" && raw[0] != SLASH && '\0' !in raw && '\\' !in raw
      && y == Normalize(raw) && Body(raw) != "" && !HasHidden(y) && !HasSegment(y, "..")
  {
    hide Body, Normalize, Trim, ToPosix, HasHidden, HasSegment;
    var raw := Trim(value);
    PosixIdentity(raw);
    TrimTwice(value);
    DotSlashIsHidden();
    NormalizeRelative(raw);
  }

  lemma NormalizeRelative(t: string)
    requires t != "" && t[0] != SLASH
    ensures Body(t) == "" <==> Normalize(t) == "." || Normalize(t) == "./"
  {
    BodyShape(t);
  }

  /** Whatever is accepted is proper. */
  lemma AcceptedIsProper(value: string)
    requires OutputPath(value).Ok?
    ensures ProperPath(OutputPath(value).value)
  {
    var raw, y := Trim(value), OutputPath(value).value;
    AcceptedForm(value);
    hide OutputPath, HasHidden, HasSegment, Trim, Split, Walk, Clean, Plain, Proper;
    BodyShape(raw);
    BodyLacks(raw, '\0');
    BodyLacks(raw, '\\');
    var segs := Walk([], Split(raw), false);
    VisibleIsProper(y, segs);
  }

  lemma TrimTwice(s: string)
    ensures Trim(Trim(s)) == Trim(s)
  {
    hide Trim, IsSpace;
  }

  // ---------------------------------------------------------------- reading back

  /** Each segment with one slash. */
  function Width(segs: seq<string>): nat {
    if segs == [] then 0 else |segs[0]| + 1 + Width(segs[1..])
  }

  lemma {:induction false} JoinWidth(segs: seq<string>)
    ensures |Join(segs)| == if segs == [] then 0 else Width(segs) - 1
  {
    if |segs| > 1 { JoinWidth(segs[1..]); }
  }

  lemma {:induction false} SplitWidth(s: string)
    ensures Width(Split(s)) == |s| + 1
  {
    if s != "" {
      SplitWidth(s[1..]);
      if s[0] == SLASH { assert ([""] + Split(s[1..]))[1..] == Split(s[1..]); }
    }
  }

  lemma {:induction false} WidthAppend(a: seq<string>, b: seq<string>)
    ensures Width(a + b) == Width(a) + Width(b)
  {
    if a == [] { assert a + b == b; }
    else {
      assert (a + b)[1..] == a[1..] + b;
      WidthAppend(a[1..], b);
    }
  }

  /** A walk keeps every segment or gets narrower. */
  lemma {:induction false} WalkShrinks(done: seq<string>, segs: seq<string>, absolute: bool)
    ensures Width(Walk(done, segs, absolute)) <= Width(done) + Width(segs)
    ensures Walk(done, segs, absolute) == done + segs
            || Width(Walk(done, segs, absolute)) < Width(done) + Width(segs)
    decreases |segs|
  {
    if segs == [] {
      assert done + segs == done;
    } else {
      var s, rest := segs[0], segs[1..];
      if done != [] {
        assert done == done[..|done| - 1] + [done[|done| - 1]];
        WidthAppend(done[..|done| - 1], [done[|done| - 1]]);
      }
      WidthAppend(done, [s]);
      assert done + segs == done + [s] + rest;
      if s == "" || s == "." { WalkShrinks(done, rest, absolute); }
      else if s == ".." {
        if done != [] && done[|done| - 1] != ".." { WalkShrinks(done[..|done| - 1], rest, absolute); }
        else if absolute { WalkShrinks(done, rest, absolute); }
        else { WalkShrinks(done + [".."], rest, absolute); }
      } else { WalkShrinks(done + [s], rest, absolute); }
    }
  }

  lemma {:induction false} WalkIgnoresTail(done: seq<string>, segs: seq<string>, absolute: bool)
    ensures Walk(done, segs + [""], absolute) == Walk(done, segs, absolute)
    decreases |segs|
  {
    var all := segs + [""];
    if segs == [] {
      assert all[1..] == [];
    } else {
      var s, rest := segs[0], segs[1..];
      assert all[0] == s && all[1..] == rest + [""];
      if s == "" || s == "." { WalkIgnoresTail(done, rest, absolute); }
      else if s == ".." {
        if done != [] && done[|done| - 1] != ".." { WalkIgnoresTail(done[..|done| - 1], rest, absolute); }
        else if absolute { WalkIgnoresTail(done, rest, absolute); }
        else { WalkIgnoresTail(done + [".."], rest, absolute); }
      } else { WalkIgnoresTail(done + [s], rest, absolute); }
    }
  }

  lemma {:induction false} JoinSplit(s: string)
    ensures Join(Split(s)) == s
  {
    if s != "" {
      var rest := Split(s[1..]);
      JoinSplit(s[1..]);
      assert s == [s[0]] + s[1..];
      if s[0] == SLASH {
        assert ([""] + rest)[1..] == rest;
        assert "" + "/" + Join(rest) == "/" + Join(rest);
      } else if |rest| > 1 {
        assert Split(s)[1..] == rest[1..];
        assert [s[0]] + rest[0] + "/" + Join(rest[1..]) == [s[0]] + (rest[0] + "/" + Join(rest[1..]));
      }
    }
  }

  lemma {:induction false} SplitTrailing(s: string)
    ensures Split(s + "/") == Split(s) + [""]
  {
    var all := s + "/";
    if s == "" {
      assert all[1..] == "";
      assert [""] + [""] == ["", ""];
    } else {
      SplitTrailing(s[1..]);
      assert all[0] == s[0] && all[1..] == s[1..] + "/";
    }
  }

  /** The body of a relative path is the path, or shorter. */
  lemma BodyShrinks(t: string)
    requires t == "" || t[0] != SLASH
    ensures Body(t) == t || |Body(t)| < |t|
  {
    var segs := Walk([], Split(t), false);
    SplitWidth(t);
    WalkShrinks([], Split(t), false);
    JoinWidth(segs);
    JoinSplit(t);
    assert [] + Split(t) == Split(t);
    if segs != Split(t) && segs == [] { JoinWidth(Split(t)); }
  }

  /** The body does not see a trailing slash. */
  lemma BodyOfDirectory(s: string)
    requires s != ""
    ensures Body(s + "/") == Body(s)
  {
    SplitTrailing(s);
    WalkIgnoresTail([], Split(s), s[0] == SLASH);
    assert (s + "/")[0] == s[0];
  }

  /** Normalizing a relative path leaves it alone or makes it shorter. */
  lemma NormalizeShrinks(t: string)
    requires t != "" && t[0] != SLASH && Body(t) != ""
    ensures Normalize(t) == t || |Normalize(t)| < |t|
  {
    hide Walk, Split, Join;
    if t[|t| - 1] == SLASH {
      var s := t[..|t| - 1];
      assert t == s + "/" && s != "" && s[0] == t[0];
      BodyOfDirectory(s);
      BodyShrinks(s);
    } else {
      BodyShrinks(t);
    }
  }

  /** An accepted path is its trimmed input, or shorter. */
  lemma AcceptedShrinks(value: string)
    requires OutputPath(value).Ok?
    ensures
      var raw, y := Trim(value), OutputPath(value).value;
      (y == raw || |y| < |raw|) && (raw[|raw| - 1] == SLASH ==> y[|y| - 1] == SLASH)
  {
    hide OutputPath, HasHidden, HasSegment, Trim, Body;
    AcceptedForm(value);
    NormalizeShrinks(Trim(value));
  }

  lemma OwnershipOfProper(y: string)
    requires ProperPath(y) && Trim(y) == y
    ensures Ownership(y) == if y[|y| - 1] == SLASH then y else y + "/"
  {
    hide Normalize, Split, Trim, ToPosix, Body, HasSegment, HasHidden, ProperPath, StripSlashes;
    ProperNormalizes(y);
    ProperLacks(y);
    PosixIdentity(y);
    ProperStarts(y);
  }

  lemma ClosedIsProper(y: string)
    requires ProperPath(y) && Trim(y) == y && y[|y| - 1] != SLASH
    ensures ProperPath(y + "/") && Trim(y + "/") == y + "/"
  {
    hide Trim, Proper, Join;
    SlashIsNoSpace();
    ProperStarts(y);
    var segs :| Proper(segs) && (y == Join(segs) || y == Join(segs) + "/");
    assert y == Join(segs);
    var z := y + "/";
    assert z == Join(segs) + "/" && z[0] == y[0] && z[|z| - 1] == SLASH;
  }

  // ---------------------------------------------------------------- when an owned path reads back

  /** Reading back an ownership form leaves it alone or makes it shorter. */
  lemma OwnedShrinks(z: string)
    requires z != "" && z[|z| - 1] == SLASH && OwnedPath(z).Ok?
    ensures |OwnedPath(z).value| <= |z|
    ensures OwnedPath(z).value != z ==> |OwnedPath(z).value| < |z|
    ensures OwnedPath(z).value == z ==> Trim(z) == z && OutputPath(z) == Ok(z)
  {
    hide OutputPath, Ownership, Trim, IsSpace;
    var rel := OutputPath(z).value;
    assert !IsSpace(SLASH) by { SlashIsNoSpace(); }
    AcceptedShrinks(z);
    AcceptedIsProper(z);
    OwnershipShrinks(rel);
    if |OwnedPath(z).value| == |z| {
      assert Trim(z) == z && rel == z;
      OwnershipOfProper(z);
    }
  }

  lemma SlashIsNoSpace()
    ensures !IsSpace(SLASH) && !IsSpace('.')
  {
  }

  /** The ownership form of a directory path is no longer than the path. */
  lemma OwnershipShrinks(y: string)
    requires ProperPath(y) && y != "" && y[|y| - 1] == SLASH
    ensures |Ownership(y)| <= |Trim(y)|
  {
    hide Trim, IsSpace, ToPosix, Body, Ownership;
    SlashIsNoSpace();
    PosixIdentity(y);
    OwnershipForm(y);
    var t := Trim(y);
    var s := t[..|t| - 1];
    assert t == s + "/";
    if s != "" {
      BodyOfDirectory(s);
      BodyNarrow(s);
    } else {
      assert t == "/";
      RootBody();
    }
  }

  lemma RootBody()
    ensures Body("/") == ""
  {
    SplitTrailing("");
    assert "" + "/" == "/";
    WalkIgnoresTail([], [""], true);
    assert [""] + [""] == ["", ""];
    assert [""][1..] == [];
  }

  /** A body is never longer than its path, absolute or not. */
  lemma BodyNarrow(t: string)
    ensures |Body(t)| <= |t|
  {
    var absolute := t != "" && t[0] == SLASH;
    SplitWidth(t);
    WalkShrinks([], Split(t), absolute);
    JoinWidth(Walk([], Split(t), absolute));
  }

  /** An accepted owned path reads back as itself if and only if it is not empty, does not start with
      white space and names nothing hidden: all of which its holder can see. */
  lemma OwnedReadsBackIff(value: string)
    requires OwnedPath(value).Ok?
    ensures
      var z := OwnedPath(value).value;
      OwnedPath(z) == Ok(z) <==> z != "" && Trim(z) == z && !HasHidden(z)
  {
    hide OutputPath, Ownership, Trim, HasHidden, HasSegment, Body;
    var z := OwnedPath(value).value;
    EmptyIsRefused();
    if z != "" {
      if OwnedPath(z) == Ok(z) {
        OwnedShrinks(z);
        AcceptedForm(z);
      }
      if Trim(z) == z && !HasHidden(z) {
        OwnedIsProper(value);
        ProperIsFixed(z);
        OwnershipOfProper(z);
      }
    }
  }

  lemma EmptyIsRefused()
    ensures OutputPath("") == Err(EmptyPath)
  {
  }

  lemma OwnedIsProper(value: string)
    requires OwnedPath(value).Ok? && OwnedPath(value).value != "" && !HasHidden(OwnedPath(value).value)
    ensures ProperPath(OwnedPath(value).value)
  {
    hide OutputPath, Ownership, Trim, HasHidden, HasSegment, Body, Normalize, Clean, Plain, Join, Proper, Split, Walk;
    var y, z := OutputPath(value).value, OwnedPath(value).value;
    AcceptedIsProper(value);
    PosixIdentity(y);
    TrimLacks(y, '\0');
    TrimLacks(y, '\\');
    OwnershipForm(y);
    DotSlashIsHidden();
    var t := Trim(y);
    BodyShape(t);
    BodyLacks(t, '\0');
    BodyLacks(t, '\\');
    BodyIsJoin(t);
    var segs := Walk([], Split(t), t != "" && t[0] == SLASH);
    VisibleIsProper(z, segs);
  }

  lemma BodyIsJoin(t: string)
    ensures Body(t) == Join(Walk([], Split(t), t != "" && t[0] == SLASH))
  {
  }

  // ---------------------------------------------------------------- when an output path reads back

  /** What a stored artifact output is: its declaration is trimmed before the path rule and after it. */
  function OutputRule(text: string): Option<string> {
    if Trim(text) == "" then None
    else
      match OutputPath(Trim(text))
      case Err(_) => None
      case Ok(y) => if Trim(y) == "" then None else Some(Trim(y))
  }

  /** Reading back a stored output leaves it alone or makes it shorter. */
  lemma OutputShrinks(t: string)
    requires Trim(t) == t && OutputRule(t).Some?
    ensures |OutputRule(t).value| <= |t|
    ensures OutputRule(t).value != t ==> |OutputRule(t).value| < |t|
    ensures OutputRule(t).value == t ==> OutputPath(t) == Ok(t)
  {
    hide OutputPath, Trim, IsSpace;
    AcceptedShrinks(t);
  }

  /** No two slashes in a row. */
  predicate NoDoubleSlash(s: string) {
    forall k :: 0 <= k < |s| - 1 ==> !(s[k] == SLASH && s[k + 1] == SLASH)
  }

  lemma {:induction false} JoinHasNoDouble(segs: seq<string>)
    requires Clean(segs) && Plain(segs)
    ensures NoDoubleSlash(Join(segs))
  {
    if |segs| > 1 {
      assert Clean(segs[1..]) && Plain(segs[1..]);
      JoinHasNoDouble(segs[1..]);
      JoinFirst(segs[1..]);
      var first, rest := segs[0], Join(segs[1..]);
      var all := first + "/" + rest;
      forall k | 0 <= k < |all| - 1 ensures !(all[k] == SLASH && all[k + 1] == SLASH) {
        if k < |first| { assert all[k] in first; }
        else if k > |first| { assert all[k] == rest[k - |first| - 1] && all[k + 1] == rest[k - |first|]; }
      }
    }
  }

  lemma ProperHasNoDouble(y: string)
    requires ProperPath(y)
    ensures NoDoubleSlash(y)
  {
    var segs :| Proper(segs) && (y == Join(segs) || y == Join(segs) + "/");
    JoinHasNoDouble(segs);
    JoinLast(segs);
  }

  /** Without a double slash only the first and the last segment can be empty. */
  lemma {:induction false} InnerSegments(s: string)
    requires NoDoubleSlash(s)
    ensures forall k :: 1 <= k < |Split(s)| - 1 ==> Split(s)[k] != ""
    ensures Split(s)[0] == "" ==> s == "" || s[0] == SLASH
  {
    if s != "" {
      var rest := s[1..];
      assert NoDoubleSlash(rest) by {
        assert forall k :: 0 <= k < |rest| ==> rest[k] == s[k + 1];
      }
      InnerSegments(rest);
      if s[0] == SLASH {
        assert rest != "" ==> rest[0] == s[1];
        assert rest == "" ==> Split(rest) == [""];
      }
    }
  }

  /** Visible segments without a double slash are a proper path. */
  lemma VisibleIsProperPath(t: string)
    requires t != "" && t[0] != SLASH && NoDoubleSlash(t) && !HasHidden(t) && '\0' !in t && '\\' !in t
    ensures ProperPath(t)
  {
    InnerSegments(t);
    JoinSplit(t);
    var all := Split(t);
    if all[|all| - 1] == "" {
      var segs := all[..|all| - 1];
      assert all == segs + [""] && |segs| > 0;
      JoinTrailing(segs);
      assert Proper(segs);
      assert t == Join(segs) + "/";
    } else {
      assert Proper(all);
    }
  }

  lemma {:induction false} JoinTrailing(segs: seq<string>)
    requires |segs| > 0
    ensures Join(segs + [""]) == Join(segs) + "/"
  {
    var all := segs + [""];
    if |segs| == 1 {
      assert all[1..] == [""];
      assert Join(all) == segs[0] + "/" + "";
    } else {
      JoinTrailing(segs[1..]);
      assert all[0] == segs[0] && all[1..] == segs[1..] + [""];
      assert segs[0] + "/" + (Join(segs[1..]) + "/") == segs[0] + "/" + Join(segs[1..]) + "/";
    }
  }

  lemma StoredOutputShape(value: string)
    requires OutputRule(value).Some?
    ensures
      var t := OutputRule(value).value;
      t != "" && Trim(t) == t && NoDoubleSlash(t) && '\0' !in t && '\\' !in t
  {
    hide OutputPath, Trim, IsSpace, ProperPath;
    var y := OutputPath(Trim(value)).value;
    AcceptedIsProper(Trim(value));
    ProperHasNoDouble(y);
    TrimTwice(y);
    ProperLacks(y);
    TrimLacks(y, '\0');
    TrimLacks(y, '\\');
    var i, j := TrimSlice(y);
    assert forall k :: 0 <= k < j - i ==> y[i..j][k] == y[i + k];
  }

  lemma ProperLacks(y: string)
    requires ProperPath(y)
    ensures '\0' !in y && '\\' !in y
  {
  }

  /** A stored output reads back as itself if and only if it neither starts with a slash nor names
      anything hidden: all of which its holder can see. */
  lemma OutputReadsBackIff(value: string)
    requires OutputRule(value).Some?
    ensures
      var t := OutputRule(value).value;
      OutputRule(t) == Some(t) <==> t[0] != SLASH && !HasHidden(t)
  {
    StoredOutputShape(value);
    hide OutputPath, Trim, IsSpace, HasHidden, HasSegment, NoDoubleSlash, Normalize, Body;
    var t := OutputRule(value).value;
    if OutputRule(t) == Some(t) {
      OutputShrinks(t);
      AcceptedForm(t);
    }
    if t[0] != SLASH && !HasHidden(t) {
      VisibleIsProperPath(t);
      ProperIsFixed(t);
    }
  }

  // ---------------------------------------------------------------- what a caller can check beforehand

  /** White space inside a plan path is harmless as long as no segment starts or ends with it. */
  predicate SegmentsTrimmed(value: string) {
    forall k :: 0 <= k < |Split(Trim(value))| ==> Trim(Split(Trim(value))[k]) == Split(Trim(value))[k]
  }

  lemma {:induction false} WalkTakes(done: seq<string>, segs: seq<string>, absolute: bool)
    ensures forall s :: s in Walk(done, segs, absolute) ==> s in done || s in segs
    decreases |segs|
  {
    if segs != [] {
      var s, rest := segs[0], segs[1..];
      if s == "" || s == "." { WalkTakes(done, rest, absolute); }
      else if s == ".." {
        if done != [] && done[|done| - 1] != ".." { WalkTakes(done[..|done| - 1], rest, absolute); }
        else if absolute { WalkTakes(done, rest, absolute); }
        else { WalkTakes(done + [".."], rest, absolute); }
      } else { WalkTakes(done + [s], rest, absolute); }
    }
  }

  lemma {:induction false} JoinEnds(segs: seq<string>)
    requires |segs| > 0 && (forall k :: 0 <= k < |segs| ==> segs[k] != "")
    ensures Join(segs) != ""
    ensures Join(segs)[0] == segs[0][0]
    ensures Join(segs)[|Join(segs)| - 1] == segs[|segs| - 1][|segs[|segs| - 1]| - 1]
  {
    if |segs| > 1 {
      var rest := segs[1..];
      JoinEnds(rest);
      assert rest[|rest| - 1] == segs[|segs| - 1];
      var head := segs[0] + "/";
      assert Join(segs) == head + Join(rest);
    }
  }

  lemma SegmentsKeepTheirEnds(raw: string)
    requires raw != "" && raw[0] != SLASH && Body(raw) != ""
    requires forall k :: 0 <= k < |Split(raw)| ==> Trim(Split(raw)[k]) == Split(raw)[k]
    ensures Trim(Body(raw)) == Body(raw)
  {
    hide Trim;
    BodyShape(raw);
    var segs := Walk([], Split(raw), false);
    WalkTakes([], Split(raw), false);
    JoinEnds(segs);
    hide Walk, Split, Clean, Join, Plain;
    assert segs[0] in segs && segs[|segs| - 1] in segs;
    assert Trim(segs[0]) == segs[0] && Trim(segs[|segs| - 1]) == segs[|segs| - 1];
  }

  lemma TrimmedRelative(value: string)
    requires OutputPath(value).Ok? && SegmentsTrimmed(value)
    ensures Trim(OutputPath(value).value) == OutputPath(value).value
  {
    hide OutputPath, Split, Trim, Body, HasHidden, HasSegment;
    var raw, y := Trim(value), OutputPath(value).value;
    AcceptedForm(value);
    SegmentsKeepTheirEnds(raw);
    assert y == Body(raw) || (y == Body(raw) + "/" && y[0] == Body(raw)[0] && y[|y| - 1] == SLASH);
  }

  /** The caller's own check: trimmed segments make both kinds of path read back unchanged. */
  lemma TrimmedSegmentsReadBack(value: string)
    requires OutputPath(value).Ok? && SegmentsTrimmed(value)
    ensures OutputPath(OutputPath(value).value) == OutputPath(value)
    ensures OwnedPath(value).Ok? && OwnedPath(OwnedPath(value).value) == OwnedPath(value)
  {
    hide OutputPath, SegmentsTrimmed, Trim, ProperPath, Ownership, IsSpace;
    TrimmedRelative(value);
    var y := OutputPath(value).value;
    AcceptedIsProper(value);
    ProperIsFixed(y);
    ProperStarts(y);
    OwnershipOfProper(y);
    var z := Ownership(y);
    if y[|y| - 1] != SLASH { ClosedIsProper(y); }
    ProperIsFixed(z);
    OwnershipOfProper(z);
  }

  // ---------------------------------------------------------------- what goes wrong otherwise

  lemma SpacedSegments()
    ensures Split("./ a") == [".", " a"] && Split(" a") == [" a"]
    ensures Split("./ ./ a") == [".", " .", " a"] && Split(" ./ a") == [" .", " a"]
  {
    hide Split;
    SplitPlain(" a");
    SplitCons(".", " a");
    SplitCons(" .", " a");
    SplitCons(".", " ./ a");
    assert "." + "/" + " a" == "./ a" && " ." + "/" + " a" == " ./ a" && "." + "/" + " ./ a" == "./ ./ a";
  }

  lemma OneSegment(b: string)
    requires b != "" && SLASH !in b && b != "." && b != ".."
    ensures Walk([], [b], false) == [b]
  {
    assert [b][1..] == [] && [] + [b] == [b];
  }

  /** A path whose walk leaves one visible segment. */
  lemma OneSegmentPath(value: string, raw: string, b: string)
    requires Trim(value) == raw && Trim(raw) == raw && raw != "" && raw[0] != SLASH && raw[|raw| - 1] != SLASH
    requires '\0' !in raw && '\\' !in raw && !HasSegment(raw, "..")
    requires b != "" && SLASH !in b && b[0] != '.' && Body(raw) == b
    ensures OutputPath(value) == Ok(b)
  {
    hide Trim, ToPosix, Body;
    PosixIdentity(raw);
    SplitPlain(b);
    assert Normalize(raw) == b;
    assert b != ".";
  }

  lemma SpacedBodies()
    ensures Body("./ a") == " a" && Body("./ ./ a") == " ./ a"
  {
    hide Split;
    SpacedSegments();
    OneSegment(" a");
    DotIsDropped([" a"]);
    var segs := [" .", " a"];
    DotIsDropped(segs);
    assert Clean(segs) && [] + segs == segs && segs + [] == segs;
    WalkKeeps([], segs, []);
    hide Walk;
    assert ["."] + [" a"] == [".", " a"] && ["."] + segs == [".", " .", " a"];
    assert segs[1..] == [" a"] && Join([" a"]) == " a" && Join(segs) == " ./ a";
    assert "./ a"[0] == '.' && "./ ./ a"[0] == '.';
  }

  lemma SpaceInFront(s: string)
    requires |s| > 1 && s[0] == ' ' && !IsSpace(s[1]) && !IsSpace(s[|s| - 1])
    ensures Trim(s) == s[1..]
  {
    var rest := s[1..];
    assert TrimStart(s) == TrimStart(rest);
    assert TrimStart(rest) == rest;
    hide TrimStart, IsSpace;
    assert rest[|rest| - 1] == s[|s| - 1];
    assert TrimEnd(rest) == rest;
  }

  lemma TwoSpacedSegments()
    ensures OutputPath("./ ./ a") == Ok(" ./ a")
  {
    hide Trim, Body, Walk, Split, ToPosix;
    SpacedSegments();
    SpacedBodies();
    var raw := "./ ./ a";
    assert Trim(raw) == raw;
    PosixIdentity(raw);
    assert Normalize(raw) == " ./ a";
    assert " ./ a" != ".";
  }

  /** A stored output with no white space at either end can still change when it is read back:
      `./ ./ a` is stored as `./ a`, and `./ a` reads back as `a`. */
  lemma SpacedOutputChanges()
    ensures OutputRule("./ ./ a") == Some("./ a") && OutputRule("./ a") == Some("a")
  {
    hide Trim, Body, Walk, OutputPath, Split;
    SpacedSegments();
    SpacedBodies();
    TwoSpacedSegments();
    assert Trim("./ ./ a") == "./ ./ a" && Trim("./ a") == "./ a";
    SpaceInFront(" a");
    SpaceInFront(" ./ a");
    assert " a"[1..] == "a" && " ./ a"[1..] == "./ a";
    OneSegmentPath("./ a", "./ a", " a");
  }

  lemma EmptySplit()
    ensures Split("") == [""]
  {
  }

  lemma ClimbingSegments()
    ensures Split("./ ../a") == [".", " ..", "a"] && Split(" ../a") == [" ..", "a"] && Split("../a") == ["..", "a"]
    ensures Split("../a/") == ["..", "a", ""]
  {
    hide Split;
    EmptySplit();
    SplitPlain("a");
    SplitCons("..", "a");
    SplitCons(" ..", "a");
    SplitCons(".", " ../a");
    SplitCons("a", "");
    SplitCons("..", "a/");
    assert ".." + "/" + "a" == "../a" && " .." + "/" + "a" == " ../a" && "." + "/" + " ../a" == "./ ../a";
    assert "a" + "/" + "" == "a/" && ".." + "/" + "a/" == "../a/";
  }

  lemma ClimbingBodies()
    ensures Body("./ ../a") == " ../a" && Body("../a") == "../a"
  {
    hide Split;
    ClimbingSegments();
    var segs := [" ..", "a"];
    var up := ["..", "a"];
    assert Clean(segs) && Clean(up);
    DotIsDropped(segs);
    assert ["."] + segs == [".", " ..", "a"];
    assert [] + segs == segs && segs + [] == segs && [] + up == up && up + [] == up;
    WalkKeeps([], segs, []);
    WalkKeeps([], up, []);
    hide Walk, Split;
    assert segs[1..] == ["a"] && up[1..] == ["a"];
    assert Join(["a"]) == "a";
    assert Join(segs) == " ../a" && Join(up) == "../a";
    assert "./ ../a"[0] == '.' && "../a"[0] == '.';
  }

  lemma ClimbingRelative()
    ensures OutputPath("./ ../a") == Ok(" ../a")
  {
    hide Trim, Body, Walk, Split, ToPosix;
    ClimbingSegments();
    ClimbingBodies();
    var raw := "./ ../a";
    assert Trim(raw) == raw;
    PosixIdentity(raw);
    assert Normalize(raw) == " ../a";
    assert " ../a" != ".";
  }

  /** The two normalizations of an owned path trim at different times: a segment that only looks like a
      climb while it has a space in front is accepted, and the plan holding it can never be read back. */
  lemma ClimbingOwnedPathIsAccepted()
    ensures OwnedPath("./ ../a") == Ok("../a/") && OwnedPath("../a/") == Err(Escapes)
  {
    hide Trim, Body, Walk, Split, ToPosix, OutputPath, Ownership;
    ClimbingRelative();
    ClimbingBodies();
    PosixIdentity(" ../a");
    SpaceInFront(" ../a");
    assert " ../a"[1..] == "../a";
    OwnershipForm(" ../a");
    assert "../a" + "/" == "../a/";
    ClimbRefused();
  }

  lemma ClimbRefused()
    ensures OutputPath("../a/") == Err(Escapes)
  {
    hide Trim, Body, Walk, Split;
    ClimbingSegments();
    assert Trim("../a/") == "../a/";
    assert Split("../a/")[0] == "..";
  }
}
