/**
 Lexical workspace paths: POSIX normalization, ownership forms and containment.
 */
module WorkspacePaths {
  const SLASH := '/'

  // ---------------------------------------------------------------- segments

  /** `split('/')`: never empty. */
  function Split(s: string): (segs: seq<string>)
    ensures |segs| >= 1
    ensures forall k :: 0 <= k < |segs| ==> SLASH !in segs[k]
  {
    if s == "" then [""]
    else if s[0] == SLASH then [""] + Split(s[1..])
    else
      var rest := Split(s[1..]);
      [[s[0]] + rest[0]] + rest[1..]
  }

  function Join(segs: seq<string>): string {
    if |segs| == 0 then ""
    else if |segs| == 1 then segs[0]
    else segs[0] + "/" + Join(segs[1..])
  }

  /** Node's segment walk: drop empty and `.`, let `..` pop, keep leading `..` only when relative. */
  function Walk(done: seq<string>, segs: seq<string>, absolute: bool): (r: seq<string>)
    decreases |segs|
  {
    if segs == [] then done
    else
      var s, rest := segs[0], segs[1..];
      if s == "" || s == "." then Walk(done, rest, absolute)
      else if s == ".." then
        if done != [] && done[|done| - 1] != ".." then Walk(done[..|done| - 1], rest, absolute)
        else if absolute then Walk(done, rest, absolute)
        else Walk(done + [".."], rest, absolute)
      else Walk(done + [s], rest, absolute)
  }

  /** The joined segments of a path. */
  function Body(p: string): string {
    Join(Walk([], Split(p), p != "" && p[0] == SLASH))
  }

  /** `path.posix.normalize`. */
  function Normalize(p: string): string {
    if p == "" then "."
    else
      var body, absolute, trailing := Body(p), p[0] == SLASH, p[|p| - 1] == SLASH;
      if body == "" then if absolute then "/" else if trailing then "./" else "."
      else
        var closed := if trailing then body + "/" else body;
        if absolute then "/" + closed else closed
  }

  // ---------------------------------------------------------------- trimming

  /** ECMAScript white space and line terminators. */
  predicate IsSpace(c: char) {
    var n := c as int;
    || 9 <= n <= 13 || n == 32 || n == 160 || n == 5760 || 8192 <= n <= 8202
    || n == 8232 || n == 8233 || n == 8239 || n == 8287 || n == 12288 || n == 65279
  }

  function TrimStart(s: string): (r: string)
    ensures |r| <= |s| && (|r| == |s| ==> r == s)
    ensures r == "" || !IsSpace(r[0])
    ensures s == "" || !IsSpace(s[0]) ==> r == s
    ensures r != "" ==> r[|r| - 1] == s[|s| - 1]
  {
    if s != "" && IsSpace(s[0]) then TrimStart(s[1..]) else s
  }

  function TrimEnd(s: string): (r: string)
    ensures |r| <= |s| && (|r| == |s| ==> r == s)
    ensures r == "" || !IsSpace(r[|r| - 1])
    ensures s == "" || !IsSpace(s[|s| - 1]) ==> r == s
    ensures r != "" ==> r[0] == s[0]
  {
    if s != "" && IsSpace(s[|s| - 1]) then TrimEnd(s[..|s| - 1]) else s
  }

  function Trim(s: string): (r: string)
    ensures |r| <= |s| && (|r| == |s| ==> r == s)
    ensures r == s <==> s == "" || (!IsSpace(s[0]) && !IsSpace(s[|s| - 1]))
    ensures r == "" || (!IsSpace(r[0]) && !IsSpace(r[|r| - 1]))
    ensures s != "" && !IsSpace(s[|s| - 1]) ==> r != "" && r[|r| - 1] == s[|s| - 1]
  {
    var a := TrimStart(s);
    assert s != "" && !IsSpace(s[|s| - 1]) ==> a != "" by { if s != "" && !IsSpace(s[|s| - 1]) { StartKeepsEnd(s); } }
    TrimEnd(a)
  }

  lemma {:induction false} StartKeepsEnd(s: string)
    requires s != "" && !IsSpace(s[|s| - 1])
    ensures TrimStart(s) != ""
  {
    if IsSpace(s[0]) {
      assert |s| > 1;
      StartKeepsEnd(s[1..]);
    }
  }

  /** What trimming leaves is a slice. */
  lemma {:induction false} TrimStartSlice(s: string) returns (i: nat)
    ensures i <= |s| && TrimStart(s) == s[i..]
  {
    if s != "" && IsSpace(s[0]) {
      var k := TrimStartSlice(s[1..]);
      i := k + 1;
    } else {
      i := 0;
    }
  }

  lemma {:induction false} TrimEndSlice(s: string) returns (j: nat)
    ensures j <= |s| && TrimEnd(s) == s[..j]
  {
    if s != "" && IsSpace(s[|s| - 1]) {
      j := TrimEndSlice(s[..|s| - 1]);
    } else {
      j := |s|;
    }
  }

  lemma TrimSlice(s: string) returns (i: nat, j: nat)
    ensures i <= j <= |s| && Trim(s) == s[i..j]
  {
    i := TrimStartSlice(s);
    var k := TrimEndSlice(s[i..]);
    j := i + k;
    hide IsSpace, TrimStart, TrimEnd;
  }

  function ToPosix(s: string): (r: string)
    ensures |r| == |s|
    ensures forall k :: 0 <= k < |s| ==> r[k] == if s[k] == '\\' then '/' else s[k]
  {
    seq(|s|, k requires 0 <= k < |s| => if s[k] == '\\' then '/' else s[k])
  }

  function StripSlashes(s: string): (r: string)
    ensures |r| <= |s|
    ensures r == "" || r[0] != SLASH
    ensures s == "" || s[0] != SLASH ==> r == s
  {
    if s != "" && s[0] == SLASH then StripSlashes(s[1..]) else s
  }

  // ---------------------------------------------------------------- ownership

  /** `normalizeWorkspaceOwnershipPath`. */
  function Ownership(p: string): (r: string)
    ensures r == "" || r[|r| - 1] == SLASH
  {
    var normalized := Normalize(Trim(ToPosix(p)));
    AsDirectory(if normalized == "." then "" else StripSlashes(normalized))
  }

  function AsDirectory(clean: string): (r: string)
    ensures r == "" || r[|r| - 1] == SLASH
  {
    if clean == "" || clean[|clean| - 1] == SLASH then clean else clean + "/"
  }

  /** The candidate side of `isPathInsideOwnedOutputPaths`. */
  function Located(p: string): string {
    StripSlashes(Normalize(Trim(ToPosix(p))))
  }

  predicate StartsWith(s: string, prefix: string) {
    prefix <= s
  }

  function DropLast(s: string): string {
    if s == "" then "" else s[..|s| - 1]
  }

  /** Inside one owned path. */
  predicate InsideOne(p: string, owned: string) {
    var o := Ownership(owned);
    Located(p) == DropLast(o) || StartsWith(Located(p), o)
  }

  /** `isPathInsideOwnedOutputPaths`. */
  predicate Inside(p: string, owned: seq<string>) {
    exists k :: 0 <= k < |owned| && InsideOne(p, owned[k])
  }

  /** `workspaceOwnershipPathsOverlap`. */
  predicate Overlap(left: string, right: string) {
    var l, r := Ownership(left), Ownership(right);
    l == r || StartsWith(l, r) || StartsWith(r, l)
  }

  // ---------------------------------------------------------------- the shape of normal forms

  predicate Plain(segs: seq<string>) {
    forall k :: 0 <= k < |segs| ==> SLASH !in segs[k]
  }

  /** What a walk leaves: real segments, with `..` only at the front. */
  predicate Clean(segs: seq<string>) {
    && (forall k :: 0 <= k < |segs| ==> segs[k] != "" && segs[k] != ".")
    && (forall j, k :: 0 <= j < k < |segs| && segs[k] == ".." ==> segs[j] == "..")
  }

  lemma {:induction false} SplitCons(a: string, rest: string)
    requires SLASH !in a
    ensures Split(a + "/" + rest) == [a] + Split(rest)
  {
    if a == "" {
      assert a + "/" + rest == "/" + rest;
      assert ("/" + rest)[1..] == rest;
    } else {
      SplitCons(a[1..], rest);
      var all := a + "/" + rest;
      assert all[0] == a[0] && a[0] in a && all[1..] == a[1..] + "/" + rest;
      assert [a[0]] + a[1..] == a;
    }
  }

  lemma {:induction false} SplitJoin(segs: seq<string>)
    requires |segs| > 0 && Plain(segs)
    ensures Split(Join(segs) + "/") == segs + [""]
  {
    if |segs| == 1 {
      SplitCons(segs[0], "");
      assert segs[0] + "/" + "" == segs[0] + "/";
    } else {
      var first, rest := segs[0], Join(segs[1..]);
      SplitJoin(segs[1..]);
      SplitCons(first, rest + "/");
      assert Join(segs) == first + "/" + rest;
      assert first + "/" + rest + "/" == first + "/" + (rest + "/");
      assert segs + [""] == [first] + (segs[1..] + [""]);
    }
  }

  lemma {:induction false} WalkClean(done: seq<string>, segs: seq<string>, absolute: bool)
    requires Clean(done) && Plain(done) && Plain(segs)
    ensures Clean(Walk(done, segs, absolute)) && Plain(Walk(done, segs, absolute))
    decreases |segs|
  {
    if segs != [] {
      var s, rest := segs[0], segs[1..];
      if s == "" || s == "." { WalkClean(done, rest, absolute); }
      else if s == ".." {
        if done != [] && done[|done| - 1] != ".." { WalkClean(done[..|done| - 1], rest, absolute); }
        else if absolute { WalkClean(done, rest, absolute); }
        else { AllDots(done); WalkClean(done + [".."], rest, absolute); }
      } else { WalkClean(done + [s], rest, absolute); }
    }
  }

  lemma AllDots(done: seq<string>)
    requires Clean(done) && (done == [] || done[|done| - 1] == "..")
    ensures Clean(done + [".."])
  {
  }

  /** A relative walk over a clean list changes nothing. */
  lemma {:induction false} WalkKeeps(done: seq<string>, segs: seq<string>, tail: seq<string>)
    requires Clean(done + segs) && (tail == [] || tail == [""])
    ensures Walk(done, segs + tail, false) == done + segs
    decreases |segs|
  {
    if segs == [] {
      assert segs + tail == tail;
      if tail != [] { assert tail[1..] == []; }
    } else {
      var all := segs + tail;
      assert all[0] == segs[0] && all[1..] == segs[1..] + tail;
      assert (done + segs)[|done|] == segs[0];
      assert done + segs == done + [segs[0]] + segs[1..];
      if segs[0] == ".." && done != [] { assert (done + segs)[|done| - 1] == done[|done| - 1]; }
      WalkKeeps(done + [segs[0]], segs[1..], tail);
    }
  }

  predicate NoBackslash(s: string) {
    '\\' !in s
  }

  lemma {:induction false} SplitLacks(s: string, c: char)
    requires c !in s
    ensures forall k :: 0 <= k < |Split(s)| ==> c !in Split(s)[k]
  {
    if s != "" { SplitLacks(s[1..], c); }
  }

  lemma {:induction false} WalkLacks(done: seq<string>, segs: seq<string>, absolute: bool, c: char)
    requires c != '.'
    requires forall k :: 0 <= k < |done| ==> c !in done[k]
    requires forall k :: 0 <= k < |segs| ==> c !in segs[k]
    ensures forall k :: 0 <= k < |Walk(done, segs, absolute)| ==> c !in Walk(done, segs, absolute)[k]
    decreases |segs|
  {
    if segs != [] {
      var s, rest := segs[0], segs[1..];
      if s == "" || s == "." { WalkLacks(done, rest, absolute, c); }
      else if s == ".." {
        if done != [] && done[|done| - 1] != ".." { WalkLacks(done[..|done| - 1], rest, absolute, c); }
        else if absolute { WalkLacks(done, rest, absolute, c); }
        else { WalkLacks(done + [".."], rest, absolute, c); }
      } else { WalkLacks(done + [s], rest, absolute, c); }
    }
  }

  lemma {:induction false} JoinLacks(segs: seq<string>, c: char)
    requires c != SLASH && forall k :: 0 <= k < |segs| ==> c !in segs[k]
    ensures c !in Join(segs)
  {
    if |segs| > 1 { JoinLacks(segs[1..], c); }
  }

  /** Normalization invents no character but `.` and `/`. */
  lemma BodyLacks(t: string, c: char)
    requires c != '.' && c != SLASH && c !in t
    ensures c !in Body(t)
  {
    var absolute := t != "" && t[0] == SLASH;
    SplitLacks(t, c);
    WalkLacks([], Split(t), absolute, c);
    JoinLacks(Walk([], Split(t), absolute), c);
  }

  /** The three shapes of an ownership form: the whole workspace, `./`, or clean segments. */
  ghost predicate OwnershipShape(o: string) {
    || o == "" || o == "./"
    || (exists segs :: |segs| > 0 && Clean(segs) && Plain(segs) && NoBackslash(Join(segs)) && o == Join(segs) + "/")
  }

  lemma JoinFirst(segs: seq<string>)
    requires |segs| > 0 && Clean(segs) && Plain(segs)
    ensures Join(segs) != "" && Join(segs)[0] != SLASH
  {
    assert segs[0] != "";
    assert segs[0][0] in segs[0];
  }

  lemma {:induction false} JoinLast(segs: seq<string>)
    requires |segs| > 0 && Clean(segs) && Plain(segs)
    ensures Join(segs) != "" && Join(segs)[|Join(segs)| - 1] != SLASH
  {
    var last := segs[|segs| - 1];
    assert last != "";
    if |segs| == 1 {
      assert last[|last| - 1] in last;
    } else {
      assert Clean(segs[1..]);
      JoinLast(segs[1..]);
    }
  }

  lemma BodyShape(t: string)
    ensures
      var segs := Walk([], Split(t), t != "" && t[0] == SLASH);
      && Clean(segs) && Plain(segs) && (NoBackslash(t) ==> NoBackslash(Body(t)))
      && (segs == [] <==> Body(t) == "") && Body(t) != "."
      && (Body(t) != "" ==> Body(t)[0] != SLASH && Body(t)[|Body(t)| - 1] != SLASH)
  {
    var absolute := t != "" && t[0] == SLASH;
    var segs := Walk([], Split(t), absolute);
    WalkClean([], Split(t), absolute);
    if NoBackslash(t) { BodyLacks(t, '\\'); }
    if segs != [] {
      JoinFirst(segs);
      JoinLast(segs);
      JoinNotDot(segs);
    }
  }

  lemma JoinNotDot(segs: seq<string>)
    requires |segs| > 0 && Clean(segs)
    ensures Join(segs) != "."
  {
    assert segs[0] != "" && segs[0] != ".";
    if |segs| > 1 { assert "/" in [Join(segs)[|segs[0]|..|segs[0]| + 1]]; }
  }

  lemma StripRoot()
    ensures StripSlashes("/") == ""
  {
    assert "/"[1..] == "";
  }

  lemma StripOne(x: string)
    requires x != "" && x[0] != SLASH
    ensures StripSlashes("/" + x) == x
  {
    assert ("/" + x)[1..] == x;
  }

  /** Normalizing and stripping leaves the body, with the path's own trailing slash. */
  function Stripped(t: string): string
    requires t != ""
  {
    var trailing := t[|t| - 1] == SLASH;
    if Body(t) != "" then if trailing then Body(t) + "/" else Body(t)
    else if t[0] == SLASH then "" else if trailing then "./" else "."
  }

  lemma LocatedForm(t: string)
    requires t != ""
    ensures StripSlashes(Normalize(t)) == Stripped(t)
    ensures Normalize(t) == "." <==> Stripped(t) == "."
  {
    BodyShape(t);
    hide Body, Clean, Plain, Walk, Split, StripSlashes;
    if Body(t) == "" {
      StripRoot();
    } else {
      var closed := if t[|t| - 1] == SLASH then Body(t) + "/" else Body(t);
      assert closed[0] == Body(t)[0];
      StripOne(closed);
    }
  }

  lemma TrimLacks(s: string, c: char)
    requires c !in s
    ensures c !in Trim(s)
  {
    hide Trim;
    var i, j := TrimSlice(s);
  }

  lemma NormalizeEmpty()
    ensures Normalize("") == "."
  {
  }

  lemma OwnershipForm(p: string)
    ensures
      var t := Trim(ToPosix(p));
      Ownership(p) ==
        if t == "" then ""
        else if Body(t) != "" then Body(t) + "/"
        else if t[0] != SLASH && t[|t| - 1] == SLASH then "./" else ""
  {
    hide Body, Trim, ToPosix, StripSlashes, Normalize, Walk, Split, Clean, Plain;
    var t := Trim(ToPosix(p));
    NormalizeEmpty();
    if t != "" {
      LocatedForm(t);
      BodyShape(t);
    }
  }

  lemma OwnershipHasShape(p: string)
    ensures OwnershipShape(Ownership(p))
  {
    var t := Trim(ToPosix(p));
    OwnershipForm(p);
    TrimLacks(ToPosix(p), '\\');
    BodyShape(t);
    hide Walk, Split, Clean, Plain, Normalize, Trim, ToPosix, Ownership, Join;
  }

  lemma DotIsDropped(segs: seq<string>)
    ensures Walk([], ["."] + segs, false) == Walk([], segs, false)
  {
    assert (["."] + segs)[1..] == segs;
  }

  /** `./` in front of a path with this shape adds nothing to its body. */
  lemma DotBody(segs: seq<string>)
    requires |segs| > 0 && Clean(segs) && Plain(segs)
    ensures Body("./" + (Join(segs) + "/")) == Join(segs)
  {
    var o := Join(segs) + "/";
    SplitJoin(segs);
    SplitCons(".", o);
    assert "." + "/" + o == "./" + o;
    WalkKeeps([], segs, [""]);
    assert [] + segs == segs;
    DotIsDropped(segs + [""]);
    assert ("./" + o)[0] == '.';
    hide Walk, Split, Join;
  }

  lemma DotDotSlash()
    ensures Body("././") == ""
  {
    SplitCons(".", "./");
    SplitCons(".", "");
    assert "." + "/" + "" == "./" && "." + "/" + "./" == "././";
    assert Split("./") == [".", ""];
    DotIsDropped([".", ""]);
    DotIsDropped([""]);
    assert ["."] + [""] == [".", ""] && ["."] + [".", ""] == [".", ".", ""];
    assert [""][1..] == [];
    assert Walk([], [""], false) == [];
  }

  lemma LocatedDotForm(o: string)
    requires o != "" && o[|o| - 1] == SLASH && NoBackslash(o)
    ensures Located("./" + o) == Stripped("./" + o)
  {
    hide Stripped, Normalize, Trim, ToPosix;
    var w := "./" + o;
    assert w[0] == '.' && w[|w| - 1] == SLASH;
    assert ToPosix(w) == w;
    assert Trim(w) == w;
    LocatedForm(w);
  }

  /** Every non-empty ownership form is itself a place: `./` in front of it survives normalization. */
  lemma FormIsLocated(o: string)
    requires OwnershipShape(o) && o != ""
    ensures Located("./" + o) == o
  {
    hide Located, Walk, Split, Body;
    var w := "./" + o;
    assert w[0] == '.' && w[|w| - 1] == o[|o| - 1];
    if o == "./" {
      DotDotSlash();
      assert w == "././";
      LocatedDotForm(o);
    } else {
      var segs :| |segs| > 0 && Clean(segs) && Plain(segs) && NoBackslash(Join(segs)) && o == Join(segs) + "/";
      DotBody(segs);
      JoinFirst(segs);
      hide Clean, Plain, Join;
      LocatedDotForm(o);
    }
  }

  lemma Comparable(q: string, a: string, b: string)
    requires a <= q && b <= q
    ensures a <= b || b <= a
  {
    if |a| <= |b| { assert a == b[..|a|]; } else { assert b == a[..|b|]; }
  }

  lemma InsideExtends(p: string, owned: string)
    requires InsideOne(p, owned)
    ensures Ownership(owned) <= Located(p) + "/"
  {
    hide Located, Ownership;
    var o, q := Ownership(owned), Located(p) + "/";
    if o != "" {
      if Located(p) == DropLast(o) {
        assert o == o[..|o| - 1] + [o[|o| - 1]];
      } else {
        assert q[..|o|] == Located(p)[..|o|];
      }
    }
  }

  /** Two owned paths overlap exactly when some path lies inside both. */
  lemma OverlapIff(left: string, right: string)
    ensures Overlap(left, right) <==> exists p :: InsideOne(p, left) && InsideOne(p, right)
  {
    hide Located, Ownership;
    if p :| InsideOne(p, left) && InsideOne(p, right) {
      InsideExtends(p, left);
      InsideExtends(p, right);
      Comparable(Located(p) + "/", Ownership(left), Ownership(right));
    }
    if Overlap(left, right) {
      var longer := if Ownership(right) <= Ownership(left) then left else right;
      OwnershipHasShape(longer);
      var o := Ownership(longer);
      if o == "" {
        assert InsideOne("x", left) && InsideOne("x", right);
      } else {
        FormIsLocated(o);
        assert InsideOne("./" + o, left) && InsideOne("./" + o, right);
      }
    }
  }
}
