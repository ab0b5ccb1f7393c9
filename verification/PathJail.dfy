/** The lexical path jail: POSIX path normalization and the decision on a path, its roots and its forbidden parts. */
module PathJail {

  // ---- Normalization -------------------------------------------------------------------------------

  /** `split("/")`: never empty. */
  function Split(s: string): (r: seq<string>)
    ensures r != []
  {
    if s == "" then [""]
    else
      var rest := Split(s[1..]);
      if s[0] == '/' then [""] + rest else [[s[0]] + rest[0]] + rest[1..]
  }

  function Join(parts: seq<string>): string {
    if parts == [] then "" else if |parts| == 1 then parts[0] else parts[0] + ("/" + Join(parts[1..]))
  }

  const UP := ".."
  const HERE := "."

  /** One turn of the loop of `posixpath.normpath`. */
  function Push(done: seq<string>, part: string, absolute: bool): seq<string> {
    if part == "" || part == HERE then done
    else if part != UP || (!absolute && done == []) || (done != [] && done[|done| - 1] == UP) then done + [part]
    else if done != [] then done[..|done| - 1]
    else done
  }

  function Reduce(parts: seq<string>, absolute: bool): seq<string> {
    if parts == [] then [] else Push(Reduce(parts[..|parts| - 1], absolute), parts[|parts| - 1], absolute)
  }

  predicate IsAbsolute(path: string) { path != "" && path[0] == '/' }

  /** Leading slashes that survive: exactly two stay two, any other number becomes one. */
  function Slashes(path: string): string {
    if !IsAbsolute(path) then ""
    else if "//" <= path && !("///" <= path) then "//"
    else "/"
  }

  /** `posixpath.normpath`. */
  function Normal(path: string): string {
    var text := Slashes(path) + Join(Reduce(Split(path), IsAbsolute(path)));
    if text == "" then HERE else text
  }

  // ---- The decision --------------------------------------------------------------------------------

  datatype Verdict = Fine | Escape | OutsideRoots | Forbidden

  /** The string test of the code: equal, or a prefix followed by a separator. */
  predicate Under(path: string, base: string) { path == base || base + "/" <= path }

  predicate AnyUnder(path: string, bases: seq<string>) {
    exists i :: 0 <= i < |bases| && Under(path, Normal(bases[i]))
  }

  /** `classify_path`: the jail is tested before the forbidden parts. */
  function Classify(path: string, roots: seq<string>, forbidden: seq<string>): Verdict {
    if IsAbsolute(path) then Escape
    else if Under(Normal(path), UP) then Escape
    else if !AnyUnder(Normal(path), roots) then OutsideRoots
    else if AnyUnder(Normal(path), forbidden) then Forbidden
    else Fine
  }

  // ---- Split and Join ------------------------------------------------------------------------------

  ghost predicate IsPart(part: string) { '/' !in part }

  ghost predicate Parts(parts: seq<string>) { forall i :: 0 <= i < |parts| ==> IsPart(parts[i]) }

  lemma {:induction false} SplitGivesParts(s: string)
    ensures Parts(Split(s))
  {
    if s != "" { SplitGivesParts(s[1..]); }
  }

  lemma {:induction false} SplitPart(part: string)
    requires IsPart(part)
    ensures Split(part) == [part]
  {
    if part != "" {
      assert '/' !in part[1..];
      SplitPart(part[1..]);
      assert part == [part[0]] + part[1..];
    }
  }

  lemma {:induction false} SplitConcat(part: string, rest: string)
    requires IsPart(part)
    ensures Split(part + ("/" + rest)) == [part] + Split(rest)
  {
    var s := part + ("/" + rest);
    if part == "" {
      assert s[1..] == rest;
    } else {
      assert '/' !in part[1..];
      SplitConcat(part[1..], rest);
      assert s[1..] == part[1..] + ("/" + rest);
      assert part == [part[0]] + part[1..];
    }
  }

  lemma {:induction false} SplitJoin(parts: seq<string>)
    requires Parts(parts) && parts != []
    ensures Split(Join(parts)) == parts
  {
    if |parts| == 1 {
      SplitPart(parts[0]);
    } else {
      assert Parts(parts[1..]);
      SplitJoin(parts[1..]);
      SplitConcat(parts[0], Join(parts[1..]));
    }
  }

  /** The prefix test of the code is the prefix test on components, for any two strings. */
  lemma {:induction false} UnderIsSegmentwise(path: string, base: string)
    ensures Under(path, base) <==> Split(base) <= Split(path)
    decreases |base|
  {
    if base == "" {
      if path != "" && path[0] == '/' {
        assert "" + "/" <= path;
      } else if path != "" {
        assert Split(path)[0] != "";
      }
    } else if path == "" {
      assert base[0] == '/' ==> |Split(base)| >= 2;
      assert base[0] != '/' ==> Split(base)[0] != "";
    } else {
      UnderIsSegmentwise(path[1..], base[1..]);
      UnderTail(path, base);
      var p, b := Split(path[1..]), Split(base[1..]);
      if path[0] == base[0] {
        SegmentsTail(p, b, path[0]);
      } else {
        FirstPart(path);
        FirstPart(base);
      }
    }
  }

  lemma FirstPart(s: string)
    requires s != ""
    ensures if s[0] == '/' then Split(s)[0] == "" else Split(s)[0] != "" && Split(s)[0][0] == s[0]
  {
  }

  lemma UnderTail(path: string, base: string)
    requires path != "" && base != ""
    ensures Under(path, base) <==> path[0] == base[0] && Under(path[1..], base[1..])
  {
    assert path == [path[0]] + path[1..] && base == [base[0]] + base[1..];
    assert base + "/" == [base[0]] + (base[1..] + "/");
    if path[0] == base[0] && base[1..] + "/" <= path[1..] {
      assert path == [path[0]] + path[1..];
      assert base + "/" <= path;
    }
    if base + "/" <= path {
      assert (base + "/")[0] == path[0];
      assert (base + "/")[1..] == path[1..][..|base|];
    }
  }

  /** Putting one more character in front of both first components keeps the prefix test. */
  lemma SegmentsTail(p: seq<string>, b: seq<string>, c: char)
    requires p != [] && b != []
    ensures [""] + b <= [""] + p <==> b <= p
    ensures [[c] + b[0]] + b[1..] <= [[c] + p[0]] + p[1..] <==> b <= p
  {
    assert b == [b[0]] + b[1..] && p == [p[0]] + p[1..];
    assert ([c] + b[0])[1..] == b[0] && ([c] + p[0])[1..] == p[0];
    assert ([""] + b)[1..] == b && ([""] + p)[1..] == p;
    var x, y := [[c] + b[0]] + b[1..], [[c] + p[0]] + p[1..];
    assert x[1..] == b[1..] && y[1..] == p[1..];
    if b <= p {
      assert x <= y;
      assert [""] + b <= [""] + p;
    }
    if x <= y {
      assert x[0] == y[0] && b[0] == p[0];
      forall i | 0 <= i < |b| ensures b[i] == p[i] {
        if i > 0 { assert x[i] == y[i]; }
      }
    }
    if [""] + b <= [""] + p {
      forall i | 0 <= i < |b| ensures b[i] == p[i] {
        assert ([""] + b)[i + 1] == ([""] + p)[i + 1];
      }
    }
  }

  // ---- Reduced components --------------------------------------------------------------------------

  /** What `Reduce` leaves: real components, with every ".." in front, and none behind a leading slash. */
  ghost predicate Reduced(parts: seq<string>, absolute: bool) {
    && (forall i :: 0 <= i < |parts| ==> IsPart(parts[i]) && parts[i] != "" && parts[i] != HERE)
    && (forall i, j :: 0 <= i < j < |parts| && parts[j] == UP ==> parts[i] == UP)
    && (absolute ==> UP !in parts)
  }

  lemma {:induction false} ReduceIsReduced(parts: seq<string>, absolute: bool)
    requires Parts(parts)
    ensures Reduced(Reduce(parts, absolute), absolute)
  {
    if parts != [] {
      var n := |parts| - 1;
      ReduceIsReduced(parts[..n], absolute);
    }
  }

  lemma ReducedTurn(parts: seq<string>, absolute: bool)
    requires Reduced(parts, absolute) && parts != []
    ensures var n := |parts| - 1; Reduced(parts[..n], absolute) && Push(parts[..n], parts[n], absolute) == parts
  {
    var n := |parts| - 1;
    assert parts == parts[..n] + [parts[n]];
    assert n > 0 && parts[n] == UP ==> parts[n - 1] == UP;
    assert parts[n] in parts;
  }

  lemma {:induction false} ReduceAgain(parts: seq<string>, absolute: bool)
    requires Reduced(parts, absolute)
    ensures Reduce(parts, absolute) == parts
  {
    if parts != [] {
      hide Reduced, Push;
      ReducedTurn(parts, absolute);
      ReduceAgain(parts[..|parts| - 1], absolute);
    }
  }

  /** Empty components in front change nothing. */
  lemma {:induction false} ReduceSkipsEmpty(parts: seq<string>, absolute: bool)
    ensures Reduce([""] + parts, absolute) == Reduce(parts, absolute)
  {
    if parts == [] {
      assert ([""] + parts)[..0] == [];
    } else {
      var n := |parts| - 1;
      ReduceSkipsEmpty(parts[..n], absolute);
      assert ([""] + parts)[..n + 1] == [""] + parts[..n];
    }
  }

  // ---- The walk ------------------------------------------------------------------------------------

  /** How deep below the start a walk along the components ends. */
  function Depth(parts: seq<string>): int {
    if parts == [] then 0
    else
      var part := parts[|parts| - 1];
      Depth(parts[..|parts| - 1]) + if part == "" || part == HERE then 0 else if part == UP then -1 else 1
  }

  /** No prefix of the walk rises above the start. */
  ghost predicate NeverAbove(parts: seq<string>) {
    forall n :: 0 <= n <= |parts| ==> Depth(parts[..n]) >= 0
  }

  lemma NeverAboveStep(parts: seq<string>)
    requires parts != []
    ensures NeverAbove(parts) <==> NeverAbove(parts[..|parts| - 1]) && Depth(parts) >= 0
  {
    hide Depth;
    var m := |parts| - 1;
    assert parts[..|parts|] == parts;
    forall n | 0 <= n <= m ensures parts[..m][..n] == parts[..n] {}
  }

  /** A relative walk rises above its start exactly when its reduced form begins with "..". */
  lemma {:induction false} ReducedWalk(parts: seq<string>)
    requires Parts(parts)
    ensures var r := Reduce(parts, false);
      if NeverAbove(parts) then |r| == Depth(parts) && UP !in r else r != [] && r[0] == UP
  {
    if parts != [] {
      var n := |parts| - 1;
      ReducedWalk(parts[..n]);
      NeverAboveStep(parts);
      ReduceIsReduced(parts[..n], false);
      var r := Reduce(parts[..n], false);
      if NeverAbove(parts[..n]) && r != [] { assert r[|r| - 1] in r; }
    }
  }

  // ---- Main results --------------------------------------------------------------------------------

  /** The components of the normal form of a relative path; the start itself counts as one component ".". */
  lemma NormalParts(path: string)
    requires !IsAbsolute(path)
    ensures var r := Reduce(Split(path), false);
      Split(Normal(path)) == if r == [] then [HERE] else r
  {
    var r := Reduce(Split(path), false);
    SplitGivesParts(path);
    ReduceIsReduced(Split(path), false);
    assert Slashes(path) + Join(r) == Join(r);
    if r == [] {
      SplitPart(HERE);
    } else {
      SplitJoin(r);
      assert Join(r) != "" by {
        assert Split("") == [""];
        assert r[0] != "";
      }
    }
  }

  /** `path` is `base` or below it, component by component. */
  ghost predicate AtOrBelow(path: string, base: string) {
    Split(Normal(base)) <= Split(Normal(path))
  }

  lemma AnyUnderMeans(path: string, bases: seq<string>)
    ensures AnyUnder(Normal(path), bases) <==> exists i :: 0 <= i < |bases| && AtOrBelow(path, bases[i])
  {
    forall i | 0 <= i < |bases| ensures Under(Normal(path), Normal(bases[i])) <==> AtOrBelow(path, bases[i]) {
      UnderIsSegmentwise(Normal(path), Normal(bases[i]));
    }
  }

  lemma EscapesIff(path: string)
    requires !IsAbsolute(path)
    ensures Under(Normal(path), UP) <==> !NeverAbove(Split(path))
  {
    hide NeverAbove, Normal;
    var r := Reduce(Split(path), false);
    SplitGivesParts(path);
    ReducedWalk(Split(path));
    NormalParts(path);
    UnderIsSegmentwise(Normal(path), UP);
    SplitPart(UP);
    if r == [] {
      assert Split(Normal(path))[0] == HERE;
    } else if r[0] == UP {
      assert [UP] <= r;
    } else {
      assert Split(Normal(path))[0] != UP;
    }
  }

  ghost predicate Inside(path: string) { !IsAbsolute(path) && NeverAbove(Split(path)) }

  ghost predicate BelowAny(path: string, bases: seq<string>) {
    exists i :: 0 <= i < |bases| && AtOrBelow(path, bases[i])
  }

  /**
   * The four answers. The jail opens exactly for a relative path whose walk never rises above the start, that is at
   * or below some root, and at or below no forbidden path; an escape wins over the roots, the roots over the rest.
   */
  lemma VerdictIff(path: string, roots: seq<string>, forbidden: seq<string>)
    ensures var v := Classify(path, roots, forbidden);
      && (v == Fine <==> Inside(path) && BelowAny(path, roots) && !BelowAny(path, forbidden))
      && (v == Escape <==> !Inside(path))
      && (v == OutsideRoots <==> Inside(path) && !BelowAny(path, roots))
      && (v == Forbidden <==> Inside(path) && BelowAny(path, roots) && BelowAny(path, forbidden))
  {
    hide NeverAbove, Normal, Under, AtOrBelow, AnyUnder;
    if !IsAbsolute(path) {
      EscapesIff(path);
      AnyUnderMeans(path, roots);
      AnyUnderMeans(path, forbidden);
    }
  }

  /** The root "." is one component: it admits the start itself and nothing below it. */
  lemma DotAdmitsOnlyDot(path: string, base: string)
    requires !IsAbsolute(path) && Normal(base) == HERE
    ensures AtOrBelow(path, base) <==> Normal(path) == HERE
  {
    hide Normal;
    SplitPart(HERE);
    NormalParts(path);
    SplitGivesParts(path);
    ReduceIsReduced(Split(path), false);
    if AtOrBelow(path, base) {
      assert Split(Normal(path))[0] == HERE;
      JoinSplit(Normal(path));
    }
  }

  lemma {:induction false} JoinSplit(s: string)
    ensures Join(Split(s)) == s
  {
    if s != "" {
      JoinSplit(s[1..]);
      var rest := Split(s[1..]);
      if s[0] == '/' {
        assert ([""] + rest)[1..] == rest;
      } else {
        assert ([[s[0]] + rest[0]] + rest[1..])[1..] == rest[1..];
        assert Join(Split(s)) == [s[0]] + Join(rest);
      }
      assert s == [s[0]] + s[1..];
    }
  }

  // ---- Normalization keeps the place ---------------------------------------------------------------

  /** One step of a lexical walk over a stack of directories; at the root ".." stays. */
  function StepTo(stack: seq<string>, part: string): seq<string> {
    if part == "" || part == HERE then stack
    else if part == UP then (if stack == [] then [] else stack[..|stack| - 1])
    else stack + [part]
  }

  function WalkFrom(stack: seq<string>, parts: seq<string>): seq<string> {
    if parts == [] then stack else StepTo(WalkFrom(stack, parts[..|parts| - 1]), parts[|parts| - 1])
  }

  lemma WalkOneMore(stack: seq<string>, parts: seq<string>, part: string)
    ensures WalkFrom(stack, parts + [part]) == StepTo(WalkFrom(stack, parts), part)
  {
    assert (parts + [part])[..|parts|] == parts;
  }

  /** Pushing a component onto reduced ones leads to the same place as walking it. */
  lemma PushKeepsPlace(stack: seq<string>, done: seq<string>, part: string, absolute: bool)
    requires Reduced(done, absolute) && IsPart(part) && (absolute ==> stack == [])
    ensures WalkFrom(stack, Push(done, part, absolute)) == StepTo(WalkFrom(stack, done), part)
  {
    hide WalkFrom;
    WalkOneMore(stack, done, part);
    if done == [] {
      WalkNothing(stack);
    } else {
      PopKeepsPlace(stack, done, absolute);
    }
  }

  /** Walking back undoes the last component, unless that is itself a step back. */
  lemma PopKeepsPlace(stack: seq<string>, done: seq<string>, absolute: bool)
    requires Reduced(done, absolute) && done != []
    ensures done[|done| - 1] != UP ==> WalkFrom(stack, done[..|done| - 1]) == StepTo(WalkFrom(stack, done), UP)
  {
    hide WalkFrom;
    var m := |done| - 1;
    assert done == done[..m] + [done[m]];
    WalkOneMore(stack, done[..m], done[m]);
  }

  /** Reducing the components leads to the same place: from anywhere, or from the root for an absolute path. */
  lemma {:induction false} ReduceKeepsPlace(stack: seq<string>, parts: seq<string>, absolute: bool)
    requires Parts(parts) && (absolute ==> stack == [])
    ensures WalkFrom(stack, Reduce(parts, absolute)) == WalkFrom(stack, parts)
  {
    if parts != [] {
      hide Push, StepTo, Reduced;
      var n := |parts| - 1;
      ReduceKeepsPlace(stack, parts[..n], absolute);
      ReduceIsReduced(parts[..n], absolute);
      PushKeepsPlace(stack, Reduce(parts[..n], absolute), parts[n], absolute);
    }
  }

  lemma WalkNothing(stack: seq<string>)
    ensures WalkFrom(stack, []) == stack
  {
  }

  /** Walking the normal form of a relative path ends where walking the path ends, from every directory. */
  lemma NormalKeepsPlace(stack: seq<string>, path: string)
    requires !IsAbsolute(path)
    ensures WalkFrom(stack, Split(Normal(path))) == WalkFrom(stack, Split(path))
  {
    hide Normal;
    SplitGivesParts(path);
    NormalParts(path);
    ReduceKeepsPlace(stack, Split(path), false);
    WalkNothing(stack);
    WalkOneMore(stack, [], HERE);
    assert [] + [HERE] == [HERE];
  }

  // ---- The jail on directories ---------------------------------------------------------------------

  /** The directory a relative path leads to, as the names passed on the way down from the start. */
  function Place(path: string): seq<string> { WalkFrom([], Split(path)) }

  /** Reduced components without ".." are the names themselves. */
  lemma {:induction false} WalkDown(parts: seq<string>)
    requires Reduced(parts, false) && UP !in parts
    ensures WalkFrom([], parts) == parts
  {
    if parts != [] {
      var n := |parts| - 1;
      WalkDown(parts[..n]);
      assert parts[n] in parts && parts == parts[..n] + [parts[n]];
    }
  }

  lemma PlaceIsReduced(path: string)
    requires Inside(path)
    ensures var r := Reduce(Split(path), false);
      && Place(path) == r && Reduced(r, false) && UP !in r && HERE !in r
      && Split(Normal(path)) == if r == [] then [HERE] else r
  {
    hide Normal, NeverAbove, WalkFrom, Reduce;
    var r := Reduce(Split(path), false);
    SplitGivesParts(path);
    ReducedWalk(Split(path));
    ReduceIsReduced(Split(path), false);
    WalkDown(r);
    ReduceKeepsPlace([], Split(path), false);
    NormalParts(path);
  }

  /** `path` leads into the directory of `base`; the start itself is the one directory that holds only itself. */
  ghost predicate LeadsInto(path: string, base: string) {
    Inside(base) && if Place(base) == [] then Place(path) == [] else Place(base) <= Place(path)
  }

  /** A base that is absolute or leads above the start has nothing inside below it. */
  lemma OutsideHoldsNothing(path: string, base: string)
    requires Inside(path) && !Inside(base)
    ensures !AtOrBelow(path, base)
  {
    hide Normal, NeverAbove, Reduce, Place;
    PlaceIsReduced(path);
    if IsAbsolute(base) {
      NormalIsIdempotent(base);
      FirstPart(Normal(base));
    } else {
      SplitGivesParts(base);
      ReducedWalk(Split(base));
      NormalParts(base);
    }
  }

  /** The one component "." of the start is not a name of any directory. */
  lemma PrefixOfPlace(b: seq<string>, p: seq<string>)
    requires HERE !in b && HERE !in p
    ensures (if b == [] then [HERE] else b) <= (if p == [] then [HERE] else p) <==> if b == [] then p == [] else b <= p
  {
    if b != [] { assert b[0] in b; }
    if p != [] { assert p[0] in p; }
  }

  /** The string test on normal forms, read on directories: for a path that stays inside, and any base. */
  lemma BelowIffLeadsInto(path: string, base: string)
    requires Inside(path)
    ensures AtOrBelow(path, base) <==> LeadsInto(path, base)
  {
    hide Normal, Inside, Reduce, Place;
    PlaceIsReduced(path);
    if Inside(base) {
      PlaceIsReduced(base);
      PrefixOfPlace(Place(base), Place(path));
    } else {
      OutsideHoldsNothing(path, base);
    }
  }

  /** The jail on directories: a path passes if and only if it stays inside, in some root and in no forbidden place. */
  lemma FineIffInPlace(path: string, roots: seq<string>, forbidden: seq<string>)
    ensures Classify(path, roots, forbidden) == Fine <==>
              && Inside(path)
              && (exists i :: 0 <= i < |roots| && LeadsInto(path, roots[i]))
              && forall i :: 0 <= i < |forbidden| ==> !LeadsInto(path, forbidden[i])
  {
    hide Inside, AtOrBelow, LeadsInto, Classify;
    VerdictIff(path, roots, forbidden);
    if Inside(path) {
      forall base: string ensures AtOrBelow(path, base) <==> LeadsInto(path, base) {
        BelowIffLeadsInto(path, base);
      }
    }
  }

  /** Exactly two leading slashes survive as two, any other number as one. */
  lemma LeadingSlashes(path: string)
    requires IsAbsolute(path)
    ensures "/" <= Normal(path) && !("///" <= Normal(path))
    ensures "//" <= Normal(path) <==> "//" <= path && !("///" <= path)
  {
    var parts := Reduce(Split(path), true);
    var text, front := Join(parts), Slashes(path);
    SplitGivesParts(path);
    ReduceIsReduced(Split(path), true);
    hide Reduce, Split;
    if parts != [] {
      assert parts[0][0] in parts[0];
      assert text != "" && text[0] == parts[0][0];
    }
    hide Join, Reduced;
    assert text == "" || text[0] != '/';
    assert |front + text| > |front| ==> (front + text)[|front|] == text[0];
    assert front == "/" || front == "//";
  }

  /** Walking the normal form of an absolute path from the root ends where walking the path ends. */
  lemma AbsoluteKeepsPlace(path: string)
    requires IsAbsolute(path)
    ensures WalkFrom([], Split(Normal(path))) == WalkFrom([], Split(path))
  {
    hide Normal;
    NormalIsIdempotent(path);
    SplitGivesParts(path);
    SplitGivesParts(Normal(path));
    ReduceKeepsPlace([], Split(path), true);
    ReduceKeepsPlace([], Split(Normal(path)), true);
    SameReduction(path);
  }

  lemma SameReduction(path: string)
    requires IsAbsolute(path)
    ensures Reduce(Split(Normal(path)), true) == Reduce(Split(path), true)
  {
    SplitGivesParts(path);
    ReduceIsReduced(Split(path), true);
    ReduceSlashed(path, Reduce(Split(path), true));
  }

  // ---- Idempotence ---------------------------------------------------------------------------------

  lemma SplitSlash(s: string)
    ensures Split("/" + s) == [""] + Split(s)
  {
    SplitConcat("", s);
    assert "" + ("/" + s) == "/" + s;
  }

  /** The surviving slashes are read back as they are. */
  lemma SlashesKept(path: string, parts: seq<string>)
    requires IsAbsolute(path) && Reduced(parts, true)
    ensures Slashes(Slashes(path) + Join(parts)) == Slashes(path) && IsAbsolute(Slashes(path) + Join(parts))
  {
    var text := Slashes(path) + Join(parts);
    if parts != [] {
      SplitJoin(parts);
      assert Join(parts) != "" && Join(parts)[0] == parts[0][0];
      assert parts[0][0] in parts[0];
    }
    if Slashes(path) == "//" {
      assert "//" <= text;
      assert |text| > 2 ==> text[2] != '/';
    } else {
      assert |text| > 1 ==> text[1] != '/';
    }
  }

  lemma ReduceSlashed(path: string, parts: seq<string>)
    requires IsAbsolute(path) && Reduced(parts, true)
    ensures Reduce(Split(Slashes(path) + Join(parts)), true) == parts
  {
    var text := Join(parts);
    ReduceSkipsEmpty(Split(text), true);
    ReduceSkipsEmpty([""] + Split(text), true);
    SplitSlash(text);
    SplitSlash("/" + text);
    assert "//" + text == "/" + ("/" + text);
    if parts == [] {
      assert Split(text) == [""];
      assert Reduce([""], true) == Push(Reduce([""][..0], true), "", true);
    } else {
      SplitJoin(parts);
      ReduceAgain(parts, true);
    }
  }

  /** Normalizing twice is normalizing once. */
  lemma NormalIsIdempotent(path: string)
    ensures Normal(Normal(path)) == Normal(path) && IsAbsolute(Normal(path)) == IsAbsolute(path)
  {
    var absolute := IsAbsolute(path);
    var r := Reduce(Split(path), absolute);
    SplitGivesParts(path);
    ReduceIsReduced(Split(path), absolute);
    if absolute {
      SlashesKept(path, r);
      ReduceSlashed(path, r);
    } else {
      NormalParts(path);
      JoinSplit(Normal(path));
      if r == [] {
        assert Reduce([HERE], false) == Push(Reduce([HERE][..0], false), HERE, false);
      } else {
        ReduceAgain(r, false);
        assert r[0][0] in r[0];
        FirstPart(Normal(path));
      }
    }
  }

  /** The answer is the same for a path and for its normal form. */
  lemma NormalizedFirst(path: string, roots: seq<string>, forbidden: seq<string>)
    ensures Classify(Normal(path), roots, forbidden) == Classify(path, roots, forbidden)
  {
    hide Normal;
    NormalIsIdempotent(path);
  }
}
