/** Where the front-end build is written (web_vite/scripts/addon-path.mjs):
    Blender's per-user extension folder on Windows, the project's own
    `dist` folder otherwise, or a directory named by the environment; and
    whether the chosen directory lies outside the project (an "add-on path").

    Paths are strings. `path.resolve` is modelled the way Node.js does it:
    the arguments are applied left to right from the working directory; an
    absolute argument starts again from its root; the text is cut at the
    separators, empty and `.` segments vanish, and `..` drops the last name
    (never above the root). The result is the root followed by the
    remaining names joined with the platform's separator. */
module AddonPath {
  import opened Common
  import opened Text

  /** `process.platform`, as far as the script distinguishes it. */
  datatype Platform = Posix | Win32

  /** The separator `path.resolve` joins with. */
  function Separator(p: Platform): char {
    if p == Win32 then '\\' else '/'
  }

  predicate IsSeparator(p: Platform, c: char) {
    c == '/' || (p == Win32 && c == '\\')
  }

  /** `path.isAbsolute`: a leading separator, or on Windows a drive root such as `C:\`. */
  predicate IsAbsolute(p: Platform, s: string) {
    (|s| > 0 && IsSeparator(p, s[0])) ||
    (p == Win32 && |s| > 2 && IsAlpha(s[0]) && s[1] == ':' && IsSeparator(p, s[2]))
  }

  // ---------------------------------------------------------------------
  // Segments

  /** A path's text cut at every separator (`"a//b/"` gives `["a", "", "b", ""]`). */
  function Split(p: Platform, s: string): (r: seq<string>)
    ensures |r| > 0
    decreases |s|
  {
    if |s| == 0 then [""]
    else
      var rest := Split(p, s[1..]);
      if IsSeparator(p, s[0]) then [""] + rest else Extend(s[0], rest)
  }

  /** The first segment with one more character in front. */
  function Extend(c: char, segs: seq<string>): (r: seq<string>)
    requires |segs| > 0
    ensures |r| == |segs|
  {
    [[c] + segs[0]] + segs[1..]
  }

  lemma ExtendAppend(c: char, u: seq<string>, v: seq<string>)
    requires |u| > 0
    ensures Extend(c, u + v) == Extend(c, u) + v
  {
    assert (u + v)[0] == u[0];
    assert (u + v)[1..] == u[1..] + v;
  }

  predicate NoSeparator(p: Platform, s: string) {
    forall i :: 0 <= i < |s| ==> !IsSeparator(p, s[i])
  }

  /** A segment that stays in a resolved path: not empty, not `.` or `..`, no separator. */
  predicate IsName(p: Platform, s: string) {
    |s| > 0 && s != "." && s != ".." && NoSeparator(p, s)
  }

  predicate AllNames(p: Platform, segs: seq<string>) {
    forall i :: 0 <= i < |segs| ==> IsName(p, segs[i])
  }

  /** No segment of a split holds a separator. */
  lemma {:induction false} SplitPieces(p: Platform, s: string)
    ensures forall i :: 0 <= i < |Split(p, s)| ==> NoSeparator(p, Split(p, s)[i])
    decreases |s|
  {
    if |s| > 0 {
      SplitPieces(p, s[1..]);
      var rest := Split(p, s[1..]);
      if !IsSeparator(p, s[0]) {
        var head := [s[0]] + rest[0];
        assert forall k :: 0 < k < |head| ==> head[k] == rest[0][k - 1];
        assert NoSeparator(p, head);
        assert Split(p, s) == [head] + rest[1..];
      }
    }
  }

  /** Text without a separator is one segment. */
  lemma {:induction false} SplitName(p: Platform, s: string)
    requires NoSeparator(p, s)
    ensures Split(p, s) == [s]
    decreases |s|
  {
    if |s| > 0 {
      SplitName(p, s[1..]);
      assert [s[0]] + s[1..] == s;
    }
  }

  /** Cutting at a separator splits the segments there. */
  lemma {:induction false} SplitAt(p: Platform, a: string, c: char, b: string)
    requires IsSeparator(p, c)
    ensures Split(p, a + [c] + b) == Split(p, a) + Split(p, b)
    decreases |a|
  {
    if |a| == 0 {
      assert a + [c] + b == [c] + b;
      assert ([c] + b)[1..] == b;
    } else {
      var s := a + [c] + b;
      assert s[0] == a[0];
      assert s[1..] == a[1..] + [c] + b;
      SplitAt(p, a[1..], c, b);
      if !IsSeparator(p, a[0]) {
        ExtendAppend(a[0], Split(p, a[1..]), Split(p, b));
      }
    }
  }

  /** Every segment, each preceded by `sep`. */
  function JoinedFrom(sep: char, segs: seq<string>): string
    decreases |segs|
  {
    if |segs| == 0 then "" else [sep] + segs[0] + JoinedFrom(sep, segs[1..])
  }

  /** The segments with `sep` between them. */
  function Join(sep: char, segs: seq<string>): string {
    if |segs| == 0 then "" else segs[0] + JoinedFrom(sep, segs[1..])
  }

  lemma {:induction false} JoinedFromAppend(sep: char, a: seq<string>, b: seq<string>)
    ensures JoinedFrom(sep, a + b) == JoinedFrom(sep, a) + JoinedFrom(sep, b)
    decreases |a|
  {
    if |a| == 0 {
      assert a + b == b;
    } else {
      assert (a + b)[0] == a[0];
      assert (a + b)[1..] == a[1..] + b;
      JoinedFromAppend(sep, a[1..], b);
    }
  }

  /** Joining with one more segment at the end. */
  lemma JoinSnoc(sep: char, init: seq<string>, x: string)
    ensures Join(sep, init + [x]) == Join(sep, init) + (if |init| > 0 then [sep] else "") + x
  {
    if |init| == 0 {
      assert init + [x] == [x];
    } else {
      assert (init + [x])[1..] == init[1..] + [x];
      JoinedFromAppend(sep, init[1..], [x]);
      assert JoinedFrom(sep, [x]) == [sep] + x;
    }
  }

  /** Names joined with the separator cut back into the same names. */
  lemma {:induction false} SplitJoin(p: Platform, segs: seq<string>)
    requires |segs| > 0 && AllNames(p, segs)
    ensures Split(p, Join(Separator(p), segs)) == segs
    decreases |segs|
  {
    var sep := Separator(p);
    SplitName(p, segs[0]);
    if |segs| == 1 {
      assert Join(sep, segs) == segs[0];
    } else {
      var tail := segs[1..];
      assert JoinedFrom(sep, tail) == [sep] + Join(sep, tail);
      assert Join(sep, segs) == segs[0] + [sep] + Join(sep, tail);
      SplitAt(p, segs[0], sep, Join(sep, tail));
      SplitJoin(p, tail);
      assert [segs[0]] + tail == segs;
    }
  }

  // ---------------------------------------------------------------------
  // Normalisation of the segments

  /** One segment of `path.resolve`'s normalisation: empty and `.` segments
      vanish, `..` drops the last name (there is nothing above the root),
      any other segment is appended. */
  function Step(names: seq<string>, seg: string): seq<string> {
    if seg == "" || seg == "." then names
    else if seg == ".." then (if |names| > 0 then names[..|names| - 1] else names)
    else names + [seg]
  }

  /** The segments applied to `names` one by one. */
  function Collapse(names: seq<string>, segs: seq<string>): seq<string>
    decreases |segs|
  {
    if |segs| == 0 then names else Collapse(Step(names, segs[0]), segs[1..])
  }

  lemma {:induction false} CollapseAppend(names: seq<string>, a: seq<string>, b: seq<string>)
    ensures Collapse(names, a + b) == Collapse(Collapse(names, a), b)
    decreases |a|
  {
    if |a| == 0 {
      assert a + b == b;
    } else {
      assert (a + b)[0] == a[0];
      assert (a + b)[1..] == a[1..] + b;
      CollapseAppend(Step(names, a[0]), a[1..], b);
    }
  }

  /** Plain names are appended as they are. */
  lemma {:induction false} CollapseNames(p: Platform, names: seq<string>, segs: seq<string>)
    requires AllNames(p, segs)
    ensures Collapse(names, segs) == names + segs
    decreases |segs|
  {
    if |segs| > 0 {
      CollapseNames(p, names + [segs[0]], segs[1..]);
      assert names + [segs[0]] + segs[1..] == names + segs;
    }
  }

  /** Without a `..` nothing already there is dropped: the segments only add names. */
  lemma {:induction false} CollapseWithoutParent(names: seq<string>, segs: seq<string>)
    requires forall i :: 0 <= i < |segs| ==> segs[i] != ".."
    ensures Collapse(names, segs) == names + Collapse([], segs)
    decreases |segs|
  {
    if |segs| > 0 {
      var s0 := segs[0];
      CollapseWithoutParent(Step(names, s0), segs[1..]);
      CollapseWithoutParent(Step([], s0), segs[1..]);
      assert Step(names, s0) == names + Step([], s0);
    }
  }

  /** Normalising segments without separators leaves only names. */
  lemma {:induction false} CollapseKeepsNames(p: Platform, names: seq<string>, segs: seq<string>)
    requires AllNames(p, names)
    requires forall i :: 0 <= i < |segs| ==> NoSeparator(p, segs[i])
    ensures AllNames(p, Collapse(names, segs))
    decreases |segs|
  {
    if |segs| > 0 {
      var next := Step(names, segs[0]);
      assert AllNames(p, next);
      CollapseKeepsNames(p, next, segs[1..]);
    }
  }

  // ---------------------------------------------------------------------
  // Resolution

  /** A resolved path: its root (`/`, or a drive root such as `C:\`) and its names. */
  datatype Resolved = Resolved(root: string, names: seq<string>)

  predicate IsRoot(p: Platform, root: string) {
    if p == Posix then root == "/"
    else |root| == 3 && IsAlpha(root[0]) && root[1] == ':' && root[2] == '\\'
  }

  predicate ValidResolved(p: Platform, r: Resolved) {
    IsRoot(p, r.root) && AllNames(p, r.names)
  }

  /** The text `path.resolve` returns: the root, then the names with the separator between them. */
  function Render(p: Platform, r: Resolved): string {
    r.root + Join(Separator(p), r.names)
  }

  /** How many characters of an absolute path are its root. */
  function RootLength(p: Platform, s: string): nat
    requires IsAbsolute(p, s)
  {
    if IsSeparator(p, s[0]) then 1 else 3
  }

  /** The root an absolute path names: `/`; on Windows the drive it names,
      or, for a path that starts with a separator, the drive resolved so far. */
  function RootOf(p: Platform, cur: Resolved, s: string): string
    requires IsAbsolute(p, s)
  {
    if p == Posix then "/" else if IsSeparator(p, s[0]) then cur.root else [s[0], ':', '\\']
  }

  /** One argument of `path.resolve` applied to the path resolved so far. */
  function ResolveStep(p: Platform, cur: Resolved, s: string): Resolved {
    if IsAbsolute(p, s) then Resolved(RootOf(p, cur, s), Collapse([], Split(p, s[RootLength(p, s)..])))
    else Resolved(cur.root, Collapse(cur.names, Split(p, s)))
  }

  /** `path.resolve(s1, …, sn)` from the working directory `cwd`. */
  function ResolvePaths(p: Platform, cwd: Resolved, paths: seq<string>): Resolved
    decreases |paths|
  {
    if |paths| == 0 then cwd else ResolvePaths(p, ResolveStep(p, cwd, paths[0]), paths[1..])
  }

  /** Resolution always gives a root and names. */
  lemma ResolveValid(p: Platform, cur: Resolved, s: string)
    requires ValidResolved(p, cur)
    ensures ValidResolved(p, ResolveStep(p, cur, s))
  {
    if IsAbsolute(p, s) {
      var body := s[RootLength(p, s)..];
      SplitPieces(p, body);
      CollapseKeepsNames(p, [], Split(p, body));
    } else {
      SplitPieces(p, s);
      CollapseKeepsNames(p, cur.names, Split(p, s));
    }
  }

  /** Resolving the text of a resolved path gives that path back. */
  lemma ResolveRendered(p: Platform, cur: Resolved, r: Resolved)
    requires ValidResolved(p, r)
    ensures ResolveStep(p, cur, Render(p, r)) == r
  {
    var s := Render(p, r);
    var body := Join(Separator(p), r.names);
    assert s == r.root + body;
    if p == Win32 {
      assert s[..3] == r.root;
      assert r.root == [r.root[0], ':', '\\'];
    }
    assert IsAbsolute(p, s);
    assert s[RootLength(p, s)..] == body;
    if |r.names| == 0 {
      assert body == "";
      assert Split(p, body) == [""];
      assert Collapse([], [""]) == Collapse([], []);
    } else {
      SplitJoin(p, r.names);
      CollapseNames(p, [], r.names);
    }
  }

  /** Names given one by one are appended below the path resolved so far. */
  lemma {:induction false} ResolveNames(p: Platform, cur: Resolved, names: seq<string>)
    requires AllNames(p, names)
    ensures ResolvePaths(p, cur, names) == Resolved(cur.root, cur.names + names)
    decreases |names|
  {
    if |names| > 0 {
      var n := names[0];
      assert !IsSeparator(p, n[0]);
      assert !IsAbsolute(p, n);
      SplitName(p, n);
      assert Collapse(cur.names, [n]) == Collapse(cur.names + [n], []);
      assert ResolveStep(p, cur, n) == Resolved(cur.root, cur.names + [n]);
      ResolveNames(p, Resolved(cur.root, cur.names + [n]), names[1..]);
      assert cur.names + [n] + names[1..] == cur.names + names;
    }
  }

  /** Text appended to an absolute path after a separator is resolved below it. */
  lemma ResolveBelow(p: Platform, cur: Resolved, root: string, sep: char, rest: string)
    requires IsAbsolute(p, root) && IsSeparator(p, sep)
    ensures var rr := ResolveStep(p, cur, root);
      ResolveStep(p, cur, root + [sep] + rest) == Resolved(rr.root, Collapse(rr.names, Split(p, rest)))
  {
    var s := root + [sep] + rest;
    assert s[0] == root[0];
    if |root| > 2 {
      assert s[1] == root[1] && s[2] == root[2];
    }
    assert IsAbsolute(p, s);
    var k := RootLength(p, root);
    assert RootLength(p, s) == k;
    assert s[k..] == root[k..] + [sep] + rest;
    SplitAt(p, root[k..], sep, rest);
    CollapseAppend([], Split(p, root[k..]), Split(p, rest));
  }

  /** More names make the text longer. */
  lemma RenderLonger(p: Platform, root: string, names: seq<string>, x: string)
    requires |x| > 0
    ensures |Render(p, Resolved(root, names + [x]))| > |Render(p, Resolved(root, names))|
  {
    JoinSnoc(Separator(p), names, x);
  }

  /** Names added below a path with at least one name: its text, the separator, the new names. */
  lemma RenderAppend(p: Platform, r: Resolved, more: seq<string>)
    requires |r.names| > 0
    ensures Render(p, Resolved(r.root, r.names + more)) == Render(p, r) + JoinedFrom(Separator(p), more)
  {
    assert (r.names + more)[0] == r.names[0];
    assert (r.names + more)[1..] == r.names[1..] + more;
    JoinedFromAppend(Separator(p), r.names[1..], more);
  }

  // ---------------------------------------------------------------------
  // The comparison

  /** One character of the replacements in `normalizeForComparison`: a
      backslash becomes a slash and an ASCII capital becomes small. */
  function NormalizeChar(c: char): (r: char)
    ensures r != '\\' && !IsUpper(r)
    ensures r == '/' <==> c == '/' || c == '\\'
  {
    if c == '\\' then '/' else LowerChar(c)
  }

  /** `replace(/\\/g, '/').toLowerCase()`: character by character, length kept. */
  function SlashesAndCase(s: string): (r: string)
    ensures |r| == |s|
    ensures forall i :: 0 <= i < |s| ==> r[i] == NormalizeChar(s[i])
  {
    MapSeq(NormalizeChar, s)
  }

  lemma SlashesAndCaseAppend(a: string, b: string)
    ensures SlashesAndCase(a + b) == SlashesAndCase(a) + SlashesAndCase(b)
  {
    var l, r := SlashesAndCase(a + b), SlashesAndCase(a) + SlashesAndCase(b);
    forall i | 0 <= i < |a + b| ensures l[i] == r[i] {
      if i < |a| {
        assert (a + b)[i] == a[i];
      } else {
        assert (a + b)[i] == b[i - |a|];
      }
    }
  }

  /** Two characters the replacements cannot tell apart: both slashes of
      either kind, or the same character up to ASCII case. */
  predicate SameUpToCaseAndSeparator(a: char, b: char) {
    ((a == '/' || a == '\\') && (b == '/' || b == '\\')) || LowerChar(a) == LowerChar(b)
  }

  /** Replaced texts are equal exactly when the texts agree position by
      position up to ASCII case and the kind of slash. */
  lemma SlashesAndCaseEqualIff(s: string, t: string)
    ensures SlashesAndCase(s) == SlashesAndCase(t) <==>
      (|s| == |t| && forall i :: 0 <= i < |s| ==> SameUpToCaseAndSeparator(s[i], t[i]))
  {
    if |s| == |t| && forall i :: 0 <= i < |s| ==> SameUpToCaseAndSeparator(s[i], t[i]) {
      assert forall i :: 0 <= i < |s| ==> SlashesAndCase(s)[i] == SlashesAndCase(t)[i];
    }
    if SlashesAndCase(s) == SlashesAndCase(t) {
      forall i | 0 <= i < |s|
        ensures SameUpToCaseAndSeparator(s[i], t[i])
      {
        assert NormalizeChar(s[i]) == SlashesAndCase(t)[i];
      }
    }
  }

  /** Replacing twice is replacing once. */
  lemma SlashesAndCaseIdempotent(s: string)
    ensures SlashesAndCase(SlashesAndCase(s)) == SlashesAndCase(s)
  {
  }

  /** `normalizeForComparison`: resolved from the working directory, then the replacements. */
  function NormalizeForComparison(p: Platform, cwd: Resolved, value: string): string {
    SlashesAndCase(Render(p, ResolveStep(p, cwd, value)))
  }

  /** `isOutsideProjectRoot`. */
  function IsOutsideProjectRoot(p: Platform, cwd: Resolved, target: string, root: string): bool {
    var t := NormalizeForComparison(p, cwd, target);
    var r := NormalizeForComparison(p, cwd, root);
    if t == r then false else !(r + "/" <= t)
  }

  /** A target that resolves to the root's names and more is not outside,
      when the root is not the filesystem root. */
  lemma BelowNamesNotOutside(p: Platform, cwd: Resolved, target: string, root: string, more: seq<string>)
    requires |ResolveStep(p, cwd, root).names| > 0
    requires var rr := ResolveStep(p, cwd, root);
      ResolveStep(p, cwd, target) == Resolved(rr.root, rr.names + more)
    ensures !IsOutsideProjectRoot(p, cwd, target, root)
  {
    var rr := ResolveStep(p, cwd, root);
    if |more| == 0 {
      assert rr.names + more == rr.names;
    } else {
      RenderAppend(p, rr, more);
      var j := JoinedFrom(Separator(p), more);
      SlashesAndCaseAppend(Render(p, rr), j);
      var r := SlashesAndCase(Render(p, rr));
      var t := NormalizeForComparison(p, cwd, target);
      assert t == r + SlashesAndCase(j);
      assert SlashesAndCase(j)[0] == '/';
      assert t[..|r| + 1] == r + "/";
    }
  }

  /** A target whose resolved text is shorter than the root's is outside. */
  lemma ShorterIsOutside(p: Platform, cwd: Resolved, target: string, root: string)
    requires |Render(p, ResolveStep(p, cwd, target))| < |Render(p, ResolveStep(p, cwd, root))|
    ensures IsOutsideProjectRoot(p, cwd, target, root)
  {
  }

  /** The root is not outside itself, and neither are the spellings that
      resolve back to it (`root/.` and `root/name/..`). */
  lemma RootIsNotOutside(p: Platform, cwd: Resolved, root: string, sep: char, name: string)
    requires IsAbsolute(p, root) && IsSeparator(p, sep) && IsName(p, name)
    ensures !IsOutsideProjectRoot(p, cwd, root, root)
    ensures !IsOutsideProjectRoot(p, cwd, root + [sep] + ".", root)
    ensures !IsOutsideProjectRoot(p, cwd, root + [sep] + name + [sep] + "..", root)
  {
    var rr := ResolveStep(p, cwd, root);
    ResolveBelow(p, cwd, root, sep, ".");
    SplitName(p, ".");
    assert Collapse(rr.names, ["."]) == rr.names;
    assert root + [sep] + name + [sep] + ".." == root + [sep] + (name + [sep] + "..");
    ResolveBelow(p, cwd, root, sep, name + [sep] + "..");
    SplitAt(p, name, sep, "..");
    SplitName(p, name);
    SplitName(p, "..");
    assert Split(p, name + [sep] + "..") == [name] + [".."];
    assert Collapse(rr.names, [name] + [".."]) == rr.names;
  }

  /** Anything below the root without a `..` segment is not outside, when
      the root is not the filesystem root. */
  lemma BelowRootIsNotOutside(p: Platform, cwd: Resolved, root: string, sep: char, rest: string)
    requires IsAbsolute(p, root) && IsSeparator(p, sep)
    requires |ResolveStep(p, cwd, root).names| > 0
    requires forall i :: 0 <= i < |Split(p, rest)| ==> Split(p, rest)[i] != ".."
    ensures !IsOutsideProjectRoot(p, cwd, root + [sep] + rest, root)
  {
    var rr := ResolveStep(p, cwd, root);
    ResolveBelow(p, cwd, root, sep, rest);
    CollapseWithoutParent(rr.names, Split(p, rest));
    BelowNamesNotOutside(p, cwd, root + [sep] + rest, root, Collapse([], Split(p, rest)));
  }

  /** Going up from the root leaves it. */
  lemma EscapeIsOutside(p: Platform, cwd: Resolved, root: string, sep: char)
    requires ValidResolved(p, cwd) && IsAbsolute(p, root) && IsSeparator(p, sep)
    requires |ResolveStep(p, cwd, root).names| > 0
    ensures IsOutsideProjectRoot(p, cwd, root + [sep] + "..", root)
  {
    var rr := ResolveStep(p, cwd, root);
    ResolveValid(p, cwd, root);
    ResolveBelow(p, cwd, root, sep, "..");
    SplitName(p, "..");
    var n := |rr.names|;
    assert rr.names == rr.names[..n - 1] + [rr.names[n - 1]];
    RenderLonger(p, rr.root, rr.names[..n - 1], rr.names[n - 1]);
    ShorterIsOutside(p, cwd, root + [sep] + "..", root);
  }

  /** The directory above the root is outside it. */
  lemma ParentIsOutside(p: Platform, cwd: Resolved, parent: string, sep: char, name: string)
    requires IsAbsolute(p, parent) && IsSeparator(p, sep) && IsName(p, name)
    ensures IsOutsideProjectRoot(p, cwd, parent, parent + [sep] + name)
  {
    var rp := ResolveStep(p, cwd, parent);
    ResolveBelow(p, cwd, parent, sep, name);
    SplitName(p, name);
    RenderLonger(p, rp.root, rp.names, name);
    ShorterIsOutside(p, cwd, parent, parent + [sep] + name);
  }

  /** A name that merely extends the root's last name is outside: the
      comparison is by whole names. */
  lemma LongerNameIsOutside(p: Platform, cwd: Resolved, rr: Resolved, suffix: string)
    requires ValidResolved(p, rr) && |rr.names| > 0
    requires |suffix| > 0 && NoSeparator(p, suffix) && suffix[0] != '/' && suffix[0] != '\\'
    ensures IsOutsideProjectRoot(p, cwd, Render(p, rr) + suffix, Render(p, rr))
  {
    var n := |rr.names|;
    var init, last := rr.names[..n - 1], rr.names[n - 1];
    assert rr.names == init + [last];
    var ext := Resolved(rr.root, init + [last + suffix]);
    assert NoSeparator(p, last + suffix) by {
      forall k | 0 <= k < |last + suffix| ensures !IsSeparator(p, (last + suffix)[k]) {
        if k < |last| {
          assert (last + suffix)[k] == last[k];
        } else {
          assert (last + suffix)[k] == suffix[k - |last|];
        }
      }
    }
    assert (last + suffix)[0] == last[0];
    assert last + suffix != "..";
    assert ValidResolved(p, ext);
    var sep := Separator(p);
    JoinSnoc(sep, init, last);
    JoinSnoc(sep, init, last + suffix);
    assert Render(p, ext) == Render(p, rr) + suffix;
    ResolveRendered(p, cwd, ext);
    ResolveRendered(p, cwd, rr);
    SlashesAndCaseAppend(Render(p, rr), suffix);
    var r := SlashesAndCase(Render(p, rr));
    var t := NormalizeForComparison(p, cwd, Render(p, rr) + suffix);
    assert t == r + SlashesAndCase(suffix);
    assert t[|r|] != '/';
    assert (r + "/")[|r|] == '/';
  }

  lemma RenderOne(p: Platform, root: string, a: string)
    ensures Render(p, Resolved(root, [a])) == root + a
  {
    assert [a][1..] == [];
  }

  lemma RenderTwo(p: Platform, root: string, a: string, b: string)
    ensures Render(p, Resolved(root, [a, b])) == root + a + [Separator(p)] + b
  {
    assert [a, b][1..] == [b];
    assert [b][1..] == [];
    assert JoinedFrom(Separator(p), []) == "";
    assert JoinedFrom(Separator(p), [b]) == [Separator(p)] + b;
  }

  lemma SplitTwo(p: Platform, a: string, c: char, b: string)
    requires NoSeparator(p, a) && IsSeparator(p, c) && NoSeparator(p, b)
    ensures Split(p, a + [c] + b) == [a, b]
  {
    SplitAt(p, a, c, b);
    SplitName(p, a);
    SplitName(p, b);
  }

  lemma SiblingExample(cwd: Resolved)
    ensures IsOutsideProjectRoot(Posix, cwd, "/a/bc", "/a/b")
  {
    var rr := Resolved("/", ["a", "b"]);
    RenderTwo(Posix, "/", "a", "b");
    assert Render(Posix, rr) == "/a/b";
    LongerNameIsOutside(Posix, cwd, rr, "c");
    assert "/a/b" + "c" == "/a/bc";
  }

  /** When the project root is the filesystem root the comparison sees
      nothing as inside it: the prefix it tests for is `//`. */
  lemma FilesystemRootExample(cwd: Resolved)
    ensures IsOutsideProjectRoot(Posix, cwd, "/dist", "/")
  {
    var r0, rd := Resolved("/", []), Resolved("/", ["dist"]);
    assert Render(Posix, r0) == "/";
    ResolveRendered(Posix, cwd, r0);
    RenderOne(Posix, "/", "dist");
    assert Render(Posix, rd) == "/dist";
    ResolveRendered(Posix, cwd, rd);
    var t := NormalizeForComparison(Posix, cwd, "/dist");
    assert t == SlashesAndCase("/dist");
    assert t[1] == 'd';
  }

  // ---------------------------------------------------------------------
  // The output directory

  /** The environment the script reads. `None` is an unset variable; `cwd`
      is the working directory `path.resolve` starts from. */
  datatype Env = Env(
    platform: Platform,
    useFallbackDist: Option<string>,  // BLENDXWEB_USE_FALLBACK_DIST
    customOutDir: Option<string>,     // BLENDXWEB_CUSTOM_OUTDIR
    appData: Option<string>,          // APPDATA
    cwd: Resolved)

  /** The script's answer: the output directory and whether it is an add-on path. */
  datatype OutDir = OutDir(path: string, isAddonPath: bool)

  /** A JavaScript string that tests true: set and not empty. */
  predicate Truthy(v: Option<string>) {
    v.Some? && |v.value| > 0
  }

  /** The segments below `%APPDATA%` that lead to the add-on's `web` folder. */
  const AddonWebSegments: seq<string> :=
    ["Blender Foundation", "Blender", "5.0", "extensions", "user_default", "blendxweb2", "web"]

  lemma ResolvePathsPair(p: Platform, cwd: Resolved, a: string, b: string)
    ensures ResolvePaths(p, cwd, [a, b]) == ResolveStep(p, ResolveStep(p, cwd, a), b)
  {
    var c := ResolveStep(p, cwd, a);
    assert [a, b][1..] == [b];
    assert [b][1..] == [];
    assert ResolvePaths(p, cwd, [a, b]) == ResolvePaths(p, c, [b]);
    assert ResolvePaths(p, c, [b]) == ResolvePaths(p, ResolveStep(p, c, b), []);
  }

  function FallbackPath(env: Env, root: string): string {
    Render(env.platform, ResolvePaths(env.platform, env.cwd, [root, "dist"]))
  }

  /** `resolveAddonOutDir`. */
  function ResolveAddonOutDir(env: Env, root: string): OutDir {
    var p := env.platform;
    var fallback := FallbackPath(env, root);
    if env.useFallbackDist == Some("true") then OutDir(fallback, false)
    else if Truthy(env.customOutDir) then
      var c := env.customOutDir.value;
      var resolved := if IsAbsolute(p, c) then c else Render(p, ResolvePaths(p, env.cwd, [root, c]));
      OutDir(resolved, IsOutsideProjectRoot(p, env.cwd, resolved, root))
    else if p != Win32 then OutDir(fallback, false)
    else if !Truthy(env.appData) then OutDir(fallback, false)
    else OutDir(Render(p, ResolvePaths(p, env.cwd, [env.appData.value] + AddonWebSegments)), true)
  }

  /** The fallback is the resolved root with `dist` below it. */
  lemma FallbackIsDistBelowRoot(env: Env, root: string)
    ensures var rr := ResolveStep(env.platform, env.cwd, root);
      FallbackPath(env, root) == Render(env.platform, Resolved(rr.root, rr.names + ["dist"]))
  {
    var p := env.platform;
    var rr := ResolveStep(p, env.cwd, root);
    ResolvePathsPair(p, env.cwd, root, "dist");
    assert IsName(p, "dist");
    ResolveNames(p, rr, ["dist"]);
    assert ResolvePaths(p, rr, ["dist"]) == ResolveStep(p, rr, "dist");
  }

  /** The fallback flag set to exactly "true" wins over every other input. */
  lemma FallbackFlagWins(env: Env, root: string)
    requires env.useFallbackDist == Some("true")
    ensures var rr := ResolveStep(env.platform, env.cwd, root);
      ResolveAddonOutDir(env, root) == OutDir(Render(env.platform, Resolved(rr.root, rr.names + ["dist"])), false)
  {
    FallbackIsDistBelowRoot(env, root);
  }

  /** Without the flag, a non-empty custom directory is used: verbatim when
      absolute, resolved against the root when relative; it is an add-on
      path exactly when its resolution lies outside the root. */
  lemma CustomDirUsed(env: Env, root: string)
    requires env.useFallbackDist != Some("true") && Truthy(env.customOutDir)
    ensures var c := env.customOutDir.value;
      var p := env.platform;
      var r := ResolveAddonOutDir(env, root);
      (IsAbsolute(p, c) ==> r.path == c) &&
      (!IsAbsolute(p, c) ==> r.path == Render(p, ResolveStep(p, ResolveStep(p, env.cwd, root), c))) &&
      r.isAddonPath == IsOutsideProjectRoot(p, env.cwd, r.path, root)
  {
    ResolvePathsPair(env.platform, env.cwd, root, env.customOutDir.value);
  }

  /** A relative custom directory without a `..` segment lands inside the
      root, so it is not an add-on path (for a root below the filesystem root). */
  lemma RelativeCustomDirIsInside(env: Env, root: string)
    requires env.useFallbackDist != Some("true") && Truthy(env.customOutDir)
    requires var c := env.customOutDir.value;
      !IsAbsolute(env.platform, c) &&
      forall i :: 0 <= i < |Split(env.platform, c)| ==> Split(env.platform, c)[i] != ".."
    requires ValidResolved(env.platform, env.cwd)
    requires |ResolveStep(env.platform, env.cwd, root).names| > 0
    ensures !ResolveAddonOutDir(env, root).isAddonPath
  {
    var p, c := env.platform, env.customOutDir.value;
    var rr := ResolveStep(p, env.cwd, root);
    ResolvePathsPair(p, env.cwd, root, c);
    var rc := ResolveStep(p, rr, c);
    ResolveValid(p, env.cwd, root);
    ResolveValid(p, rr, c);
    CollapseWithoutParent(rr.names, Split(p, c));
    ResolveRendered(p, env.cwd, rc);
    BelowNamesNotOutside(p, env.cwd, Render(p, rc), root, Collapse([], Split(p, c)));
  }

  /** An absolute Posix path of two names resolves to those names. */
  lemma TwoNamePath(cwd: Resolved, a: string, b: string)
    requires IsName(Posix, a) && IsName(Posix, b)
    ensures Render(Posix, Resolved("/", [a, b])) == "/" + a + "/" + b
    ensures ResolveStep(Posix, cwd, "/" + a + "/" + b) == Resolved("/", [a, b])
  {
    RenderTwo(Posix, "/", a, b);
    ResolveRendered(Posix, cwd, Resolved("/", [a, b]));
  }

  lemma ParentRelativeResolution(cwd: Resolved)
    ensures ResolvePaths(Posix, cwd, ["/p/q", "../x"]) == Resolved("/", ["p", "x"])
  {
    TwoNamePath(cwd, "p", "q");
    assert "/" + "p" + "/" + "q" == "/p/q";
    SplitTwo(Posix, "..", '/', "x");
    assert ".." + ['/'] + "x" == "../x";
    assert !IsAbsolute(Posix, "../x");
    assert ["p", "q"][..1] == ["p"];
    assert Step(["p", "q"], "..") == ["p"];
    assert Step(["p"], "x") == ["p", "x"];
    assert ["..", "x"][1..] == ["x"];
    assert ["x"][1..] == [];
    assert Collapse(["p", "q"], ["..", "x"]) == ["p", "x"];
    ResolvePathsPair(Posix, cwd, "/p/q", "../x");
  }

  /** A relative custom directory that climbs out of the root is an add-on
      path: `../x` from `/p/q` is `/p/x`. */
  lemma ParentRelativeCustomDirExample(env: Env)
    requires env.platform == Posix && env.useFallbackDist != Some("true")
    requires env.customOutDir == Some("../x")
    ensures ResolveAddonOutDir(env, "/p/q") == OutDir("/p/x", true)
  {
    ParentRelativeResolution(env.cwd);
    TwoNamePath(env.cwd, "p", "q");
    TwoNamePath(env.cwd, "p", "x");
    assert "/" + "p" + "/" + "q" == "/p/q";
    assert "/" + "p" + "/" + "x" == "/p/x";
    var t := NormalizeForComparison(Posix, env.cwd, "/p/x");
    var r := NormalizeForComparison(Posix, env.cwd, "/p/q");
    assert t == SlashesAndCase("/p/x") && r == SlashesAndCase("/p/q");
    assert t[3] == 'x' && r[3] == 'q';
    DifferentNotLongerIsOutside(Posix, env.cwd, "/p/x", "/p/q");
  }

  lemma UnresolvedAbsoluteResolution(cwd: Resolved)
    ensures ResolveStep(Posix, cwd, "/p") == Resolved("/", ["p"])
    ensures ResolveStep(Posix, cwd, "/p/../q") == Resolved("/", ["q"])
  {
    RenderOne(Posix, "/", "p");
    ResolveRendered(Posix, cwd, Resolved("/", ["p"]));
    assert "/p/../q" == "/p" + ['/'] + "../q";
    ResolveBelow(Posix, cwd, "/p", '/', "../q");
    SplitTwo(Posix, "..", '/', "q");
    assert ".." + ['/'] + "q" == "../q";
    assert ["p"][..0] == [];
    assert Step(["p"], "..") == [];
    assert ["..", "q"][1..] == ["q"];
    assert ["q"][1..] == [];
    assert Collapse(["p"], ["..", "q"]) == ["q"];
  }

  /** Two resolved texts that differ, the target's no longer than the root's: outside. */
  lemma DifferentNotLongerIsOutside(p: Platform, cwd: Resolved, target: string, root: string)
    requires NormalizeForComparison(p, cwd, target) != NormalizeForComparison(p, cwd, root)
    requires |Render(p, ResolveStep(p, cwd, target))| <= |Render(p, ResolveStep(p, cwd, root))|
    ensures IsOutsideProjectRoot(p, cwd, target, root)
  {
  }

  /** An absolute custom directory is kept as written, but compared
      resolved: `/p/../q` is outside `/p`. */
  lemma UnresolvedAbsoluteCustomDirExample(env: Env)
    requires env.platform == Posix && env.useFallbackDist != Some("true")
    requires env.customOutDir == Some("/p/../q")
    ensures ResolveAddonOutDir(env, "/p") == OutDir("/p/../q", true)
  {
    UnresolvedAbsoluteResolution(env.cwd);
    RenderOne(Posix, "/", "p");
    RenderOne(Posix, "/", "q");
    var t := NormalizeForComparison(Posix, env.cwd, "/p/../q");
    var r := NormalizeForComparison(Posix, env.cwd, "/p");
    assert t == SlashesAndCase("/q") && r == SlashesAndCase("/p");
    assert t[1] == 'q' && r[1] == 'p';
    DifferentNotLongerIsOutside(Posix, env.cwd, "/p/../q", "/p");
  }

  /** Neither flag nor custom directory, and not Windows or no `%APPDATA%`:
      the project's `dist`, not an add-on path. */
  lemma PlatformFallback(env: Env, root: string)
    requires env.useFallbackDist != Some("true") && !Truthy(env.customOutDir)
    requires env.platform != Win32 || !Truthy(env.appData)
    ensures var rr := ResolveStep(env.platform, env.cwd, root);
      ResolveAddonOutDir(env, root) == OutDir(Render(env.platform, Resolved(rr.root, rr.names + ["dist"])), false)
  {
    FallbackIsDistBelowRoot(env, root);
  }

  /** On Windows with `%APPDATA%` set, the build goes to Blender 5.0's
      per-user extension folder for the add-on, and that is an add-on path. */
  lemma WindowsAddonFolder(env: Env, root: string)
    requires env.useFallbackDist != Some("true") && !Truthy(env.customOutDir)
    requires env.platform == Win32 && Truthy(env.appData)
    ensures var ra := ResolveStep(Win32, env.cwd, env.appData.value);
      ResolveAddonOutDir(env, root) == OutDir(Render(Win32, Resolved(ra.root, ra.names + AddonWebSegments)), true)
  {
    var a := env.appData.value;
    var ra := ResolveStep(Win32, env.cwd, a);
    assert ([a] + AddonWebSegments)[1..] == AddonWebSegments;
    AddonWebSegmentsAreNames();
    ResolveNames(Win32, ra, AddonWebSegments);
  }

  /** When `%APPDATA%` already holds a resolved path, the folder is that
      text with the add-on's segments spelt out below it. */
  lemma WindowsAddonFolderText(env: Env, root: string, appData: Resolved)
    requires env.useFallbackDist != Some("true") && !Truthy(env.customOutDir)
    requires env.platform == Win32 && Truthy(env.appData)
    requires ValidResolved(Win32, appData) && |appData.names| > 0
    requires env.appData.value == Render(Win32, appData)
    ensures ResolveAddonOutDir(env, root).path == env.appData.value + JoinedFrom('\\', AddonWebSegments)
  {
    WindowsAddonFolder(env, root);
    ResolveRendered(Win32, env.cwd, appData);
    RenderAppend(Win32, appData, AddonWebSegments);
  }

  lemma AddonWebSegmentsAreNames()
    ensures AllNames(Win32, AddonWebSegments)
  {
    var s := AddonWebSegments;
    assert IsName(Win32, s[0]) && IsName(Win32, s[1]) && IsName(Win32, s[2]) && IsName(Win32, s[3]);
    assert IsName(Win32, s[4]) && IsName(Win32, s[5]) && IsName(Win32, s[6]);
  }

  /** Whenever the answer is not an add-on path, the directory is inside the
      project root (for a root below the filesystem root). */
  lemma NotAddonPathStaysInside(env: Env, root: string)
    requires ValidResolved(env.platform, env.cwd)
    requires |ResolveStep(env.platform, env.cwd, root).names| > 0
    ensures !ResolveAddonOutDir(env, root).isAddonPath ==>
      !IsOutsideProjectRoot(env.platform, env.cwd, ResolveAddonOutDir(env, root).path, root)
  {
    var p := env.platform;
    var rr := ResolveStep(p, env.cwd, root);
    var rd := Resolved(rr.root, rr.names + ["dist"]);
    FallbackIsDistBelowRoot(env, root);
    ResolveValid(p, env.cwd, root);
    assert IsName(p, "dist");
    assert ValidResolved(p, rd);
    ResolveRendered(p, env.cwd, rd);
    BelowNamesNotOutside(p, env.cwd, FallbackPath(env, root), root, ["dist"]);
  }
}
