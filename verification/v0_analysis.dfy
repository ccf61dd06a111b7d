/** The v0 project analysis helpers: reading CSS custom properties out of a
    stylesheet, merging several projects' properties under prefixes and
    printing them back as CSS, and classifying and naming component files. */
module V0Analysis {
  import opened Util
  import opened Records

  // ------------------------------------------------------------ results

  datatype ComponentInfo = ComponentInfo(
    name: string, path: string, imports: seq<string>, exports: seq<string>,
    styles: seq<string>, dependencies: seq<string>)

  datatype Vars = Vars(light: Rec<string>, dark: Rec<string>)

  datatype AnalysisResult = AnalysisResult(
    components: seq<ComponentInfo>,
    namingConflicts: seq<string>, styleConflicts: seq<string>,
    dependencyConflicts: seq<string>, sharedDependencies: seq<string>,
    cssVariables: Vars)

  /** `analyzeV0Projects` is a stub: whatever the paths, every list and
      both variable records of its result are empty. */
  function AnalyzeV0Projects(landingPath: string, modalPath: string): (r: AnalysisResult)
    ensures r.components == [] && r.sharedDependencies == []
    ensures r.namingConflicts == [] && r.styleConflicts == [] && r.dependencyConflicts == []
    ensures r.cssVariables.light == [] && r.cssVariables.dark == []
  {
    AnalysisResult([], [], [], [], [], Vars([], []))
  }

  // ----------------------------------------------------- regex matching

  /** The first index at or after `i` holding `c`. */
  function IndexFrom(s: string, c: char, i: nat): (r: Option<nat>)
    requires i <= |s|
    ensures r.Some? ==> i <= r.value < |s| && s[r.value] == c
    ensures r.Some? ==> forall j :: i <= j < r.value ==> s[j] != c
    ensures r.None? ==> forall j :: i <= j < |s| ==> s[j] != c
    decreases |s| - i
  {
    if i == |s| then None
    else if s[i] == c then Some(i)
    else IndexFrom(s, c, i + 1)
  }

  /** The first index at or after `i` that is not white space (`\s*`). */
  function SkipSpace(s: string, i: nat): (r: nat)
    requires i <= |s|
    ensures i <= r <= |s| && AllSpace(s[i..r])
    ensures r < |s| ==> !IsSpace(s[r])
    decreases |s| - i
  {
    if i < |s| && IsSpace(s[i]) then
      var r := SkipSpace(s, i + 1);
      assert s[i..r] == [s[i]] + s[i + 1..r];
      r
    else i
  }

  /** A match of `<opener>\s*{([^}]+)}` starting exactly at `i`: its
      captured group, the non-empty text up to the first `}`. */
  function BlockAt(s: string, opener: string, i: nat): (r: Option<string>)
    requires i <= |s|
    ensures r.Some? ==> r.value != [] && '}' !in r.value
  {
    if i + |opener| <= |s| && s[i..i + |opener|] == opener then
      var j := SkipSpace(s, i + |opener|);
      if j < |s| && s[j] == '{' then
        match IndexFrom(s, '}', j + 1)
        case None => None
        case Some(e) =>
          if e == j + 1 then None
          else
            NoCharInSlice(s, '}', j + 1, e);
            Some(s[j + 1..e])
      else None
    else None
  }

  lemma NoCharInSlice(s: string, c: char, a: nat, e: nat)
    requires a <= e <= |s|
    requires forall k :: a <= k < e ==> s[k] != c
    ensures c !in s[a..e]
  {
    forall k | 0 <= k < e - a ensures s[a..e][k] != c {
      assert s[a..e][k] == s[a + k];
    }
  }

  /** `s.match(/<opener>\s*{([^}]+)}/)`: the group of the leftmost match
      at or after `i`. */
  function FindBlock(s: string, opener: string, i: nat): (r: Option<string>)
    requires i <= |s|
    ensures r.Some? ==> r.value != [] && '}' !in r.value
    decreases |s| - i
  {
    match BlockAt(s, opener, i)
    case Some(b) => Some(b)
    case None => if i == |s| then None else FindBlock(s, opener, i + 1)
  }

  /** A match of `--([^:]+):\s*([^;]+);` starting exactly at `p`: the
      trimmed name, the trimmed value and the index after the `;`. The
      name runs to the first `:`, the value to the first `;` after it, and
      both must be non-empty. (Whatever `\s*` takes before the value is
      white space, so trimming the whole run gives the trimmed group.) */
  function DeclAt(s: string, p: nat): (r: Option<(string, string, nat)>)
    requires p <= |s|
    ensures r.Some? ==> p < r.value.2 <= |s|
  {
    if p + 2 <= |s| && s[p..p + 2] == "--" then
      match IndexFrom(s, ':', p + 2)
      case None => None
      case Some(c) =>
        if c == p + 2 then None
        else
          match IndexFrom(s, ';', c + 1)
          case None => None
          case Some(e) =>
            if e == c + 1 then None
            else Some((Trim(s[p + 2..c]), Trim(s[c + 1..e]), e + 1))
    else None
  }

  /** `s.matchAll(/--([^:]+):\s*([^;]+);/g)` from index `p`: each match as
      a (name, value) entry, in order; scanning resumes after each match. */
  function Decls(s: string, p: nat): seq<Entry<string>>
    requires p <= |s|
    decreases |s| - p
  {
    if p == |s| then []
    else
      match DeclAt(s, p)
      case Some((name, value, next)) => [(name, value)] + Decls(s, next)
      case None => Decls(s, p + 1)
  }

  /** The record the loop over a block's declarations builds. */
  function BlockVariables(block: Option<string>): Rec<string>
  {
    if block.None? then [] else AssignAll([], Decls(block.value, 0))
  }

  const RootOpener := ":root"
  const DarkOpener := ".dark"

  // --------------------------------------------------- extraction

  /** The `for … of` loop of `extractCSSVariables`: assign each declaration
      of the block in turn. */
  method ReadDeclarations(block: string) returns (vars: Rec<string>)
    ensures vars == AssignAll([], Decls(block, 0))
  {
    var ds := Decls(block, 0);
    vars := [];
    var i := 0;
    while i < |ds|
      invariant 0 <= i <= |ds|
      invariant AssignAll(vars, ds[i..]) == AssignAll([], ds)
    {
      assert ds[i..][1..] == ds[i + 1..];
      vars := Set(vars, ds[i].0, ds[i].1);
      i := i + 1;
    }
  }

  /** `extractCSSVariables`: the declarations of the first `:root { … }`
      block go to `light` and those of the first `.dark { … }` block to
      `dark`; a missing block leaves its record empty. */
  method ExtractCSSVariables(css: string) returns (vars: Vars)
    ensures vars.light == BlockVariables(FindBlock(css, RootOpener, 0))
    ensures vars.dark == BlockVariables(FindBlock(css, DarkOpener, 0))
  {
    var light: Rec<string> := [];
    var dark: Rec<string> := [];
    var rootMatch := FindBlock(css, RootOpener, 0);
    if rootMatch.Some? {
      light := ReadDeclarations(rootMatch.value);
    }
    var darkMatch := FindBlock(css, DarkOpener, 0);
    if darkMatch.Some? {
      dark := ReadDeclarations(darkMatch.value);
    }
    vars := Vars(light, dark);
  }

  /** A property declared several times in a block takes its last value;
      one never declared is absent. */
  lemma ExtractedValue(block: string, name: string)
    ensures (forall i :: 0 <= i < |Decls(block, 0)| ==> Decls(block, 0)[i].0 != name) ==>
      Get(BlockVariables(Some(block)), name).None?
    ensures forall j :: LastEntryFor(Decls(block, 0), j, name) ==>
      Get(BlockVariables(Some(block)), name) == Some(Decls(block, 0)[j].1)
  {
    AssignAllLastWins([], Decls(block, 0), name);
  }

  // ------------------------------------------------------- merging

  /** `!merged[key]`: the key is absent or holds the empty string. */
  predicate Falsy(v: Option<string>)
  {
    v.None? || v.value == ""
  }

  /** One `forEach` of `mergeCSSVariables`: each source key whose current
      value in `merged` is falsy is added as `prefix + key`. */
  function MergeFrom(merged: Rec<string>, src: Rec<string>, prefix: string): Rec<string>
    decreases |src|
  {
    if src == [] then merged
    else
      var (k, v) := src[0];
      var next := if Falsy(Get(merged, k)) then Set(merged, prefix + k, v) else merged;
      MergeFrom(next, src[1..], prefix)
  }

  const LandingPrefix := "v0-landing-"
  const ModalPrefix := "v0-modal-"

  /** The two merged records: the existing entries, then landing, then modal. */
  function MergedVars(existing: Vars, landing: Vars, modal: Vars): Vars
  {
    Vars(MergeFrom(MergeFrom(existing.light, landing.light, LandingPrefix), modal.light, ModalPrefix),
         MergeFrom(MergeFrom(existing.dark, landing.dark, LandingPrefix), modal.dark, ModalPrefix))
  }

  function DeclLine(e: Entry<string>): string
  {
    "  --" + e.0 + ": " + e.1 + ";\n"
  }

  /** One declaration line per entry, in entry order. */
  function Render(r: Rec<string>): string
    decreases |r|
  {
    if r == [] then "" else Render(r[..|r| - 1]) + DeclLine(r[|r| - 1])
  }

  /** The text `mergeCSSVariables` returns. */
  function MergedCSS(existing: Vars, landing: Vars, modal: Vars): string
  {
    var m := MergedVars(existing, landing, modal);
    ":root {\n" + Render(m.light) + "}\n\n.dark {\n" + Render(m.dark) + "}\n"
  }

  /** The `forEach` loop over one source record. */
  method MergeInto(merged: Rec<string>, src: Rec<string>, prefix: string) returns (r: Rec<string>)
    ensures r == MergeFrom(merged, src, prefix)
  {
    r := merged;
    var i := 0;
    while i < |src|
      invariant 0 <= i <= |src|
      invariant MergeFrom(r, src[i..], prefix) == MergeFrom(merged, src, prefix)
    {
      assert src[i..][1..] == src[i + 1..];
      var (k, v) := src[i];
      if Falsy(Get(r, k)) {
        r := Set(r, prefix + k, v);
      }
      i := i + 1;
    }
  }

  /** The `forEach` loop that appends one line per entry to `css`. */
  method AppendDecls(css: string, r: Rec<string>) returns (out: string)
    ensures out == css + Render(r)
  {
    out := css;
    var i := 0;
    while i < |r|
      invariant 0 <= i <= |r|
      invariant out == css + Render(r[..i])
    {
      assert r[..i + 1][..i] == r[..i];
      out := out + DeclLine(r[i]);
      i := i + 1;
    }
    assert r[..i] == r;
  }

  /** `mergeCSSVariables`. */
  method MergeCSSVariables(existing: Vars, landing: Vars, modal: Vars) returns (css: string)
    ensures css == MergedCSS(existing, landing, modal)
    ensures StartsWith(css, ":root {\n") && EndsWith(css, "}\n")
  {
    var light := existing.light;
    var dark := existing.dark;
    light := MergeInto(light, landing.light, LandingPrefix);
    dark := MergeInto(dark, landing.dark, LandingPrefix);
    light := MergeInto(light, modal.light, ModalPrefix);
    dark := MergeInto(dark, modal.dark, ModalPrefix);
    css := ":root {\n";
    css := AppendDecls(css, light);
    css := css + "}\n\n.dark {\n";
    css := AppendDecls(css, dark);
    css := css + "}\n";
    CssFrame(Render(light), Render(dark));
  }

  /** The generated text opens with `:root {` and ends with a closing brace. */
  lemma CssFrame(light: string, dark: string)
    ensures var t := ":root {\n" + light + "}\n\n.dark {\n" + dark + "}\n";
      StartsWith(t, ":root {\n") && EndsWith(t, "}\n")
  {
    var head := ":root {\n";
    var t := head + light + "}\n\n.dark {\n" + dark + "}\n";
    assert t == head + (light + "}\n\n.dark {\n" + dark + "}\n");
    assert t[..|head|] == head;
    var body := head + light + "}\n\n.dark {\n" + dark;
    assert t == body + "}\n";
    assert t[|t| - 2..] == "}\n";
  }

  /** Merging only ever writes `prefix + k` for a source key `k`: every
      other key keeps its value, and the existing keys keep their order at
      the front. */
  lemma {:induction false} MergeUntouched(merged: Rec<string>, src: Rec<string>, prefix: string, x: string)
    requires forall i :: 0 <= i < |src| ==> prefix + src[i].0 != x
    ensures Get(MergeFrom(merged, src, prefix), x) == Get(merged, x)
    decreases |src|
  {
    if src != [] {
      var (k, v) := src[0];
      var next := if Falsy(Get(merged, k)) then Set(merged, prefix + k, v) else merged;
      GetSet(merged, prefix + k, v, x);
      assert forall i :: 0 <= i < |src| - 1 ==> src[1..][i] == src[i + 1];
      MergeUntouched(next, src[1..], prefix, x);
    }
  }

  lemma {:induction false} MergeKeepsKeyOrder(merged: Rec<string>, src: Rec<string>, prefix: string)
    ensures var m := MergeFrom(merged, src, prefix);
      |Keys(merged)| <= |Keys(m)| && Keys(m)[..|Keys(merged)|] == Keys(merged)
    decreases |src|
  {
    if src != [] {
      var (k, v) := src[0];
      var next := if Falsy(Get(merged, k)) then Set(merged, prefix + k, v) else merged;
      MergeKeepsKeyOrder(next, src[1..], prefix);
      assert Keys(next)[..|Keys(merged)|] == Keys(merged);
    }
  }

  predicate UniqueKeys<V>(r: Rec<V>)
  {
    forall i, j :: 0 <= i < j < |r| ==> r[i].0 != r[j].0
  }

  /** When the source's keys are distinct and none already carries the
      prefix, each source key that is falsy in `merged` ends up under
      `prefix + key` with its source value. */
  lemma {:induction false} MergeAddsAbsent(merged: Rec<string>, src: Rec<string>, prefix: string, j: nat)
    requires UniqueKeys(src)
    requires forall i :: 0 <= i < |src| ==> !StartsWith(src[i].0, prefix)
    requires j < |src| && Falsy(Get(merged, src[j].0))
    ensures Get(MergeFrom(merged, src, prefix), prefix + src[j].0) == Some(src[j].1)
    decreases |src|
  {
    var (k, v) := src[0];
    var next := if Falsy(Get(merged, k)) then Set(merged, prefix + k, v) else merged;
    assert MergeFrom(merged, src, prefix) == MergeFrom(next, src[1..], prefix);
    if j == 0 {
      MergeAddsFirst(merged, src, prefix);
    } else {
      MergeStepKeepsLater(merged, src, prefix, j);
      MergeAddsAbsent(next, src[1..], prefix, j - 1);
    }
  }

  /** The first source key, when falsy, lands under its prefixed name and
      no later (distinct) key writes there again. */
  lemma MergeAddsFirst(merged: Rec<string>, src: Rec<string>, prefix: string)
    requires UniqueKeys(src)
    requires src != [] && Falsy(Get(merged, src[0].0))
    ensures Get(MergeFrom(merged, src, prefix), prefix + src[0].0) == Some(src[0].1)
  {
    var (k, v) := src[0];
    var next := Set(merged, prefix + k, v);
    var tail := src[1..];
    GetSet(merged, prefix + k, v, prefix + k);
    forall i | 0 <= i < |tail| ensures prefix + tail[i].0 != prefix + k {
      assert tail[i] == src[i + 1];
      assert (prefix + tail[i].0)[|prefix|..] == tail[i].0;
      assert (prefix + k)[|prefix|..] == k;
    }
    MergeUntouched(next, tail, prefix, prefix + k);
  }

  /** One merge step leaves the remaining keys' lookups unchanged, and the
      remaining source keeps the lemma's requirements. */
  lemma MergeStepKeepsLater(merged: Rec<string>, src: Rec<string>, prefix: string, j: nat)
    requires UniqueKeys(src)
    requires forall i :: 0 <= i < |src| ==> !StartsWith(src[i].0, prefix)
    requires 0 < j < |src|
    ensures var (k, v) := src[0];
      var next := if Falsy(Get(merged, k)) then Set(merged, prefix + k, v) else merged;
      Get(next, src[j].0) == Get(merged, src[j].0) && src[1..][j - 1] == src[j] &&
      UniqueKeys(src[1..]) && forall i :: 0 <= i < |src| - 1 ==> !StartsWith(src[1..][i].0, prefix)
  {
    var (k, v) := src[0];
    var kj := src[j].0;
    assert prefix + k != kj by {
      assert (prefix + k)[..|prefix|] == prefix;
    }
    GetSet(merged, prefix + k, v, kj);
    assert forall i :: 0 <= i < |src| - 1 ==> src[1..][i] == src[i + 1];
  }

  /** The prefix test does not protect an existing key that already has the
      prefixed form: here the existing `v0-landing-x` is overwritten by the
      landing value of `x`, because only `x` itself is looked up. */
  lemma PrefixedExistingKeyOverwritten()
    ensures Get(MergeFrom([("v0-landing-x", "1")], [("x", "2")], LandingPrefix), "v0-landing-x") == Some("2")
  {
    GetSet([("v0-landing-x", "1")], "v0-landing-x", "2", "v0-landing-x");
  }

  /** The generated text holds exactly one line per merged entry of each
      block, between the fixed `:root` and `.dark` frames. */
  lemma {:induction false} RenderLines(r: Rec<string>, i: nat)
    requires i < |r|
    ensures |DeclLine(r[i])| <= |Render(r)|
    ensures Contains(Render(r), DeclLine(r[i]))
    decreases |r|
  {
    var init := r[..|r| - 1];
    var line := DeclLine(r[|r| - 1]);
    if i == |r| - 1 {
      assert OccursAt(Render(r), line, |Render(init)|);
    } else {
      RenderLines(init, i);
      var w :| 0 <= w <= |Render(init)| - |DeclLine(r[i])| && OccursAt(Render(init), DeclLine(init[i]), w);
      assert Render(r)[w..w + |DeclLine(r[i])|] == Render(init)[w..w + |DeclLine(r[i])|];
      assert OccursAt(Render(r), DeclLine(r[i]), w);
    }
  }

  // ------------------------------------------------------ components

  /** `a.toLowerCase() === b.toLowerCase()`. */
  predicate SameIgnoringCase(a: string, b: string)
  {
    ToLowerAscii(a) == ToLowerAscii(b)
  }

  /** `findDuplicateComponents`: the landing names that some modal name
      equals ignoring case, in landing order and with their repetitions. */
  function FindDuplicateComponents(landing: seq<string>, modal: seq<string>): (r: seq<string>)
    ensures forall c :: c in r ==> c in landing && exists m :: m in modal && SameIgnoringCase(m, c)
    ensures forall c :: c in landing && (exists m :: m in modal && SameIgnoringCase(m, c)) ==> c in r
    ensures forall c :: (exists m :: m in modal && SameIgnoringCase(m, c)) ==>
      multiset(r)[c] == multiset(landing)[c]
  {
    var dup := (c: string) => exists m :: m in modal && SameIgnoringCase(m, c);
    forall c | dup(c) ensures multiset(Filter(landing, dup))[c] == multiset(landing)[c] {
      FilterCount(landing, dup, c);
    }
    Filter(landing, dup)
  }

  /** The search works piece by piece: the duplicates among `a + b` are
      those among `a` followed by those among `b`. With `DuplicatesUnit`
      this fixes the result: the duplicates keep their landing order. */
  lemma DuplicatesAppend(a: seq<string>, b: seq<string>, modal: seq<string>)
    ensures FindDuplicateComponents(a + b, modal) ==
      FindDuplicateComponents(a, modal) + FindDuplicateComponents(b, modal)
  {
    FilterAppend(a, b, (c: string) => exists m :: m in modal && SameIgnoringCase(m, c));
  }

  /** One landing name is reported exactly when a modal name equals it
      ignoring case. */
  lemma DuplicatesUnit(c: string, modal: seq<string>)
    ensures FindDuplicateComponents([c], modal) ==
      if exists m :: m in modal && SameIgnoringCase(m, c) then [c] else []
  {
  }

  predicate HasCodeExt(s: string)
  {
    EndsWith(s, ".ts") || EndsWith(s, ".tsx") || EndsWith(s, ".js") || EndsWith(s, ".jsx")
  }

  /** `s.replace(/\.(tsx?|jsx?)$/, '')`: one trailing code extension off. */
  function StripCodeExt(s: string): (r: string)
    ensures !HasCodeExt(s) ==> r == s
    ensures HasCodeExt(s) ==>
      s == r + ".ts" || s == r + ".tsx" || s == r + ".js" || s == r + ".jsx"
  {
    if EndsWith(s, ".tsx") || EndsWith(s, ".jsx") then
      assert s == s[..|s| - 4] + s[|s| - 4..];
      s[..|s| - 4]
    else if EndsWith(s, ".ts") || EndsWith(s, ".js") then
      assert s == s[..|s| - 3] + s[|s| - 3..];
      s[..|s| - 3]
    else s
  }

  /** Stripping removes exactly the extension that was appended. */
  lemma StripAppendedExt(name: string, ext: string)
    requires ext in [".ts", ".tsx", ".js", ".jsx"]
    ensures StripCodeExt(name + ext) == name
  {
    var s := name + ext;
    assert s[|name|..] == ext;
    assert s[..|name|] == name;
    if ext == ".ts" || ext == ".js" {
      assert !EndsWith(s, ".tsx") && !EndsWith(s, ".jsx") by {
        assert s[|s| - 1] == 's';
      }
    }
  }

  /** `isComponentFile`. */
  predicate IsComponentFile(filename: string)
  {
    HasCodeExt(filename) && !Contains(filename, ".test.") &&
    !Contains(filename, ".spec.") && !Contains(filename, ".d.ts")
  }

  /** Test, spec and declaration files are never component files, whatever
      their stem and extension; nor is a style sheet. */
  lemma NotComponentFiles(stem: string, ext: string)
    requires ext != [] && ext[0] == '.'
    ensures !IsComponentFile(stem + ".test" + ext)
    ensures !IsComponentFile(stem + ".spec" + ext)
    ensures !IsComponentFile(stem + ".d.ts")
    ensures !IsComponentFile(stem + ".css")
  {
    var t := stem + ".test" + ext;
    assert t[|stem|..|stem| + 6] == ".test.";
    assert OccursAt(t, ".test.", |stem|);
    var u := stem + ".spec" + ext;
    assert u[|stem|..|stem| + 6] == ".spec.";
    assert OccursAt(u, ".spec.", |stem|);
    var d := stem + ".d.ts";
    assert d[|stem|..] == ".d.ts";
    assert OccursAt(d, ".d.ts", |stem|);
    var c := stem + ".css";
    assert c[|c| - 1] == 's' && c[|c| - 2] == 's';
  }

  /** A component file has a code extension to strip, so its name differs
      from its stem. */
  lemma ComponentFileHasStem(f: string)
    requires IsComponentFile(f)
    ensures StripCodeExt(f) != f && |StripCodeExt(f)| < |f|
  {
  }

  /** `path.basename` on a POSIX path: trailing slashes are ignored, and the
      result is what follows the last remaining `/`. */
  function Basename(p: string): (r: string)
    ensures '/' !in r
    decreases |p|
  {
    if p != [] && p[|p| - 1] == '/' then Basename(p[..|p| - 1]) else LastSegment(p)
  }

  function LastSegment(p: string): (r: string)
    ensures '/' !in r && EndsWith(p, r)
    ensures |r| < |p| ==> p[|p| - |r| - 1] == '/'
    decreases |p|
  {
    if p == [] || p[|p| - 1] == '/' then []
    else
      var q := p[..|p| - 1];
      var r := LastSegment(q);
      assert p[|p| - |r| - 1..] == q[|q| - |r|..] + [p[|p| - 1]];
      assert |r| < |q| ==> p[|p| - |r| - 2] == q[|q| - |r| - 1];
      r + [p[|p| - 1]]
  }

  /** `extractComponentName`: the file name without its directory and
      without one code extension. */
  function ExtractComponentName(filePath: string): (r: string)
    ensures '/' !in r
  {
    StripCodeExt(Basename(filePath))
  }

  lemma {:induction false} LastSegmentOfJoin(dir: string, file: string)
    requires file != [] && '/' !in file
    ensures LastSegment(dir + "/" + file) == file
    decreases |file|
  {
    var p := dir + "/" + file;
    assert p[..|p| - 1] == dir + "/" + file[..|file| - 1];
    if |file| > 1 {
      LastSegmentOfJoin(dir, file[..|file| - 1]);
    } else {
      assert p[..|p| - 1][|p| - 2] == '/';
    }
    assert file[..|file| - 1] + [file[|file| - 1]] == file;
  }

  /** A component file in a directory is named by its file stem. */
  lemma ComponentNameOfPath(dir: string, name: string, ext: string)
    requires name != [] && '/' !in name
    requires ext in [".ts", ".tsx", ".js", ".jsx"]
    ensures ExtractComponentName(dir + "/" + name + ext) == name
  {
    assert '/' !in name + ext;
    assert (dir + "/" + name + ext) == dir + "/" + (name + ext);
    LastSegmentOfJoin(dir, name + ext);
    StripAppendedExt(name, ext);
  }

  /** The import path `generateImportMap` records for a component. */
  function ImportEntry(c: ComponentInfo): Entry<string>
  {
    (c.name, "@/components/" + StripCodeExt(c.path))
  }

  function ImportEntries(cs: seq<ComponentInfo>): (r: seq<Entry<string>>)
    ensures |r| == |cs| && forall i :: 0 <= i < |cs| ==> r[i] == ImportEntry(cs[i])
  {
    seq(|cs|, i requires 0 <= i < |cs| => ImportEntry(cs[i]))
  }

  /** `generateImportMap`. */
  method GenerateImportMap(components: seq<ComponentInfo>) returns (importMap: Rec<string>)
    ensures importMap == AssignAll([], ImportEntries(components))
  {
    var ds := ImportEntries(components);
    importMap := [];
    var i := 0;
    while i < |components|
      invariant 0 <= i <= |components|
      invariant AssignAll(importMap, ds[i..]) == AssignAll([], ds)
    {
      assert ds[i..][1..] == ds[i + 1..];
      var relativePath := StripCodeExt(components[i].path);
      importMap := Set(importMap, components[i].name, "@/components/" + relativePath);
      i := i + 1;
    }
  }

  /** Each name maps to the import path of the last component with that
      name. */
  lemma ImportMapLookup(components: seq<ComponentInfo>, name: string, j: nat)
    requires j < |components| && components[j].name == name
    requires forall i :: j < i < |components| ==> components[i].name != name
    ensures Get(AssignAll([], ImportEntries(components)), name) ==
      Some("@/components/" + StripCodeExt(components[j].path))
  {
    var ds := ImportEntries(components);
    assert LastEntryFor(ds, j, name);
    AssignAllLastWins([], ds, name);
  }

  /** A name no component has is absent from the import map. */
  lemma {:induction false} ImportMapAbsent(components: seq<ComponentInfo>, name: string)
    requires forall i :: 0 <= i < |components| ==> components[i].name != name
    ensures Get(AssignAll([], ImportEntries(components)), name) == None
  {
    AssignAllLastWins([], ImportEntries(components), name);
  }
}
