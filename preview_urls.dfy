/**
 * The two string rule sets of the LDraw preview: how a model identifier is
 * resolved to a URL or to file text, and how the loading manager rewrites a
 * bare part file name onto the LDraw parts-library folder layout.
 */
module PreviewUrls {
  import opened Wrappers
  import opened JsText

  // ---------------------------------------------------------------------
  // Source classification
  // ---------------------------------------------------------------------

  datatype ContentKind = UrlContent | TextContent

  /** What resolving a model identifier hands to the loader: a URL to fetch, or the model text itself. */
  datatype Resolved = Resolved(kind: ContentKind, value: string)

  /**
   * The bundled-asset table: asset path to the module number that the
   * bundler's `require` returns for it.
   */
  const AssetMap: map<string, nat> := map["assets/model/car.ldr" := 1]

  predicate IsHttpUrl(url: string) {
    StartsWith(url, "http://") || StartsWith(url, "https://")
  }

  predicate IsAssetPath(url: string) {
    StartsWith(url, "assets/")
  }

  predicate IsLocalPath(url: string) {
    StartsWith(url, "file://") || StartsWith(url, "/")
  }

  /** `ASSET_MAP[url]` is truthy. */
  predicate IsMappedAsset(url: string) {
    url in AssetMap && AssetMap[url] != 0
  }

  function UnmappedAssetMessage(url: string): string {
    "Unmapped asset url: \"" + url + "\""
  }

  function UnknownProtocolMessage(url: string): string {
    "Unknown url protocol: " + url
  }

  /**
   * `resolveAssetUrl`. The file-system work is given as two parameters:
   * `readAsset` downloads a bundled module and reads its text (failing, for
   * one, with "Could not download asset" when it has no local URI), and
   * `readFile` reads a local file's text.
   */
  function ResolveAssetUrl(url: string, readAsset: nat -> Result<string>, readFile: string -> Result<string>)
    : (r: Result<Resolved>)
    ensures IsHttpUrl(url) ==> r == Ok(Resolved(UrlContent, url))
    ensures (r.Ok? && r.value.kind == UrlContent) <==> IsHttpUrl(url)
    ensures r.Ok? && r.value.kind == TextContent ==>
              (IsMappedAsset(url) && readAsset(AssetMap[url]) == Ok(r.value.value))
              || (!IsAssetPath(url) && IsLocalPath(url) && readFile(url) == Ok(r.value.value))
    ensures IsAssetPath(url) && !IsMappedAsset(url) ==> r == Err(UnmappedAssetMessage(url))
    ensures IsMappedAsset(url) ==>
              r == match readAsset(AssetMap[url]) case Ok(t) => Ok(Resolved(TextContent, t)) case Err(m) => Err(m)
    ensures IsLocalPath(url) ==>
              r == match readFile(url) case Ok(t) => Ok(Resolved(TextContent, t)) case Err(m) => Err(m)
    ensures !IsHttpUrl(url) && !IsAssetPath(url) && !IsLocalPath(url) ==> r == Err(UnknownProtocolMessage(url))
  {
    PrefixesExclusive(url);
    if IsHttpUrl(url) then Ok(Resolved(UrlContent, url))
    else if IsAssetPath(url) then
      if !IsMappedAsset(url) then Err(UnmappedAssetMessage(url))
      else
        match readAsset(AssetMap[url])
        case Ok(text) => Ok(Resolved(TextContent, text))
        case Err(m) => Err(m)
    else if IsLocalPath(url) then
      match readFile(url)
      case Ok(text) => Ok(Resolved(TextContent, text))
      case Err(m) => Err(m)
    else Err(UnknownProtocolMessage(url))
  }

  /** The three prefix families are mutually exclusive, so the order in which they are tested decides nothing. */
  lemma PrefixesExclusive(url: string)
    ensures !(IsHttpUrl(url) && IsAssetPath(url))
    ensures !(IsHttpUrl(url) && IsLocalPath(url))
    ensures !(IsAssetPath(url) && IsLocalPath(url))
  {
    if StartsWith(url, "http://") { assert url[0] == 'h'; }
    if StartsWith(url, "https://") { assert url[0] == 'h'; }
    if IsAssetPath(url) { assert url[0] == 'a'; }
    if StartsWith(url, "file://") { assert url[0] == 'f'; }
    if StartsWith(url, "/") { assert url[0] == '/'; }
  }

  /** The bundled sample model resolves to the text of its asset, without reading any file by path. */
  lemma BundledCarResolves(url: string, readAsset: nat -> Result<string>, readFile: string -> Result<string>, text: string)
    requires url == "assets/model/car.ldr" && readAsset(1) == Ok(text)
    ensures ResolveAssetUrl(url, readAsset, readFile) == Ok(Resolved(TextContent, text))
  {
    assert url[..7] == "assets/";
    assert url[0] == 'a';
    assert url in AssetMap && AssetMap[url] == 1;
  }

  // ---------------------------------------------------------------------
  // Parts-library URL rewriting
  // ---------------------------------------------------------------------

  predicate IsSeparator(c: char) {
    c == '/' || c == '\\'
  }

  /** `u.split(/[?#]/)[0]`: `u` cut at its first `?` or `#`. */
  function StripQuery(u: string): (r: string)
    ensures |r| <= |u| && r == u[..|r|]
    ensures '?' !in r && '#' !in r
    ensures |r| < |u| ==> u[|r|] == '?' || u[|r|] == '#'
  {
    if u == [] then []
    else if u[0] == '?' || u[0] == '#' then []
    else [u[0]] + StripQuery(u[1..])
  }

  /** The last element of `s.split(/[/\\]/)`: what follows the last `/` or `\`. */
  function LastSegment(s: string): (r: string)
    ensures |r| <= |s| && r == s[|s| - |r|..]
    ensures forall k :: 0 <= k < |r| ==> !IsSeparator(r[k])
    ensures |r| < |s| ==> IsSeparator(s[|s| - |r| - 1])
  {
    if s == [] then []
    else if IsSeparator(s[|s| - 1]) then []
    else LastSegment(s[..|s| - 1]) + [s[|s| - 1]]
  }

  /** The lower-cased file name the URL modifier matches on. */
  function FileName(u: string): string {
    Lower(LastSegment(StripQuery(u)))
  }

  function DigitRun(s: string): (n: nat)
    ensures n <= |s|
    ensures forall k :: 0 <= k < n ==> IsDigit(s[k])
    ensures n < |s| ==> !IsDigit(s[n])
  {
    if s != [] && IsDigit(s[0]) then 1 + DigitRun(s[1..]) else 0
  }

  predicate AllDigits(s: string) {
    forall k :: 0 <= k < |s| ==> IsDigit(s[k])
  }

  predicate EndsWith(s: string, p: string) {
    |p| <= |s| && s[|s| - |p|..] == p
  }

  /** `/^\d+s\d+[a-z]?\.dat$/.test(f)`, matched by scanning the two digit runs. */
  predicate IsSubpartName(f: string) {
    EndsWith(f, ".dat") &&
    var stem := f[..|f| - 4];
    var i := DigitRun(stem);
    0 < i < |stem| && stem[i] == 's' &&
    var rest := stem[i + 1..];
    var j := DigitRun(rest);
    0 < j && (j == |rest| || (j + 1 == |rest| && IsLowerLetter(rest[j])))
  }

  /** `f` splits as digits `f[..i]`, `s`, digits `f[i+1..j]`, an optional letter, `.dat`. */
  ghost predicate SubpartSplit(f: string, i: int, j: int) {
    0 < i && i + 1 < j && j + 4 <= |f| <= j + 5
    && AllDigits(f[..i]) && f[i] == 's' && AllDigits(f[i + 1..j])
    && (|f| == j + 5 ==> IsLowerLetter(f[j]))
    && f[|f| - 4..] == ".dat"
  }

  /** The regular expression of the sub-part rule, read declaratively. */
  ghost predicate SubpartPattern(f: string) {
    exists i, j :: SubpartSplit(f, i, j)
  }

  /** `/^\d+-\d+/.test(f)`. */
  predicate StartsWithNumberRange(f: string) {
    var i := DigitRun(f);
    0 < i && i + 1 < |f| && f[i] == '-' && IsDigit(f[i + 1])
  }

  const PrimitivePrefixes: seq<string> :=
    ["stud", "stug", "rect", "box", "cyli", "disc", "edge", "ring", "ndis", "con", "rin", "tri"]

  /** The primitive test: a leading number range or one of the primitive-geometry prefixes. */
  predicate IsPrimitiveName(f: string) {
    StartsWithNumberRange(f) || exists k :: 0 <= k < |PrimitivePrefixes| && StartsWith(f, PrimitivePrefixes[k])
  }

  /** Where in the parts library a file name is looked up. */
  datatype Folder = ConfigFile | SubPartFolder | PrimitiveFolder | PartFolder

  function FolderOf(f: string): Folder {
    if f == "ldconfig.ldr" then ConfigFile
    else if IsSubpartName(f) then SubPartFolder
    else if IsPrimitiveName(f) then PrimitiveFolder
    else PartFolder
  }

  /** The folder, relative to the parts base, that each kind of file is fetched from. */
  function FolderPath(d: Folder): string {
    match d
    case ConfigFile => ""
    case SubPartFolder => "parts/s/"
    case PrimitiveFolder => "p/"
    case PartFolder => "parts/"
  }

  /** The name requested in that folder: the colour table under its canonical spelling, any other file as matched. */
  function TargetName(d: Folder, f: string): string {
    if d == ConfigFile then "LDConfig.ldr" else f
  }

  /** Where the library keeps a file with (lower-cased) name `f`. */
  function Target(partsBase: string, f: string): string {
    partsBase + FolderPath(FolderOf(f)) + TargetName(FolderOf(f), f)
  }

  /** The URL modifier installed on the LDraw loading manager. */
  function ModifyUrl(partsBase: string, u: string): (r: string)
    ensures !StartsWith(partsBase, "http") || FileName(u) == [] ==> r == u
    ensures StartsWith(partsBase, "http") && FileName(u) != [] ==> StartsWith(r, partsBase)
  {
    if !StartsWith(partsBase, "http") then u
    else
      var filename := FileName(u);
      if filename == [] then u
      else Target(partsBase, filename)
  }

  lemma {:induction false} DigitRunUnique(s: string, n: nat)
    requires n <= |s| && AllDigits(s[..n]) && (n == |s| || !IsDigit(s[n]))
    ensures DigitRun(s) == n
    decreases n
  {
    if n > 0 {
      assert IsDigit(s[..n][0]);
      assert s[1..][..n - 1] == s[..n][1..];
      DigitRunUnique(s[1..], n - 1);
    }
  }

  /** The scanning matcher accepts exactly the names the sub-part regular expression describes. */
  lemma SubpartNameIffPattern(f: string)
    ensures IsSubpartName(f) <==> SubpartPattern(f)
  {
    if IsSubpartName(f) {
      SubpartNameMatches(f);
    }
    if SubpartPattern(f) {
      var i, j :| SubpartSplit(f, i, j);
      SubpartSplitScans(f, i, j);
    }
  }

  /** A name the scan accepts splits as the pattern says. */
  lemma SubpartNameMatches(f: string)
    requires IsSubpartName(f)
    ensures SubpartPattern(f)
  {
    var stem := f[..|f| - 4];
    var i := DigitRun(stem);
    var rest := stem[i + 1..];
    var j := DigitRun(rest);
    assert f[..i] == stem[..i];
    assert f[i + 1..i + 1 + j] == rest[..j];
    assert SubpartSplit(f, i, i + 1 + j);
  }

  /** A name that splits as the pattern says is accepted by the scan. */
  lemma SubpartSplitScans(f: string, i: int, j: int)
    requires SubpartSplit(f, i, j)
    ensures IsSubpartName(f)
  {
    var stem := f[..|f| - 4];
    assert stem[..i] == f[..i];
    DigitRunUnique(stem, i);
    var rest := stem[i + 1..];
    assert rest[..j - i - 1] == f[i + 1..j];
    assert j - i - 1 < |rest| ==> rest[j - i - 1] == f[j];
    DigitRunUnique(rest, j - i - 1);
  }

  /** A sub-part name never passes the primitive test, so the order of the two tests decides nothing. */
  lemma SubpartNeverPrimitive(f: string)
    requires IsSubpartName(f)
    ensures !IsPrimitiveName(f)
  {
    var stem := f[..|f| - 4];
    var i := DigitRun(stem);
    assert stem[..i] == f[..i];
    assert IsDigit(f[0]);
    DigitRunUnique(f, i);
    forall k | 0 <= k < |PrimitivePrefixes| ensures !StartsWith(f, PrimitivePrefixes[k]) {
      assert !IsDigit(PrimitivePrefixes[k][0]);
    }
  }

  /**
   * With an http parts base, every non-empty file name is mapped by the
   * first rule that applies: the colour table (in any case), the sub-part
   * pattern, the primitive tests, and the parts folder otherwise.
   */
  lemma ModifyUrlRules(partsBase: string, u: string)
    requires StartsWith(partsBase, "http") && FileName(u) != []
    ensures var f := FileName(u); var r := ModifyUrl(partsBase, u);
      && (f == "ldconfig.ldr" ==> r == partsBase + "LDConfig.ldr")
      && (f != "ldconfig.ldr" && SubpartPattern(f) ==> r == partsBase + "parts/s/" + f)
      && (f != "ldconfig.ldr" && !SubpartPattern(f) && IsPrimitiveName(f) ==> r == partsBase + "p/" + f)
      && (f != "ldconfig.ldr" && !SubpartPattern(f) && !IsPrimitiveName(f) ==> r == partsBase + "parts/" + f)
  {
    assert ModifyUrl(partsBase, u) == Target(partsBase, FileName(u));
    TargetRules(partsBase, FileName(u));
  }

  /** Where each kind of file name is looked up under the parts base. */
  lemma TargetRules(partsBase: string, f: string)
    ensures f == "ldconfig.ldr" ==> Target(partsBase, f) == partsBase + "LDConfig.ldr"
    ensures f != "ldconfig.ldr" && SubpartPattern(f) ==> Target(partsBase, f) == partsBase + "parts/s/" + f
    ensures f != "ldconfig.ldr" && !SubpartPattern(f) && IsPrimitiveName(f) ==> Target(partsBase, f) == partsBase + "p/" + f
    ensures f != "ldconfig.ldr" && !SubpartPattern(f) && !IsPrimitiveName(f) ==> Target(partsBase, f) == partsBase + "parts/" + f
  {
    SubpartNameIffPattern(f);
    if f == "ldconfig.ldr" {
      assert partsBase + "" + "LDConfig.ldr" == partsBase + "LDConfig.ldr";
    }
  }

  lemma {:induction false} StripQueryUnmarked(s: string)
    requires '?' !in s && '#' !in s
    ensures StripQuery(s) == s
  {
    if s != [] {
      StripQueryUnmarked(s[1..]);
      assert [s[0]] + s[1..] == s;
    }
  }

  lemma {:induction false} LastSegmentAfterSeparator(a: string, f: string)
    requires a != [] && IsSeparator(a[|a| - 1])
    requires forall k :: 0 <= k < |f| ==> !IsSeparator(f[k])
    ensures LastSegment(a + f) == f
    decreases |f|
  {
    if f != [] {
      var g := f[..|f| - 1];
      assert (a + f)[..|a + f| - 1] == a + g;
      LastSegmentAfterSeparator(a, g);
      assert g + [f[|f| - 1]] == f;
    } else {
      assert a + f == a;
    }
  }

  /**
   * A parts base the rewritten URLs can be read back from: an http location
   * ending in a separator, with no query or fragment mark (the forced CDN
   * base is one).
   */
  predicate BaseReady(partsBase: string) {
    StartsWith(partsBase, "http") && IsSeparator(partsBase[|partsBase| - 1])
    && '?' !in partsBase && '#' !in partsBase
  }

  /** The public LDraw parts library that the preview always loads parts from. */
  const CdnHost: string := "https://raw.githubusercontent.com/"
  const CdnRepository: string := "gkjohnson/ldraw-parts-library/"
  const CdnFolder: string := "master/complete/ldraw/"
  const CdnBase: string := CdnHost + CdnRepository + CdnFolder

  /** `ensureLocalLdrawLibrary`: the CDN is used unconditionally, and it is a base the rewrite rules can work with. */
  function EnsureLocalLdrawLibrary(): (base: string)
    ensures base == CdnBase && BaseReady(base)
  {
    CdnBaseReady();
    CdnBase
  }

  lemma CdnBaseReady()
    ensures BaseReady(CdnBase)
  {
    CdnHostUnmarked();
    CdnRepositoryUnmarked();
    CdnFolderUnmarked();
    NoMarksInJoin(CdnHost, CdnRepository);
    NoMarksInJoin(CdnHost + CdnRepository, CdnFolder);
    assert CdnBase[..4] == CdnHost[..4] == "http";
    assert CdnBase[|CdnBase| - 1] == CdnFolder[|CdnFolder| - 1] == '/';
  }

  lemma CdnHostUnmarked()
    ensures '?' !in CdnHost && '#' !in CdnHost
  {
  }

  lemma CdnRepositoryUnmarked()
    ensures '?' !in CdnRepository && '#' !in CdnRepository
  {
  }

  lemma CdnFolderUnmarked()
    ensures '?' !in CdnFolder && '#' !in CdnFolder
  {
  }

  /** The file name matched on is lower-case and free of separators and of query or fragment marks. */
  lemma FileNameClean(u: string)
    ensures var f := FileName(u);
      && '?' !in f && '#' !in f
      && (forall k :: 0 <= k < |f| ==> !IsSeparator(f[k]))
      && Lower(f) == f
  {
    var q := StripQuery(u);
    var last := LastSegment(q);
    var f := FileName(u);
    LowerIdempotent(last);
    forall k | 0 <= k < |f| ensures f[k] != '?' && f[k] != '#' && !IsSeparator(f[k]) {
      assert f[k] == LowerChar(last[k]);
      assert last[k] == q[|q| - |last| + k];
    }
  }

  lemma NoMarksInJoin(a: string, b: string)
    requires '?' !in a && '#' !in a && '?' !in b && '#' !in b
    ensures '?' !in a + b && '#' !in a + b
  {
    forall k | 0 <= k < |a + b| ensures (a + b)[k] != '?' && (a + b)[k] != '#' {
      if k < |a| { assert (a + b)[k] == a[k]; } else { assert (a + b)[k] == b[k - |a|]; }
    }
  }

  /** Reading the file name back from a URL built as a separator-terminated prefix plus a name. */
  lemma FileNameOfJoin(prefix: string, name: string)
    requires prefix != [] && IsSeparator(prefix[|prefix| - 1])
    requires '?' !in prefix && '#' !in prefix && '?' !in name && '#' !in name
    requires forall k :: 0 <= k < |name| ==> !IsSeparator(name[k])
    ensures FileName(prefix + name) == Lower(name)
  {
    NoMarksInJoin(prefix, name);
    StripQueryUnmarked(prefix + name);
    LastSegmentAfterSeparator(prefix, name);
  }

  /** The canonical spelling of the colour table is a plain file name that lower-cases to the one matched on. */
  lemma ConfigNameFacts()
    ensures '?' !in "LDConfig.ldr" && '#' !in "LDConfig.ldr"
    ensures forall k :: 0 <= k < |"LDConfig.ldr"| ==> !IsSeparator("LDConfig.ldr"[k])
    ensures Lower("LDConfig.ldr") == "ldconfig.ldr"
  {
    var n := "LDConfig.ldr";
    assert Lower(n)[0] == 'l' && Lower(n)[1] == 'd';
    assert Lower(n) == "ldconfig.ldr";
  }

  /** A file placed in any folder of `partsBase` is read back under the name it was looked up by. */
  lemma FileNameOfTarget(partsBase: string, d: Folder, f: string)
    requires BaseReady(partsBase)
    requires '?' !in f && '#' !in f && (forall k :: 0 <= k < |f| ==> !IsSeparator(f[k])) && Lower(f) == f
    requires d == ConfigFile ==> f == "ldconfig.ldr"
    ensures FileName(partsBase + FolderPath(d) + TargetName(d, f)) == f
  {
    var dir := FolderPath(d);
    var prefix := partsBase + dir;
    assert '?' !in dir && '#' !in dir && (dir == "" || dir[|dir| - 1] == '/');
    assert IsSeparator(prefix[|prefix| - 1]) by {
      if dir == "" {
        assert prefix == partsBase;
      } else {
        assert prefix[|prefix| - 1] == dir[|dir| - 1];
      }
    }
    NoMarksInJoin(partsBase, dir);
    if d == ConfigFile {
      ConfigNameFacts();
      FileNameOfJoin(prefix, "LDConfig.ldr");
    } else {
      FileNameOfJoin(prefix, f);
    }
  }

  /** The rewritten URL asks for the same file as the original one (the colour table keeps its name up to case). */
  lemma ModifyUrlKeepsFileName(partsBase: string, u: string)
    requires BaseReady(partsBase)
    ensures FileName(ModifyUrl(partsBase, u)) == FileName(u)
  {
    var f := FileName(u);
    if f != [] {
      FileNameClean(u);
      FileNameOfTarget(partsBase, FolderOf(f), f);
    }
  }

  /**
   * The modifier is idempotent: a URL it has already rewritten is rewritten
   * to itself, for a parts base that is `BaseReady`.
   */
  lemma ModifyUrlIdempotent(partsBase: string, u: string)
    requires BaseReady(partsBase)
    ensures ModifyUrl(partsBase, ModifyUrl(partsBase, u)) == ModifyUrl(partsBase, u)
  {
    var r := ModifyUrl(partsBase, u);
    ModifyUrlKeepsFileName(partsBase, u);
    if FileName(u) != [] {
      assert r == Target(partsBase, FileName(u));
      assert ModifyUrl(partsBase, r) == Target(partsBase, FileName(r));
    }
  }
}
