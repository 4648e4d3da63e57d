/** The files of a wiki bundle (internal/artifacts/wiki.go): which paths a page
    set occupies, and that no two of them collide. */
module BundlePaths {
  import opened Text
  import opened Slug

  datatype Page = Page(slug: string, title: string, markdown: string, claims: string, contentDigest: string,
                       claimsDigest: string)

  // ---------------------------------------------------------------------
  // Directories of a path
  // ---------------------------------------------------------------------

  /** The directories above `p`: its prefixes that end before a slash. */
  function Dirs(p: string): set<string> {
    set k | 0 <= k < |p| && p[k] == '/' :: p[..k]
  }

  /** `path.Dir` of a clean relative path; the source's "." is the empty text. */
  function Dir(p: string): (d: string)
    ensures |d| <= |p| && d == p[..|d|]
    ensures p != "" ==> |d| < |p|
  {
    if p == "" then "" else if p[|p| - 1] == '/' then p[..|p| - 1] else Dir(p[..|p| - 1])
  }

  lemma {:induction false} DirIsLastSlash(p: string)
    requires p != "" && p[0] != '/'
    ensures Dir(p) == "" <==> '/' !in p
    ensures Dir(p) != "" ==> p[|Dir(p)|] == '/' && '/' !in p[|Dir(p)| + 1..]
    ensures Dir(p) != "" ==> Dir(p)[0] != '/'
  {
    var q := p[..|p| - 1];
    if p[|p| - 1] == '/' {
      assert p[|Dir(p)| + 1..] == "";
    } else if q == "" {
      assert p == [p[0]];
    } else {
      DirIsLastSlash(q);
      assert p == q + [p[|p| - 1]];
      if Dir(p) != "" { assert p[|Dir(p)| + 1..] == q[|Dir(p)| + 1..] + [p[|p| - 1]]; }
    }
  }

  lemma ShorterDirs(d: string, p: string)
    requires |d| < |p| && d == p[..|d|] && p[|d|] == '/'
    ensures {d} + Dirs(d) <= Dirs(p)
  {
    forall x | x in Dirs(d) ensures x in Dirs(p) {
      var k :| 0 <= k < |d| && d[k] == '/' && d[..k] == x;
      assert p[k] == '/' && p[..k] == x;
    }
  }

  lemma LongerDirs(d: string, p: string)
    requires |d| < |p| && d == p[..|d|] && '/' !in p[|d| + 1..]
    ensures Dirs(p) <= {d} + Dirs(d)
  {
    forall k | 0 <= k < |p| && p[k] == '/' ensures p[..k] in {d} + Dirs(d) {
      if k < |d| {
        assert d[k] == '/' && d[..k] == p[..k];
      } else {
        assert forall i :: |d| < i < |p| ==> p[i] == p[|d| + 1..][i - |d| - 1];
        assert k == |d|;
      }
    }
  }

  /** Walking up: the directories of a path are its parent and the parent's. */
  lemma DirsStep(p: string)
    requires p != "" && p[0] != '/'
    ensures Dirs(p) == if Dir(p) == "" then {} else {Dir(p)} + Dirs(Dir(p))
  {
    DirIsLastSlash(p);
    if Dir(p) != "" {
      ShorterDirs(Dir(p), p);
      LongerDirs(Dir(p), p);
    } else {
      forall k | 0 <= k < |p| ensures p[k] != '/' { assert p[k] in p; }
    }
  }

  lemma DirsOfPagePath(slug: string)
    ensures Dirs(slug + ".md") == Dirs(slug)
  {
    var p := slug + ".md";
    forall x | x in Dirs(p) ensures x in Dirs(slug) {
      var k :| 0 <= k < |p| && p[k] == '/' && p[..k] == x;
      assert k < |slug| && slug[..k] == x;
    }
    forall x | x in Dirs(slug) ensures x in Dirs(p) {
      var k :| 0 <= k < |slug| && slug[k] == '/' && slug[..k] == x;
      assert p[k] == '/' && p[..k] == x;
    }
  }

  function AllDirs(paths: seq<string>): set<string> {
    set i, d | 0 <= i < |paths| && d in Dirs(paths[i]) :: d
  }

  /** The directory loop of `directoryIndexes`: every directory above some page. */
  method CollectDirectories(paths: seq<string>) returns (directories: set<string>)
    requires forall i :: 0 <= i < |paths| ==> paths[i] != "" && paths[i][0] != '/'
    ensures directories == AllDirs(paths)
  {
    directories := {};
    for i := 0 to |paths|
      invariant directories == AllDirs(paths[..i])
    {
      ghost var before := directories;
      var current := Dir(paths[i]);
      DirsStep(paths[i]);
      DirIsLastSlash(paths[i]);
      while current != ""
        invariant current != "" ==> current[0] != '/'
        invariant before + Dirs(paths[i]) ==
                  if current == "" then directories else directories + {current} + Dirs(current)
        decreases |current|
      {
        DirsStep(current);
        DirIsLastSlash(current);
        directories := directories + {current};
        current := Dir(current);
      }
      AllDirsSnoc(paths, i);
    }
    assert paths[..|paths|] == paths;
  }

  lemma AllDirsSnoc(paths: seq<string>, i: nat)
    requires i < |paths|
    ensures AllDirs(paths[..i + 1]) == AllDirs(paths[..i]) + Dirs(paths[i])
  {
    var longer, shorter := paths[..i + 1], paths[..i];
    forall d | d in AllDirs(longer) ensures d in AllDirs(shorter) + Dirs(paths[i]) {
      var j :| 0 <= j < |longer| && d in Dirs(longer[j]);
      if j < i { assert shorter[j] == longer[j]; }
    }
    forall d | d in AllDirs(shorter) + Dirs(paths[i]) ensures d in AllDirs(longer) {
      if d in AllDirs(shorter) {
        var j :| 0 <= j < |shorter| && d in Dirs(shorter[j]);
        assert longer[j] == shorter[j];
      } else {
        assert longer[i] == paths[i];
      }
    }
  }

  // ---------------------------------------------------------------------
  // The files of a bundle and their paths
  // ---------------------------------------------------------------------

  datatype Target =
    | PageFile(page: Page)
    | ClaimsFile(page: Page)
    | DirIndex(directory: string)
    | RootIndex
    | Manifest
    | LastUpdate
    | UpdateLog

  function PathText(t: Target): string {
    match t
    case PageFile(page) => page.slug + ".md"
    case ClaimsFile(page) => ".claims/" + page.slug + ".json"
    case DirIndex(directory) => directory + "/index.md"
    case RootIndex => "index.md"
    case Manifest => ".page-manifest.json"
    case LastUpdate => ".last-update.json"
    case UpdateLog => "log.md"
  }

  /** `validateWikiInputs` on the slugs of a page set: accepted, unique, and none a
      directory of another. */
  ghost predicate GoodPages(pages: seq<Page>) {
    && pages != []
    && GoodSlugs(pages, |pages|)
    && (forall i, j :: 0 <= i < |pages| && 0 <= j < |pages| ==> pages[i].slug !in Dirs(pages[j].slug))
  }

  ghost predicate GoodSlugs(pages: seq<Page>, n: int)
    requires 0 <= n <= |pages|
  {
    && (forall i {:trigger Accepted(pages[i].slug)} :: 0 <= i < n ==> Accepted(pages[i].slug))
    && (forall i, j :: 0 <= i < j < n ==> pages[i].slug != pages[j].slug)
  }

  function Slugs(pages: seq<Page>): set<string> { set i | 0 <= i < |pages| :: pages[i].slug }

  /** The first loop: every slug accepted and new. */
  method ObserveSlugs(pages: seq<Page>) returns (observed: Option<set<string>>)
    ensures observed.Some? <==> GoodSlugs(pages, |pages|)
    ensures observed.Some? ==> observed.value == Slugs(pages)
  {
    var seen: set<string> := {};
    for i := 0 to |pages|
      invariant GoodSlugs(pages, i)
      invariant seen == set j | 0 <= j < i :: pages[j].slug
    {
      var slug := NormalizePageSlug(pages[i].slug);
      if slug.None? { return None; }
      if slug.value in seen { return None; }
      seen := seen + {slug.value};
    }
    observed := Some(seen);
  }

  /** The inner loop: whether some directory of `slug` is itself a page. */
  method HasPageAbove(slug: string, observed: set<string>) returns (found: bool)
    ensures found <==> exists d :: d in Dirs(slug) && d in observed
  {
    for depth := 0 to |slug|
      invariant forall d :: 0 <= d < depth && slug[d] == '/' ==> slug[..d] !in observed
    {
      if slug[depth] == '/' && slug[..depth] in observed {
        assert slug[..depth] in Dirs(slug);
        return true;
      }
    }
    found := false;
  }

  /** `validateWikiInputs` on slugs. */
  method ValidateSlugs(pages: seq<Page>) returns (ok: bool)
    ensures ok <==> GoodPages(pages)
  {
    if pages == [] { return false; }
    var observed := ObserveSlugs(pages);
    if observed.None? { return false; }
    for i := 0 to |pages|
      invariant forall j, k :: 0 <= j < |pages| && 0 <= k < i ==> pages[j].slug !in Dirs(pages[k].slug)
    {
      var found := HasPageAbove(pages[i].slug, observed.value);
      if found { return false; }
      forall j | 0 <= j < |pages| ensures pages[j].slug !in Dirs(pages[i].slug) {
        assert pages[j].slug in observed.value;
      }
    }
    ok := true;
  }

  function Directories(pages: seq<Page>): set<string> {
    set i, d | 0 <= i < |pages| && d in Dirs(pages[i].slug) :: d
  }

  function PageFiles(pages: seq<Page>): set<Target> { set i | 0 <= i < |pages| :: PageFile(pages[i]) }
  function ClaimsFiles(pages: seq<Page>): set<Target> { set i | 0 <= i < |pages| :: ClaimsFile(pages[i]) }
  function IndexFiles(pages: seq<Page>): set<Target> { set d | d in Directories(pages) :: DirIndex(d) }

  const FIXED: set<Target> := {RootIndex, Manifest, LastUpdate, UpdateLog}

  /** Everything `writeBundle` creates. */
  function Targets(pages: seq<Page>): set<Target> {
    PageFiles(pages) + ClaimsFiles(pages) + IndexFiles(pages) + FIXED
  }

  // ---------------------------------------------------------------------
  // No two files share a path
  // ---------------------------------------------------------------------

  predicate Plain(s: string) { s != "" && forall i :: 0 <= i < |s| ==> s[i] != '.' }

  /** The slug names none of the generated files. */
  ghost predicate Unreserved(slug: string) {
    Plain(slug) && slug != "index" && slug != "log" && forall d: string :: slug != d + "/index"
  }

  lemma AcceptedIsUnreserved(slug: string)
    requires Accepted(slug)
    ensures Unreserved(slug)
  {
    AcceptedChars(slug);
    AcceptedIsNoIndex(slug, "");
    forall d: string ensures slug != d + "/index" {
      AcceptedIsNoIndex(slug, d);
      assert d + "/index" == d + "/" + "index";
    }
  }

  /** What membership in a bundle says about one file. */
  ghost predicate Proper(t: Target) {
    match t
    case PageFile(page) => Unreserved(page.slug)
    case DirIndex(directory) => Plain(directory)
    case _ => true
  }

  lemma DirsArePlain(slug: string, directory: string)
    requires Accepted(slug) && directory in Dirs(slug)
    ensures Plain(directory)
  {
    AcceptedChars(slug);
  }

  /** The facts about a good page set that paths rest on. */
  ghost predicate Tame(pages: seq<Page>) {
    && (forall i, j :: 0 <= i < j < |pages| ==> pages[i].slug != pages[j].slug)
    && (forall i :: 0 <= i < |pages| ==> Unreserved(pages[i].slug))
    && (forall d :: d in Directories(pages) ==> Plain(d))
  }

  lemma GoodIsTame(pages: seq<Page>)
    requires GoodPages(pages)
    ensures Tame(pages)
  {
    forall i | 0 <= i < |pages| ensures Unreserved(pages[i].slug) {
      assert Accepted(pages[i].slug);
      AcceptedIsUnreserved(pages[i].slug);
    }
    forall d | d in Directories(pages) ensures Plain(d) {
      var i :| 0 <= i < |pages| && d in Dirs(pages[i].slug);
      assert Accepted(pages[i].slug);
      DirsArePlain(pages[i].slug, d);
    }
  }

  lemma TargetsAreProper(pages: seq<Page>, t: Target)
    requires Tame(pages) && t in Targets(pages)
    ensures Proper(t)
  {}

  lemma SuffixCancels(a: string, b: string, suffix: string)
    requires a + suffix == b + suffix
    ensures a == b
  {
    assert |a| == |b|;
    assert (a + suffix)[..|a|] == a;
    assert (b + suffix)[..|b|] == b;
  }

  /** The sort of a file, read off its path alone: hidden claims, the two hidden
      records, and the three sorts of visible Markdown. */
  lemma PathTells(t: Target)
    requires Proper(t)
    ensures |PathText(t)| >= 4
    ensures PathText(t)[0] == '.' <==> t.ClaimsFile? || t.Manifest? || t.LastUpdate?
    ensures t.ClaimsFile? ==> PathText(t)[1] == 'c'
    ensures t.Manifest? ==> PathText(t)[1] == 'p'
    ensures t.LastUpdate? ==> PathText(t)[1] == 'l'
  {
    if t.ClaimsFile? {
      assert PathText(t)[..8] == ".claims/";
      assert PathText(t)[..8][1] == 'c';
    } else if t.DirIndex? {
      assert PathText(t)[0] == t.directory[0];
    } else if t.PageFile? {
      assert PathText(t)[0] == t.page.slug[0];
    }
  }

  /** The part before `.md` of a visible file. */
  function Stem(t: Target): string
    requires t.PageFile? || t.DirIndex? || t.RootIndex? || t.UpdateLog?
  {
    match t
    case PageFile(page) => page.slug
    case DirIndex(directory) => directory + "/index"
    case RootIndex => "index"
    case UpdateLog => "log"
  }

  lemma StemTells(t: Target, u: Target)
    requires t.PageFile? || t.DirIndex? || t.RootIndex? || t.UpdateLog?
    requires u.PageFile? || u.DirIndex? || u.RootIndex? || u.UpdateLog?
    requires PathText(t) == PathText(u)
    ensures Stem(t) == Stem(u)
  {
    forall v | v == t || v == u ensures PathText(v) == Stem(v) + ".md" {
      if v.DirIndex? { assert v.directory + "/index" + ".md" == v.directory + "/index.md"; }
      if v.RootIndex? { assert "index" + ".md" == "index.md"; }
      if v.UpdateLog? { assert "log" + ".md" == "log.md"; }
    }
    SuffixCancels(Stem(t), Stem(u), ".md");
  }

  lemma StemsAreDistinct(t: Target, u: Target)
    requires t.PageFile? || t.DirIndex? || t.RootIndex? || t.UpdateLog?
    requires u.PageFile? || u.DirIndex? || u.RootIndex? || u.UpdateLog?
    requires Proper(t) && Proper(u) && Stem(t) == Stem(u)
    ensures t == u || (t.PageFile? && u.PageFile? && t.page.slug == u.page.slug)
  {
    assert |"index"| == 5 && |"log"| == 3 && |"/index"| == 6;
    if t.DirIndex? && u.DirIndex? { SuffixCancels(t.directory, u.directory, "/index"); }
  }

  /** Two files of a bundle with one path are the same file. */
  lemma PathsAreDistinct(pages: seq<Page>, t: Target, u: Target)
    requires Tame(pages) && t in Targets(pages) && u in Targets(pages) && PathText(t) == PathText(u)
    ensures t == u
  {
    TargetsAreProper(pages, t);
    TargetsAreProper(pages, u);
    SamePath(t, u);
    if t.PageFile? || t.ClaimsFile? { OnePagePerSlug(pages, t.page, u.page); }
  }

  lemma OnePagePerSlug(pages: seq<Page>, a: Page, b: Page)
    requires Tame(pages) && a in pages && b in pages && a.slug == b.slug
    ensures a == b
  {
    var i :| 0 <= i < |pages| && pages[i] == a;
    var j :| 0 <= j < |pages| && pages[j] == b;
    assert i == j;
  }

  lemma SamePath(t: Target, u: Target)
    requires Proper(t) && Proper(u) && PathText(t) == PathText(u)
    ensures t == u || (t.PageFile? && u.PageFile? && t.page.slug == u.page.slug)
                   || (t.ClaimsFile? && u.ClaimsFile? && t.page.slug == u.page.slug)
  {
    PathTells(t);
    PathTells(u);
    if PathText(t)[0] != '.' {
      StemTells(t, u);
      StemsAreDistinct(t, u);
    } else if t.ClaimsFile? {
      ClaimsSlug(t.page, u.page);
    }
  }

  lemma ClaimsSlug(a: Page, b: Page)
    requires PathText(ClaimsFile(a)) == PathText(ClaimsFile(b))
    ensures a.slug == b.slug
  {
    SuffixCancels(".claims/" + a.slug, ".claims/" + b.slug, ".json");
    assert (".claims/" + a.slug)[8..] == a.slug;
    assert (".claims/" + b.slug)[8..] == b.slug;
  }

  // ---------------------------------------------------------------------
  // No file is a directory of another
  // ---------------------------------------------------------------------

  /** A dot after the first character, as every file has and no directory does. */
  ghost predicate LateDot(p: string) {
    exists k :: 1 <= k < |p| && p[k] == '.'
  }

  lemma FilesHaveLateDots(t: Target)
    requires Proper(t) && (t.ClaimsFile? ==> Plain(t.page.slug))
    ensures LateDot(PathText(t))
  {
    var p := PathText(t);
    match t
    case PageFile(page) => assert p[|page.slug|] == '.';
    case ClaimsFile(page) =>
      assert p[8 + |page.slug|..] == ".json";
      assert p[8 + |page.slug|] == ".json"[0];
    case DirIndex(directory) =>
      assert p[|directory|..] == "/index.md";
      assert p[|directory| + 6] == "/index.md"[6];
    case RootIndex => assert p[5] == '.';
    case Manifest => assert p[14] == '.';
    case LastUpdate => assert p[12] == '.';
    case UpdateLog => assert p[3] == '.';
  }

  lemma PrefixedDirs(head: string, body: string, tail: string, d: string)
    requires Plain(body) && d in Dirs(head + body + tail) && '/' !in tail
    requires forall i :: 1 <= i < |head| ==> head[i] != '.'
    ensures !LateDot(d)
  {
    var p := head + body + tail;
    var k :| 0 <= k < |p| && p[k] == '/' && p[..k] == d;
    assert forall i :: |head| + |body| <= i < |p| ==> p[i] == tail[i - |head| - |body|];
    forall i | 1 <= i < |d| ensures d[i] != '.' {
      if i < |head| { assert d[i] == head[i]; } else { assert d[i] == body[i - |head|]; }
    }
  }

  lemma DirsHaveNoLateDot(u: Target, d: string)
    requires Proper(u) && (u.ClaimsFile? ==> Plain(u.page.slug)) && d in Dirs(PathText(u))
    ensures !LateDot(d)
  {
    match u
    case PageFile(page) =>
      assert PathText(u) == "" + page.slug + ".md";
      PrefixedDirs("", page.slug, ".md", d);
    case ClaimsFile(page) => PrefixedDirs(".claims/", page.slug, ".json", d);
    case DirIndex(directory) => IndexDirs(directory, d);
    case _ => NoDirs(u);
  }

  lemma IndexDirs(directory: string, d: string)
    requires Plain(directory) && d in Dirs(directory + "/index.md")
    ensures !LateDot(d)
  {
    var p := directory + "/index.md";
    var k :| 0 <= k < |p| && p[k] == '/' && p[..k] == d;
    assert k <= |directory| by {
      assert forall i :: 1 <= i < 9 ==> "/index.md"[i] != '/';
      assert forall i :: |directory| <= i < |p| ==> p[i] == "/index.md"[i - |directory|];
    }
    assert forall i :: 0 <= i < |d| ==> d[i] == directory[i];
  }

  lemma NoDirs(u: Target)
    requires u.RootIndex? || u.Manifest? || u.LastUpdate? || u.UpdateLog?
    ensures Dirs(PathText(u)) == {}
  {}

  /** No file of a bundle stands where another needs a directory. */
  lemma FilesAreNotDirectories(pages: seq<Page>, t: Target, u: Target)
    requires Tame(pages) && t in Targets(pages) && u in Targets(pages)
    ensures PathText(t) !in Dirs(PathText(u))
  {
    TargetsAreProper(pages, t);
    TargetsAreProper(pages, u);
    NoFileIsDirectory(t, u);
  }

  lemma NoFileIsDirectory(t: Target, u: Target)
    requires Proper(t) && (t.ClaimsFile? ==> Plain(t.page.slug))
    requires Proper(u) && (u.ClaimsFile? ==> Plain(u.page.slug))
    ensures PathText(t) !in Dirs(PathText(u))
  {
    FilesHaveLateDots(t);
    if PathText(t) in Dirs(PathText(u)) { DirsHaveNoLateDot(u, PathText(t)); }
  }
}
