/** Publishing and validating wikis case by case (internal/artifacts/wiki.go): which
    inputs get through, what a validation answers in every reachable state, and what
    the files of a version hold. */
module WikiProgress {
  import opened Text
  import opened Slug
  import opened BundlePaths
  import opened Wiki
  import opened WikiStore

  // ---------------------------------------------------------------------
  // Inputs
  // ---------------------------------------------------------------------

  /** `b` lies in the directory `a`. */
  predicate Above(a: string, b: string) { |a| < |b| && b[..|a| + 1] == a + "/" }

  lemma AboveIsDirectory(a: string, b: string)
    ensures Above(a, b) <==> a in Dirs(b)
  {
    if Above(a, b) {
      assert b[..|a| + 1][|a|] == '/' && b[..|a|] == b[..|a| + 1][..|a|];
    }
    if a in Dirs(b) {
      var k :| 0 <= k < |b| && b[k] == '/' && b[..k] == a;
      assert b[..k + 1] == a + "/";
    }
  }

  /** Page sets are good exactly when there are pages, every slug is accepted, and no
      slug occurs twice or is a directory of another. */
  lemma GoodPagesMeans(pages: seq<Page>)
    ensures GoodPages(pages) <==>
            && pages != [] && (forall i :: 0 <= i < |pages| ==> Accepted(pages[i].slug))
            && (forall i, j :: 0 <= i < j < |pages| ==> pages[i].slug != pages[j].slug)
            && (forall i, j :: 0 <= i < |pages| && 0 <= j < |pages| ==> !Above(pages[i].slug, pages[j].slug))
  {
    forall i, j | 0 <= i < |pages| && 0 <= j < |pages|
      ensures Above(pages[i].slug, pages[j].slug) <==> pages[i].slug in Dirs(pages[j].slug)
    {
      AboveIsDirectory(pages[i].slug, pages[j].slug);
    }
  }

  /** The files there are when links are checked, and those of a whole version. */
  function LinkedCount(pages: seq<Page>): nat { 2 * |pages| + |Directories(pages)| + 1 }
  function WholeCount(pages: seq<Page>): nat { 2 * |pages| + |Directories(pages)| + 4 }

  /** Good pages whose claims pass. */
  ghost predicate Clear(f: Format, inputs: Inputs) { GoodPages(inputs.pages) && f.claimsOk(inputs.pages) }

  ghost predicate LinksPass(f: Format, inputs: Inputs)
    requires GoodPages(inputs.pages)
  {
    GoodIsTame(inputs.pages);
    f.linksOk(Render(f, inputs, Known(inputs.pages)))
  }

  ghost function WholeBundle(f: Format, inputs: Inputs): Files
    requires GoodPages(inputs.pages)
  {
    GoodIsTame(inputs.pages);
    Bundle(f, inputs)
  }

  /** The receipt names the digest of the manifest and counts the pages. */
  ghost function ReceiptOf(f: Format, inputs: Inputs): Result {
    Ok(f.digest(f.manifest(inputs.runId, inputs.pages)), |inputs.pages|)
  }

  // ---------------------------------------------------------------------
  // Publishing
  // ---------------------------------------------------------------------

  /** A publication of clear inputs with passing links that is not cut short installs
      the bundle where there is no version, and otherwise changes nothing and is
      accepted exactly for the same files, at most 2000 of them. All others change
      nothing: claims or links that fail are invalid, and a write that is cut short
      is a crash. */
  lemma PublishExactly(f: Format, version: Option<Files>, inputs: Inputs, budget: nat)
    requires CollisionFree(f)
    ensures Publish(f, version, inputs, budget) ==
            if !Clear(f, inputs) then (version, Invalid)
            else if budget < LinkedCount(inputs.pages) then (version, Crashed)
            else if !LinksPass(f, inputs) then (version, Invalid)
            else if budget < WholeCount(inputs.pages) then (version, Crashed)
            else if version.Some? then
              (version, if version.value == WholeBundle(f, inputs) && WholeCount(inputs.pages) <= 2_000
                        then ReceiptOf(f, inputs) else Different)
            else if budget == WholeCount(inputs.pages) then (version, Crashed)
            else (Some(WholeBundle(f, inputs)), ReceiptOf(f, inputs))
  {
    if Clear(f, inputs) {
      GoodIsTame(inputs.pages);
      BundleSize(f, inputs);
      if version.Some? { SameIsEqual(f, Bundle(f, inputs), version.value); }
    }
  }

  // ---------------------------------------------------------------------
  // Validating
  // ---------------------------------------------------------------------

  /** A validation that is not cut short answers, in this order: invalid for a digest
      of the wrong length or inputs that do not pass, not found without a version,
      stale for another manifest, the receipt for the same files and at most 2000 of
      them, and otherwise a difference. */
  lemma ValidateExactly(f: Format, version: Option<Files>, inputs: Inputs, expected: string, budget: nat)
    requires CollisionFree(f) && (GoodPages(inputs.pages) ==> budget >= WholeCount(inputs.pages))
    ensures Validate(f, version, inputs, expected, budget) ==
            if |expected| != 32 || !Clear(f, inputs) then Invalid
            else if version.None? then NotFound
            else if !LinksPass(f, inputs) then Invalid
            else if expected != f.digest(f.manifest(inputs.runId, inputs.pages)) then Stale
            else if version.value == WholeBundle(f, inputs) && WholeCount(inputs.pages) <= 2_000
            then ReceiptOf(f, inputs) else Different
  {
    if |expected| == 32 && Clear(f, inputs) {
      GoodIsTame(inputs.pages);
      UncutIsStaged(f, inputs, budget);
      if version.Some? { SameIfSmall(f, inputs, version.value); }
    }
  }

  lemma UncutIsStaged(f: Format, inputs: Inputs, budget: nat)
    requires Clear(f, inputs) && Tame(inputs.pages) && budget >= WholeCount(inputs.pages)
    ensures Staged(f, inputs, budget) == if LinksPass(f, inputs) then Complete else BadLinks
  {}

  lemma SameIfSmall(f: Format, inputs: Inputs, files: Files)
    requires CollisionFree(f) && Clear(f, inputs) && Tame(inputs.pages)
    ensures SameBundle(f, Bundle(f, inputs), files) <==>
            files == WholeBundle(f, inputs) && WholeCount(inputs.pages) <= 2_000
  {
    BundleSize(f, inputs);
    SameIsEqual(f, Bundle(f, inputs), files);
  }

  /** In every reachable state: the version that was published validates against its
      own inputs and manifest exactly while no file of it was deleted, if it is small
      enough to be compared; a torn one is found different. */
  lemma PublishedVersionsValidate(f: Format, steps: seq<Step>, budget: nat)
    requires CollisionFree(f) && Run(f, steps).Present?
    requires budget >= WholeCount(Run(f, steps).author.pages)
    requires var author := Run(f, steps).author; |f.digest(f.manifest(author.runId, author.pages))| == 32
    ensures var v := Run(f, steps);
            Validate(f, Some(v.files), v.author, f.digest(f.manifest(v.author.runId, v.author.pages)), budget) ==
            if !Torn(f, steps) && WholeCount(v.author.pages) <= 2_000 then ReceiptOf(f, v.author) else Different
  {
    VersionIsAtomic(f, steps);
    var v := Run(f, steps);
    ValidateExactly(f, Some(v.files), v.author, f.digest(f.manifest(v.author.runId, v.author.pages)), budget);
  }

  // ---------------------------------------------------------------------
  // What the files hold
  // ---------------------------------------------------------------------

  /** The page lies directly in the directory. */
  predicate ChildOf(slug: string, directory: string) {
    Above(directory, slug) && '/' !in slug[|directory| + 1..]
  }

  lemma ParentIs(slug: string, directory: string)
    requires Accepted(slug) && directory != ""
    ensures Dir(slug + ".md") == directory <==> ChildOf(slug, directory)
  {
    AcceptedChars(slug);
    var p := slug + ".md";
    DirIsLastSlash(p);
    if Dir(p) == directory {
      assert p[|directory|] == '/';
      assert slug[..|directory| + 1] == p[..|directory| + 1] == directory + "/";
      assert p[|directory| + 1..] == slug[|directory| + 1..] + ".md";
    }
    if ChildOf(slug, directory) { ChildHasParent(slug, directory); }
  }

  lemma ChildHasParent(slug: string, directory: string)
    requires ChildOf(slug, directory) && directory != "" && slug[0] != '/'
    ensures Dir(slug + ".md") == directory
  {
    var p := slug + ".md";
    var name := slug[|directory| + 1..];
    assert p == (directory + "/") + (name + ".md") by { assert slug == slug[..|directory| + 1] + name; }
    LastSlash(directory, name + ".md");
  }

  /** The directory of `d + "/" + name`. */
  lemma {:induction false} LastSlash(d: string, name: string)
    requires '/' !in name
    ensures Dir(d + "/" + name) == d
  {
    var p := d + "/" + name;
    if name == "" {
      assert p[..|p| - 1] == d;
    } else {
      var shorter := name[..|name| - 1];
      assert p[..|p| - 1] == d + "/" + shorter;
      assert p[|p| - 1] == name[|name| - 1] && name[|name| - 1] in name;
      assert forall c :: c in shorter ==> c in name;
      LastSlash(d, shorter);
    }
  }

  /** A directory's index lists exactly the pages that lie directly in it. */
  lemma IndexListsChildren(pages: seq<Page>, directory: string, path: string)
    requires GoodPages(pages) && directory != ""
    ensures path in Children(pages, directory) <==>
            exists i :: 0 <= i < |pages| && path == pages[i].slug + ".md" && ChildOf(pages[i].slug, directory)
  {
    forall i | 0 <= i < |pages| ensures Dir(pages[i].slug + ".md") == directory <==> ChildOf(pages[i].slug, directory) {
      assert Accepted(pages[i].slug);
      ParentIs(pages[i].slug, directory);
    }
  }

  lemma FileIs(f: Format, inputs: Inputs, files: Files, t: Target, path: string, text: string)
    requires Tame(inputs.pages) && files == Bundle(f, inputs) && t in Targets(inputs.pages)
    requires PathText(t) == path && Content(f, inputs, t) == text
    ensures path in files && files[path] == text
  {
    RenderAt(f, inputs, Targets(inputs.pages), t);
  }

  predicate Holds(files: Files, path: string, text: string) { path in files && files[path] == text }

  lemma RootIndexIs(f: Format, inputs: Inputs, files: Files)
    requires Tame(inputs.pages) && files == Bundle(f, inputs)
    ensures Holds(files, "index.md", f.rootIndex(inputs.pages))
  {
    FileIs(f, inputs, files, RootIndex, "index.md", f.rootIndex(inputs.pages));
  }

  lemma ManifestIs(f: Format, inputs: Inputs, files: Files)
    requires Tame(inputs.pages) && files == Bundle(f, inputs)
    ensures Holds(files, ".page-manifest.json", f.manifest(inputs.runId, inputs.pages))
  {
    FileIs(f, inputs, files, Manifest, ".page-manifest.json", f.manifest(inputs.runId, inputs.pages));
  }

  lemma LastUpdateIs(f: Format, inputs: Inputs, files: Files)
    requires Tame(inputs.pages) && files == Bundle(f, inputs)
    ensures Holds(files, ".last-update.json", f.lastUpdate(inputs.runId, inputs.revisions))
  {
    FileIs(f, inputs, files, LastUpdate, ".last-update.json", f.lastUpdate(inputs.runId, inputs.revisions));
  }

  lemma LogIs(f: Format, inputs: Inputs, files: Files)
    requires Tame(inputs.pages) && files == Bundle(f, inputs)
    ensures Holds(files, "log.md", f.updateLog)
  {
    FileIs(f, inputs, files, UpdateLog, "log.md", f.updateLog);
  }

  /** The generated files of a bundle: root index, manifest and the two records, each
      with the text made for it. */
  lemma GeneratedFilesReadBack(f: Format, inputs: Inputs)
    requires GoodPages(inputs.pages)
    ensures Holds(WholeBundle(f, inputs), "index.md", f.rootIndex(inputs.pages))
    ensures Holds(WholeBundle(f, inputs), ".page-manifest.json", f.manifest(inputs.runId, inputs.pages))
    ensures Holds(WholeBundle(f, inputs), ".last-update.json", f.lastUpdate(inputs.runId, inputs.revisions))
    ensures Holds(WholeBundle(f, inputs), "log.md", f.updateLog)
  {
    GoodIsTame(inputs.pages);
    var files := WholeBundle(f, inputs);
    RootIndexIs(f, inputs, files);
    ManifestIs(f, inputs, files);
    LastUpdateIs(f, inputs, files);
    LogIs(f, inputs, files);
  }

  /** Every directory above a page has its index. */
  lemma IndexesReadBack(f: Format, inputs: Inputs, files: Files, directory: string)
    requires GoodPages(inputs.pages) && files == WholeBundle(f, inputs)
    requires exists i :: 0 <= i < |inputs.pages| && Above(directory, inputs.pages[i].slug)
    ensures Holds(files, directory + "/index.md", f.listing(directory, Children(inputs.pages, directory)))
  {
    GoodIsTame(inputs.pages);
    var i :| 0 <= i < |inputs.pages| && Above(directory, inputs.pages[i].slug);
    AboveIsDirectory(directory, inputs.pages[i].slug);
    assert DirIndex(directory) in IndexFiles(inputs.pages);
    FileIs(f, inputs, files, DirIndex(directory), directory + "/index.md",
           f.listing(directory, Children(inputs.pages, directory)));
  }
}
