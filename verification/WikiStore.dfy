/** One wiki version on disk (internal/artifacts/wiki.go): Publish, Validate and
    Discard under the version's lock, and what any run of them keeps. */
module WikiStore {
  import opened Text
  import opened Sequences
  import opened BundlePaths
  import opened Wiki

  datatype Result = Ok(manifestDigest: string, pageCount: nat) | Invalid | Different | NotFound | Stale | Crashed

  // ---------------------------------------------------------------------
  // Comparing bundles
  // ---------------------------------------------------------------------

  /** `assertSameBundle`: both within the file limit, same paths, same digests. */
  ghost predicate SameBundle(f: Format, expected: Files, retained: Files) {
    && |expected| <= MAX_FILES && |retained| <= MAX_FILES
    && expected.Keys == retained.Keys
    && forall p :: p in expected ==> f.digest(expected[p]) == f.digest(retained[p])
  }

  lemma SameSize(a: set<string>, b: set<string>)
    requires a <= b && |a| == |b|
    ensures a == b
  {
    assert b == a + (b - a);
  }

  /** The comparison loop. */
  method AssertSameBundle(f: Format, expected: Files, retained: Files) returns (same: bool)
    ensures same <==> SameBundle(f, expected, retained)
  {
    if |expected| > MAX_FILES || |retained| > MAX_FILES { return false; }
    if |expected| != |retained| {
      assert |expected.Keys| != |retained.Keys|;
      return false;
    }
    var rest := expected.Keys;
    while rest != {}
      invariant rest <= expected.Keys
      invariant forall p :: p in expected.Keys - rest ==>
                  p in retained && f.digest(expected[p]) == f.digest(retained[p])
      decreases |rest|
    {
      var p :| p in rest;
      if p !in retained { return false; }
      if f.digest(expected[p]) != f.digest(retained[p]) { return false; }
      rest := rest - {p};
    }
    assert |expected.Keys| == |retained.Keys|;
    SameSize(expected.Keys, retained.Keys);
    same := true;
  }

  /** Distinct contents have distinct digests. */
  ghost predicate CollisionFree(f: Format) {
    forall a, b :: f.digest(a) == f.digest(b) ==> a == b
  }

  lemma SameIsEqual(f: Format, expected: Files, retained: Files)
    requires CollisionFree(f)
    ensures SameBundle(f, expected, retained) <==> expected == retained && |expected| <= MAX_FILES
  {
    if SameBundle(f, expected, retained) {
      forall p | p in expected ensures expected[p] == retained[p] {
        assert f.digest(expected[p]) == f.digest(retained[p]);
      }
    }
  }

  // ---------------------------------------------------------------------
  // The operations as functions of the version's directory
  // ---------------------------------------------------------------------

  /** Slugs and claims pass `validateWikiInputs`. */
  ghost predicate Checked(f: Format, inputs: Inputs) {
    GoodPages(inputs.pages) && Tame(inputs.pages) && f.claimsOk(inputs.pages)
  }

  /** Everything `Publish` checks before it looks at the destination. */
  ghost predicate Publishable(f: Format, inputs: Inputs) {
    Checked(f, inputs) && f.linksOk(Render(f, inputs, Known(inputs.pages)))
  }

  const DIGEST_BYTES := 32

  function Receipt(f: Format, inputs: Inputs): Result {
    Ok(f.digest(f.manifest(inputs.runId, inputs.pages)), |inputs.pages|)
  }

  /** `Publish`: the bundle is staged, then compared or renamed. */
  ghost function Publish(f: Format, version: Option<Files>, inputs: Inputs, budget: nat): (Option<Files>, Result) {
    if !Checked(f, inputs) then (version, Invalid)
    else match Staged(f, inputs, budget)
      case Complete =>
        if version.Some? then
          (version, if SameBundle(f, Bundle(f, inputs), version.value) then Receipt(f, inputs) else Different)
        else if budget == FileCount(inputs.pages) then (version, Crashed)
        else (Some(Bundle(f, inputs)), Receipt(f, inputs))
      case BadLinks => (version, Invalid)
      case _ => (version, Crashed)
  }

  /** `Validate` changes nothing but leftovers of staging. */
  ghost function Validate(f: Format, version: Option<Files>, inputs: Inputs, expected: string, budget: nat): Result {
    if |expected| != DIGEST_BYTES || !Checked(f, inputs) then Invalid
    else if version.None? then NotFound
    else match Staged(f, inputs, budget)
      case Complete =>
        if f.digest(f.manifest(inputs.runId, inputs.pages)) != expected then Stale
        else if SameBundle(f, Bundle(f, inputs), version.value) then Receipt(f, inputs) else Different
      case BadLinks => Invalid
      case _ => Crashed
  }

  /** The receipt's digest is that of the manifest file in the bundle. */
  lemma ManifestIsWritten(f: Format, inputs: Inputs)
    requires Tame(inputs.pages)
    ensures ".page-manifest.json" in Bundle(f, inputs)
    ensures Receipt(f, inputs) == Ok(f.digest(Bundle(f, inputs)[".page-manifest.json"]), |inputs.pages|)
  {
    RenderAt(f, inputs, Targets(inputs.pages), Manifest);
  }

  /** The digest of the manifest as read from the staged files. */
  method ManifestDigest(f: Format, inputs: Inputs, files: Files) returns (digest: string)
    requires Tame(inputs.pages) && files == Bundle(f, inputs)
    ensures Receipt(f, inputs) == Ok(digest, |inputs.pages|)
  {
    ManifestIsWritten(f, inputs);
    digest := f.digest(files[".page-manifest.json"]);
  }

  /** What `ReadPage` and `ReadClaims` find in a bundle is what the page was
      published with. */
  lemma PagesReadBack(f: Format, inputs: Inputs, i: nat)
    requires Tame(inputs.pages) && i < |inputs.pages|
    ensures var page, files := inputs.pages[i], Bundle(f, inputs);
            && page.slug + ".md" in files && files[page.slug + ".md"] == page.markdown
            && ".claims/" + page.slug + ".json" in files && files[".claims/" + page.slug + ".json"] == page.claims
  {
    var page := inputs.pages[i];
    RenderAt(f, inputs, Targets(inputs.pages), PageFile(page));
    RenderAt(f, inputs, Targets(inputs.pages), ClaimsFile(page));
  }

  class WikiVersion {
    var version: Option<Files>
    /** Directories left behind by writes that were cut short. */
    var staging: seq<Files>

    constructor ()
      ensures version == None && staging == []
    {
      version, staging := None, [];
    }

    method Prepare(f: Format, inputs: Inputs, budget: nat) returns (status: Option<Written>, files: Files)
      modifies this`staging
      ensures status.Some? <==> Checked(f, inputs)
      ensures status.Some? ==> status.value == Staged(f, inputs, budget)
      ensures status == Some(Complete) ==> files == Bundle(f, inputs)
      ensures staging == if status == Some(Cut) then [files] else if status.Some? then [] else old(staging)
    {
      files := map[];
      var good := ValidateSlugs(inputs.pages);
      if !good || !f.claimsOk(inputs.pages) { return None, files; }
      staging := [];
      var dir := new Directory();
      var written := WriteBundle(dir, f, inputs, budget);
      files := dir.files;
      status := Some(written);
      if written.Cut? { staging := [files]; }
    }

    method PublishVersion(f: Format, inputs: Inputs, budget: nat) returns (r: Result)
      modifies this
      ensures (version, r) == Publish(f, old(version), inputs, budget)
      ensures r.Ok? || r.Different? ==> staging == []
    {
      var status, files := Prepare(f, inputs, budget);
      if status.None? || status.value.BadLinks? { return Invalid; }
      if !status.value.Complete? { return Crashed; }
      var digest := ManifestDigest(f, inputs, files);
      if version.Some? {
        var same := AssertSameBundle(f, files, version.value);
        return if same then Ok(digest, |inputs.pages|) else Different;
      }
      if budget == FileCount(inputs.pages) {
        staging := [files];
        return Crashed;
      }
      version := Some(files);
      r := Ok(digest, |inputs.pages|);
    }

    method ValidateVersion(f: Format, inputs: Inputs, expected: string, budget: nat) returns (r: Result)
      modifies this`staging
      ensures r == Validate(f, version, inputs, expected, budget)
    {
      var good := ValidateSlugs(inputs.pages);
      if |expected| != DIGEST_BYTES || !good || !f.claimsOk(inputs.pages) { return Invalid; }
      GoodIsTame(inputs.pages);
      if version.None? { return NotFound; }
      var status, files := Prepare(f, inputs, budget);
      if status.None? || status.value.BadLinks? { return Invalid; }
      if !status.value.Complete? { return Crashed; }
      var digest := ManifestDigest(f, inputs, files);
      if digest != expected { return Stale; }
      var same := AssertSameBundle(f, files, version.value);
      r := if same then Ok(digest, |inputs.pages|) else Different;
    }

    /** `Discard`: files go one by one in no particular order, the directory last. */
    method Discard(budget: nat) returns (finished: bool)
      modifies this
      ensures finished <==> old(version).None? || |old(version).value| < budget
      ensures finished ==> version == None
      ensures !finished ==>
                && version.Some? && version.value.Keys <= old(version).value.Keys
                && (forall p :: p in version.value ==> version.value[p] == old(version).value[p])
                && |version.value| == |old(version).value| - budget
    {
      staging := [];
      if version.None? { return true; }
      var left := budget;
      while version.value != map[]
        invariant version.Some? && version.value.Keys <= old(version).value.Keys
        invariant forall p :: p in version.value ==> version.value[p] == old(version).value[p]
        invariant left >= 0 && |version.value| == |old(version).value| - (budget - left)
        decreases |version.value|
      {
        if left == 0 { return false; }
        var p :| p in version.value;
        assert (version.value - {p}).Keys == version.value.Keys - {p};
        assert |(version.value - {p}).Keys| == |version.value.Keys| - 1;
        version := Some(version.value - {p});
        left := left - 1;
      }
      if left == 0 { return false; }
      version := None;
      finished := true;
    }
  }

  // ---------------------------------------------------------------------
  // The size of a bundle
  // ---------------------------------------------------------------------

  lemma {:induction false} RenderSize(f: Format, inputs: Inputs, done: set<Target>)
    requires Tame(inputs.pages) && done <= Targets(inputs.pages)
    ensures |Render(f, inputs, done)| == |done|
  {
    if done == {} {
      assert Render(f, inputs, done) == map[];
    } else {
      var t :| t in done;
      RenderSize(f, inputs, done - {t});
      RenderOne(f, inputs, done - {t}, t);
      assert done - {t} + {t} == done;
    }
  }

  lemma {:induction false} ElementsSize(list: seq<Target>)
    requires Distinct(list)
    ensures |Elements(list)| == |list|
  {
    if list != [] {
      var init, last := list[..|list| - 1], list[|list| - 1];
      ElementsSize(init);
      assert list == init + [last];
      ElementsSnoc(init, last);
    }
  }

  lemma {:induction false} IndexesSize(directories: set<string>)
    ensures |(set d | d in directories :: DirIndex(d))| == |directories|
  {
    if directories != {} {
      var d :| d in directories;
      IndexesSize(directories - {d});
      assert (set x | x in directories :: DirIndex(x)) ==
             (set x | x in directories - {d} :: DirIndex(x)) + {DirIndex(d)};
    }
  }

  lemma UnionSize(a: set<Target>, b: set<Target>)
    requires a !! b
    ensures |a + b| == |a| + |b|
  {}

  lemma PageFilesSize(pages: seq<Page>)
    requires Tame(pages)
    ensures |PageFiles(pages) + ClaimsFiles(pages)| == 2 * |pages|
  {
    PageListIsPages(pages);
    ElementsSize(PageList(pages));
  }

  lemma SortsAreDisjoint(pages: seq<Page>)
    ensures (PageFiles(pages) + ClaimsFiles(pages)) !! IndexFiles(pages)
    ensures (PageFiles(pages) + ClaimsFiles(pages) + IndexFiles(pages)) !! FIXED
  {}

  lemma SortsAddUp(pages: seq<Page>, a: set<Target>, b: set<Target>)
    requires a == PageFiles(pages) + ClaimsFiles(pages) && b == IndexFiles(pages)
    ensures |Targets(pages)| == |a| + |b| + 4
  {
    SortsAreDisjoint(pages);
    UnionSize(a, b);
    UnionSize(a + b, FIXED);
  }

  lemma TargetsSize(pages: seq<Page>)
    requires Tame(pages)
    ensures |Targets(pages)| == FileCount(pages)
  {
    PageFilesSize(pages);
    IndexesSize(Directories(pages));
    SortsAddUp(pages, PageFiles(pages) + ClaimsFiles(pages), IndexFiles(pages));
  }

  /** A bundle holds two files a page, one a directory, and four more. */
  lemma BundleSize(f: Format, inputs: Inputs)
    requires Tame(inputs.pages)
    ensures |Bundle(f, inputs)| == 2 * |inputs.pages| + |Directories(inputs.pages)| + 4 == FileCount(inputs.pages)
  {
    RenderSize(f, inputs, Targets(inputs.pages));
    TargetsSize(inputs.pages);
  }

  // ---------------------------------------------------------------------
  // One publication
  // ---------------------------------------------------------------------

  /** A first publication that is not cut short installs the whole bundle, of
      whatever size. */
  lemma FirstPublication(f: Format, inputs: Inputs, budget: nat)
    requires Publishable(f, inputs) && budget > FileCount(inputs.pages)
    ensures Publish(f, None, inputs, budget) == (Some(Bundle(f, inputs)), Receipt(f, inputs))
  {}

  /** A later publication never changes the version; it is accepted exactly when
      the content is the same and small enough to be compared. */
  lemma LaterPublication(f: Format, inputs: Inputs, retained: Files, budget: nat)
    requires Publishable(f, inputs) && CollisionFree(f) && budget >= FileCount(inputs.pages)
    ensures Publish(f, Some(retained), inputs, budget) ==
            (Some(retained),
             if retained == Bundle(f, inputs) && 2 * |inputs.pages| + |Directories(inputs.pages)| + 4 <= 2_000
             then Receipt(f, inputs) else Different)
  {
    BundleSize(f, inputs);
    SameIsEqual(f, Bundle(f, inputs), retained);
  }

  // ---------------------------------------------------------------------
  // Runs
  // ---------------------------------------------------------------------

  /** What happens to the version's directory: a publication, cut short or not, or
      one step of a discard, itself cut short anywhere. */
  datatype Step = Publication(inputs: Inputs, budget: nat) | Remove(path: string) | RemoveDirectory

  /** The directory, with the inputs it was last published from. */
  datatype Version = Absent | Present(author: Inputs, files: Files)

  function Disk(v: Version): Option<Files> {
    if v.Absent? then None else Some(v.files)
  }

  ghost function Apply(f: Format, v: Version, step: Step): Version {
    match step
    case Publication(inputs, budget) =>
      var (after, _) := Publish(f, Disk(v), inputs, budget);
      if v.Absent? && after.Some? then Present(inputs, after.value) else v
    case Remove(path) => if v.Present? then Present(v.author, v.files - {path}) else v
    case RemoveDirectory => if v.Present? && v.files == map[] then Absent else v
  }

  ghost function Run(f: Format, steps: seq<Step>): Version
    decreases |steps|
  {
    if steps == [] then Absent else Apply(f, Run(f, steps[..|steps| - 1]), steps[|steps| - 1])
  }

  /** Whether a file was deleted since the version appeared, one step later. */
  ghost predicate TornAfter(f: Format, v: Version, torn: bool, step: Step) {
    Apply(f, v, step).Present? && (torn || (step.Remove? && v.Present? && step.path in v.files))
  }

  /** Some file was deleted since the version appeared. */
  ghost predicate Torn(f: Format, steps: seq<Step>)
    decreases |steps|
  {
    steps != [] &&
    var before := steps[..|steps| - 1];
    TornAfter(f, Run(f, before), Torn(f, before), steps[|steps| - 1])
  }

  /** A subset of the author's bundle, with unchanged contents. */
  ghost predicate PartOf(f: Format, v: Version) {
    && v.Present? && Publishable(f, v.author)
    && v.files.Keys <= Bundle(f, v.author).Keys
    && forall p :: p in v.files ==> v.files[p] == Bundle(f, v.author)[p]
  }

  ghost predicate Whole(f: Format, v: Version) {
    v.Present? && Publishable(f, v.author) && v.files == Bundle(f, v.author)
  }

  lemma PublicationKeeps(f: Format, v: Version, inputs: Inputs, budget: nat)
    ensures var v' := Apply(f, v, Publication(inputs, budget)); v' == v || (v.Absent? && Whole(f, v'))
  {}

  lemma RemovalShrinks(f: Format, v: Version, path: string)
    requires PartOf(f, v)
    ensures PartOf(f, v.(files := v.files - {path}))
    ensures Whole(f, v.(files := v.files - {path})) <==> Whole(f, v) && path !in v.files
  {
    var files := v.files - {path};
    if path in v.files {
      assert path in Bundle(f, v.author).Keys && path !in files.Keys;
    } else {
      assert files == v.files;
    }
  }

  ghost predicate Consistent(f: Format, v: Version, torn: bool) {
    if v.Present? then PartOf(f, v) && (Whole(f, v) <==> !torn) else !torn
  }

  lemma StepIsConsistent(f: Format, v: Version, torn: bool, step: Step)
    requires Consistent(f, v, torn)
    ensures Consistent(f, Apply(f, v, step), TornAfter(f, v, torn, step))
  {
    match step
    case Publication(inputs, budget) => PublicationKeeps(f, v, inputs, budget);
    case Remove(path) => if v.Present? { RemovalShrinks(f, v, path); }
    case RemoveDirectory =>
  }

  lemma {:induction false} RunIsConsistent(f: Format, steps: seq<Step>)
    ensures Consistent(f, Run(f, steps), Torn(f, steps))
    decreases |steps|
  {
    if steps != [] {
      var before := steps[..|steps| - 1];
      RunIsConsistent(f, before);
      StepIsConsistent(f, Run(f, before), Torn(f, before), steps[|steps| - 1]);
    }
  }

  /** Atomicity, in every reachable state: the version is absent, or part of the
      bundle of one single accepted publication; and it is all of that bundle
      exactly when no file was deleted since. */
  lemma {:induction false} VersionIsAtomic(f: Format, steps: seq<Step>)
    ensures var v := Run(f, steps); v.Present? ==> PartOf(f, v) && (Whole(f, v) <==> !Torn(f, steps))
  {
    RunIsConsistent(f, steps);
  }

  /** Without discards every version present is whole. */
  lemma {:induction false} UntouchedIsWhole(f: Format, steps: seq<Step>)
    requires forall i :: 0 <= i < |steps| ==> steps[i].Publication?
    ensures Run(f, steps).Present? ==> Whole(f, Run(f, steps))
    ensures !Torn(f, steps)
    decreases |steps|
  {
    if steps != [] {
      UntouchedIsWhole(f, steps[..|steps| - 1]);
      PublicationKeeps(f, Run(f, steps[..|steps| - 1]), steps[|steps| - 1].inputs, steps[|steps| - 1].budget);
    }
  }

  /** A discard cut short strands the version: the same inputs are refused until a
      discard runs to its end, after which they can be published again. */
  lemma TornVersionIsRefused(f: Format, steps: seq<Step>, budget: nat)
    requires CollisionFree(f) && Torn(f, steps) && budget > FileCount(Run(f, steps).author.pages)
    ensures var v := Run(f, steps);
            && Publish(f, Disk(v), v.author, budget) == (Disk(v), Different)
            && Publish(f, None, v.author, budget) == (Some(Bundle(f, v.author)), Receipt(f, v.author))
  {
    VersionIsAtomic(f, steps);
    var v := Run(f, steps);
    LaterPublication(f, v.author, v.files, budget);
    FirstPublication(f, v.author, budget);
  }

  /** The claim "absent or whole after any crash" fails for discards: deleting any
      one file of a fresh version is such a crash. */
  lemma CutShortDiscardTears(f: Format, inputs: Inputs, path: string, budget: nat)
    requires Publishable(f, inputs) && budget > FileCount(inputs.pages) && path in Bundle(f, inputs)
    ensures var v := Run(f, [Publication(inputs, budget), Remove(path)]); v.Present? && !Whole(f, v)
  {
    var steps := [Publication(inputs, budget), Remove(path)];
    assert steps[..1] == [Publication(inputs, budget)];
    assert steps[..1][..0] == [];
    FirstPublication(f, inputs, budget);
    assert Run(f, steps[..1]) == Present(inputs, Bundle(f, inputs));
    assert Torn(f, steps);
    VersionIsAtomic(f, steps);
  }
}
