/** Wiki versions (internal/artifacts/wiki.go): a bundle is staged file by file,
    renamed into place, compared on a second publication, and discarded file by
    file. `budget` counts the file operations left before a crash. */
module Wiki {
  import opened Sequences
  import opened BundlePaths
  import Slug

  type Files = map<string, string>
  type Revision = map<string, string>

  datatype Inputs = Inputs(runId: string, pages: seq<Page>, revisions: seq<Revision>)

  /** The texts of the generated files, the checks on claims and links, and the
      digest, all deterministic functions of what they are given. */
  datatype Format = Format(
    listing: (string, set<string>) -> string,
    rootIndex: seq<Page> -> string,
    manifest: (string, seq<Page>) -> string,
    lastUpdate: (string, seq<Revision>) -> string,
    updateLog: string,
    claimsOk: seq<Page> -> bool,
    linksOk: Files -> bool,
    digest: string -> string)

  const MAX_FILES := 2000

  // ---------------------------------------------------------------------
  // The bundle of a page set
  // ---------------------------------------------------------------------

  function PagePaths(pages: seq<Page>): seq<string> {
    seq(|pages|, i requires 0 <= i < |pages| => pages[i].slug + ".md")
  }

  /** The pages listed in a directory index: its direct children only. */
  function Children(pages: seq<Page>, directory: string): set<string> {
    set i | 0 <= i < |pages| && Dir(pages[i].slug + ".md") == directory :: pages[i].slug + ".md"
  }

  function Content(f: Format, inputs: Inputs, t: Target): string {
    match t
    case PageFile(page) => page.markdown
    case ClaimsFile(page) => page.claims
    case DirIndex(directory) => f.listing(directory, Children(inputs.pages, directory))
    case RootIndex => f.rootIndex(inputs.pages)
    case Manifest => f.manifest(inputs.runId, inputs.pages)
    case LastUpdate => f.lastUpdate(inputs.runId, inputs.revisions)
    case UpdateLog => f.updateLog
  }

  /** The files of some targets of a bundle. */
  ghost function Render(f: Format, inputs: Inputs, done: set<Target>): Files
    requires Tame(inputs.pages) && done <= Targets(inputs.pages)
  {
    DistinctPaths(inputs.pages, done);
    map t | t in done :: PathText(t) := Content(f, inputs, t)
  }

  lemma DistinctPaths(pages: seq<Page>, done: set<Target>)
    requires Tame(pages) && done <= Targets(pages)
    ensures forall t, u :: t in done && u in done && PathText(t) == PathText(u) ==> t == u
  {
    forall t, u | t in done && u in done && PathText(t) == PathText(u) ensures t == u {
      PathsAreDistinct(pages, t, u);
    }
  }

  ghost function Bundle(f: Format, inputs: Inputs): Files
    requires Tame(inputs.pages)
  {
    Render(f, inputs, Targets(inputs.pages))
  }

  /** The files that exist when links are checked. */
  function Known(pages: seq<Page>): set<Target> {
    PageFiles(pages) + ClaimsFiles(pages) + IndexFiles(pages) + {RootIndex}
  }

  function KnownCount(pages: seq<Page>): nat { 2 * |pages| + |Directories(pages)| + 1 }
  function FileCount(pages: seq<Page>): nat { KnownCount(pages) + 3 }

  lemma RenderAt(f: Format, inputs: Inputs, done: set<Target>, t: Target)
    requires Tame(inputs.pages) && done <= Targets(inputs.pages) && t in done
    ensures PathText(t) in Render(f, inputs, done) && Render(f, inputs, done)[PathText(t)] == Content(f, inputs, t)
  {
    DistinctPaths(inputs.pages, done);
  }

  lemma PathIsNew(f: Format, inputs: Inputs, done: set<Target>, t: Target)
    requires Tame(inputs.pages) && done <= Targets(inputs.pages) && t in Targets(inputs.pages) && t !in done
    ensures PathText(t) !in Render(f, inputs, done)
  {
    forall u | u in done ensures PathText(u) != PathText(t) {
      if PathText(u) == PathText(t) { PathsAreDistinct(inputs.pages, u, t); }
    }
  }

  lemma RenderOne(f: Format, inputs: Inputs, done: set<Target>, t: Target)
    requires Tame(inputs.pages) && done <= Targets(inputs.pages) && t in Targets(inputs.pages) && t !in done
    ensures PathText(t) !in Render(f, inputs, done)
    ensures Render(f, inputs, done + {t}) == Render(f, inputs, done)[PathText(t) := Content(f, inputs, t)]
  {
    PathIsNew(f, inputs, done, t);
    var before, after := Render(f, inputs, done), Render(f, inputs, done + {t});
    forall p | p in after ensures p in before[PathText(t) := Content(f, inputs, t)] {
      var u :| u in done + {t} && PathText(u) == p;
    }
    forall u | u in done + {t} ensures after[PathText(u)] == Content(f, inputs, u) {
      RenderAt(f, inputs, done + {t}, u);
    }
    forall u | u in done ensures before[PathText(u)] == Content(f, inputs, u) { RenderAt(f, inputs, done, u); }
  }

  lemma RenderIsFree(f: Format, inputs: Inputs, done: set<Target>, t: Target)
    requires Tame(inputs.pages) && done <= Targets(inputs.pages) && t in Targets(inputs.pages) && t !in done
    ensures Free(Render(f, inputs, done), PathText(t))
  {
    RenderOne(f, inputs, done, t);
    var files := Render(f, inputs, done);
    forall d | d in Dirs(PathText(t)) ensures d !in files {
      if d in files {
        var u :| u in done && PathText(u) == d;
        FilesAreNotDirectories(inputs.pages, u, t);
      }
    }
    forall q | q in files ensures PathText(t) !in Dirs(q) {
      var u :| u in done && PathText(u) == q;
      FilesAreNotDirectories(inputs.pages, t, u);
    }
  }

  // ---------------------------------------------------------------------
  // Writing the bundle
  // ---------------------------------------------------------------------

  /** Nothing stands at `path`, above it or below it. */
  predicate Free(files: Files, path: string) {
    path !in files && (forall d :: d in Dirs(path) ==> d !in files) && (forall q :: q in files ==> path !in Dirs(q))
  }

  class Directory {
    var files: Files

    constructor ()
      ensures files == map[]
    {
      files := map[];
    }

    /** `writeBundleFile`: parents are made and the file is created exclusively. */
    method Create(path: string, content: string) returns (ok: bool)
      modifies this
      ensures ok <==> Free(old(files), path)
      ensures files == if ok then old(files)[path := content] else old(files)
    {
      ok := Free(files, path);
      if ok { files := files[path := content]; }
    }
  }

  datatype Written = Complete | Cut | BadLinks | Collision

  /** How far writing gets; a collision is not among the possibilities. */
  ghost function Staged(f: Format, inputs: Inputs, budget: nat): Written
    requires Tame(inputs.pages)
  {
    if budget < KnownCount(inputs.pages) then Cut
    else if !f.linksOk(Render(f, inputs, Known(inputs.pages))) then BadLinks
    else if budget < FileCount(inputs.pages) then Cut
    else Complete
  }

  ghost predicate Progress(f: Format, inputs: Inputs, files: Files, done: set<Target>) {
    Tame(inputs.pages) && done <= Targets(inputs.pages) && files == Render(f, inputs, done)
  }

  /** One exclusive creation, which always succeeds. */
  method Put(dir: Directory, f: Format, inputs: Inputs, t: Target, ghost done: set<Target>) returns (ok: bool)
    requires Progress(f, inputs, dir.files, done) && t in Targets(inputs.pages) && t !in done
    modifies dir
    ensures ok && Progress(f, inputs, dir.files, done + {t})
  {
    RenderOne(f, inputs, done, t);
    RenderIsFree(f, inputs, done, t);
    ok := dir.Create(PathText(t), Content(f, inputs, t));
  }

  function Elements(list: seq<Target>): set<Target> { set i | 0 <= i < |list| :: list[i] }

  /** A duplicate-free list of some of the bundle's files not yet written. */
  ghost predicate Pending(pages: seq<Page>, done: set<Target>, list: seq<Target>) {
    Distinct(list) && Elements(list) <= Targets(pages) && Elements(list) !! done
  }

  lemma PendingStep(pages: seq<Page>, done: set<Target>, list: seq<Target>)
    requires Pending(pages, done, list) && list != []
    ensures list[0] in Targets(pages) && list[0] !in done
    ensures Pending(pages, done + {list[0]}, list[1..])
    ensures done + Elements(list) == done + {list[0]} + Elements(list[1..])
  {
    assert list[0] in Elements(list);
    assert forall i :: 0 <= i < |list[1..]| ==> list[1..][i] == list[i + 1] && list[i + 1] in Elements(list);
    forall t | t in Elements(list) ensures t == list[0] || t in Elements(list[1..]) {
      var i :| 0 <= i < |list| && list[i] == t;
      if i > 0 { assert list[1..][i - 1] == t; }
    }
  }

  /** The files of `list` one after the other, as far as the budget reaches. */
  method WriteList(dir: Directory, f: Format, inputs: Inputs, list: seq<Target>, budget: nat, ghost done: set<Target>)
    returns (cut: bool)
    requires Progress(f, inputs, dir.files, done) && Pending(inputs.pages, done, list)
    modifies dir
    ensures cut <==> budget < |list|
    ensures !cut ==> Progress(f, inputs, dir.files, done + Elements(list))
  {
    var rest, left := list, budget;
    ghost var sofar := done;
    while rest != []
      invariant Progress(f, inputs, dir.files, sofar) && Pending(inputs.pages, sofar, rest)
      invariant sofar + Elements(rest) == done + Elements(list)
      invariant left >= 0 && left - |rest| == budget - |list|
      decreases |rest|
    {
      PendingStep(inputs.pages, sofar, rest);
      if left == 0 { return true; }
      var created := Put(dir, f, inputs, rest[0], sofar);
      sofar := sofar + {rest[0]};
      rest, left := rest[1..], left - 1;
    }
    assert sofar + Elements(rest) == sofar;
    cut := false;
  }

  function PageList(pages: seq<Page>): seq<Target> {
    seq(2 * |pages|, i requires 0 <= i < 2 * |pages| =>
          if i % 2 == 0 then PageFile(pages[i / 2]) else ClaimsFile(pages[i / 2]))
  }

  lemma PageListIsPages(pages: seq<Page>)
    requires Tame(pages)
    ensures Distinct(PageList(pages)) && Elements(PageList(pages)) == PageFiles(pages) + ClaimsFiles(pages)
  {
    var list := PageList(pages);
    forall i, j | 0 <= i < j < |list| ensures list[i] != list[j] {
      if i / 2 < j / 2 { assert pages[i / 2].slug != pages[j / 2].slug; }
    }
    forall k | 0 <= k < |pages| ensures PageFile(pages[k]) in Elements(list) && ClaimsFile(pages[k]) in Elements(list) {
      assert list[2 * k] == PageFile(pages[k]) && list[2 * k + 1] == ClaimsFile(pages[k]);
    }
  }

  /** The directories in some order, as index files. */
  method Enumerate(directories: set<string>) returns (list: seq<Target>)
    ensures Distinct(list) && Elements(list) == (set d | d in directories :: DirIndex(d)) && |list| == |directories|
  {
    var rest := directories;
    list := [];
    while rest != {}
      invariant rest <= directories && |list| == |directories| - |rest|
      invariant Distinct(list) && Elements(list) == set d | d in directories - rest :: DirIndex(d)
      decreases |rest|
    {
      var d :| d in rest;
      assert DirIndex(d) !in Elements(list);
      ElementsSnoc(list, DirIndex(d));
      DistinctSnoc(list, DirIndex(d));
      assert directories - (rest - {d}) == (directories - rest) + {d};
      list, rest := list + [DirIndex(d)], rest - {d};
    }
    assert directories - rest == directories;
  }

  lemma DistinctSnoc(list: seq<Target>, t: Target)
    requires Distinct(list) && t !in Elements(list)
    ensures Distinct(list + [t])
  {}

  method ListIndexes(pages: seq<Page>) returns (list: seq<Target>)
    requires GoodPages(pages)
    ensures Distinct(list) && Elements(list) == IndexFiles(pages) && |list| == |Directories(pages)|
  {
    PagePathsStartPlain(pages);
    var directories := CollectDirectories(PagePaths(pages));
    DirectoriesOfPaths(pages);
    list := Enumerate(directories);
  }

  lemma ElementsSnoc(list: seq<Target>, t: Target)
    ensures Elements(list + [t]) == Elements(list) + {t}
  {
    ElementsConcat(list, [t]);
    assert [t][0] == t;
    assert Elements([t]) == {t};
  }

  lemma ElementsConcat(a: seq<Target>, b: seq<Target>)
    ensures Elements(a + b) == Elements(a) + Elements(b)
  {
    forall t | t in Elements(a) + Elements(b) ensures t in Elements(a + b) {
      if t in Elements(a) {
        var i :| 0 <= i < |a| && a[i] == t;
        assert (a + b)[i] == t;
      } else {
        var i :| 0 <= i < |b| && b[i] == t;
        assert (a + b)[|a| + i] == t;
      }
    }
  }

  lemma DistinctConcat(a: seq<Target>, b: seq<Target>)
    requires Distinct(a) && Distinct(b) && Elements(a) !! Elements(b)
    ensures Distinct(a + b)
  {
    forall i, j | 0 <= i < |a| && 0 <= j < |b| ensures a[i] != b[j] {
      assert a[i] in Elements(a) && b[j] in Elements(b);
    }
  }

  lemma PagePathsStartPlain(pages: seq<Page>)
    requires GoodPages(pages)
    ensures forall i :: 0 <= i < |PagePaths(pages)| ==> PagePaths(pages)[i] != "" && PagePaths(pages)[i][0] != '/'
  {
    forall i | 0 <= i < |pages| ensures PagePaths(pages)[i] != "" && PagePaths(pages)[i][0] != '/' {
      assert Slug.Accepted(pages[i].slug);
      assert Slug.GoodShape(pages[i].slug);
      assert PagePaths(pages)[i][0] == pages[i].slug[0];
    }
  }

  lemma DirectoriesOfPaths(pages: seq<Page>)
    ensures AllDirs(PagePaths(pages)) == Directories(pages)
  {
    var paths := PagePaths(pages);
    forall i | 0 <= i < |pages| ensures Dirs(paths[i]) == Dirs(pages[i].slug) { DirsOfPagePath(pages[i].slug); }
    assert forall d :: d in AllDirs(paths) ==> d in Directories(pages);
    assert forall d :: d in Directories(pages) ==> d in AllDirs(paths);
  }

  lemma KnownIsPending(pages: seq<Page>, indexes: seq<Target>)
    requires Tame(pages) && Distinct(indexes) && Elements(indexes) == IndexFiles(pages)
    ensures var known := PageList(pages) + indexes + [RootIndex];
            Elements(known) == Known(pages) && Pending(pages, {}, known)
  {
    PageListIsPages(pages);
    DistinctConcat(PageList(pages), indexes);
    ElementsConcat(PageList(pages), indexes);
    DistinctConcat(PageList(pages) + indexes, [RootIndex]);
    ElementsSnoc(PageList(pages) + indexes, RootIndex);
  }

  const RECORDS: seq<Target> := [Manifest, LastUpdate, UpdateLog]

  lemma RecordsArePending(pages: seq<Page>)
    ensures Pending(pages, Known(pages), RECORDS) && Known(pages) + Elements(RECORDS) == Targets(pages)
  {
    assert Elements(RECORDS) == {Manifest, LastUpdate, UpdateLog} by {
      assert RECORDS[0] == Manifest && RECORDS[1] == LastUpdate && RECORDS[2] == UpdateLog;
    }
  }

  /** `writeBundle` into an empty directory. Exclusive creation never collides,
      and a complete write leaves exactly the bundle. */
  method WriteBundle(dir: Directory, f: Format, inputs: Inputs, budget: nat) returns (status: Written)
    requires GoodPages(inputs.pages) && dir.files == map[]
    modifies dir
    ensures Tame(inputs.pages) && status == Staged(f, inputs, budget)
    ensures status.Complete? ==> dir.files == Bundle(f, inputs)
  {
    GoodIsTame(inputs.pages);
    var indexes := ListIndexes(inputs.pages);
    KnownIsPending(inputs.pages, indexes);
    var known := PageList(inputs.pages) + indexes + [RootIndex];
    assert {} + Elements(known) == Known(inputs.pages);
    assert Render(f, inputs, {}) == map[];
    var cut := WriteList(dir, f, inputs, known, budget, {});
    if cut { return Cut; }
    if !f.linksOk(dir.files) { return BadLinks; }
    RecordsArePending(inputs.pages);
    cut := WriteList(dir, f, inputs, RECORDS, budget - |known|, Known(inputs.pages));
    status := if cut then Cut else Complete;
  }
}
