/** Accepted page snapshots of a documentation run (internal/artifacts/run.go):
    three immutable files per page, each created atomically by linking a
    temporary file, and loads that take no lock. */
module RunStore {
  import opened Text
  import Slug

  /** SHA-256, collision-free. */
  datatype Digest = Sha256(preimage: string)

  datatype Page = Page(
    slug: string, title: string, description: string, pageType: string,
    markdown: string, contentSha: Digest, claims: string, claimsSha: Digest)

  datatype Meta = Meta(
    claimsSha: Digest, contentSha: Digest, description: string, pageType: string, slug: string, title: string)

  /** File contents: plain bytes, or the deterministic JSON of a metadata record,
      which the encoder produces injectively. */
  datatype Content = Bytes(data: string) | MetaJson(meta: Meta)

  datatype Kind = Markdown | Claims | Metadata

  /** The order in which SavePage writes and LoadPage reads. */
  const ORDER: seq<Kind> := [Markdown, Claims, Metadata]

  /** A final path, or a temporary sibling that only its creator names. */
  datatype Path = Final(slug: string, kind: Kind) | Temp(slug: string, kind: Kind, nonce: nat)

  type Files = map<Path, Content>

  function ContentOf(page: Page, kind: Kind): Content {
    match kind
    case Markdown => Bytes(page.markdown)
    case Claims => Bytes(page.claims)
    case Metadata => MetaJson(Meta(page.claimsSha, page.contentSha, page.description, page.pageType, page.slug,
                                   page.title))
  }

  /** The digests a page carries are those of its own bytes. */
  predicate TrueDigests(page: Page) {
    page.contentSha == Sha256(page.markdown) && page.claimsSha == Sha256(page.claims)
  }

  /** The final file of one kind is absent or is the page's. */
  predicate AgreesOn(files: Files, page: Page, kind: Kind) {
    Final(page.slug, kind) in files ==> files[Final(page.slug, kind)] == ContentOf(page, kind)
  }

  ghost predicate Agrees(files: Files, page: Page) {
    forall kind :: AgreesOn(files, page, kind)
  }

  ghost predicate Complete(files: Files, page: Page) {
    forall kind :: Final(page.slug, kind) in files && files[Final(page.slug, kind)] == ContentOf(page, kind)
  }

  /** The final part of the path text under `page-snapshots`. */
  function PathText(slug: string, kind: Kind): string {
    match kind
    case Markdown => slug + ".md"
    case Claims => ".claims/" + slug + ".json"
    case Metadata => ".metadata/" + slug + ".json"
  }

  /** Distinct pages and kinds never share a file name. */
  lemma PathTextInjective(slug: string, kind: Kind, slug': string, kind': Kind)
    requires Slug.Accepted(slug) && Slug.Accepted(slug')
    requires PathText(slug, kind) == PathText(slug', kind')
    ensures slug == slug' && kind == kind'
  {
    Slug.AcceptedChars(slug);
    Slug.AcceptedChars(slug');
    var text := PathText(slug, kind);
    assert kind == kind' by {
      assert text[0] == '.' <==> !kind.Markdown?;
      assert text[0] == '.' <==> !kind'.Markdown?;
      assert kind.Claims? ==> text[1] == 'c';
      assert kind.Metadata? ==> text[1] == 'm';
      assert kind'.Claims? ==> text[1] == 'c';
      assert kind'.Metadata? ==> text[1] == 'm';
    }
    match kind
    case Markdown =>
      assert text[..|text| - 3] == slug && text[..|text| - 3] == slug';
    case Claims =>
      assert text[8..|text| - 5] == slug && text[8..|text| - 5] == slug';
    case Metadata =>
      assert text[10..|text| - 5] == slug && text[10..|text| - 5] == slug';
  }

  // ---------------------------------------------------------------------
  // Loading
  // ---------------------------------------------------------------------

  /** What LoadPage makes of the three contents it read. */
  function Assemble(slug: string, markdown: Content, claims: Content, metadata: Content): Option<Page> {
    if !(markdown.Bytes? && claims.Bytes? && metadata.MetaJson?) then None
    else
      var meta := metadata.meta;
      if meta.slug == "" || meta.title == "" || meta.description == "" || meta.pageType == "" then None
      else if meta.slug != slug then None
      else if meta.contentSha != Sha256(markdown.data) || meta.claimsSha != Sha256(claims.data) then None
      else Some(Page(slug, meta.title, meta.description, meta.pageType,
                     markdown.data, Sha256(markdown.data), claims.data, Sha256(claims.data)))
  }

  /** LoadPage without interference. */
  function Load(files: Files, slug: string): Option<Page> {
    if !Slug.Accepted(slug) then None
    else if Final(slug, Markdown) !in files || Final(slug, Claims) !in files || Final(slug, Metadata) !in files
    then None
    else Assemble(slug, files[Final(slug, Markdown)], files[Final(slug, Claims)], files[Final(slug, Metadata)])
  }

  /** A completely saved page with true digests loads back exactly when its
      title, description and type are not empty: SavePage does not check that. */
  lemma CompletePageLoads(files: Files, page: Page)
    requires Slug.Accepted(page.slug) && Complete(files, page) && TrueDigests(page)
    ensures Load(files, page.slug) ==
            if page.title != "" && page.description != "" && page.pageType != "" then Some(page) else None
  {
    assert AgreesOn(files, page, Markdown) && AgreesOn(files, page, Claims) && AgreesOn(files, page, Metadata);
    assert Final(page.slug, Markdown) in files && Final(page.slug, Claims) in files &&
           Final(page.slug, Metadata) in files;
    assert page.slug != "";
  }

  /** Whatever three pages the contents came from, a page assembled from them is
      the one whose metadata was read, exactly when that page carries true
      digests. */
  lemma AssembledPageIsWhole(slug: string, m: Page, c: Page, d: Page)
    requires Assemble(slug, ContentOf(m, Markdown), ContentOf(c, Claims), ContentOf(d, Metadata)).Some?
    ensures Assemble(slug, ContentOf(m, Markdown), ContentOf(c, Claims), ContentOf(d, Metadata)) == Some(d) <==>
            TrueDigests(d)
  {}

  // ---------------------------------------------------------------------
  // The store as it runs
  // ---------------------------------------------------------------------

  /** Only paths of `slug` may differ. */
  ghost predicate OtherSlugsKept(before: Files, after: Files, slug: string) {
    forall p: Path :: p.slug != slug ==> (p in before <==> p in after) && (p in before ==> after[p] == before[p])
  }

  datatype SaveResult = InvalidSlug | Immutable | Saved | Crashed

  class Store {
    var files: Files

    constructor ()
      ensures files == map[]
    {
      files := map[];
    }

    /** `cleanupAtomicResidue` for one target: removes every temporary sibling. */
    method CleanupResidue(slug: string, kind: Kind)
      modifies this
      ensures files == map path | path in old(files) && !(path.Temp? && path.slug == slug && path.kind == kind) ::
              old(files)[path]
    {
      var entries := files.Keys;
      while entries != {}
        invariant entries <= old(files).Keys
        invariant forall path :: path in files <==>
                    path in old(files) && !(path.Temp? && path.slug == slug && path.kind == kind && path !in entries)
        invariant forall path :: path in files ==> files[path] == old(files)[path]
        decreases entries
      {
        var entry :| entry in entries;
        entries := entries - {entry};
        if entry.Temp? && entry.slug == slug && entry.kind == kind {
          files := files - {entry};
        }
      }
    }

    /** `atomicCreate`, cut after `budget` file-system operations: the target
        appears complete or not at all. */
    method AtomicCreate(path: Path, content: Content, nonce: nat, budget: nat) returns (ok: bool, spent: nat)
      requires path.Final? && path !in files
      requires Temp(path.slug, path.kind, nonce) !in files
      modifies this
      ensures forall p: Path :: p.Final? && p != path ==> (p in files <==> p in old(files))
      ensures forall p: Path :: p.Final? && p in old(files) ==> p in files && files[p] == old(files)[p]
      ensures path in files ==> files[path] == content
      ensures ok ==> path in files && spent == 3 && budget >= 3 && files == old(files)[path := content]
      ensures OtherSlugsKept(old(files), files, path.slug)
      ensures !ok ==> budget < 3
    {
      spent := 0;
      var temporary := Temp(path.slug, path.kind, nonce);
      if budget == 0 { return false, 0; }
      files := files[temporary := content];
      if budget == 1 { return false, 1; }
      files := files[path := files[temporary]];
      if budget == 2 { return false, 2; }
      files := files - {temporary};
      assert files == old(files)[path := content];
      return true, 3;
    }

    /** The cleanup of all three targets of a slug. */
    method CleanAll(slug: string)
      modifies this
      ensures forall p: Path :: p.Final? ==> (p in files <==> p in old(files))
      ensures forall p: Path :: p in files ==> p in old(files) && files[p] == old(files)[p]
      ensures forall kind, n :: Temp(slug, kind, n) !in files
      ensures OtherSlugsKept(old(files), files, slug)
    {
      for index := 0 to 3
        invariant forall p: Path :: p.Final? ==> (p in files <==> p in old(files))
        invariant forall p: Path :: p in files ==> p in old(files) && files[p] == old(files)[p]
        invariant forall i, n :: 0 <= i < index ==> Temp(slug, ORDER[i], n) !in files
        invariant OtherSlugsKept(old(files), files, slug)
      {
        CleanupResidue(slug, ORDER[index]);
      }
      forall kind, n ensures Temp(slug, kind, n) !in files {
        OrderCovers(kind);
      }
    }

    /** The three files, each created unless it is there; cut short after `budget`
        operations. */
    method WriteAll(page: Page, nonce: nat, budget: nat) returns (ok: bool)
      requires Agrees(files, page) && forall kind, n :: Temp(page.slug, kind, n) !in files
      modifies this
      ensures ok ==> Complete(files, page) && forall kind, n :: Temp(page.slug, kind, n) !in files
      ensures !ok ==> budget < 9 && Agrees(files, page)
      ensures forall p: Path :: p.Final? && p in old(files) ==> p in files && files[p] == old(files)[p]
      ensures forall p: Path :: p.Final? && p in files && p !in old(files) ==>
                p.slug == page.slug && files[p] == ContentOf(page, p.kind)
      ensures OtherSlugsKept(old(files), files, page.slug)
    {
      var left: nat := budget;
      for index := 0 to 3
        invariant left + 3 * index >= budget
        invariant forall kind, n :: Temp(page.slug, kind, n) !in files
        invariant OtherSlugsKept(old(files), files, page.slug)
        invariant Agrees(files, page)
        invariant forall i :: 0 <= i < index ==> Final(page.slug, ORDER[i]) in files
        invariant forall p: Path :: p.Final? && p in old(files) ==> p in files && files[p] == old(files)[p]
        invariant forall p: Path :: p.Final? && p in files && p !in old(files) ==>
                    p.slug == page.slug && files[p] == ContentOf(page, p.kind)
      {
        var path := Final(page.slug, ORDER[index]);
        if path !in files {
          ghost var was := files;
          var created, spent := AtomicCreate(path, ContentOf(page, ORDER[index]), nonce, left);
          forall kind ensures AgreesOn(files, page, kind) {
            assert AgreesOn(was, page, kind);
          }
          if !created { return false; }
          left := left - spent;
        }
      }
      AllPresent(files, page);
      ok := true;
    }

    /** `SavePage`, possibly cut short by a crash after `budget` file-system
        operations. It is refused exactly when some file of the slug differs,
        otherwise it completes the page and leaves no temporary; no final file ever
        changes, and no file of another slug. */
    method SavePage(page: Page, nonce: nat, budget: nat) returns (r: SaveResult)
      modifies this
      ensures r == InvalidSlug <==> !Slug.Accepted(page.slug)
      ensures r == InvalidSlug ==> files == old(files)
      ensures r == Immutable <==> Slug.Accepted(page.slug) && !Agrees(old(files), page)
      ensures r == Immutable ==> forall p: Path :: p.Final? ==> (p in files <==> p in old(files))
      ensures r == Saved ==> Complete(files, page) && forall kind, n :: Temp(page.slug, kind, n) !in files
      ensures r == Crashed ==> budget < 9 && Agrees(files, page)
      ensures forall p: Path :: p.Final? && p in old(files) ==> p in files && files[p] == old(files)[p]
      ensures forall p: Path :: p.Final? && p in files && p !in old(files) ==>
                p.slug == page.slug && files[p] == ContentOf(page, p.kind)
      ensures OtherSlugsKept(old(files), files, page.slug)
    {
      var slug := Slug.NormalizePageSlug(page.slug);
      if slug.None? { return InvalidSlug; }
      CleanAll(page.slug);
      for index := 0 to 3
        invariant forall i :: 0 <= i < index ==> AgreesOn(files, page, ORDER[i])
      {
        if Final(page.slug, ORDER[index]) in files &&
           files[Final(page.slug, ORDER[index])] != ContentOf(page, ORDER[index])
        {
          assert !AgreesOn(old(files), page, ORDER[index]);
          return Immutable;
        }
      }
      AllKinds(files, page);
      AllKinds(old(files), page);
      var ok := WriteAll(page, nonce, budget);
      r := if ok then Saved else Crashed;
    }

    /** `LoadPage`: three reads in order, without a lock. */
    method LoadPage(rawSlug: string) returns (r: Option<Page>)
      ensures r == Load(files, rawSlug)
    {
      var slug := Slug.NormalizePageSlug(rawSlug);
      if slug.None? { return None; }
      var read: seq<Content> := [];
      for index := 0 to 3
        invariant |read| == index
        invariant forall i :: 0 <= i < index ==>
                    Final(rawSlug, ORDER[i]) in files && read[i] == files[Final(rawSlug, ORDER[i])]
      {
        if Final(rawSlug, ORDER[index]) !in files { return None; }
        read := read + [files[Final(rawSlug, ORDER[index])]];
      }
      r := Assemble(rawSlug, read[0], read[1], read[2]);
    }

    /** `DiscardRun`, possibly cut short after `budget` deletions: files only
        disappear, and a discard that ends leaves none. */
    method DiscardRun(budget: nat) returns (ended: bool)
      modifies this
      ensures forall p: Path :: p in files ==> p in old(files) && files[p] == old(files)[p]
      ensures ended ==> files == map[]
      ensures !ended ==> |files| == |old(files)| - budget > 0
    {
      var deleted := 0;
      while files.Keys != {} && deleted < budget
        invariant deleted <= budget
        invariant |files| + deleted == |old(files)|
        invariant forall p: Path :: p in files ==> p in old(files) && files[p] == old(files)[p]
        decreases |files|
      {
        var path :| path in files;
        ghost var was := files;
        files := files - {path};
        assert files.Keys == was.Keys - {path};
        deleted := deleted + 1;
      }
      assert files.Keys == {} ==> |files| == 0 && files == map[];
      ended := files.Keys == {};
      if !ended { assert |files.Keys| > 0; }
    }
  }

  lemma OrderCovers(kind: Kind)
    ensures exists i :: 0 <= i < 3 && ORDER[i] == kind
  {
    assert ORDER[0] == Markdown && ORDER[1] == Claims && ORDER[2] == Metadata;
    match kind case Markdown => case Claims => case Metadata =>
  }

  lemma AllKinds(files: Files, page: Page)
    ensures (forall i :: 0 <= i < 3 ==> AgreesOn(files, page, ORDER[i])) <==> Agrees(files, page)
  {
    if forall i :: 0 <= i < 3 ==> AgreesOn(files, page, ORDER[i]) {
      forall kind ensures AgreesOn(files, page, kind) {
        OrderCovers(kind);
      }
    }
  }

  lemma AllPresent(files: Files, page: Page)
    requires Agrees(files, page)
    requires forall i :: 0 <= i < 3 ==> Final(page.slug, ORDER[i]) in files
    ensures Complete(files, page)
  {
    forall kind ensures Final(page.slug, kind) in files && files[Final(page.slug, kind)] == ContentOf(page, kind) {
      OrderCovers(kind);
      assert AgreesOn(files, page, kind);
    }
  }

  lemma OneLetterSlug(c: char)
    requires 'a' <= c <= 'z'
    ensures Slug.Accepted([c])
  {
    Slug.NoSlashIsOneSegment([c]);
    assert |"index"| == 5 && |"log"| == 3;
    assert ByteLen([c]) == Width(c) + ByteLen([c][1..]);
  }

  /** A page without a title is saved without complaint and never loads. */
  method UntitledPageIsLost() returns (saved: SaveResult, loaded: Option<Page>)
    ensures saved == Saved && loaded == None
  {
    var page := Page("a", "", "description", "type", "text", Sha256("text"), "{}", Sha256("{}"));
    OneLetterSlug('a');
    var store := new Store();
    assert Agrees(store.files, page);
    saved := store.SavePage(page, 0, 9);
    CompletePageLoads(store.files, page);
    loaded := store.LoadPage("a");
  }
}
