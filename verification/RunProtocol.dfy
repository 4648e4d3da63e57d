/** Concurrent saves, loads and discards of one documentation run
    (internal/artifacts/run.go), one step per file operation, with a crash
    possible between any two steps. Locks are kept only as what they serialise:
    one save per slug at a time, and no save while a discard runs. */
module RunProtocol {
  import opened RunStore
  import Slug

  type Process = nat

  /** Where a save stands. `index` counts the three files in order. */
  datatype Phase =
    | Checking(index: nat)
    | Creating(index: nat)
    | Writing(index: nat, nonce: nat)
    | Linking(index: nat, nonce: nat)
    | Unlinking(index: nat, nonce: nat)

  datatype Save = Save(page: Page, phase: Phase)

  /** A load that has read the first `|read|` files. */
  datatype LoadState = LoadState(slug: string, read: seq<Content>)

  /** `given` are the pages SavePage was called with, `loaded` the pages LoadPage
      returned; both are histories. */
  datatype World = World(
    files: Files,
    saves: map<Process, Save>,
    discarding: bool,
    loads: map<Process, LoadState>,
    given: set<Page>,
    loaded: set<Page>)

  datatype Step =
    | BeginSave(p: Process, page: Page)
    | RemoveResidue(p: Process, path: Path)
    | CheckOne(p: Process)
    | CreateTemp(p: Process, nonce: nat, torn: Content)
    | WriteTemp(p: Process)
    | Link(p: Process)
    | Unlink(p: Process)
    | SkipPresent(p: Process)
    | EndSave(p: Process)
    | CrashSave(p: Process)
    | BeginDiscard
    | Delete(path: Path)
    | EndDiscard
    | BeginLoad(p: Process, slug: string)
    | ReadOne(p: Process)
    | EndLoad(p: Process)

  function Target(save: Save): Path
    requires save.phase.index < 3
  {
    Final(save.page.slug, ORDER[save.phase.index])
  }

  function Temporary(save: Save): Path
    requires save.phase.index < 3 && (save.phase.Writing? || save.phase.Linking? || save.phase.Unlinking?)
  {
    Temp(save.page.slug, ORDER[save.phase.index], save.phase.nonce)
  }

  predicate Enabled(w: World, step: Step) {
    match step
    case BeginSave(p, page) =>
      && p !in w.saves && !w.discarding && Slug.Accepted(page.slug) && TrueDigests(page)
      && forall q :: q in w.saves ==> w.saves[q].page.slug != page.slug
    case RemoveResidue(p, path) =>
      && p in w.saves && w.saves[p].phase == Checking(0)
      && path in w.files && path.Temp? && path.slug == w.saves[p].page.slug
    case CheckOne(p) => p in w.saves && w.saves[p].phase.Checking?
    case CreateTemp(p, nonce, _) =>
      && p in w.saves && w.saves[p].phase.Creating? && w.saves[p].phase.index < 3
      && Target(w.saves[p]) !in w.files
      && Temp(w.saves[p].page.slug, ORDER[w.saves[p].phase.index], nonce) !in w.files
    case WriteTemp(p) => p in w.saves && w.saves[p].phase.Writing? && w.saves[p].phase.index < 3
    case Link(p) =>
      && p in w.saves && w.saves[p].phase.Linking? && w.saves[p].phase.index < 3
      && Temporary(w.saves[p]) in w.files
    case Unlink(p) => p in w.saves && w.saves[p].phase.Unlinking? && w.saves[p].phase.index < 3
    case SkipPresent(p) =>
      && p in w.saves && w.saves[p].phase.Creating? && w.saves[p].phase.index < 3
      && Target(w.saves[p]) in w.files
    case EndSave(p) => p in w.saves && w.saves[p].phase.Creating? && w.saves[p].phase.index >= 3
    case CrashSave(p) => p in w.saves
    case BeginDiscard => !w.discarding && w.saves == map[]
    case Delete(path) => w.discarding && path in w.files
    case EndDiscard => w.discarding
    case BeginLoad(p, slug) => p !in w.loads && Slug.Accepted(slug)
    case ReadOne(p) => p in w.loads && |w.loads[p].read| < 3
    case EndLoad(p) => p in w.loads && |w.loads[p].read| == 3
  }

  function Advance(w: World, p: Process, phase: Phase): World
    requires p in w.saves
  {
    w.(saves := w.saves[p := w.saves[p].(phase := phase)])
  }

  function Apply(w: World, step: Step): World
    requires Enabled(w, step)
  {
    match step
    case BeginSave(p, page) => w.(saves := w.saves[p := Save(page, Checking(0))], given := w.given + {page})
    case RemoveResidue(p, path) => w.(files := w.files - {path})
    case CheckOne(p) =>
      var save := w.saves[p];
      var i := save.phase.index;
      if i >= 3 then Advance(w, p, Creating(0))
      else if AgreesOn(w.files, save.page, ORDER[i]) then Advance(w, p, Checking(i + 1))
      else w.(saves := w.saves - {p})
    case CreateTemp(p, nonce, torn) =>
      var save := w.saves[p];
      var next := Writing(save.phase.index, nonce);
      Advance(w, p, next).(files := w.files[Temp(save.page.slug, ORDER[save.phase.index], nonce) := torn])
    case WriteTemp(p) =>
      var save := w.saves[p];
      Advance(w, p, Linking(save.phase.index, save.phase.nonce))
        .(files := w.files[Temporary(save) := ContentOf(save.page, ORDER[save.phase.index])])
    case Link(p) =>
      var save := w.saves[p];
      var next := Unlinking(save.phase.index, save.phase.nonce);
      if Target(save) !in w.files then Advance(w, p, next).(files := w.files[Target(save) := w.files[Temporary(save)]])
      else if AgreesOn(w.files, save.page, ORDER[save.phase.index]) then Advance(w, p, next)
      else w.(saves := w.saves - {p})
    case Unlink(p) =>
      var save := w.saves[p];
      Advance(w, p, Creating(save.phase.index + 1)).(files := w.files - {Temporary(save)})
    case SkipPresent(p) => Advance(w, p, Creating(w.saves[p].phase.index + 1))
    case EndSave(p) => w.(saves := w.saves - {p})
    case CrashSave(p) => w.(saves := w.saves - {p})
    case BeginDiscard => w.(discarding := true)
    case Delete(path) => w.(files := w.files - {path})
    case EndDiscard => w.(discarding := false)
    case BeginLoad(p, slug) => w.(loads := w.loads[p := LoadState(slug, [])])
    case ReadOne(p) =>
      var load := w.loads[p];
      var path := Final(load.slug, ORDER[|load.read|]);
      if path in w.files then w.(loads := w.loads[p := load.(read := load.read + [w.files[path]])])
      else w.(loads := w.loads - {p})
    case EndLoad(p) =>
      var load := w.loads[p];
      var result := Assemble(load.slug, load.read[0], load.read[1], load.read[2]);
      w.(loads := w.loads - {p}, loaded := if result.Some? then w.loaded + {result.value} else w.loaded)
  }

  const BEGIN := World(map[], map[], false, map[], {}, {})

  ghost predicate IsRun(run: seq<World>, steps: seq<Step>) {
    && |run| == |steps| + 1 && run[0] == BEGIN
    && forall i :: 0 <= i < |steps| ==> MovesAt(run, steps, i)
  }

  ghost predicate MovesAt(run: seq<World>, steps: seq<Step>, i: nat)
    requires |run| == |steps| + 1 && i < |steps|
  {
    Enabled(run[i], steps[i]) && run[i + 1] == Apply(run[i], steps[i])
  }

  // ---------------------------------------------------------------------
  // The invariant
  // ---------------------------------------------------------------------

  /** The final files of a slug, if any, are all those of one given page. */
  ghost predicate OneAuthor(w: World, slug: string) {
    || (forall kind :: Final(slug, kind) !in w.files)
    || (exists page :: page in w.given && page.slug == slug && Agrees(w.files, page))
  }

  ghost predicate SaveFits(files: Files, save: Save) {
    var page := save.page;
    match save.phase
    case Checking(i) => forall j :: 0 <= j < i && j < 3 ==> AgreesOn(files, page, ORDER[j])
    case Creating(i) => Agrees(files, page) && forall j :: 0 <= j < i && j < 3 ==> Final(page.slug, ORDER[j]) in files
    case Writing(i, _) => i < 3 && Agrees(files, page) && forall j :: 0 <= j < i ==> Final(page.slug, ORDER[j]) in files
    case Linking(i, n) =>
      && i < 3 && Agrees(files, page) && (forall j :: 0 <= j < i ==> Final(page.slug, ORDER[j]) in files)
      && Temp(page.slug, ORDER[i], n) in files && files[Temp(page.slug, ORDER[i], n)] == ContentOf(page, ORDER[i])
    case Unlinking(i, _) =>
      i < 3 && Agrees(files, page) && forall j :: 0 <= j <= i ==> Final(page.slug, ORDER[j]) in files
  }

  ghost predicate SavesFit(w: World) {
    && (forall p :: p in w.saves ==> w.saves[p].page in w.given && SaveFits(w.files, w.saves[p]))
    && (forall p, q :: p in w.saves && q in w.saves && p != q ==> w.saves[p].page.slug != w.saves[q].page.slug)
    && (w.discarding ==> w.saves == map[])
  }

  /** What a load has read came, file by file, from given pages of its slug. */
  ghost predicate CameFrom(w: World, slug: string, kind: Kind, content: Content) {
    exists page :: page in w.given && page.slug == slug && content == ContentOf(page, kind)
  }

  ghost predicate LoadsFit(w: World) {
    forall p :: p in w.loads ==>
      && |w.loads[p].read| <= 3
      && forall i :: 0 <= i < |w.loads[p].read| ==> CameFrom(w, w.loads[p].slug, ORDER[i], w.loads[p].read[i])
  }

  ghost predicate Inv(w: World) {
    && (forall slug :: OneAuthor(w, slug))
    && SavesFit(w)
    && LoadsFit(w)
    && w.loaded <= w.given
    && (forall page :: page in w.given ==> TrueDigests(page))
  }

  // ---------------------------------------------------------------------
  // Frame lemmas: what a step leaves alone
  // ---------------------------------------------------------------------

  /** The final files of `slug` are the same in both maps. */
  ghost predicate SameFinals(files: Files, files': Files, slug: string) {
    forall kind :: (Final(slug, kind) in files <==> Final(slug, kind) in files')
                   && (Final(slug, kind) in files ==> files[Final(slug, kind)] == files'[Final(slug, kind)])
  }

  lemma SameFinalsAgree(files: Files, files': Files, page: Page)
    requires SameFinals(files, files', page.slug)
    ensures Agrees(files, page) <==> Agrees(files', page)
  {
    if Agrees(files, page) {
      forall kind ensures AgreesOn(files', page, kind) { assert AgreesOn(files, page, kind); }
    }
    if Agrees(files', page) {
      forall kind ensures AgreesOn(files, page, kind) { assert AgreesOn(files', page, kind); }
    }
  }

  lemma AuthorKept(w: World, w': World, slug: string)
    requires OneAuthor(w, slug) && w.given <= w'.given && SameFinals(w.files, w'.files, slug)
    ensures OneAuthor(w', slug)
  {
    if !(forall kind :: Final(slug, kind) !in w.files) {
      var page :| page in w.given && page.slug == slug && Agrees(w.files, page);
      SameFinalsAgree(w.files, w'.files, page);
    }
  }

  /** Removing files keeps the author of what is left. */
  lemma AuthorOfFewer(w: World, w': World, slug: string)
    requires OneAuthor(w, slug) && w.given <= w'.given
    requires forall path :: path in w'.files ==> path in w.files && w'.files[path] == w.files[path]
    ensures OneAuthor(w', slug)
  {
    if !(forall kind :: Final(slug, kind) !in w.files) {
      var page :| page in w.given && page.slug == slug && Agrees(w.files, page);
      forall kind ensures AgreesOn(w'.files, page, kind) { assert AgreesOn(w.files, page, kind); }
      assert Agrees(w'.files, page);
    }
  }

  lemma LoadsKept(w: World, w': World)
    requires LoadsFit(w) && w'.loads == w.loads && w.given <= w'.given
    ensures LoadsFit(w')
  {
    forall p, i | p in w'.loads && 0 <= i < |w'.loads[p].read|
      ensures CameFrom(w', w'.loads[p].slug, ORDER[i], w'.loads[p].read[i])
    {
      assert CameFrom(w, w.loads[p].slug, ORDER[i], w.loads[p].read[i]);
    }
  }

  /** A save keeps fitting when neither its finals nor its temporaries change. */
  ghost predicate SameSlug(files: Files, files': Files, slug: string) {
    && SameFinals(files, files', slug)
    && forall kind, n :: (Temp(slug, kind, n) in files <==> Temp(slug, kind, n) in files')
                         && (Temp(slug, kind, n) in files ==> files[Temp(slug, kind, n)] == files'[Temp(slug, kind, n)])
  }

  lemma SaveKept(files: Files, files': Files, save: Save)
    requires SaveFits(files, save) && SameSlug(files, files', save.page.slug)
    ensures SaveFits(files', save)
  {
    SameFinalsAgree(files, files', save.page);
    if save.phase.Checking? {
      forall j | 0 <= j < save.phase.index && j < 3 ensures AgreesOn(files', save.page, ORDER[j]) {
        assert AgreesOn(files, save.page, ORDER[j]);
      }
    }
  }

  /** Only paths of `slug` differ. */
  ghost predicate OnlySlug(files: Files, files': Files, slug: string) {
    forall path: Path :: path.slug != slug ==>
      (path in files <==> path in files') && (path in files ==> files[path] == files'[path])
  }

  /** The common frame of every step of the save `p`: other saves and other
      slugs do not notice it. */
  lemma OthersKept(w: World, w': World, p: Process)
    requires Inv(w) && p in w.saves
    requires OnlySlug(w.files, w'.files, w.saves[p].page.slug)
    requires w'.discarding == w.discarding && w'.loads == w.loads && w'.given == w.given && w'.loaded == w.loaded
    requires w'.saves.Keys <= w.saves.Keys && forall q :: q in w'.saves && q != p ==> w'.saves[q] == w.saves[q]
    requires p in w'.saves ==> w'.saves[p].page == w.saves[p].page && SaveFits(w'.files, w'.saves[p])
    requires OneAuthor(w', w.saves[p].page.slug)
    ensures Inv(w')
  {
    LoadsKept(w, w');
    var slug := w.saves[p].page.slug;
    forall other ensures OneAuthor(w', other) {
      if other != slug { AuthorKept(w, w', other); }
    }
    forall q | q in w'.saves ensures w'.saves[q].page in w'.given && SaveFits(w'.files, w'.saves[q]) {
      if q != p { SaveKept(w.files, w'.files, w'.saves[q]); }
    }
  }

  lemma AuthorIs(w: World, page: Page)
    requires page in w.given && Agrees(w.files, page)
    ensures OneAuthor(w, page.slug)
  {}

  // ---------------------------------------------------------------------
  // Every step keeps the invariant
  // ---------------------------------------------------------------------

  lemma CheckFits(w: World, p: Process)
    requires SavesFit(w) && Enabled(w, CheckOne(p))
    ensures var w' := Apply(w, CheckOne(p)); p in w'.saves ==> SaveFits(w'.files, w'.saves[p])
  {
    if w.saves[p].phase.index >= 3 { AllKinds(w.files, w.saves[p].page); }
  }

  lemma CheckKeeps(w: World, p: Process)
    requires Inv(w) && Enabled(w, CheckOne(p))
    ensures Inv(Apply(w, CheckOne(p)))
  {
    var w' := Apply(w, CheckOne(p));
    CheckFits(w, p);
    AuthorKept(w, w', w.saves[p].page.slug);
    OthersKept(w, w', p);
  }

  /** A step of the save `p` that leaves the final files as they are. */
  lemma TempStepKeeps(w: World, w': World, p: Process)
    requires Inv(w) && p in w.saves && Agrees(w.files, w.saves[p].page)
    requires OnlySlug(w.files, w'.files, w.saves[p].page.slug) && SameFinals(w.files, w'.files, w.saves[p].page.slug)
    requires w'.discarding == w.discarding && w'.loads == w.loads && w'.given == w.given && w'.loaded == w.loaded
    requires w'.saves.Keys == w.saves.Keys && forall q :: q in w'.saves && q != p ==> w'.saves[q] == w.saves[q]
    requires w'.saves[p].page == w.saves[p].page && SaveFits(w'.files, w'.saves[p])
    ensures Inv(w')
  {
    SameFinalsAgree(w.files, w'.files, w.saves[p].page);
    AuthorIs(w', w.saves[p].page);
    OthersKept(w, w', p);
  }

  lemma CreateTempFits(w: World, p: Process, nonce: nat, torn: Content)
    requires SavesFit(w) && Enabled(w, CreateTemp(p, nonce, torn))
    ensures var w' := Apply(w, CreateTemp(p, nonce, torn));
            SaveFits(w'.files, w'.saves[p]) && SameFinals(w.files, w'.files, w.saves[p].page.slug)
  {
    SameFinalsAgree(w.files, Apply(w, CreateTemp(p, nonce, torn)).files, w.saves[p].page);
  }

  lemma CreateTempKeeps(w: World, p: Process, nonce: nat, torn: Content)
    requires Inv(w) && Enabled(w, CreateTemp(p, nonce, torn))
    ensures Inv(Apply(w, CreateTemp(p, nonce, torn)))
  {
    CreateTempFits(w, p, nonce, torn);
    TempStepKeeps(w, Apply(w, CreateTemp(p, nonce, torn)), p);
  }

  lemma WriteTempFits(w: World, p: Process)
    requires SavesFit(w) && Enabled(w, WriteTemp(p))
    ensures var w' := Apply(w, WriteTemp(p));
            SaveFits(w'.files, w'.saves[p]) && SameFinals(w.files, w'.files, w.saves[p].page.slug)
  {
    SameFinalsAgree(w.files, Apply(w, WriteTemp(p)).files, w.saves[p].page);
  }

  lemma WriteTempKeeps(w: World, p: Process)
    requires Inv(w) && Enabled(w, WriteTemp(p))
    ensures Inv(Apply(w, WriteTemp(p)))
  {
    WriteTempFits(w, p);
    TempStepKeeps(w, Apply(w, WriteTemp(p)), p);
  }

  lemma LinkAgrees(w: World, p: Process)
    requires SavesFit(w) && Enabled(w, Link(p))
    ensures Agrees(Apply(w, Link(p)).files, w.saves[p].page)
  {
    var w', page := Apply(w, Link(p)), w.saves[p].page;
    forall kind ensures AgreesOn(w'.files, page, kind) { assert AgreesOn(w.files, page, kind); }
  }

  lemma LinkFits(w: World, p: Process)
    requires SavesFit(w) && Enabled(w, Link(p))
    ensures var w' := Apply(w, Link(p)); p in w'.saves ==> SaveFits(w'.files, w'.saves[p])
  {
    LinkAgrees(w, p);
  }

  lemma LinkKeeps(w: World, p: Process)
    requires Inv(w) && Enabled(w, Link(p))
    ensures Inv(Apply(w, Link(p)))
  {
    var w' := Apply(w, Link(p));
    LinkAgrees(w, p);
    LinkFits(w, p);
    AuthorIs(w', w.saves[p].page);
    OthersKept(w, w', p);
  }

  lemma UnlinkFits(w: World, p: Process)
    requires SavesFit(w) && Enabled(w, Unlink(p))
    ensures var w' := Apply(w, Unlink(p));
            SaveFits(w'.files, w'.saves[p]) && SameFinals(w.files, w'.files, w.saves[p].page.slug)
  {
    SameFinalsAgree(w.files, Apply(w, Unlink(p)).files, w.saves[p].page);
  }

  lemma UnlinkKeeps(w: World, p: Process)
    requires Inv(w) && Enabled(w, Unlink(p))
    ensures Inv(Apply(w, Unlink(p)))
  {
    UnlinkFits(w, p);
    TempStepKeeps(w, Apply(w, Unlink(p)), p);
  }

  lemma RemoveResidueKeeps(w: World, p: Process, path: Path)
    requires Inv(w) && Enabled(w, RemoveResidue(p, path))
    ensures Inv(Apply(w, RemoveResidue(p, path)))
  {
    var w' := Apply(w, RemoveResidue(p, path));
    AuthorKept(w, w', w.saves[p].page.slug);
    OthersKept(w, w', p);
  }

  lemma BeginSaveKeeps(w: World, p: Process, page: Page)
    requires Inv(w) && Enabled(w, BeginSave(p, page))
    ensures Inv(Apply(w, BeginSave(p, page)))
  {
    var w' := Apply(w, BeginSave(p, page));
    LoadsKept(w, w');
    forall slug ensures OneAuthor(w', slug) { AuthorKept(w, w', slug); }
  }

  lemma SkipKeeps(w: World, p: Process)
    requires Inv(w) && Enabled(w, SkipPresent(p))
    ensures Inv(Apply(w, SkipPresent(p)))
  {
    TempStepKeeps(w, Apply(w, SkipPresent(p)), p);
  }

  lemma EndKeeps(w: World, step: Step)
    requires Inv(w) && Enabled(w, step)
    requires step.EndSave? || step.CrashSave?
    ensures Inv(Apply(w, step))
  {
    AuthorKept(w, Apply(w, step), w.saves[step.p].page.slug);
    OthersKept(w, Apply(w, step), step.p);
  }

  lemma DeleteKeeps(w: World, path: Path)
    requires Inv(w) && Enabled(w, Delete(path))
    ensures Inv(Apply(w, Delete(path)))
  {
    var w' := Apply(w, Delete(path));
    LoadsKept(w, w');
    forall slug ensures OneAuthor(w', slug) { AuthorOfFewer(w, w', slug); }
  }

  /** A final file read now came from a given page of its slug. */
  lemma ReadCameFrom(w: World, slug: string, kind: Kind)
    requires OneAuthor(w, slug) && Final(slug, kind) in w.files
    ensures CameFrom(w, slug, kind, w.files[Final(slug, kind)])
  {
    var page :| page in w.given && page.slug == slug && Agrees(w.files, page);
    assert AgreesOn(w.files, page, kind);
  }

  /** One load has read one more file that came from a given page. */
  lemma LongerLoad(w: World, w': World, p: Process, content: Content)
    requires LoadsFit(w) && w'.given == w.given && p in w.loads && |w.loads[p].read| < 3
    requires CameFrom(w, w.loads[p].slug, ORDER[|w.loads[p].read|], content)
    requires w'.loads == w.loads[p := w.loads[p].(read := w.loads[p].read + [content])]
    ensures LoadsFit(w')
  {
    forall q, i | q in w'.loads && 0 <= i < |w'.loads[q].read|
      ensures CameFrom(w', w'.loads[q].slug, ORDER[i], w'.loads[q].read[i])
    {
      if q != p || i < |w.loads[p].read| {
        assert CameFrom(w, w.loads[q].slug, ORDER[i], w.loads[q].read[i]);
      }
    }
  }

  lemma ReadFits(w: World, p: Process)
    requires Inv(w) && Enabled(w, ReadOne(p))
    ensures LoadsFit(Apply(w, ReadOne(p)))
  {
    var w', load := Apply(w, ReadOne(p)), w.loads[p];
    var kind := ORDER[|load.read|];
    if Final(load.slug, kind) in w.files {
      ReadCameFrom(w, load.slug, kind);
      LongerLoad(w, w', p, w.files[Final(load.slug, kind)]);
    } else {
      FewerLoads(w, w');
    }
  }

  lemma ReadKeeps(w: World, p: Process)
    requires Inv(w) && Enabled(w, ReadOne(p))
    ensures Inv(Apply(w, ReadOne(p)))
  {
    ReadFits(w, p);
    var w' := Apply(w, ReadOne(p));
    forall slug ensures OneAuthor(w', slug) { AuthorKept(w, w', slug); }
  }

  /** What three reads assemble to was given in full. */
  lemma AssembledWasGiven(w: World, slug: string, read: seq<Content>)
    requires |read| == 3 && forall i :: 0 <= i < 3 ==> CameFrom(w, slug, ORDER[i], read[i])
    requires forall page :: page in w.given ==> TrueDigests(page)
    requires Assemble(slug, read[0], read[1], read[2]).Some?
    ensures Assemble(slug, read[0], read[1], read[2]).value in w.given
  {
    assert CameFrom(w, slug, ORDER[0], read[0]) && CameFrom(w, slug, ORDER[1], read[1]) &&
           CameFrom(w, slug, ORDER[2], read[2]);
    var m :| m in w.given && m.slug == slug && read[0] == ContentOf(m, Markdown);
    var c :| c in w.given && c.slug == slug && read[1] == ContentOf(c, Claims);
    var d :| d in w.given && d.slug == slug && read[2] == ContentOf(d, Metadata);
    AssembledPageIsWhole(slug, m, c, d);
  }

  lemma EndLoadKeeps(w: World, p: Process)
    requires Inv(w) && Enabled(w, EndLoad(p))
    ensures Inv(Apply(w, EndLoad(p)))
  {
    var w' := Apply(w, EndLoad(p));
    var load := w.loads[p];
    if Assemble(load.slug, load.read[0], load.read[1], load.read[2]).Some? {
      AssembledWasGiven(w, load.slug, load.read);
    }
    forall slug ensures OneAuthor(w', slug) { AuthorKept(w, w', slug); }
    FewerLoads(w, w');
  }

  lemma FewerLoads(w: World, w': World)
    requires LoadsFit(w) && w.given == w'.given
    requires forall p :: p in w'.loads ==> p in w.loads && w'.loads[p] == w.loads[p]
    ensures LoadsFit(w')
  {
    forall p, i | p in w'.loads && 0 <= i < |w'.loads[p].read|
      ensures CameFrom(w', w'.loads[p].slug, ORDER[i], w'.loads[p].read[i])
    {
      assert CameFrom(w, w.loads[p].slug, ORDER[i], w.loads[p].read[i]);
    }
  }

  lemma QuietKeeps(w: World, step: Step)
    requires Inv(w) && Enabled(w, step)
    requires step.BeginDiscard? || step.EndDiscard? || step.BeginLoad?
    ensures Inv(Apply(w, step))
  {
    var w' := Apply(w, step);
    forall slug ensures OneAuthor(w', slug) { AuthorKept(w, w', slug); }
    forall p, i | p in w'.loads && 0 <= i < |w'.loads[p].read|
      ensures CameFrom(w', w'.loads[p].slug, ORDER[i], w'.loads[p].read[i])
    {
      assert CameFrom(w, w.loads[p].slug, ORDER[i], w.loads[p].read[i]);
    }
  }

  lemma StepKeeps(w: World, step: Step)
    requires Inv(w) && Enabled(w, step)
    ensures Inv(Apply(w, step))
  {
    match step
    case BeginSave(p, page) => BeginSaveKeeps(w, p, page);
    case RemoveResidue(p, path) => RemoveResidueKeeps(w, p, path);
    case CheckOne(p) => CheckKeeps(w, p);
    case CreateTemp(p, nonce, torn) => CreateTempKeeps(w, p, nonce, torn);
    case WriteTemp(p) => WriteTempKeeps(w, p);
    case Link(p) => LinkKeeps(w, p);
    case Unlink(p) => UnlinkKeeps(w, p);
    case SkipPresent(p) => SkipKeeps(w, p);
    case EndSave(_) => EndKeeps(w, step);
    case CrashSave(_) => EndKeeps(w, step);
    case BeginDiscard => QuietKeeps(w, step);
    case Delete(path) => DeleteKeeps(w, path);
    case EndDiscard => QuietKeeps(w, step);
    case BeginLoad(_, _) => QuietKeeps(w, step);
    case ReadOne(p) => ReadKeeps(w, p);
    case EndLoad(p) => EndLoadKeeps(w, p);
  }

  // ---------------------------------------------------------------------
  // What every run guarantees
  // ---------------------------------------------------------------------

  lemma {:induction false} RunKeepsInv(run: seq<World>, steps: seq<Step>, i: nat)
    requires IsRun(run, steps) && i < |run|
    ensures Inv(run[i])
  {
    if i == 0 {
      assert forall slug, kind :: Final(slug, kind) !in BEGIN.files;
    } else {
      RunKeepsInv(run, steps, i - 1);
      assert MovesAt(run, steps, i - 1);
      StepKeeps(run[i - 1], steps[i - 1]);
    }
  }

  /** Over every interleaving and crash, the final files of a slug are all those
      of one single page that SavePage was given. */
  lemma FilesHaveOneAuthor(run: seq<World>, steps: seq<Step>, i: nat, slug: string)
    requires IsRun(run, steps) && i < |run|
    requires exists kind :: Final(slug, kind) in run[i].files
    ensures exists page :: page in run[i].given && page.slug == slug && Agrees(run[i].files, page)
  {
    RunKeepsInv(run, steps, i);
    assert OneAuthor(run[i], slug);
  }

  /** Every page LoadPage ever returns was given to SavePage in full, although
      its three reads may straddle saves, crashes and discards. */
  lemma LoadedPagesWereGiven(run: seq<World>, steps: seq<Step>, i: nat)
    requires IsRun(run, steps) && i < |run|
    ensures run[i].loaded <= run[i].given
  {
    RunKeepsInv(run, steps, i);
  }

  lemma StepKeepsFinals(w: World, step: Step, w': World, path: Path)
    requires Enabled(w, step) && w' == Apply(w, step) && !step.Delete? && path.Final? && path in w.files
    ensures path in w'.files && w'.files[path] == w.files[path]
  {}

  lemma StepKeepsComplete(w: World, step: Step, w': World, page: Page)
    requires Enabled(w, step) && w' == Apply(w, step) && !step.Delete? && Complete(w.files, page)
    ensures Complete(w'.files, page)
  {
    forall kind
      ensures Final(page.slug, kind) in w'.files && w'.files[Final(page.slug, kind)] == ContentOf(page, kind)
    {
      StepKeepsFinals(w, step, w', Final(page.slug, kind));
    }
  }

  /** A final file never changes until a discard deletes it; so a completed page
      stays as it is. */
  lemma {:induction false} CompletedPageStays(run: seq<World>, steps: seq<Step>, i: nat, j: nat, page: Page)
    requires IsRun(run, steps) && i <= j < |run|
    requires Complete(run[i].files, page)
    requires forall k :: i <= k < j ==> !steps[k].Delete?
    ensures Complete(run[j].files, page)
    decreases j
  {
    if i < j {
      CompletedPageStays(run, steps, i, j - 1, page);
      assert MovesAt(run, steps, j - 1);
      StepKeepsComplete(run[j - 1], steps[j - 1], run[j], page);
    }
  }

  /** A save that reaches its end has completed its page. */
  lemma EndedSaveIsComplete(run: seq<World>, steps: seq<Step>, i: nat, p: Process)
    requires IsRun(run, steps) && i < |run|
    requires p in run[i].saves && run[i].saves[p].phase.Creating? && run[i].saves[p].phase.index >= 3
    ensures Complete(run[i].files, run[i].saves[p].page)
  {
    RunKeepsInv(run, steps, i);
    AllPresent(run[i].files, run[i].saves[p].page);
  }

  /** The step links a file of another page under the slug of `page`. */
  predicate LinksOther(w: World, step: Step, page: Page) {
    step.Link? && step.p in w.saves && w.saves[step.p].page.slug == page.slug && w.saves[step.p].page != page
  }

  lemma AgreementKept(w: World, step: Step, w': World, page: Page)
    requires Inv(w) && Enabled(w, step) && w' == Apply(w, step) && !LinksOther(w, step, page)
    requires Agrees(w.files, page)
    ensures Agrees(w'.files, page)
  {
    forall kind ensures AgreesOn(w'.files, page, kind) {
      assert AgreesOn(w.files, page, kind);
      if step.Link? { assert SaveFits(w.files, w.saves[step.p]); }
    }
  }

  /** A save that got past its checks and was then interrupted, at whatever file,
      can be finished: until another page of that slug links a file, through any
      further crashes and discards, what is present agrees with the page, which is
      exactly when SavePage accepts it and completes it. */
  lemma {:induction false} InterruptedSaveCanFinish(run: seq<World>, steps: seq<Step>, i: nat, j: nat, p: Process)
    requires IsRun(run, steps) && i <= j < |run|
    requires p in run[i].saves && !run[i].saves[p].phase.Checking?
    requires forall k :: i <= k < j ==> !LinksOther(run[k], steps[k], run[i].saves[p].page)
    ensures Agrees(run[j].files, run[i].saves[p].page)
    decreases j
  {
    RunKeepsInv(run, steps, i);
    if i < j {
      InterruptedSaveCanFinish(run, steps, i, j - 1, p);
      RunKeepsInv(run, steps, j - 1);
      assert MovesAt(run, steps, j - 1);
      AgreementKept(run[j - 1], steps[j - 1], run[j], run[i].saves[p].page);
    }
  }
}
