/** That saves and loads get through (internal/artifacts/run.go): from every
    reachable state a save whose page agrees with what is present can run to its end,
    a complete page can then be loaded, and no save is dropped without a reason. */
module SaveProgress {
  import opened Text
  import opened RunStore
  import opened RunProtocol
  import Slug

  // ---------------------------------------------------------------------
  // Sequences of steps
  // ---------------------------------------------------------------------

  /** The steps can be taken one after the other from `w` and lead to `w'`. */
  ghost predicate Reaches(w: World, steps: seq<Step>, w': World)
    decreases |steps|
  {
    if steps == [] then w' == w
    else Enabled(w, steps[0]) && Reaches(Apply(w, steps[0]), steps[1..], w')
  }

  lemma ReachesCons(w: World, step: Step, rest: seq<Step>, w': World)
    requires Enabled(w, step) && Reaches(Apply(w, step), rest, w')
    ensures Reaches(w, [step] + rest, w')
  {
    assert ([step] + rest)[1..] == rest;
  }

  /** A step by which the save `p` itself goes on. */
  predicate Own(step: Step, p: Process) {
    match step
    case CheckOne(q) => q == p
    case CreateTemp(q, _, _) => q == p
    case WriteTemp(q) => q == p
    case Link(q) => q == p
    case Unlink(q) => q == p
    case SkipPresent(q) => q == p
    case EndSave(q) => q == p
    case _ => false
  }

  // ---------------------------------------------------------------------
  // One step of an agreeing save
  // ---------------------------------------------------------------------

  lemma {:induction false} Beyond(nonces: set<nat>) returns (n: nat)
    ensures forall m :: m in nonces ==> m < n
  {
    if nonces == {} { return 0; }
    var m :| m in nonces;
    var rest := Beyond(nonces - {m});
    n := if rest <= m then m + 1 else rest;
    forall k | k in nonces ensures k < n {
      if k != m { assert k in nonces - {m}; }
    }
  }

  /** Some temporary name is free. */
  lemma FreshNonce(files: Files, slug: string, kind: Kind) returns (n: nat)
    ensures Temp(slug, kind, n) !in files
  {
    var nonces := set path | path in files && path.Temp? :: path.nonce;
    n := Beyond(nonces);
    assert Temp(slug, kind, n) in files ==> n in nonces;
  }

  /** How many steps a save still has to take at most. */
  function Left(phase: Phase): nat {
    match phase
    case Checking(i) => if i >= 3 then 14 else 17 - i
    case Creating(i) => if i >= 3 then 1 else 13 - 4 * i
    case Writing(i, _) => if i >= 3 then 0 else 12 - 4 * i
    case Linking(i, _) => if i >= 3 then 0 else 11 - 4 * i
    case Unlinking(i, _) => if i >= 3 then 0 else 10 - 4 * i
  }

  /** The step that is next for the save `p`. */
  lemma NextStep(w: World, p: Process) returns (step: Step)
    requires Inv(w) && p in w.saves && Agrees(w.files, w.saves[p].page)
    ensures Own(step, p) && Enabled(w, step)
    ensures step.EndSave? <==> w.saves[p].phase.Creating? && w.saves[p].phase.index >= 3
  {
    var save := w.saves[p];
    match save.phase
    case Checking(_) => step := CheckOne(p);
    case Creating(i) =>
      if i >= 3 {
        step := EndSave(p);
      } else if Final(save.page.slug, ORDER[i]) in w.files {
        step := SkipPresent(p);
      } else {
        var n := FreshNonce(w.files, save.page.slug, ORDER[i]);
        step := CreateTemp(p, n, ContentOf(save.page, ORDER[i]));
      }
    case Writing(_, _) => step := WriteTemp(p);
    case Linking(_, _) => step := Link(p);
    case Unlinking(_, _) => step := Unlink(p);
  }

  /** It takes the save closer to its end, and leaves it its page. */
  lemma StepProgresses(w: World, p: Process, step: Step)
    requires Inv(w) && p in w.saves && Agrees(w.files, w.saves[p].page)
    requires Own(step, p) && Enabled(w, step) && !step.EndSave?
    ensures var w' := Apply(w, step);
            && p in w'.saves && w'.saves[p].page == w.saves[p].page && Left(w'.saves[p].phase) < Left(w.saves[p].phase)
  {
    if step.CheckOne? && w.saves[p].phase.index < 3 {
      assert AgreesOn(w.files, w.saves[p].page, ORDER[w.saves[p].phase.index]);
    }
    if step.Link? { assert AgreesOn(w.files, w.saves[p].page, ORDER[w.saves[p].phase.index]); }
  }

  /** What one save's own steps leave alone. */
  ghost predicate OthersAlone(w: World, w': World, p: Process) {
    && w'.loads == w.loads && w'.discarding == w.discarding && w'.given == w.given && w'.loaded == w.loaded
    && w'.saves.Keys + {p} == w.saves.Keys + {p}
    && forall q :: q in w.saves && q != p ==> w'.saves[q] == w.saves[q]
  }

  lemma StepLeavesOthers(w: World, p: Process, step: Step)
    requires p in w.saves && Own(step, p) && Enabled(w, step)
    ensures OthersAlone(w, Apply(w, step), p)
  {}

  lemma OthersAloneChain(w: World, v: World, u: World, p: Process)
    requires OthersAlone(w, v, p) && OthersAlone(v, u, p)
    ensures OthersAlone(w, u, p)
  {}

  lemma OwnKeepsAgreement(w: World, p: Process, step: Step)
    requires Inv(w) && p in w.saves && Own(step, p) && Enabled(w, step) && Agrees(w.files, w.saves[p].page)
    ensures Inv(Apply(w, step)) && Agrees(Apply(w, step).files, w.saves[p].page)
  {
    StepKeeps(w, step);
    AgreementKept(w, step, Apply(w, step), w.saves[p].page);
  }

  // ---------------------------------------------------------------------
  // Whole saves
  // ---------------------------------------------------------------------

  /** A save that was let finish: its page is complete, and nobody else noticed. */
  ghost predicate Finished(w: World, p: Process, page: Page, steps: seq<Step>, w': World) {
    && Reaches(w, steps, w') && (forall i :: 0 <= i < |steps| ==> Own(steps[i], p))
    && Inv(w') && p !in w'.saves && Complete(w'.files, page) && OthersAlone(w, w', p)
  }

  lemma FinishedCons(w: World, p: Process, page: Page, step: Step, rest: seq<Step>, w': World)
    requires Enabled(w, step) && Own(step, p) && OthersAlone(w, Apply(w, step), p)
    requires Finished(Apply(w, step), p, page, rest, w')
    ensures Finished(w, p, page, [step] + rest, w')
  {
    ReachesCons(w, step, rest, w');
    OthersAloneChain(w, Apply(w, step), w', p);
  }

  lemma EndIsFinished(w: World, p: Process)
    requires Inv(w) && p in w.saves && Enabled(w, EndSave(p))
    ensures Finished(w, p, w.saves[p].page, [EndSave(p)], Apply(w, EndSave(p)))
  {
    AllPresent(w.files, w.saves[p].page);
    StepKeeps(w, EndSave(p));
    var steps := [EndSave(p)];
    assert steps[1..] == [];
    assert Reaches(Apply(w, EndSave(p)), steps[1..], Apply(w, EndSave(p)));
  }

  lemma {:induction false} SaveFinishes(w: World, p: Process) returns (steps: seq<Step>, w': World)
    requires Inv(w) && p in w.saves && Agrees(w.files, w.saves[p].page)
    ensures Finished(w, p, w.saves[p].page, steps, w')
    decreases Left(w.saves[p].phase)
  {
    var step := NextStep(w, p);
    if step.EndSave? {
      EndIsFinished(w, p);
      return [step], Apply(w, step);
    }
    StepProgresses(w, p, step);
    OwnKeepsAgreement(w, p, step);
    StepLeavesOthers(w, p, step);
    var rest;
    rest, w' := SaveFinishes(Apply(w, step), p);
    FinishedCons(w, p, w.saves[p].page, step, rest, w');
    steps := [step] + rest;
  }

  /** From every reachable state a save whose page agrees with the files present can
      be finished by its own steps alone, whatever the others are doing. */
  lemma SavesCanFinish(run: seq<World>, steps: seq<Step>, i: nat, p: Process) returns (more: seq<Step>, w': World)
    requires IsRun(run, steps) && i < |run| && p in run[i].saves && Agrees(run[i].files, run[i].saves[p].page)
    ensures Finished(run[i], p, run[i].saves[p].page, more, w')
  {
    RunKeepsInv(run, steps, i);
    more, w' := SaveFinishes(run[i], p);
  }

  /** Some final file of the page is another one. */
  ghost predicate Differs(files: Files, page: Page) {
    exists kind :: Final(page.slug, kind) in files && files[Final(page.slug, kind)] != ContentOf(page, kind)
  }

  /** A save comes to an end only when it is complete, crashes, or finds a file of
      its slug with other content. */
  lemma SavesEndForAReason(run: seq<World>, steps: seq<Step>, i: nat, p: Process)
    requires IsRun(run, steps) && i < |steps| && p in run[i].saves && p !in run[i + 1].saves
    ensures || (steps[i] == EndSave(p) && Complete(run[i].files, run[i].saves[p].page))
            || steps[i] == CrashSave(p)
            || ((steps[i] == CheckOne(p) || steps[i] == Link(p)) && Differs(run[i].files, run[i].saves[p].page))
  {
    assert MovesAt(run, steps, i);
    if steps[i] == EndSave(p) { EndedSaveIsComplete(run, steps, i, p); }
  }

  /** A save begins wherever no other save of the slug and no discard is under way,
      for any acceptable page. */
  lemma SavesCanBegin(w: World, p: Process, page: Page)
    requires p !in w.saves && !w.discarding && Slug.Accepted(page.slug) && TrueDigests(page)
    requires forall q :: q in w.saves ==> w.saves[q].page.slug != page.slug
    ensures Enabled(w, BeginSave(p, page))
    ensures var w' := Apply(w, BeginSave(p, page));
            && w'.files == w.files && w'.saves == w.saves[p := Save(page, Checking(0))]
            && w'.given == w.given + {page} && w'.loads == w.loads && !w'.discarding
  {}

  // ---------------------------------------------------------------------
  // Loads
  // ---------------------------------------------------------------------

  function LoadSteps(q: Process, slug: string): seq<Step> {
    [BeginLoad(q, slug), ReadOne(q), ReadOne(q), ReadOne(q), EndLoad(q)]
  }

  /** The world in which `q` has read these files of `slug`. */
  function HasRead(w: World, q: Process, slug: string, read: seq<Content>): World {
    w.(loads := w.loads[q := LoadState(slug, read)])
  }

  /** One more file is read. */
  lemma ReadGoesOn(w: World, q: Process, page: Page, read: seq<Content>)
    requires |read| < 3 && Complete(w.files, page)
    ensures var before := HasRead(w, q, page.slug, read);
            && Enabled(before, ReadOne(q))
            && Apply(before, ReadOne(q)) == HasRead(w, q, page.slug, read + [ContentOf(page, ORDER[|read|])])
  {
    var before := HasRead(w, q, page.slug, read);
    assert before.loads[q := LoadState(page.slug, read + [ContentOf(page, ORDER[|read|])])] ==
           w.loads[q := LoadState(page.slug, read + [ContentOf(page, ORDER[|read|])])];
  }

  /** The page with its three files. */
  lemma WholePageAssembles(page: Page)
    requires page.slug != "" && page.title != "" && page.description != "" && page.pageType != "" && TrueDigests(page)
    ensures Assemble(page.slug, ContentOf(page, Markdown), ContentOf(page, Claims), ContentOf(page, Metadata)) ==
            Some(page)
  {}

  lemma LoadEnds(w: World, q: Process, page: Page, read: seq<Content>)
    requires read == [ContentOf(page, Markdown), ContentOf(page, Claims), ContentOf(page, Metadata)]
    requires page.slug != "" && page.title != "" && page.description != "" && page.pageType != "" && TrueDigests(page)
    requires q !in w.loads
    ensures var before := HasRead(w, q, page.slug, read);
            Enabled(before, EndLoad(q)) && Apply(before, EndLoad(q)) == w.(loaded := w.loaded + {page})
  {
    WholePageAssembles(page);
    assert HasRead(w, q, page.slug, read).loads - {q} == w.loads;
  }

  /** A complete page with true digests and nonempty fields is returned to whoever
      loads it, whatever saves are under way. */
  lemma CompletePagesCanBeLoaded(w: World, q: Process, page: Page) returns (w': World)
    requires q !in w.loads && Complete(w.files, page) && Slug.Accepted(page.slug) && TrueDigests(page)
    requires page.title != "" && page.description != "" && page.pageType != ""
    ensures Reaches(w, LoadSteps(q, page.slug), w')
    ensures w' == w.(loaded := w.loaded + {page})
  {
    var slug, none: seq<Content> := page.slug, [];
    var one := none + [ContentOf(page, ORDER[0])];
    var two := one + [ContentOf(page, ORDER[1])];
    var all := two + [ContentOf(page, ORDER[2])];
    ReadGoesOn(w, q, page, none);
    ReadGoesOn(w, q, page, one);
    ReadGoesOn(w, q, page, two);
    assert all == [ContentOf(page, Markdown), ContentOf(page, Claims), ContentOf(page, Metadata)];
    LoadEnds(w, q, page, all);
    w' := w.(loaded := w.loaded + {page});
    FiveSteps(w, LoadSteps(q, slug), HasRead(w, q, slug, none), HasRead(w, q, slug, one), HasRead(w, q, slug, two),
              HasRead(w, q, slug, all), w');
  }

  lemma FiveSteps(w: World, steps: seq<Step>, a: World, b: World, c: World, d: World, w': World)
    requires |steps| == 5 && Enabled(w, steps[0]) && a == Apply(w, steps[0])
    requires Enabled(a, steps[1]) && b == Apply(a, steps[1]) && Enabled(b, steps[2]) && c == Apply(b, steps[2])
    requires Enabled(c, steps[3]) && d == Apply(c, steps[3]) && Enabled(d, steps[4]) && w' == Apply(d, steps[4])
    ensures Reaches(w, steps, w')
  {
    assert Reaches(w', [], w');
    ReachesCons(d, steps[4], [], w');
    ReachesCons(c, steps[3], [steps[4]], w');
    ReachesCons(b, steps[2], [steps[3]] + [steps[4]], w');
    ReachesCons(a, steps[1], [steps[2]] + ([steps[3]] + [steps[4]]), w');
    ReachesCons(w, steps[0], [steps[1]] + ([steps[2]] + ([steps[3]] + [steps[4]])), w');
    assert steps == [steps[0]] + ([steps[1]] + ([steps[2]] + ([steps[3]] + [steps[4]])));
  }
}
