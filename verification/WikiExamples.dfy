/** A page set that can be published once and not again
    (internal/artifacts/wiki.go): 1024 pages make 2052 files. */
module WikiExamples {
  import opened Text
  import Slug
  import opened BundlePaths
  import opened Wiki
  import opened WikiStore

  predicate Word(w: string) {
    1 <= |w| <= 255 && forall i :: 0 <= i < |w| ==> w[i] == 'a' || w[i] == 'b'
  }

  lemma {:induction false} WordBytes(w: string)
    requires forall i :: 0 <= i < |w| ==> w[i] == 'a' || w[i] == 'b'
    ensures ByteLen(w) == |w|
  {
    if w != "" { WordBytes(w[1..]); }
  }

  lemma WordIsAccepted(w: string)
    requires Word(w)
    ensures Slug.Accepted(w)
  {
    WordBytes(w);
    assert '/' !in w && '\\' !in w;
    Slug.NoSlashIsOneSegment(w);
    assert "index"[0] == 'i' && "log"[0] == 'l';
    assert Slug.SegmentMatches(w);
  }

  function Letters(c: char, n: nat): string { seq(n, i => c) }

  /** The `i`-th slug: a run of `a` and a run of `b`. */
  function SlugOf(i: nat): string { Letters('a', 1 + i / 32) + Letters('b', 1 + i % 32) }

  lemma SlugOfIsWord(i: nat)
    requires i < 1024
    ensures Word(SlugOf(i)) && Dirs(SlugOf(i)) == {}
  {}

  lemma SlugsDiffer(i: nat, j: nat)
    requires i < j < 1024
    ensures SlugOf(i) != SlugOf(j)
  {
    if i / 32 < j / 32 {
      assert SlugOf(i)[1 + i / 32] == 'b' && SlugOf(j)[1 + i / 32] == 'a';
    } else {
      assert i / 32 == j / 32 && i % 32 < j % 32;
      assert |SlugOf(i)| < |SlugOf(j)|;
    }
  }

  /** Short pages without claims. */
  function ManyPages(): seq<Page> {
    seq(1024, i requires 0 <= i < 1024 => Page(SlugOf(i), SlugOf(i), "Text.", "{\"claims\":[]}", "", ""))
  }

  lemma ManyPagesAreGood()
    ensures GoodPages(ManyPages()) && Tame(ManyPages()) && Directories(ManyPages()) == {}
  {
    var pages := ManyPages();
    forall i | 0 <= i < |pages| ensures Slug.Accepted(pages[i].slug) && Dirs(pages[i].slug) == {} {
      SlugOfIsWord(i);
      WordIsAccepted(SlugOf(i));
    }
    forall i, j | 0 <= i < j < |pages| ensures pages[i].slug != pages[j].slug { SlugsDiffer(i, j); }
    GoodIsTame(pages);
  }

  /** Whatever the texts and checks: publishable inputs with 999 pages or more are
      accepted into an absent version and then refused as different from
      themselves. */
  lemma LargeWikiIsNotRepublished(f: Format, inputs: Inputs, budget: nat)
    requires Publishable(f, inputs) && CollisionFree(f) && |inputs.pages| >= 999 && budget > FileCount(inputs.pages)
    ensures Publish(f, None, inputs, budget) == (Some(Bundle(f, inputs)), Receipt(f, inputs))
    ensures Publish(f, Some(Bundle(f, inputs)), inputs, budget) == (Some(Bundle(f, inputs)), Different)
  {
    FirstPublication(f, inputs, budget);
    LaterPublication(f, inputs, Bundle(f, inputs), budget);
  }

  /** A page set on the failing side: wherever its claims and links pass, that is,
      wherever it is publishable at all, it cannot be published again. */
  lemma ManyPagesAreNotRepublished(f: Format, runId: string, revisions: seq<Revision>)
    requires CollisionFree(f)
    ensures GoodPages(ManyPages()) && Tame(ManyPages())
    ensures var inputs := Inputs(runId, ManyPages(), revisions);
            var budget := FileCount(ManyPages()) + 1;
            f.claimsOk(ManyPages()) && f.linksOk(Render(f, inputs, Known(ManyPages()))) ==>
              && Publish(f, None, inputs, budget) == (Some(Bundle(f, inputs)), Receipt(f, inputs))
              && Publish(f, Some(Bundle(f, inputs)), inputs, budget) == (Some(Bundle(f, inputs)), Different)
  {
    ManyPagesAreGood();
    var inputs := Inputs(runId, ManyPages(), revisions);
    if f.claimsOk(ManyPages()) && f.linksOk(Render(f, inputs, Known(ManyPages()))) {
      LargeWikiIsNotRepublished(f, inputs, FileCount(ManyPages()) + 1);
    }
  }
}
