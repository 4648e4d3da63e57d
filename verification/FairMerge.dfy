/** The round-robin merge of ranked groups (internal/agents/retrieval.go). */
module FairMerge {

  /** Where a merged item comes from. */
  datatype Tag = Tag(group: nat, offset: nat)

  function MaxLen<T>(groups: seq<seq<T>>, g: nat): (n: nat)
    requires g <= |groups|
    ensures forall h :: 0 <= h < g ==> |groups[h]| <= n
  {
    if g == 0 then 0
    else
      var n := MaxLen(groups, g - 1);
      if |groups[g - 1]| > n then |groups[g - 1]| else n
  }

  /** Round robin up to offset `k` of group `j`: all items at smaller offsets, and
      those at offset `k` of earlier groups, ordered by offset and then group. */
  function Before<T>(groups: seq<seq<T>>, k: nat, j: nat): seq<Tag>
    requires j <= |groups|
    decreases k, j
  {
    if j == 0 then
      if k == 0 then [] else Before(groups, k - 1, |groups|)
    else Before(groups, k, j - 1) + if k < |groups[j - 1]| then [Tag(j - 1, k)] else []
  }

  ghost predicate Proper<T>(groups: seq<seq<T>>, tags: seq<Tag>) {
    forall i :: 0 <= i < |tags| ==> tags[i].group < |groups| && tags[i].offset < |groups[tags[i].group]|
  }

  lemma {:induction false} BeforeIsProper<T>(groups: seq<seq<T>>, k: nat, j: nat)
    requires j <= |groups|
    ensures Proper(groups, Before(groups, k, j))
    decreases k, j
  {
    if j == 0 {
      if k > 0 { BeforeIsProper(groups, k - 1, |groups|); }
    } else {
      BeforeIsProper(groups, k, j - 1);
    }
  }

  /** The full round-robin interleaving. */
  function All<T>(groups: seq<seq<T>>): seq<Tag> {
    Before(groups, MaxLen(groups, |groups|), 0)
  }

  ghost function Values<T>(groups: seq<seq<T>>, tags: seq<Tag>): seq<T>
    requires Proper(groups, tags)
  {
    seq(|tags|, i requires 0 <= i < |tags| => groups[tags[i].group][tags[i].offset])
  }

  // ---------------------------------------------------------------------
  // Prefixes
  // ---------------------------------------------------------------------

  predicate Prefix(a: seq<Tag>, b: seq<Tag>) { |a| <= |b| && a == b[..|a|] }

  /** One step of the walk along offsets and groups. */
  lemma NextIsLonger<T>(groups: seq<seq<T>>, k: nat, j: nat)
    requires j < |groups|
    ensures Prefix(Before(groups, k, j), Before(groups, k, j + 1))
    ensures |Before(groups, k, j + 1)| <= |Before(groups, k, j)| + 1
  {}

  lemma PrefixTransitive(a: seq<Tag>, b: seq<Tag>, c: seq<Tag>)
    requires Prefix(a, b) && Prefix(b, c)
    ensures Prefix(a, c)
  {
    assert c[..|a|] == c[..|b|][..|a|];
  }

  /** Every cut is a prefix of every later cut at a row start. */
  lemma {:induction false} RowIsPrefix<T>(groups: seq<seq<T>>, k: nat, j: nat, n: nat)
    requires j <= |groups| && k < n
    ensures Prefix(Before(groups, k, j), Before(groups, n, 0))
    decreases n - k, |groups| - j
  {
    if j < |groups| {
      NextIsLonger(groups, k, j);
      RowIsPrefix(groups, k, j + 1, n);
      PrefixTransitive(Before(groups, k, j), Before(groups, k, j + 1), Before(groups, n, 0));
    } else if k + 1 < n {
      RowIsPrefix(groups, k + 1, 0, n);
    } else {
      assert Before(groups, n, 0) == Before(groups, k, j);
    }
  }

  /** A row beyond the longest group adds nothing. */
  lemma {:induction false} EmptyRow<T>(groups: seq<seq<T>>, k: nat, j: nat)
    requires j <= |groups| && forall h :: 0 <= h < j ==> |groups[h]| <= k
    ensures Before(groups, k, j) == Before(groups, k, 0)
  {
    if j > 0 {
      EmptyRow(groups, k, j - 1);
      assert Before(groups, k, j - 1) + [] == Before(groups, k, j - 1);
    }
  }

  /** Rows at or beyond the longest group end the interleaving. */
  lemma {:induction false} RowsEnd<T>(groups: seq<seq<T>>, k: nat)
    requires k >= MaxLen(groups, |groups|)
    ensures Before(groups, k, 0) == All(groups)
  {
    if k > MaxLen(groups, |groups|) {
      RowsEnd(groups, k - 1);
      EmptyRow(groups, k - 1, |groups|);
    }
  }

  lemma CutIsPrefix<T>(groups: seq<seq<T>>, k: nat, j: nat)
    requires j <= |groups|
    ensures Prefix(Before(groups, k, j), All(groups))
  {
    var n := k + 1 + MaxLen(groups, |groups|);
    RowIsPrefix(groups, k, j, n);
    RowsEnd(groups, n);
  }

  // ---------------------------------------------------------------------
  // Shares
  // ---------------------------------------------------------------------

  /** The offsets that group `g` contributed, in order. */
  function Offsets(tags: seq<Tag>, g: nat): seq<nat> {
    if tags == [] then []
    else
      var n := |tags| - 1;
      Offsets(tags[..n], g) + if tags[n].group == g then [tags[n].offset] else []
  }

  lemma OffsetsSnoc(tags: seq<Tag>, t: Tag, g: nat)
    ensures Offsets(tags + [t], g) == Offsets(tags, g) + if t.group == g then [t.offset] else []
  {
    assert (tags + [t])[..|tags|] == tags;
  }

  function Count(n: nat): seq<nat> { seq(n, i => i) }

  function Share<T>(groups: seq<seq<T>>, k: nat, j: nat, g: nat): nat
    requires g < |groups|
  {
    var turns := if g < j then k + 1 else k;
    if turns <= |groups[g]| then turns else |groups[g]|
  }

  /** Up to any cut a group has contributed its first items, in order: one a row,
      until it is exhausted. */
  lemma {:induction false} SharesAreFair<T>(groups: seq<seq<T>>, k: nat, j: nat, g: nat)
    requires j <= |groups| && g < |groups|
    ensures Offsets(Before(groups, k, j), g) == Count(Share(groups, k, j, g))
    decreases k, j
  {
    if j == 0 {
      if k > 0 { SharesAreFair(groups, k - 1, |groups|, g); }
    } else {
      SharesAreFair(groups, k, j - 1, g);
      NextShare(groups, k, j, g);
    }
  }

  lemma NextShare<T>(groups: seq<seq<T>>, k: nat, j: nat, g: nat)
    requires 0 < j <= |groups| && g < |groups|
    requires Offsets(Before(groups, k, j - 1), g) == Count(Share(groups, k, j - 1, g))
    ensures Offsets(Before(groups, k, j), g) == Count(Share(groups, k, j, g))
  {
    if k < |groups[j - 1]| {
      OffsetsSnoc(Before(groups, k, j - 1), Tag(j - 1, k), g);
    } else {
      assert Before(groups, k, j) == Before(groups, k, j - 1);
    }
  }

  function Sum<T>(groups: seq<seq<T>>, g: nat): nat
    requires g <= |groups|
  {
    if g == 0 then 0 else Sum(groups, g - 1) + |groups[g - 1]|
  }

  function Contributions(tags: seq<Tag>, g: nat): nat {
    if g == 0 then 0 else Contributions(tags, g - 1) + |Offsets(tags, g - 1)|
  }

  lemma {:induction false} ContributionsSnoc(tags: seq<Tag>, t: Tag, g: nat)
    ensures Contributions(tags + [t], g) == Contributions(tags, g) + if t.group < g then 1 else 0
  {
    if g > 0 {
      ContributionsSnoc(tags, t, g - 1);
      OffsetsSnoc(tags, t, g - 1);
    }
  }

  lemma {:induction false} ContributionsOfNothing(g: nat)
    ensures Contributions([], g) == 0
  {
    if g > 0 { ContributionsOfNothing(g - 1); }
  }

  lemma {:induction false} EveryTagCounts(tags: seq<Tag>, g: nat)
    requires forall i :: 0 <= i < |tags| ==> tags[i].group < g
    ensures Contributions(tags, g) == |tags|
  {
    if tags == [] {
      ContributionsOfNothing(g);
    } else {
      var n := |tags| - 1;
      EveryTagCounts(tags[..n], g);
      ContributionsSnoc(tags[..n], tags[n], g);
      assert tags == tags[..n] + [tags[n]];
    }
  }

  lemma {:induction false} FullContributions<T>(groups: seq<seq<T>>, g: nat)
    requires g <= |groups|
    ensures Contributions(All(groups), g) == Sum(groups, g)
  {
    if g > 0 {
      FullContributions(groups, g - 1);
      SharesAreFair(groups, MaxLen(groups, |groups|), 0, g - 1);
    }
  }

  /** The interleaving holds every item. */
  lemma AllIsComplete<T>(groups: seq<seq<T>>)
    ensures |All(groups)| == Sum(groups, |groups|) && Proper(groups, All(groups))
  {
    BeforeIsProper(groups, MaxLen(groups, |groups|), 0);
    EveryTagCounts(All(groups), |groups|);
    FullContributions(groups, |groups|);
  }

  /** Every length is reached by some cut. */
  lemma {:induction false} CutOfLength<T>(groups: seq<seq<T>>, n: nat, k0: nat, j0: nat) returns (k: nat, j: nat)
    requires j0 <= |groups| && |Before(groups, k0, j0)| <= n <= |All(groups)|
    ensures j <= |groups| && Before(groups, k, j) == All(groups)[..n]
    decreases MaxLen(groups, |groups|) - k0, |groups| - j0
  {
    CutIsPrefix(groups, k0, j0);
    if |Before(groups, k0, j0)| == n {
      return k0, j0;
    }
    if j0 < |groups| {
      NextIsLonger(groups, k0, j0);
      k, j := CutOfLength(groups, n, k0, j0 + 1);
    } else {
      if k0 >= MaxLen(groups, |groups|) {
        RowsEnd(groups, k0 + 1);
        assert false;
      }
      k, j := CutOfLength(groups, n, k0 + 1, 0);
    }
  }

  /** Fairness of any prefix of the interleaving: each group contributes its first
      items in order, and of two groups the one with fewer has at most one item
      less, or is exhausted. */
  lemma PrefixIsFair<T>(groups: seq<seq<T>>, n: nat, g: nat, h: nat)
    requires n <= |All(groups)| && g < |groups| && h < |groups|
    ensures var a, b := Offsets(All(groups)[..n], g), Offsets(All(groups)[..n], h);
            && a == Count(|a|) && |a| <= |groups[g]|
            && (|a| <= |b| + 1 || |b| == |groups[h]|)
  {
    var k, j := CutOfLength(groups, n, 0, 0);
    SharesAreFair(groups, k, j, g);
    SharesAreFair(groups, k, j, h);
  }

  /** Smaller offsets first, and of one offset smaller groups first. */
  predicate Earlier(a: Tag, b: Tag) { a.offset < b.offset || (a.offset == b.offset && a.group < b.group) }

  ghost predicate Ordered(tags: seq<Tag>) {
    forall i, j :: 0 <= i < j < |tags| ==> Earlier(tags[i], tags[j])
  }

  lemma {:induction false} BeforeIsOrdered<T>(groups: seq<seq<T>>, k: nat, j: nat)
    requires j <= |groups|
    ensures Ordered(Before(groups, k, j))
    ensures forall i :: 0 <= i < |Before(groups, k, j)| ==> Earlier(Before(groups, k, j)[i], Tag(j, k))
    decreases k, j
  {
    if j == 0 {
      if k > 0 { BeforeIsOrdered(groups, k - 1, |groups|); }
    } else {
      BeforeIsOrdered(groups, k, j - 1);
    }
  }

  /** The interleaving goes by offset, and within one offset in the order of the
      groups; so it is the one such order of all items. */
  lemma AllIsOrdered<T>(groups: seq<seq<T>>)
    ensures Ordered(All(groups))
    ensures forall g, o :: 0 <= g < |groups| && 0 <= o < |groups[g]| ==> Tag(g, o) in All(groups)
  {
    var k := MaxLen(groups, |groups|);
    BeforeIsOrdered(groups, k, 0);
    forall g, o | 0 <= g < |groups| && 0 <= o < |groups[g]| ensures Tag(g, o) in All(groups) {
      SharesAreFair(groups, k, 0, g);
      assert Offsets(All(groups), g)[o] == o;
      OffsetIsTagged(All(groups), g, o);
    }
  }

  lemma {:induction false} OffsetIsTagged(tags: seq<Tag>, g: nat, i: nat)
    requires i < |Offsets(tags, g)|
    ensures Tag(g, Offsets(tags, g)[i]) in tags
  {
    var n := |tags| - 1;
    if i < |Offsets(tags[..n], g)| { OffsetIsTagged(tags[..n], g, i); }
  }

  // ---------------------------------------------------------------------
  // The loops
  // ---------------------------------------------------------------------

  /** The result so far is the values of a cut. */
  ghost predicate At<T>(groups: seq<seq<T>>, k: nat, j: nat, result: seq<T>) {
    j <= |groups| && Proper(groups, Before(groups, k, j)) && result == Values(groups, Before(groups, k, j))
  }

  lemma Advance<T>(groups: seq<seq<T>>, k: nat, j: nat, result: seq<T>)
    requires At(groups, k, j, result) && j < |groups|
    ensures At(groups, k, j + 1, result + if k < |groups[j]| then [groups[j][k]] else [])
  {
    BeforeIsProper(groups, k, j + 1);
  }

  function Least(a: int, b: int): int { if a <= b then a else b }

  /** `FairMerge`: the first `limit` items of the full interleaving. */
  method Merge<T>(groups: seq<seq<T>>, limit: int) returns (result: seq<T>)
    ensures Proper(groups, All(groups)) && |All(groups)| == Sum(groups, |groups|)
    ensures |result| == if limit <= 0 then 0 else Least(limit, Sum(groups, |groups|))
    ensures result == Values(groups, All(groups))[..|result|]
  {
    AllIsComplete(groups);
    result := [];
    if limit <= 0 { return; }
    var offset := 0;
    while |result| < limit
      invariant |result| <= limit && At(groups, offset, 0, result)
      decreases limit - |result|
    {
      var added := false;
      var index := 0;
      ghost var before := result;
      while index < |groups| && |result| < limit
        invariant 0 <= index <= |groups| && |result| <= limit && At(groups, offset, index, result)
        invariant |before| <= |result| && (added <==> |before| < |result|)
        invariant !added ==> forall h :: 0 <= h < index ==> |groups[h]| <= offset
      {
        Advance(groups, offset, index, result);
        if offset < |groups[index]| {
          result := result + [groups[index][offset]];
          added := true;
        }
        index := index + 1;
      }
      if !added || |result| == limit {
        FinishMerge(groups, offset, index, result, limit);
        return;
      }
      offset := offset + 1;
    }
    FinishMerge(groups, offset, 0, result, limit);
  }

  lemma LongestGroup<T>(groups: seq<seq<T>>, g: nat, k: nat)
    requires g <= |groups| && forall h :: 0 <= h < g ==> |groups[h]| <= k
    ensures MaxLen(groups, g) <= k
  {}

  lemma FinishMerge<T>(groups: seq<seq<T>>, k: nat, j: nat, result: seq<T>, limit: nat)
    requires At(groups, k, j, result) && |result| <= limit
    requires |result| < limit ==> j == |groups| && forall h :: 0 <= h < |groups| ==> |groups[h]| <= k
    requires Proper(groups, All(groups)) && |All(groups)| == Sum(groups, |groups|)
    ensures |result| == Least(limit, Sum(groups, |groups|)) && result == Values(groups, All(groups))[..|result|]
  {
    CutIsPrefix(groups, k, j);
    if |result| < limit {
      LongestGroup(groups, |groups|, k);
      EmptyRow(groups, k, |groups|);
      RowsEnd(groups, k);
    }
  }
}
