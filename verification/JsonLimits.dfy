/** What the limits on JSON mean (internal/capsule/json.go, capsule/src/wire.ts): the
    deepest nesting, the longest text and the number of member names of a document,
    each measured on its own. */
module JsonLimits {
  import opened Text
  import opened Json

  // ---------------------------------------------------------------------
  // Measures of a document
  // ---------------------------------------------------------------------

  function Max(a: nat, b: nat): nat { if a < b then b else a }

  /** The nesting of the innermost value; a scalar alone has depth one. */
  function Depth(t: Tree): nat
    decreases t, 1
  {
    match t
    case Leaf(_) => 1
    case List(children) => 1 + ListDepth(children)
    case Record(fields) => 1 + FieldsDepth(fields)
  }

  function ListDepth(children: seq<Tree>): nat
    decreases children, 0
  {
    if children == [] then 0 else Max(Depth(children[0]), ListDepth(children[1..]))
  }

  function FieldsDepth(fields: seq<Field>): nat
    decreases fields, 0
  {
    if fields == [] then 0 else Max(Depth(fields[0].tree), FieldsDepth(fields[1..]))
  }

  /** All member names, in the order of the text. */
  function Names(t: Tree): seq<string>
    decreases t, 1
  {
    match t
    case Leaf(_) => []
    case List(children) => ListNames(children)
    case Record(fields) => FieldsNames(fields)
  }

  function ListNames(children: seq<Tree>): seq<string>
    decreases children, 0
  {
    if children == [] then [] else Names(children[0]) + ListNames(children[1..])
  }

  function FieldsNames(fields: seq<Field>): seq<string>
    decreases fields, 0
  {
    if fields == [] then [] else [fields[0].name] + Names(fields[0].tree) + FieldsNames(fields[1..])
  }

  /** All string values. */
  function Strings(t: Tree): seq<string>
    decreases t, 1
  {
    match t
    case Leaf(s) => if s.Str? then [s.text] else []
    case List(children) => ListStrings(children)
    case Record(fields) => FieldsStrings(fields)
  }

  function ListStrings(children: seq<Tree>): seq<string>
    decreases children, 0
  {
    if children == [] then [] else Strings(children[0]) + ListStrings(children[1..])
  }

  function FieldsStrings(fields: seq<Field>): seq<string>
    decreases fields, 0
  {
    if fields == [] then [] else Strings(fields[0].tree) + FieldsStrings(fields[1..])
  }

  ghost predicate Short(texts: seq<string>, limits: Limits) {
    forall i :: 0 <= i < |texts| ==> ByteLen(texts[i]) <= limits.maxStringBytes
  }

  lemma ShortConcat(a: seq<string>, b: seq<string>, limits: Limits)
    ensures Short(a + b, limits) <==> Short(a, limits) && Short(b, limits)
  {
    if Short(a + b, limits) {
      forall i | 0 <= i < |a| ensures ByteLen(a[i]) <= limits.maxStringBytes { assert (a + b)[i] == a[i]; }
      forall i | 0 <= i < |b| ensures ByteLen(b[i]) <= limits.maxStringBytes { assert (a + b)[|a| + i] == b[i]; }
    }
  }

  // ---------------------------------------------------------------------
  // The limits in these measures
  // ---------------------------------------------------------------------

  lemma {:induction false} KeysAreNames(t: Tree)
    ensures KeyCount(t) == |Names(t)|
    decreases t, 1
  {
    match t
    case Leaf(_) =>
    case List(children) => ListKeysAreNames(children);
    case Record(fields) => FieldKeysAreNames(fields);
  }

  lemma {:induction false} ListKeysAreNames(children: seq<Tree>)
    ensures ItemKeys(children) == |ListNames(children)|
    decreases children, 0
  {
    if children != [] {
      KeysAreNames(children[0]);
      ListKeysAreNames(children[1..]);
    }
  }

  lemma {:induction false} FieldKeysAreNames(fields: seq<Field>)
    ensures FieldKeys(fields) == |FieldsNames(fields)|
    decreases fields, 0
  {
    if fields != [] {
      KeysAreNames(fields[0].tree);
      FieldKeysAreNames(fields[1..]);
    }
  }

  /** Bounds on a list or on members, as `Bounded` states them for its parts. */
  ghost predicate ListBounded(children: seq<Tree>, depth: int, limits: Limits) {
    forall i :: 0 <= i < |children| ==> Bounded(children[i], depth, limits)
  }

  ghost predicate FieldsBounded(fields: seq<Field>, depth: int, limits: Limits) {
    forall i :: 0 <= i < |fields| ==>
      ByteLen(fields[i].name) <= limits.maxStringBytes && Bounded(fields[i].tree, depth, limits)
  }

  lemma ListBoundedCons(children: seq<Tree>, depth: int, limits: Limits)
    requires children != []
    ensures ListBounded(children, depth, limits) <==>
            Bounded(children[0], depth, limits) && ListBounded(children[1..], depth, limits)
  {
    assert forall i :: 0 <= i < |children[1..]| ==> children[1..][i] == children[i + 1];
    assert forall i :: 0 < i < |children| ==> children[i] == children[1..][i - 1];
  }

  lemma FieldsBoundedCons(fields: seq<Field>, depth: int, limits: Limits)
    requires fields != []
    ensures FieldsBounded(fields, depth, limits) <==>
            && ByteLen(fields[0].name) <= limits.maxStringBytes && Bounded(fields[0].tree, depth, limits)
            && FieldsBounded(fields[1..], depth, limits)
  {
    assert forall i :: 0 <= i < |fields[1..]| ==> fields[1..][i] == fields[i + 1];
    assert forall i :: 0 < i < |fields| ==> fields[i] == fields[1..][i - 1];
  }

  /** The document, found at `depth`, goes no deeper than allowed and has short texts. */
  ghost predicate Modest(nesting: nat, names: seq<string>, strings: seq<string>, depth: int, limits: Limits) {
    depth - 1 + nesting <= limits.maxDepth && Short(names, limits) && Short(strings, limits)
  }

  lemma {:induction false} BoundedMeans(t: Tree, depth: int, limits: Limits)
    ensures Bounded(t, depth, limits) <==> Modest(Depth(t), Names(t), Strings(t), depth, limits)
    decreases t, 1
  {
    match t
    case Leaf(s) =>
      if s.Str? { assert Strings(t)[0] == s.text; }
    case List(children) =>
      ListBoundedMeans(children, depth + 1, limits);
      assert Bounded(t, depth, limits) <==> depth <= limits.maxDepth && ListBounded(children, depth + 1, limits);
    case Record(fields) =>
      FieldsBoundedMeans(fields, depth + 1, limits);
      assert Bounded(t, depth, limits) <==> depth <= limits.maxDepth && FieldsBounded(fields, depth + 1, limits);
  }

  lemma {:induction false} ListBoundedMeans(children: seq<Tree>, depth: int, limits: Limits)
    ensures depth - 1 <= limits.maxDepth ==>
              (ListBounded(children, depth, limits) <==>
               Modest(ListDepth(children), ListNames(children), ListStrings(children), depth, limits))
    ensures ListBounded(children, depth, limits) && children != [] ==> depth <= limits.maxDepth
    decreases children, 0
  {
    if children != [] {
      ListBoundedCons(children, depth, limits);
      BoundedMeans(children[0], depth, limits);
      ListBoundedMeans(children[1..], depth, limits);
      ShortConcat(Names(children[0]), ListNames(children[1..]), limits);
      ShortConcat(Strings(children[0]), ListStrings(children[1..]), limits);
    }
  }

  lemma {:induction false} FieldsBoundedMeans(fields: seq<Field>, depth: int, limits: Limits)
    ensures depth - 1 <= limits.maxDepth ==>
              (FieldsBounded(fields, depth, limits) <==>
               Modest(FieldsDepth(fields), FieldsNames(fields), FieldsStrings(fields), depth, limits))
    decreases fields, 0
  {
    if fields != [] {
      FieldsBoundedCons(fields, depth, limits);
      BoundedMeans(fields[0].tree, depth, limits);
      FieldsBoundedMeans(fields[1..], depth, limits);
      FieldNamesShort(fields, limits);
      ShortConcat(Strings(fields[0].tree), FieldsStrings(fields[1..]), limits);
    }
  }

  lemma FieldNamesShort(fields: seq<Field>, limits: Limits)
    requires fields != []
    ensures Short(FieldsNames(fields), limits) <==>
            && ByteLen(fields[0].name) <= limits.maxStringBytes && Short(Names(fields[0].tree), limits)
            && Short(FieldsNames(fields[1..]), limits)
  {
    ShortConcat([fields[0].name] + Names(fields[0].tree), FieldsNames(fields[1..]), limits);
    ShortConcat([fields[0].name], Names(fields[0].tree), limits);
    assert [fields[0].name][0] == fields[0].name;
  }

  /** A document is within limits exactly when its deepest nesting, each name and
      string, and the number of its names are. */
  lemma LimitsMean(t: Tree, limits: Limits)
    ensures WithinLimits(t, limits) <==>
            && Depth(t) <= limits.maxDepth && |Names(t)| <= limits.maxKeys
            && (forall i :: 0 <= i < |Names(t)| ==> ByteLen(Names(t)[i]) <= limits.maxStringBytes)
            && (forall i :: 0 <= i < |Strings(t)| ==> ByteLen(Strings(t)[i]) <= limits.maxStringBytes)
  {
    KeysAreNames(t);
    BoundedMeans(t, 1, limits);
  }
}
