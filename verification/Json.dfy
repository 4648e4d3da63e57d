/** JSON values, syntax trees and the two limit checkers that must agree: the
    strict recursive decoder of internal/capsule/json.go and the explicit-stack
    traversal of capsule/src/wire.ts. */
module Json {
  import opened Text

  /** A scalar. A number keeps its literal, as `json.Number` does; `finite` says
      whether the literal denotes an int64 or a finite float64. */
  datatype Scalar =
    | Null
    | Bool(truth: bool)
    | Num(literal: string, finite: bool)
    | Str(text: string)

  /** A decoded value: objects are maps, so member order is forgotten. */
  datatype Value =
    | Atom(scalar: Scalar)
    | Arr(items: seq<Value>)
    | Obj(members: map<string, Value>)

  /** The syntax of a JSON text: member order and duplicate names are kept. */
  datatype Tree =
    | Leaf(scalar: Scalar)
    | List(children: seq<Tree>)
    | Record(fields: seq<Field>)

  datatype Field = Field(name: string, tree: Tree)

  /** What `json.Decoder.Token` yields; a member name is an `Item` string.
      `Bad` is the error token. */
  datatype Token =
    | Item(scalar: Scalar)
    | OpenObject
    | CloseObject
    | OpenArray
    | CloseArray
    | Bad

  datatype Limits = Limits(maxDepth: int, maxStringBytes: int, maxKeys: int)

  // ---------------------------------------------------------------------
  // Trees: their token stream, their value, and the limits as a specification
  // ---------------------------------------------------------------------

  function Tokens(t: Tree): (ts: seq<Token>)
    ensures |ts| > 0
    ensures ts[0] != CloseObject && ts[0] != CloseArray
    decreases t, 1
  {
    match t
    case Leaf(s) => [Item(s)]
    case List(children) => [OpenArray] + ItemTokens(children) + [CloseArray]
    case Record(fields) => [OpenObject] + FieldTokens(fields) + [CloseObject]
  }

  function ItemTokens(children: seq<Tree>): seq<Token>
    decreases children, 0
  {
    if children == [] then [] else Tokens(children[0]) + ItemTokens(children[1..])
  }

  function FieldTokens(fields: seq<Field>): seq<Token>
    decreases fields, 0
  {
    if fields == [] then []
    else [Item(Str(fields[0].name))] + Tokens(fields[0].tree) + FieldTokens(fields[1..])
  }

  function ValueOf(t: Tree): Value
    decreases t, 1
  {
    match t
    case Leaf(s) => Atom(s)
    case List(children) => Arr(ItemValues(children))
    case Record(fields) => Obj(FieldValues(fields))
  }

  function ItemValues(children: seq<Tree>): seq<Value>
    decreases children, 0
  {
    if children == [] then [] else [ValueOf(children[0])] + ItemValues(children[1..])
  }

  function FieldValues(fields: seq<Field>): map<string, Value>
    decreases fields, 0
  {
    if fields == [] then map[]
    else map[fields[0].name := ValueOf(fields[0].tree)] + FieldValues(fields[1..])
  }

  /** The total number of object members in the tree. */
  function KeyCount(t: Tree): nat
    decreases t, 1
  {
    match t
    case Leaf(_) => 0
    case List(children) => ItemKeys(children)
    case Record(fields) => FieldKeys(fields)
  }

  function ItemKeys(children: seq<Tree>): nat
    decreases children, 0
  {
    if children == [] then 0 else KeyCount(children[0]) + ItemKeys(children[1..])
  }

  function FieldKeys(fields: seq<Field>): nat
    decreases fields, 0
  {
    if fields == [] then 0 else 1 + KeyCount(fields[0].tree) + FieldKeys(fields[1..])
  }

  /** Every object has pairwise distinct names, and every number is finite. */
  ghost predicate Strict(t: Tree)
    decreases t
  {
    match t
    case Leaf(s) => s.Num? ==> s.finite
    case List(children) => forall i :: 0 <= i < |children| ==> Strict(children[i])
    case Record(fields) =>
      && (forall i, j :: 0 <= i < j < |fields| ==> fields[i].name != fields[j].name)
      && (forall i :: 0 <= i < |fields| ==> Strict(fields[i].tree))
  }

  predicate ShortText(s: Scalar, limits: Limits) {
    s.Str? ==> ByteLen(s.text) <= limits.maxStringBytes
  }

  /** Depth and string sizes are within limits for a tree found at `depth`. */
  ghost predicate Bounded(t: Tree, depth: int, limits: Limits)
    decreases t
  {
    && depth <= limits.maxDepth
    && match t
       case Leaf(s) => ShortText(s, limits)
       case List(children) =>
         forall i :: 0 <= i < |children| ==> Bounded(children[i], depth + 1, limits)
       case Record(fields) =>
         forall i :: 0 <= i < |fields| ==>
           && ByteLen(fields[i].name) <= limits.maxStringBytes
           && Bounded(fields[i].tree, depth + 1, limits)
  }

  /** The specification both checkers are measured against. */
  ghost predicate WithinLimits(t: Tree, limits: Limits) {
    Bounded(t, 1, limits) && KeyCount(t) <= limits.maxKeys
  }

  // ---------------------------------------------------------------------
  // The token stream determines the tree
  // ---------------------------------------------------------------------

  /** A tree and what follows it can be told from the tokens. */
  lemma {:induction false} TokensAreUnique(t: Tree, x: seq<Token>, u: Tree, y: seq<Token>)
    requires Tokens(t) + x == Tokens(u) + y
    ensures t == u && x == y
    decreases t, 1
  {
    assert (Tokens(t) + x)[0] == Tokens(t)[0] && (Tokens(u) + y)[0] == Tokens(u)[0];
    match t
    case Leaf(_) =>
      assert (Tokens(t) + x)[1..] == x && (Tokens(u) + y)[1..] == y;
    case List(children) =>
      assert (Tokens(t) + x)[1..] == ItemTokens(children) + ([CloseArray] + x);
      assert (Tokens(u) + y)[1..] == ItemTokens(u.children) + ([CloseArray] + y);
      ItemTokensAreUnique(children, [CloseArray] + x, u.children, [CloseArray] + y);
      assert ([CloseArray] + x)[1..] == x && ([CloseArray] + y)[1..] == y;
    case Record(fields) =>
      assert (Tokens(t) + x)[1..] == FieldTokens(fields) + ([CloseObject] + x);
      assert (Tokens(u) + y)[1..] == FieldTokens(u.fields) + ([CloseObject] + y);
      FieldTokensAreUnique(fields, [CloseObject] + x, u.fields, [CloseObject] + y);
      assert ([CloseObject] + x)[1..] == x && ([CloseObject] + y)[1..] == y;
  }

  lemma ItemsBegin(a: seq<Tree>, x: seq<Token>)
    requires x != []
    ensures |ItemTokens(a) + x| > 0
    ensures a == [] ==> ItemTokens(a) + x == x
    ensures a != [] ==> (ItemTokens(a) + x)[0] == Tokens(a[0])[0]
  {}

  lemma FieldsBegin(a: seq<Field>, x: seq<Token>)
    requires x != []
    ensures |FieldTokens(a) + x| > 0
    ensures a == [] ==> FieldTokens(a) + x == x
    ensures a != [] ==> (FieldTokens(a) + x)[0] == Item(Str(a[0].name))
  {}

  lemma {:induction false} ItemTokensAreUnique(a: seq<Tree>, x: seq<Token>, b: seq<Tree>, y: seq<Token>)
    requires x != [] && y != [] && x[0] == CloseArray && y[0] == CloseArray
    requires ItemTokens(a) + x == ItemTokens(b) + y
    ensures a == b && x == y
    decreases a, 0
  {
    if a == [] || b == [] {
      ItemsBegin(a, x);
      ItemsBegin(b, y);
    } else {
      assert ItemTokens(a) + x == Tokens(a[0]) + (ItemTokens(a[1..]) + x);
      assert ItemTokens(b) + y == Tokens(b[0]) + (ItemTokens(b[1..]) + y);
      TokensAreUnique(a[0], ItemTokens(a[1..]) + x, b[0], ItemTokens(b[1..]) + y);
      ItemTokensAreUnique(a[1..], x, b[1..], y);
      assert a == [a[0]] + a[1..] && b == [b[0]] + b[1..];
    }
  }

  lemma {:induction false} FieldTokensAreUnique(a: seq<Field>, x: seq<Token>, b: seq<Field>, y: seq<Token>)
    requires x != [] && y != [] && x[0] == CloseObject && y[0] == CloseObject
    requires FieldTokens(a) + x == FieldTokens(b) + y
    ensures a == b && x == y
    decreases a, 0
  {
    if a == [] || b == [] {
      FieldsBegin(a, x);
      FieldsBegin(b, y);
    } else {
      var r, q := FieldTokens(a[1..]) + x, FieldTokens(b[1..]) + y;
      assert FieldTokens(a) + x == [Item(Str(a[0].name))] + (Tokens(a[0].tree) + r);
      assert FieldTokens(b) + y == [Item(Str(b[0].name))] + (Tokens(b[0].tree) + q);
      assert ([Item(Str(a[0].name))] + (Tokens(a[0].tree) + r))[1..] == Tokens(a[0].tree) + r;
      assert ([Item(Str(b[0].name))] + (Tokens(b[0].tree) + q))[1..] == Tokens(b[0].tree) + q;
      assert (FieldTokens(a) + x)[0] == Item(Str(a[0].name)) && (FieldTokens(b) + y)[0] == Item(Str(b[0].name));
      TokensAreUnique(a[0].tree, r, b[0].tree, q);
      FieldTokensAreUnique(a[1..], x, b[1..], y);
      assert a == [a[0]] + a[1..] && b == [b[0]] + b[1..];
    }
  }

  // ---------------------------------------------------------------------
  // The strict decoder as a function of the token stream
  // ---------------------------------------------------------------------

  datatype Decoded =
    | Err
    | Ok(value: Value, rest: seq<Token>, keys: nat)

  /** `decoder.More()`. */
  predicate More(ts: seq<Token>) {
    ts != [] && ts[0] != CloseObject && ts[0] != CloseArray
  }

  function Decode(ts: seq<Token>, depth: int, limits: Limits, keys: nat): (r: Decoded)
    ensures r.Ok? ==> |r.rest| < |ts|
    decreases |ts|, 0
  {
    if depth > limits.maxDepth || ts == [] then Err
    else match ts[0]
      case OpenObject => DecodeFields(ts[1..], depth, limits, keys, map[])
      case OpenArray => DecodeItems(ts[1..], depth, limits, keys, [])
      case Item(s) =>
        if ShortText(s, limits) && (s.Num? ==> s.finite) then Ok(Atom(s), ts[1..], keys) else Err
      case _ => Err
  }

  /** The object loop, with the members decoded so far in `acc`. */
  function DecodeFields(ts: seq<Token>, depth: int, limits: Limits, keys: nat, acc: map<string, Value>): (r: Decoded)
    ensures r.Ok? ==> |r.rest| < |ts|
    decreases |ts|, 1
  {
    if More(ts) then
      if !(ts[0].Item? && ts[0].scalar.Str?) then Err
      else
        var name := ts[0].scalar.text;
        if ByteLen(name) > limits.maxStringBytes || name in acc || keys + 1 > limits.maxKeys then Err
        else match Decode(ts[1..], depth + 1, limits, keys + 1)
          case Err => Err
          case Ok(value, rest, k) => DecodeFields(rest, depth, limits, k, acc[name := value])
    else if ts != [] && ts[0] == CloseObject then Ok(Obj(acc), ts[1..], keys)
    else Err
  }

  /** The array loop, with the items decoded so far in `acc`. */
  function DecodeItems(ts: seq<Token>, depth: int, limits: Limits, keys: nat, acc: seq<Value>): (r: Decoded)
    ensures r.Ok? ==> |r.rest| < |ts|
    decreases |ts|, 1
  {
    if More(ts) then
      match Decode(ts, depth + 1, limits, keys)
      case Err => Err
      case Ok(value, rest, k) => DecodeItems(rest, depth, limits, k, acc + [value])
    else if ts != [] && ts[0] == CloseArray then Ok(Arr(acc), ts[1..], keys)
    else Err
  }

  /** `parseStrictJSON` after lexing: one value and then the end of the text. */
  function ParseStrict(ts: seq<Token>, limits: Limits): (r: Option<(Value, nat)>)
  {
    match Decode(ts, 1, limits, 0)
    case Err => None
    case Ok(value, rest, keys) => if rest == [] then Some((value, keys)) else None
  }

  // ---------------------------------------------------------------------
  // The decoder accepts exactly the strict trees within limits
  // ---------------------------------------------------------------------

  /** Decoding the tokens of `t`, followed by anything, yields `t`'s value and
      leaves the rest, exactly when `t` is strict and within limits. */
  lemma {:induction false} DecodeTree(t: Tree, rest: seq<Token>, depth: int, limits: Limits, keys: nat)
    requires keys <= limits.maxKeys
    ensures Decode(Tokens(t) + rest, depth, limits, keys) ==
            if Strict(t) && Bounded(t, depth, limits) && keys + KeyCount(t) <= limits.maxKeys
            then Ok(ValueOf(t), rest, keys + KeyCount(t)) else Err
    decreases t, 1
  {
    var ts := Tokens(t) + rest;
    match t
    case Leaf(s) =>
      assert ts[1..] == rest;
    case List(children) =>
      assert ts[1..] == ItemTokens(children) + ([CloseArray] + rest);
      if depth <= limits.maxDepth {
        DecodeItemList(children, rest, depth, limits, keys, []);
        assert [] + ItemValues(children) == ItemValues(children);
      }
    case Record(fields) =>
      assert ts[1..] == FieldTokens(fields) + ([CloseObject] + rest);
      if depth <= limits.maxDepth {
        var none: map<string, Value> := map[];
        assert none.Keys == {};
        DecodeFieldList(fields, rest, depth, limits, keys, none);
        RecordFits(fields, depth, limits);
        assert none + FieldValues(fields) == FieldValues(fields);
      }
  }

  /** One item: the decoder checks it and goes on behind it. */
  lemma DecodeOneItem(head: Tree, after: seq<Token>, depth: int, limits: Limits, keys: nat, acc: seq<Value>)
    requires keys <= limits.maxKeys
    ensures DecodeItems(Tokens(head) + after, depth, limits, keys, acc) ==
            if Strict(head) && Bounded(head, depth + 1, limits) && keys + KeyCount(head) <= limits.maxKeys
            then DecodeItems(after, depth, limits, keys + KeyCount(head), acc + [ValueOf(head)])
            else Err
    decreases head, 2
  {
    var ts := Tokens(head) + after;
    assert ts[0] == Tokens(head)[0];
    DecodeTree(head, after, depth + 1, limits, keys);
  }

  ghost predicate ItemsFit(children: seq<Tree>, depth: int, limits: Limits) {
    forall i :: 0 <= i < |children| ==> Strict(children[i]) && Bounded(children[i], depth + 1, limits)
  }

  /** What decoding the rest of an array must produce. */
  ghost function ItemOutcome(children: seq<Tree>, rest: seq<Token>, depth: int, limits: Limits, keys: nat,
                             acc: seq<Value>): Decoded {
    if ItemsFit(children, depth, limits) && keys + ItemKeys(children) <= limits.maxKeys
    then Ok(Arr(acc + ItemValues(children)), rest, keys + ItemKeys(children)) else Err
  }

  lemma ItemsFitCons(children: seq<Tree>, depth: int, limits: Limits)
    requires children != []
    ensures ItemsFit(children, depth, limits) <==>
            Strict(children[0]) && Bounded(children[0], depth + 1, limits) && ItemsFit(children[1..], depth, limits)
  {
    var tail := children[1..];
    assert forall i :: 0 <= i < |tail| ==> tail[i] == children[i + 1];
    if Strict(children[0]) && Bounded(children[0], depth + 1, limits) && ItemsFit(tail, depth, limits) {
      forall i | 0 <= i < |children| ensures Strict(children[i]) && Bounded(children[i], depth + 1, limits) {
        if i > 0 { assert children[i] == tail[i - 1]; }
      }
    }
  }

  lemma ItemOutcomeCons(children: seq<Tree>, rest: seq<Token>, depth: int, limits: Limits, keys: nat, acc: seq<Value>)
    requires children != []
    ensures var head := children[0];
            ItemOutcome(children, rest, depth, limits, keys, acc) ==
            if ItemFits(head, depth, limits, keys)
            then ItemOutcome(children[1..], rest, depth, limits, keys + KeyCount(head), acc + [ValueOf(head)])
            else Err
  {
    ItemsFitCons(children, depth, limits);
    assert acc + [ValueOf(children[0])] + ItemValues(children[1..]) == acc + ItemValues(children);
  }

  lemma ItemTokensCons(children: seq<Tree>, close: seq<Token>)
    requires children != []
    ensures ItemTokens(children) + close == Tokens(children[0]) + (ItemTokens(children[1..]) + close)
  {}

  lemma DecodeNoItems(rest: seq<Token>, depth: int, limits: Limits, keys: nat, acc: seq<Value>)
    ensures DecodeItems([CloseArray] + rest, depth, limits, keys, acc) == Ok(Arr(acc), rest, keys)
  {}

  ghost predicate ItemFits(head: Tree, depth: int, limits: Limits, keys: nat) {
    Strict(head) && Bounded(head, depth + 1, limits) && keys + KeyCount(head) <= limits.maxKeys
  }

  lemma DecodeItemsCons(children: seq<Tree>, close: seq<Token>, depth: int, limits: Limits, keys: nat, acc: seq<Value>)
    requires children != [] && keys <= limits.maxKeys
    ensures var head := children[0];
            DecodeItems(ItemTokens(children) + close, depth, limits, keys, acc) ==
            if ItemFits(head, depth, limits, keys)
            then DecodeItems(ItemTokens(children[1..]) + close, depth, limits, keys + KeyCount(head),
                             acc + [ValueOf(head)])
            else Err
    decreases children, 0
  {
    ItemTokensCons(children, close);
    DecodeOneItem(children[0], ItemTokens(children[1..]) + close, depth, limits, keys, acc);
  }

  lemma {:induction false} DecodeItemList(children: seq<Tree>, rest: seq<Token>, depth: int, limits: Limits, keys: nat,
                                          acc: seq<Value>)
    requires keys <= limits.maxKeys
    ensures DecodeItems(ItemTokens(children) + ([CloseArray] + rest), depth, limits, keys, acc) ==
            ItemOutcome(children, rest, depth, limits, keys, acc)
    decreases children, 1
  {
    var close := [CloseArray] + rest;
    if children == [] {
      assert ItemTokens(children) + close == close;
      DecodeNoItems(rest, depth, limits, keys, acc);
      assert acc + ItemValues(children) == acc;
    } else {
      DecodeItemsCons(children, close, depth, limits, keys, acc);
      ItemOutcomeCons(children, rest, depth, limits, keys, acc);
      if ItemFits(children[0], depth, limits, keys) {
        DecodeItemList(children[1..], rest, depth, limits, keys + KeyCount(children[0]), acc + [ValueOf(children[0])]);
      }
    }
  }

  /** One member: the decoder checks it and goes on behind it with one more
      entry in `acc`. */
  lemma DecodeOneField(head: Field, after: seq<Token>, depth: int, limits: Limits, keys: nat, acc: map<string, Value>)
    requires keys <= limits.maxKeys
    ensures DecodeFields([Item(Str(head.name))] + (Tokens(head.tree) + after), depth, limits, keys, acc) ==
            if FieldFits(head, depth, limits, acc.Keys) && keys + 1 + KeyCount(head.tree) <= limits.maxKeys
            then DecodeFields(after, depth, limits, keys + 1 + KeyCount(head.tree),
                              acc[head.name := ValueOf(head.tree)])
            else Err
    decreases head, 0
  {
    var ts := [Item(Str(head.name))] + (Tokens(head.tree) + after);
    assert ts[1..] == Tokens(head.tree) + after;
    if keys + 1 <= limits.maxKeys {
      DecodeTree(head.tree, after, depth + 1, limits, keys + 1);
    }
  }

  lemma FieldTokensCons(fields: seq<Field>, close: seq<Token>)
    requires fields != []
    ensures FieldTokens(fields) + close ==
            [Item(Str(fields[0].name))] + (Tokens(fields[0].tree) + (FieldTokens(fields[1..]) + close))
  {}

  lemma DecodeNoFields(rest: seq<Token>, depth: int, limits: Limits, keys: nat, acc: map<string, Value>)
    ensures DecodeFields([CloseObject] + rest, depth, limits, keys, acc) == Ok(Obj(acc), rest, keys)
  {}

  /** Whether one member passes with `keys` members counted before it. */
  ghost predicate HeadFits(head: Field, depth: int, limits: Limits, keys: nat, names: set<string>) {
    FieldFits(head, depth, limits, names) && keys + 1 + KeyCount(head.tree) <= limits.maxKeys
  }

  lemma DecodeFieldsCons(fields: seq<Field>, close: seq<Token>, depth: int, limits: Limits, keys: nat,
                         acc: map<string, Value>)
    requires fields != [] && keys <= limits.maxKeys
    ensures var head := fields[0];
            DecodeFields(FieldTokens(fields) + close, depth, limits, keys, acc) ==
            if HeadFits(head, depth, limits, keys, acc.Keys)
            then DecodeFields(FieldTokens(fields[1..]) + close, depth, limits, keys + 1 + KeyCount(head.tree),
                              acc[head.name := ValueOf(head.tree)])
            else Err
    decreases fields, 0
  {
    FieldTokensCons(fields, close);
    DecodeOneField(fields[0], FieldTokens(fields[1..]) + close, depth, limits, keys, acc);
  }

  lemma DecodeFieldListEnd(rest: seq<Token>, depth: int, limits: Limits, keys: nat, acc: map<string, Value>)
    requires keys <= limits.maxKeys
    ensures DecodeFields(FieldTokens([]) + ([CloseObject] + rest), depth, limits, keys, acc) ==
            FieldOutcome([], rest, depth, limits, keys, acc)
  {
    assert FieldTokens([]) + ([CloseObject] + rest) == [CloseObject] + rest;
    DecodeNoFields(rest, depth, limits, keys, acc);
    assert acc + FieldValues([]) == acc;
  }

  lemma {:induction false} DecodeFieldList(fields: seq<Field>, rest: seq<Token>, depth: int, limits: Limits, keys: nat,
                                           acc: map<string, Value>)
    requires keys <= limits.maxKeys
    ensures DecodeFields(FieldTokens(fields) + ([CloseObject] + rest), depth, limits, keys, acc) ==
            FieldOutcome(fields, rest, depth, limits, keys, acc)
    decreases fields, 1
  {
    var close := [CloseObject] + rest;
    if fields == [] {
      DecodeFieldListEnd(rest, depth, limits, keys, acc);
    } else {
      DecodeFieldsCons(fields, close, depth, limits, keys, acc);
      FieldOutcomeCons(fields, rest, depth, limits, keys, acc);
      var head := fields[0];
      if HeadFits(head, depth, limits, keys, acc.Keys) {
        DecodeFieldList(fields[1..], rest, depth, limits, keys + 1 + KeyCount(head.tree),
                        acc[head.name := ValueOf(head.tree)]);
      }
    }
  }

  /** What decoding the rest of an object must produce. */
  ghost function FieldOutcome(fields: seq<Field>, rest: seq<Token>, depth: int, limits: Limits, keys: nat,
                              acc: map<string, Value>): Decoded {
    if FieldsFit(fields, depth, limits, acc.Keys) && keys + FieldKeys(fields) <= limits.maxKeys
    then Ok(Obj(acc + FieldValues(fields)), rest, keys + FieldKeys(fields)) else Err
  }

  lemma FieldOutcomeCons(fields: seq<Field>, rest: seq<Token>, depth: int, limits: Limits, keys: nat,
                         acc: map<string, Value>)
    requires fields != []
    ensures var head := fields[0];
            var keys' := keys + 1 + KeyCount(head.tree);
            FieldOutcome(fields, rest, depth, limits, keys, acc) ==
            if HeadFits(head, depth, limits, keys, acc.Keys)
            then FieldOutcome(fields[1..], rest, depth, limits, keys', acc[head.name := ValueOf(head.tree)])
            else Err
  {
    var head, tail := fields[0], fields[1..];
    var acc' := acc[head.name := ValueOf(head.tree)];
    assert acc'.Keys == acc.Keys + {head.name};
    if FieldsFit(tail, depth, limits, acc'.Keys) {
      FieldsAvoidTaken(tail, depth, limits, acc'.Keys, head.name);
      assert acc' + FieldValues(tail) == acc + FieldValues(fields);
    }
  }

  ghost predicate FieldFits(field: Field, depth: int, limits: Limits, taken: set<string>) {
    && field.name !in taken
    && ByteLen(field.name) <= limits.maxStringBytes
    && Strict(field.tree)
    && Bounded(field.tree, depth + 1, limits)
  }

  /** The members are distinct from each other and from `taken`, and each is
      strict and bounded. */
  ghost predicate FieldsFit(fields: seq<Field>, depth: int, limits: Limits, taken: set<string>) {
    fields != [] ==>
      && FieldFits(fields[0], depth, limits, taken)
      && FieldsFit(fields[1..], depth, limits, taken + {fields[0].name})
  }

  lemma {:induction false} FieldsAvoidTaken(fields: seq<Field>, depth: int, limits: Limits, taken: set<string>,
                                            name: string)
    requires FieldsFit(fields, depth, limits, taken) && name in taken
    ensures name !in FieldValues(fields)
  {
    if fields != [] {
      FieldsAvoidTaken(fields[1..], depth, limits, taken + {fields[0].name}, name);
    }
  }

  /** `FieldsFit` is what `Strict` and `Bounded` ask of a record's members. */
  lemma {:induction false} FieldsFitMeaning(fields: seq<Field>, depth: int, limits: Limits, taken: set<string>)
    ensures FieldsFit(fields, depth, limits, taken) <==>
            && (forall i, j :: 0 <= i < j < |fields| ==> fields[i].name != fields[j].name)
            && (forall i :: 0 <= i < |fields| ==> FieldFits(fields[i], depth, limits, taken))
  {
    if fields != [] {
      var tail, taken' := fields[1..], taken + {fields[0].name};
      FieldsFitMeaning(tail, depth, limits, taken');
      assert forall i :: 1 <= i < |fields| ==> fields[i] == tail[i - 1];
      assert forall i :: 0 <= i < |tail| ==> tail[i] == fields[i + 1];
      if FieldsFit(fields, depth, limits, taken) {
        forall i | 0 <= i < |fields| ensures FieldFits(fields[i], depth, limits, taken) {
          if i > 0 { assert FieldFits(tail[i - 1], depth, limits, taken'); }
        }
      }
    }
  }

  lemma RecordFits(fields: seq<Field>, depth: int, limits: Limits)
    requires depth <= limits.maxDepth
    ensures FieldsFit(fields, depth, limits, {}) <==> Strict(Record(fields)) && Bounded(Record(fields), depth, limits)
  {
    FieldsFitMeaning(fields, depth, limits, {});
    if Strict(Record(fields)) && Bounded(Record(fields), depth, limits) {
      forall i | 0 <= i < |fields| ensures FieldFits(fields[i], depth, limits, {}) {
        assert Strict(fields[i].tree);
      }
    }
    if FieldsFit(fields, depth, limits, {}) {
      forall i | 0 <= i < |fields|
        ensures ByteLen(fields[i].name) <= limits.maxStringBytes && Strict(fields[i].tree)
        ensures Bounded(fields[i].tree, depth + 1, limits)
      {
        assert FieldFits(fields[i], depth, limits, {});
      }
    }
  }

  /** `parseStrictJSON` on the token stream of any JSON tree: it returns the
      tree's value and member count exactly when names are unique, numbers are
      finite, and depth, member count and string sizes are within limits. */
  lemma ParseStrictIsTreeSpec(t: Tree, limits: Limits)
    requires limits.maxKeys >= 0
    ensures ParseStrict(Tokens(t), limits) ==
            if Strict(t) && WithinLimits(t, limits) then Some((ValueOf(t), KeyCount(t))) else None
  {
    DecodeTree(t, [], 1, limits, 0);
    assert Tokens(t) + [] == Tokens(t);
  }

  // ---------------------------------------------------------------------
  // Soundness: whatever is accepted is the token stream of some tree
  // ---------------------------------------------------------------------

  lemma {:induction false} DecodeReadsTree(ts: seq<Token>, depth: int, limits: Limits, keys: nat) returns (t: Tree)
    requires Decode(ts, depth, limits, keys).Ok?
    ensures ts == Tokens(t) + Decode(ts, depth, limits, keys).rest
    decreases |ts|, 0
  {
    match ts[0]
    case OpenObject =>
      var fields := DecodeReadsFields(ts[1..], depth, limits, keys, map[]);
      t := Record(fields);
    case OpenArray =>
      var children := DecodeReadsItems(ts[1..], depth, limits, keys, []);
      t := List(children);
    case Item(s) =>
      t := Leaf(s);
  }

  lemma {:induction false} DecodeReadsItems(ts: seq<Token>, depth: int, limits: Limits, keys: nat, acc: seq<Value>)
    returns (children: seq<Tree>)
    requires DecodeItems(ts, depth, limits, keys, acc).Ok?
    ensures ts == ItemTokens(children) + [CloseArray] + DecodeItems(ts, depth, limits, keys, acc).rest
    decreases |ts|, 1
  {
    children := [];
    if More(ts) {
      var head := DecodeReadsTree(ts, depth + 1, limits, keys);
      var next := Decode(ts, depth + 1, limits, keys);
      var tail := DecodeReadsItems(next.rest, depth, limits, next.keys, acc + [next.value]);
      children := [head] + tail;
      assert children[1..] == tail;
    }
  }

  lemma {:induction false} DecodeReadsFields(ts: seq<Token>, depth: int, limits: Limits, keys: nat,
                                             acc: map<string, Value>)
    returns (fields: seq<Field>)
    requires DecodeFields(ts, depth, limits, keys, acc).Ok?
    ensures ts == FieldTokens(fields) + [CloseObject] + DecodeFields(ts, depth, limits, keys, acc).rest
    decreases |ts|, 1
  {
    fields := [];
    if More(ts) {
      var name := ts[0].scalar.text;
      var head := DecodeReadsTree(ts[1..], depth + 1, limits, keys + 1);
      var next := Decode(ts[1..], depth + 1, limits, keys + 1);
      var tail := DecodeReadsFields(next.rest, depth, limits, next.keys, acc[name := next.value]);
      fields := [Field(name, head)] + tail;
      assert fields[1..] == tail;
    }
  }

  /** Nothing but the token stream of a strict tree within limits is accepted,
      and the accepted value is that tree's. */
  lemma ParseStrictSound(ts: seq<Token>, limits: Limits) returns (t: Tree)
    requires limits.maxKeys >= 0
    requires ParseStrict(ts, limits).Some?
    ensures ts == Tokens(t) && Strict(t) && WithinLimits(t, limits)
    ensures ParseStrict(ts, limits) == Some((ValueOf(t), KeyCount(t)))
  {
    t := DecodeReadsTree(ts, 1, limits, 0);
    assert ts == Tokens(t);
    ParseStrictIsTreeSpec(t, limits);
  }

  // ---------------------------------------------------------------------
  // The decoder as it runs: a shared position and a shared member counter
  // ---------------------------------------------------------------------

  class Decoder {
    const limits: Limits
    var rest: seq<Token>
    var keys: nat

    constructor (tokens: seq<Token>, limits: Limits)
      ensures rest == tokens && keys == 0 && this.limits == limits
    {
      this.limits, rest, keys := limits, tokens, 0;
    }

    /** `decodeJSONValue`: on success the value, the remaining tokens and the
        counter are those of the functional decoder. */
    method DecodeValue(depth: int) returns (r: Option<Value>)
      modifies this`rest, this`keys
      ensures match Decode(old(rest), depth, limits, old(keys))
              case Err => r.None?
              case Ok(value, rs, k) => r == Some(value) && rest == rs && keys == k
      decreases |rest|, 0
    {
      if depth > limits.maxDepth || rest == [] { return None; }
      var token := rest[0];
      match token
      case OpenObject =>
        rest := rest[1..];
        r := DecodeObject(depth);
      case OpenArray =>
        rest := rest[1..];
        r := DecodeArray(depth);
      case Item(s) =>
        if ShortText(s, limits) && (s.Num? ==> s.finite) {
          rest := rest[1..];
          r := Some(Atom(s));
        } else {
          r := None;
        }
      case _ =>
        r := None;
    }

    method DecodeObject(depth: int) returns (r: Option<Value>)
      modifies this`rest, this`keys
      ensures match DecodeFields(old(rest), depth, limits, old(keys), map[])
              case Err => r.None?
              case Ok(value, rs, k) => r == Some(value) && rest == rs && keys == k
      decreases |rest|, 1
    {
      var members: map<string, Value> := map[];
      while More(rest)
        invariant |rest| <= |old(rest)|
        invariant DecodeFields(rest, depth, limits, keys, members) ==
                  DecodeFields(old(rest), depth, limits, old(keys), map[])
        decreases |rest|
      {
        var token := rest[0];
        if !(token.Item? && token.scalar.Str?) { return None; }
        var name := token.scalar.text;
        if ByteLen(name) > limits.maxStringBytes || name in members { return None; }
        if keys + 1 > limits.maxKeys { return None; }
        keys := keys + 1;
        rest := rest[1..];
        var value := DecodeValue(depth + 1);
        if value.None? { return None; }
        members := members[name := value.value];
      }
      if rest == [] || rest[0] != CloseObject { return None; }
      rest := rest[1..];
      r := Some(Obj(members));
    }

    method DecodeArray(depth: int) returns (r: Option<Value>)
      modifies this`rest, this`keys
      ensures match DecodeItems(old(rest), depth, limits, old(keys), [])
              case Err => r.None?
              case Ok(value, rs, k) => r == Some(value) && rest == rs && keys == k
      decreases |rest|, 1
    {
      var items: seq<Value> := [];
      while More(rest)
        invariant |rest| <= |old(rest)|
        invariant DecodeItems(rest, depth, limits, keys, items) == DecodeItems(old(rest), depth, limits, old(keys), [])
        decreases |rest|
      {
        var value := DecodeValue(depth + 1);
        if value.None? { return None; }
        items := items + [value.value];
      }
      if rest == [] || rest[0] != CloseArray { return None; }
      rest := rest[1..];
      r := Some(Arr(items));
    }
  }

  // ---------------------------------------------------------------------
  // The explicit-stack traversal of capsule/src/wire.ts
  // ---------------------------------------------------------------------

  function Size(t: Tree): (n: nat)
    ensures n > 0
    decreases t, 1
  {
    match t
    case Leaf(_) => 1
    case List(children) => 1 + SizeList(children)
    case Record(fields) => 1 + SizeFields(fields)
  }

  function SizeList(children: seq<Tree>): nat
    decreases children, 0
  {
    if children == [] then 0 else Size(children[0]) + SizeList(children[1..])
  }

  function SizeFields(fields: seq<Field>): nat
    decreases fields, 0
  {
    if fields == [] then 0 else Size(fields[0].tree) + SizeFields(fields[1..])
  }

  datatype Entry = Entry(tree: Tree, depth: int)

  ghost function PendingSize(pending: seq<Entry>): nat {
    if pending == [] then 0 else PendingSize(pending[..|pending| - 1]) + Size(pending[|pending| - 1].tree)
  }

  ghost function PendingKeys(pending: seq<Entry>): nat {
    if pending == [] then 0 else PendingKeys(pending[..|pending| - 1]) + KeyCount(pending[|pending| - 1].tree)
  }

  ghost predicate PendingBounded(pending: seq<Entry>, limits: Limits) {
    forall i :: 0 <= i < |pending| ==> Bounded(pending[i].tree, pending[i].depth, limits)
  }

  lemma PushCounts(pending: seq<Entry>, entry: Entry)
    ensures PendingSize(pending + [entry]) == PendingSize(pending) + Size(entry.tree)
    ensures PendingKeys(pending + [entry]) == PendingKeys(pending) + KeyCount(entry.tree)
  {
    assert (pending + [entry])[..|pending|] == pending;
  }

  lemma {:induction false} ItemsSnoc(children: seq<Tree>, last: Tree)
    ensures SizeList(children + [last]) == SizeList(children) + Size(last)
    ensures ItemKeys(children + [last]) == ItemKeys(children) + KeyCount(last)
  {
    if children == [] {
      assert children + [last] == [last];
      assert [last][1..] == [];
    } else {
      assert (children + [last])[1..] == children[1..] + [last];
      ItemsSnoc(children[1..], last);
    }
  }

  lemma {:induction false} FieldsSnoc(fields: seq<Field>, last: Field)
    ensures SizeFields(fields + [last]) == SizeFields(fields) + Size(last.tree)
    ensures FieldKeys(fields + [last]) == FieldKeys(fields) + 1 + KeyCount(last.tree)
  {
    if fields == [] {
      assert fields + [last] == [last];
      assert [last][1..] == [];
    } else {
      assert (fields + [last])[1..] == fields[1..] + [last];
      FieldsSnoc(fields[1..], last);
    }
  }

  /** What the loop over members has pushed so far. */
  ghost predicate PushedFields(fields: seq<Field>, n: nat, depth: int, pending: seq<Entry>, out: seq<Entry>)
    requires n <= |fields|
  {
    && |out| == |pending| + n
    && (forall j :: 0 <= j < |pending| ==> out[j] == pending[j])
    && (forall j :: 0 <= j < n ==> out[|pending| + j] == Entry(fields[j].tree, depth + 1))
    && PendingSize(out) == PendingSize(pending) + SizeFields(fields[..n])
    && PendingKeys(out) + n == PendingKeys(pending) + FieldKeys(fields[..n])
  }

  lemma PushField(fields: seq<Field>, n: nat, depth: int, pending: seq<Entry>, out: seq<Entry>)
    requires n < |fields| && PushedFields(fields, n, depth, pending, out)
    ensures PushedFields(fields, n + 1, depth, pending, out + [Entry(fields[n].tree, depth + 1)])
  {
    PushCounts(out, Entry(fields[n].tree, depth + 1));
    assert fields[..n + 1] == fields[..n] + [fields[n]];
    FieldsSnoc(fields[..n], fields[n]);
  }

  predicate ShortName(f: Field, limits: Limits) { ByteLen(f.name) <= limits.maxStringBytes }

  /** Pushes every item of an array, one level deeper. */
  method PushItems(children: seq<Tree>, depth: int, pending: seq<Entry>) returns (out: seq<Entry>)
    ensures PendingSize(out) == PendingSize(pending) + SizeList(children)
    ensures PendingKeys(out) == PendingKeys(pending) + ItemKeys(children)
    ensures |out| == |pending| + |children|
    ensures forall i :: 0 <= i < |pending| ==> out[i] == pending[i]
    ensures forall i :: 0 <= i < |children| ==> out[|pending| + i] == Entry(children[i], depth + 1)
  {
    out := pending;
    for i := 0 to |children|
      invariant |out| == |pending| + i
      invariant forall j :: 0 <= j < |pending| ==> out[j] == pending[j]
      invariant forall j :: 0 <= j < i ==> out[|pending| + j] == Entry(children[j], depth + 1)
      invariant PendingSize(out) == PendingSize(pending) + SizeList(children[..i])
      invariant PendingKeys(out) == PendingKeys(pending) + ItemKeys(children[..i])
    {
      PushCounts(out, Entry(children[i], depth + 1));
      assert children[..i + 1] == children[..i] + [children[i]];
      ItemsSnoc(children[..i], children[i]);
      out := out + [Entry(children[i], depth + 1)];
    }
    assert children[..|children|] == children;
  }

  /** Pushes every member value, one level deeper; refuses a name that is too
      long, as the traversal does. */
  method PushFields(fields: seq<Field>, depth: int, limits: Limits, pending: seq<Entry>)
    returns (ok: bool, out: seq<Entry>)
    ensures ok == forall i :: 0 <= i < |fields| ==> ShortName(fields[i], limits)
    ensures ok ==> PendingSize(out) == PendingSize(pending) + SizeFields(fields)
    ensures ok ==> PendingKeys(out) + |fields| == PendingKeys(pending) + FieldKeys(fields)
    ensures ok ==> |out| == |pending| + |fields|
    ensures ok ==> forall i :: 0 <= i < |pending| ==> out[i] == pending[i]
    ensures ok ==> forall i :: 0 <= i < |fields| ==> out[|pending| + i] == Entry(fields[i].tree, depth + 1)
  {
    out := pending;
    for i := 0 to |fields|
      invariant PushedFields(fields, i, depth, pending, out)
      invariant forall j :: 0 <= j < i ==> ShortName(fields[j], limits)
    {
      if !ShortName(fields[i], limits) { return false, out; }
      PushField(fields, i, depth, pending, out);
      out := out + [Entry(fields[i].tree, depth + 1)];
    }
    assert fields[..|fields|] == fields;
    ok := true;
  }

  /** One element of the traversal that goes wrong, or is replaced by its parts. */
  ghost predicate Visited(before: seq<Entry>, keys: nat, limits: Limits, ok: bool, after: seq<Entry>, keys': nat) {
    if ok then
      && keys' <= limits.maxKeys && keys' + PendingKeys(after) == keys + PendingKeys(before)
      && (PendingBounded(after, limits) <==> PendingBounded(before, limits)) && PendingSize(after) < PendingSize(before)
    else !PendingBounded(before, limits) || keys + PendingKeys(before) > limits.maxKeys
  }

  lemma TopCounts(before: seq<Entry>)
    requires before != []
    ensures var top, rest := before[|before| - 1], before[..|before| - 1];
            && PendingKeys(before) == PendingKeys(rest) + KeyCount(top.tree)
            && PendingSize(before) == PendingSize(rest) + Size(top.tree)
  {}

  lemma TopTooDeep(before: seq<Entry>, limits: Limits)
    requires before != [] && !Bounded(before[|before| - 1].tree, before[|before| - 1].depth, limits)
    ensures !PendingBounded(before, limits)
  {}

  lemma LeafPopped(before: seq<Entry>, limits: Limits)
    requires before != [] && before[|before| - 1].tree.Leaf?
    requires Bounded(before[|before| - 1].tree, before[|before| - 1].depth, limits)
    ensures PendingBounded(before[..|before| - 1], limits) <==> PendingBounded(before, limits)
  {
    var rest := before[..|before| - 1];
    assert forall i :: 0 <= i < |rest| ==> rest[i] == before[i];
  }

  /** The body of the loop for an element that is not too deep. */
  method Visit(before: seq<Entry>, keys: nat, limits: Limits) returns (ok: bool, after: seq<Entry>, keys': nat)
    requires before != [] && before[|before| - 1].depth <= limits.maxDepth && keys <= limits.maxKeys
    ensures Visited(before, keys, limits, ok, after, keys')
  {
    var last := |before| - 1;
    var item, depth := before[last].tree, before[last].depth;
    ok, after, keys' := true, before[..last], keys;
    TopCounts(before);
    match item
    case Leaf(s) =>
      ok := ShortText(s, limits);
      if ok { LeafPopped(before, limits); } else { TopTooDeep(before, limits); }
    case List(children) =>
      after := PushItems(children, depth, after);
      PopAndPush(before, after, limits);
    case Record(fields) =>
      keys' := keys + |fields|;
      FieldCountBound(fields);
      if keys' > limits.maxKeys { return false, after, keys'; }
      ok, after := PushFields(fields, depth, limits, after);
      if ok { PopAndPush(before, after, limits); } else { TopTooDeep(before, limits); }
  }

  /** `validateComplexity`: a last-in first-out traversal with early exits. It
      accepts exactly the trees within limits. */
  method ValidateComplexity(root: Tree, limits: Limits) returns (accepted: bool)
    requires limits.maxKeys >= 0
    ensures accepted <==> WithinLimits(root, limits)
  {
    var pending := [Entry(root, 1)];
    var keys: nat := 0;
    assert pending[..0] == [];
    while pending != []
      invariant keys <= limits.maxKeys
      invariant keys + PendingKeys(pending) == KeyCount(root)
      invariant PendingBounded(pending, limits) <==> Bounded(root, 1, limits)
      decreases PendingSize(pending)
    {
      if pending[|pending| - 1].depth > limits.maxDepth {
        TopTooDeep(pending, limits);
        return false;
      }
      var ok, after, counted := Visit(pending, keys, limits);
      if !ok { return false; }
      pending, keys := after, counted;
    }
    accepted := true;
  }

  lemma {:induction false} FieldCountBound(fields: seq<Field>)
    ensures |fields| <= FieldKeys(fields)
  {
    if fields != [] { FieldCountBound(fields[1..]); }
  }

  /** Replacing a composite on top of the stack by its children keeps the
      boundedness of the stack. */
  lemma PopAndPush(before: seq<Entry>, pushed: seq<Entry>, limits: Limits)
    requires before != []
    requires var n := |before| - 1;
             var top := before[n];
             && |pushed| >= n
             && (forall i :: 0 <= i < n ==> pushed[i] == before[i])
             && top.depth <= limits.maxDepth
             && match top.tree
                case Leaf(_) => false
                case List(children) =>
                  && |pushed| == n + |children|
                  && (forall i :: 0 <= i < |children| ==> pushed[n + i] == Entry(children[i], top.depth + 1))
                case Record(fields) =>
                  && |pushed| == n + |fields|
                  && (forall i :: 0 <= i < |fields| ==> ByteLen(fields[i].name) <= limits.maxStringBytes)
                  && (forall i :: 0 <= i < |fields| ==> pushed[n + i] == Entry(fields[i].tree, top.depth + 1))
    ensures PendingBounded(pushed, limits) <==> PendingBounded(before, limits)
  {
    var n := |before| - 1;
    var top := before[n];
    if PendingBounded(before, limits) {
      assert Bounded(top.tree, top.depth, limits);
      forall i | 0 <= i < |pushed| ensures Bounded(pushed[i].tree, pushed[i].depth, limits) {
        if i < n {
          assert pushed[i] == before[i];
        } else if top.tree.List? {
          assert pushed[n + (i - n)] == Entry(top.tree.children[i - n], top.depth + 1);
        } else {
          assert pushed[n + (i - n)] == Entry(top.tree.fields[i - n].tree, top.depth + 1);
        }
      }
    }
    if PendingBounded(pushed, limits) {
      match top.tree {
        case List(children) =>
          forall i | 0 <= i < |children| ensures Bounded(children[i], top.depth + 1, limits) {
            assert Bounded(pushed[n + i].tree, pushed[n + i].depth, limits);
          }
        case Record(fields) =>
          forall i | 0 <= i < |fields| ensures Bounded(fields[i].tree, top.depth + 1, limits) {
            assert Bounded(pushed[n + i].tree, pushed[n + i].depth, limits);
          }
      }
      forall i | 0 <= i < |before| ensures Bounded(before[i].tree, before[i].depth, limits) {
        if i < n { assert pushed[i] == before[i]; }
      }
    }
  }

  /** Every object has pairwise distinct names. */
  ghost predicate UniqueNames(t: Tree)
    decreases t
  {
    match t
    case Leaf(_) => true
    case List(children) => forall i :: 0 <= i < |children| ==> UniqueNames(children[i])
    case Record(fields) =>
      && (forall i, j :: 0 <= i < j < |fields| ==> fields[i].name != fields[j].name)
      && (forall i :: 0 <= i < |fields| ==> UniqueNames(fields[i].tree))
  }

  /** Every number is an int64 or a finite float64. */
  ghost predicate FiniteNumbers(t: Tree)
    decreases t
  {
    match t
    case Leaf(s) => s.Num? ==> s.finite
    case List(children) => forall i :: 0 <= i < |children| ==> FiniteNumbers(children[i])
    case Record(fields) => forall i :: 0 <= i < |fields| ==> FiniteNumbers(fields[i].tree)
  }

  lemma {:induction false} StrictMeaning(t: Tree)
    ensures Strict(t) <==> UniqueNames(t) && FiniteNumbers(t)
    decreases t
  {
    match t
    case Leaf(_) =>
    case List(children) =>
      forall i | 0 <= i < |children|
        ensures Strict(children[i]) <==> UniqueNames(children[i]) && FiniteNumbers(children[i])
      {
        StrictMeaning(children[i]);
      }
    case Record(fields) =>
      forall i | 0 <= i < |fields|
        ensures Strict(fields[i].tree) <==> UniqueNames(fields[i].tree) && FiniteNumbers(fields[i].tree)
      {
        StrictMeaning(fields[i].tree);
      }
  }

  /** What each side of the wire accepts, and when they agree. A tree with unique
      names, which is what the capsule's traversal sees, is judged alike exactly
      when its numbers are finite or it is over the limits anyway: the traversal
      never looks at numbers. */
  method BothCheckersAgree(t: Tree, limits: Limits) returns (host: bool, capsule: bool)
    requires limits.maxKeys >= 0
    ensures host <==> UniqueNames(t) && FiniteNumbers(t) && WithinLimits(t, limits)
    ensures capsule <==> WithinLimits(t, limits)
    ensures UniqueNames(t) ==> (host == capsule <==> FiniteNumbers(t) || !WithinLimits(t, limits))
  {
    StrictMeaning(t);
    var decoder := new Decoder(Tokens(t), limits);
    var value := decoder.DecodeValue(1);
    host := value.Some? && decoder.rest == [];
    ParseStrictIsTreeSpec(t, limits);
    assert Tokens(t) + [] == Tokens(t);
    DecodeTree(t, [], 1, limits, 0);
    capsule := ValidateComplexity(t, limits);
  }

  /** The text `1e999` is where they part: no float64 holds it, so the host
      refuses what the capsule accepts, under any limits with a depth of at least one
      and a nonnegative key limit. */
  method HugeNumberDivides(limits: Limits) returns (host: bool, capsule: bool)
    requires limits.maxKeys >= 0 && limits.maxDepth >= 1
    ensures !host && capsule
  {
    host, capsule := BothCheckersAgree(Leaf(Num("1e999", false)), limits);
  }
}
