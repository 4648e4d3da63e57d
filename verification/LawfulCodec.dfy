/** The laws that the model assumes of `encoding/json` are consistent: a printer
    that writes the tokens of a tree one after the other, and the lexer that
    inverts it, obey them. */
module LawfulCodec {
  import Json
  import opened Decimals
  import opened Sse

  // ---------------------------------------------------------------------
  // Every printable value has a tree
  // ---------------------------------------------------------------------

  lemma {:induction false} TreeExists(codec: Codec, v: Json.Value) returns (t: Json.Tree)
    requires Printable(codec, v)
    ensures Json.Strict(t) && Json.ValueOf(t) == v
    decreases v, 1
  {
    match v
    case Atom(s) => t := Json.Leaf(s);
    case Arr(items) =>
      var children := ItemTrees(codec, items);
      t := Json.List(children);
    case Obj(members) =>
      var fields := FieldTrees(codec, v, members);
      t := Json.Record(fields);
  }

  lemma {:induction false} ItemTrees(codec: Codec, items: seq<Json.Value>) returns (children: seq<Json.Tree>)
    requires forall i :: 0 <= i < |items| ==> Printable(codec, items[i])
    ensures (forall i :: 0 <= i < |children| ==> Json.Strict(children[i])) && Json.ItemValues(children) == items
    decreases items, 0
  {
    if items == [] {
      children := [];
    } else {
      var first := TreeExists(codec, items[0]);
      var rest := ItemTrees(codec, items[1..]);
      children := [first] + rest;
      assert children[1..] == rest;
    }
  }

  /** The members of `whole` in some order. */
  lemma {:induction false} FieldTrees(codec: Codec, whole: Json.Value, members: Members)
    returns (fields: seq<Json.Field>)
    requires whole.Obj? && members.Keys <= whole.members.Keys
    requires forall k :: k in members ==> members[k] == whole.members[k]
    requires Printable(codec, whole)
    ensures Json.FieldValues(fields) == members
    ensures forall i :: 0 <= i < |fields| ==> Json.Strict(fields[i].tree) && fields[i].name in members
    ensures forall i, j :: 0 <= i < j < |fields| ==> fields[i].name != fields[j].name
    decreases whole, 0, |members|
  {
    if members == map[] {
      fields := [];
    } else {
      var k :| k in members;
      assert members[k] == whole.members[k];
      var first := TreeExists(codec, whole.members[k]);
      var others := members - {k};
      Smaller(members, k);
      var rest := FieldTrees(codec, whole, others);
      fields := [Json.Field(k, first)] + rest;
      OneMoreField(members, k, first, rest);
    }
  }

  lemma Smaller(members: Members, k: string)
    requires k in members
    ensures |members - {k}| < |members|
  {
    assert (members - {k}).Keys == members.Keys - {k};
    assert |(members - {k}).Keys| == |members.Keys| - 1;
  }

  lemma OneMoreField(members: Members, k: string, first: Json.Tree, rest: seq<Json.Field>)
    requires k in members && Json.Strict(first) && Json.ValueOf(first) == members[k]
    requires Json.FieldValues(rest) == members - {k}
    requires forall i :: 0 <= i < |rest| ==> Json.Strict(rest[i].tree) && rest[i].name in members - {k}
    requires forall i, j :: 0 <= i < j < |rest| ==> rest[i].name != rest[j].name
    ensures var fields := [Json.Field(k, first)] + rest;
            && Json.FieldValues(fields) == members
            && (forall i :: 0 <= i < |fields| ==> Json.Strict(fields[i].tree) && fields[i].name in members)
            && (forall i, j :: 0 <= i < j < |fields| ==> fields[i].name != fields[j].name)
  {
    var fields := [Json.Field(k, first)] + rest;
    assert fields[1..] == rest;
    assert map[k := members[k]] + (members - {k}) == members;
  }

  // ---------------------------------------------------------------------
  // A printer of tokens that can be inverted
  // ---------------------------------------------------------------------

  /** Every character takes two, neither of which breaks the line. */
  function Escape(c: char): string {
    if c == '\n' then "\\n" else if c == '\r' then "\\r" else ['.', c]
  }

  function Escaped(s: string): string {
    if s == "" then "" else Escape(s[0]) + Escaped(s[1..])
  }

  function Flag(b: bool): string { if b then "+" else "-" }

  /** One token, with a first character that tells its sort and a clear end. */
  function Spell(token: Json.Token): string {
    match token
    case Item(Null) => "n"
    case Item(Bool(b)) => "b" + Flag(b)
    case Item(Num(literal, finite)) => "0" + Flag(finite) + "\"" + Escaped(literal) + "\""
    case Item(Str(text)) => "\"" + Escaped(text) + "\""
    case OpenObject => "{"
    case CloseObject => "}"
    case OpenArray => "("
    case CloseArray => ")"
    case Bad => "x"
  }

  function SpellAll(tokens: seq<Json.Token>): string {
    if tokens == [] then "" else Spell(tokens[0]) + SpellAll(tokens[1..])
  }

  /** An escaped string and what follows its end determine both. */
  lemma {:induction false} EscapedEnds(a: string, x: string, b: string, y: string)
    requires Escaped(a) + ("\"" + x) == Escaped(b) + ("\"" + y)
    ensures a == b && x == y
  {
    var s, t := Escaped(a) + ("\"" + x), Escaped(b) + ("\"" + y);
    FirstIsNoQuote(a, x);
    FirstIsNoQuote(b, y);
    if a == "" {
      assert s[1..] == x && t[1..] == y;
    } else {
      TwoAtATime(a, x);
      TwoAtATime(b, y);
      EscapedEnds(a[1..], x, b[1..], y);
      assert a == [a[0]] + a[1..] && b == [b[0]] + b[1..];
    }
  }

  lemma FirstIsNoQuote(a: string, x: string)
    ensures (Escaped(a) + ("\"" + x))[0] == '"' <==> a == ""
  {}

  lemma TwoAtATime(a: string, x: string)
    requires a != ""
    ensures var s := Escaped(a) + ("\"" + x);
            |s| >= 2 && s[..2] == Escape(a[0]) && s[2..] == Escaped(a[1..]) + ("\"" + x)
  {
    Regroup(Escape(a[0]), Escaped(a[1..]), "\"" + x);
  }

  lemma Regroup(p: string, q: string, r: string)
    requires |p| == 2
    ensures |(p + q) + r| >= 2 && ((p + q) + r)[..2] == p && ((p + q) + r)[2..] == q + r
  {}

  /** The first token of a text and what follows it. */
  lemma SpelledEnds(t: Json.Token, x: string, u: Json.Token, y: string)
    requires Spell(t) + x == Spell(u) + y
    ensures t == u && x == y
  {
    var s := Spell(t) + x;
    assert s[0] == Spell(t)[0] && s[0] == Spell(u)[0];
    if t.Item? && t.scalar.Str? {
      Quoting(t.scalar.text, x, "\"");
      Quoting(u.scalar.text, y, "\"");
      EscapedEnds(t.scalar.text, x, u.scalar.text, y);
    } else if t.Item? && t.scalar.Num? {
      NumberEnds(t.scalar.literal, t.scalar.finite, x, u.scalar.literal, u.scalar.finite, y);
    } else if t.Item? && t.scalar.Bool? {
      assert s[1] == Flag(t.scalar.truth)[0] && s[1] == Flag(u.scalar.truth)[0];
      assert s[2..] == x && s[2..] == y;
    } else {
      assert s[1..] == x && s[1..] == y;
    }
  }

  lemma Quoting(text: string, x: string, open: string)
    ensures (open + Escaped(text) + "\"" + x)[|open|..] == Escaped(text) + ("\"" + x)
  {}

  lemma NumberEnds(a: string, p: bool, x: string, b: string, q: bool, y: string)
    requires "0" + Flag(p) + "\"" + Escaped(a) + "\"" + x == "0" + Flag(q) + "\"" + Escaped(b) + "\"" + y
    ensures a == b && p == q && x == y
  {
    var s := "0" + Flag(p) + "\"" + Escaped(a) + "\"" + x;
    assert s[1] == Flag(p)[0] && s[1] == Flag(q)[0];
    Quoting(a, x, "0" + Flag(p) + "\"");
    Quoting(b, y, "0" + Flag(q) + "\"");
    EscapedEnds(a, x, b, y);
  }

  lemma {:induction false} SpellingIsInjective(a: seq<Json.Token>, b: seq<Json.Token>)
    requires SpellAll(a) == SpellAll(b)
    ensures a == b
  {
    SpellingIsOneLine(a);
    SpellingIsOneLine(b);
    if a != [] {
      SpelledEnds(a[0], SpellAll(a[1..]), b[0], SpellAll(b[1..]));
      SpellingIsInjective(a[1..], b[1..]);
      assert a == [a[0]] + a[1..] && b == [b[0]] + b[1..];
    }
  }

  predicate OneLine(s: string) { '\n' !in s && '\r' !in s }

  lemma OneLineConcat(a: string, b: string)
    requires OneLine(a) && OneLine(b)
    ensures OneLine(a + b)
  {}

  lemma {:induction false} EscapedIsOneLine(s: string)
    ensures OneLine(Escaped(s))
  {
    if s != "" {
      EscapedIsOneLine(s[1..]);
      OneLineConcat(Escape(s[0]), Escaped(s[1..]));
    }
  }

  lemma SpellIsOneLine(t: Json.Token)
    ensures OneLine(Spell(t)) && Spell(t) != "" && Spell(t)[0] != '['
  {
    if t.Item? && t.scalar.Str? {
      EscapedIsOneLine(t.scalar.text);
      OneLineConcat("\"", Escaped(t.scalar.text));
      OneLineConcat("\"" + Escaped(t.scalar.text), "\"");
    } else if t.Item? && t.scalar.Num? {
      EscapedIsOneLine(t.scalar.literal);
      OneLineConcat("0" + Flag(t.scalar.finite) + "\"", Escaped(t.scalar.literal));
      OneLineConcat("0" + Flag(t.scalar.finite) + "\"" + Escaped(t.scalar.literal), "\"");
    }
  }

  lemma {:induction false} SpellingIsOneLine(tokens: seq<Json.Token>)
    ensures OneLine(SpellAll(tokens)) && (tokens != [] ==> SpellAll(tokens) != "" && SpellAll(tokens)[0] != '[')
  {
    if tokens != [] {
      SpellIsOneLine(tokens[0]);
      SpellingIsOneLine(tokens[1..]);
      OneLineConcat(Spell(tokens[0]), SpellAll(tokens[1..]));
    }
  }

  // ---------------------------------------------------------------------
  // The codec
  // ---------------------------------------------------------------------

  function Finite(literal: string): bool { Int64(literal).Some? }

  ghost predicate Spells(v: Json.Value, t: Json.Tree) { Json.Strict(t) && Json.ValueOf(t) == v }

  ghost function Layout(v: Json.Value): Json.Tree {
    if exists t :: Spells(v, t) then var t :| Spells(v, t); t else Json.Leaf(Json.Null)
  }

  ghost function Write(v: Json.Value): string { SpellAll(Json.Tokens(Layout(v))) }

  /** The literals of a token stream are number literals with true finiteness. */
  ghost predicate Truthful(tokens: seq<Json.Token>) {
    forall i :: 0 <= i < |tokens| ==>
      (tokens[i].Item? && tokens[i].scalar.Num? ==>
         NumberLiteral(tokens[i].scalar.literal) && tokens[i].scalar.finite == Finite(tokens[i].scalar.literal))
  }

  ghost predicate Reads(text: string, tokens: seq<Json.Token>) { Truthful(tokens) && SpellAll(tokens) == text }

  ghost function Lex(text: string): seq<Json.Token> {
    if exists tokens :: Reads(text, tokens) then var tokens :| Reads(text, tokens); tokens else []
  }

  lemma LexInverts(tokens: seq<Json.Token>)
    requires Truthful(tokens)
    ensures Lex(SpellAll(tokens)) == tokens
  {
    assert Reads(SpellAll(tokens), tokens);
    SpellingIsInjective(Lex(SpellAll(tokens)), tokens);
  }

  ghost function SomeCodec(): Codec {
    Codec(text => Lex(text), v => Write(v), v => Layout(v), literal => Finite(literal))
  }

  lemma TruthfulConcat(a: seq<Json.Token>, b: seq<Json.Token>)
    requires Truthful(a) && Truthful(b)
    ensures Truthful(a + b)
  {}

  lemma {:induction false} ItemsHold(codec: Codec, children: seq<Json.Tree>)
    requires forall i :: 0 <= i < |Json.ItemValues(children)| ==> Printable(codec, Json.ItemValues(children)[i])
    ensures forall i :: 0 <= i < |children| ==> Printable(codec, Json.ValueOf(children[i]))
  {
    if children != [] {
      var values, rest := Json.ItemValues(children), Json.ItemValues(children[1..]);
      assert values[0] == Json.ValueOf(children[0]);
      forall i | 0 <= i < |rest| ensures Printable(codec, rest[i]) { assert values[i + 1] == rest[i]; }
      ItemsHold(codec, children[1..]);
      forall i | 0 <= i < |children| ensures Printable(codec, Json.ValueOf(children[i])) {
        if i > 0 { assert children[i] == children[1..][i - 1]; }
      }
    }
  }

  lemma {:induction false} NamesOf(fields: seq<Json.Field>, name: string)
    requires name in Json.FieldValues(fields)
    ensures exists i :: 0 <= i < |fields| && fields[i].name == name
  {
    if fields[0].name != name {
      NamesOf(fields[1..], name);
      var i :| 0 <= i < |fields[1..]| && fields[1..][i].name == name;
      assert fields[i + 1].name == name;
    }
  }

  lemma FirstNameIsNew(fields: seq<Json.Field>)
    requires fields != [] && forall i, j :: 0 <= i < j < |fields| ==> fields[i].name != fields[j].name
    ensures fields[0].name !in Json.FieldValues(fields[1..])
  {
    assert forall i :: 0 <= i < |fields[1..]| ==> fields[1..][i] == fields[i + 1];
    if fields[0].name in Json.FieldValues(fields[1..]) { NamesOf(fields[1..], fields[0].name); }
  }

  /** With unique names every member's value is in the object. */
  lemma {:induction false} FieldsHold(codec: Codec, fields: seq<Json.Field>)
    requires forall i, j :: 0 <= i < j < |fields| ==> fields[i].name != fields[j].name
    requires forall k :: k in Json.FieldValues(fields) ==> Printable(codec, Json.FieldValues(fields)[k])
    ensures forall i :: 0 <= i < |fields| ==> Printable(codec, Json.ValueOf(fields[i].tree))
  {
    if fields != [] {
      var all, rest := Json.FieldValues(fields), Json.FieldValues(fields[1..]);
      FirstNameIsNew(fields);
      assert all[fields[0].name] == Json.ValueOf(fields[0].tree);
      forall k | k in rest ensures Printable(codec, rest[k]) { assert k in all && all[k] == rest[k]; }
      forall i, j | 0 <= i < j < |fields[1..]| ensures fields[1..][i].name != fields[1..][j].name {
        assert fields[i + 1].name != fields[j + 1].name;
      }
      FieldsHold(codec, fields[1..]);
      forall i | 0 <= i < |fields| ensures Printable(codec, Json.ValueOf(fields[i].tree)) {
        if i > 0 { assert fields[i] == fields[1..][i - 1]; }
      }
    }
  }

  /** The tokens of a printable value are truthful. */
  lemma {:induction false} TruthfulTree(codec: Codec, t: Json.Tree)
    requires Json.Strict(t) && Printable(codec, Json.ValueOf(t)) && forall l :: codec.finite(l) == Finite(l)
    ensures Truthful(Json.Tokens(t))
    decreases t, 1
  {
    match t
    case Leaf(_) =>
    case List(children) =>
      ItemsHold(codec, children);
      TruthfulItems(codec, children);
      TruthfulConcat([Json.OpenArray], Json.ItemTokens(children));
      TruthfulConcat([Json.OpenArray] + Json.ItemTokens(children), [Json.CloseArray]);
    case Record(fields) =>
      FieldsHold(codec, fields);
      TruthfulFields(codec, fields);
      TruthfulConcat([Json.OpenObject], Json.FieldTokens(fields));
      TruthfulConcat([Json.OpenObject] + Json.FieldTokens(fields), [Json.CloseObject]);
  }

  lemma {:induction false} TruthfulItems(codec: Codec, children: seq<Json.Tree>)
    requires forall i :: 0 <= i < |children| ==> Json.Strict(children[i]) && Printable(codec, Json.ValueOf(children[i]))
    requires forall l :: codec.finite(l) == Finite(l)
    ensures Truthful(Json.ItemTokens(children))
    decreases children, 0
  {
    if children != [] {
      TruthfulTree(codec, children[0]);
      TruthfulItems(codec, children[1..]);
      TruthfulConcat(Json.Tokens(children[0]), Json.ItemTokens(children[1..]));
    }
  }

  lemma {:induction false} TruthfulFields(codec: Codec, fields: seq<Json.Field>)
    requires forall i :: 0 <= i < |fields| ==>
               Json.Strict(fields[i].tree) && Printable(codec, Json.ValueOf(fields[i].tree))
    requires forall l :: codec.finite(l) == Finite(l)
    ensures Truthful(Json.FieldTokens(fields))
    decreases fields, 0
  {
    if fields != [] {
      TruthfulTree(codec, fields[0].tree);
      TruthfulFields(codec, fields[1..]);
      var name := [Json.Item(Json.Str(fields[0].name))];
      TruthfulConcat(name, Json.Tokens(fields[0].tree));
      TruthfulConcat(name + Json.Tokens(fields[0].tree), Json.FieldTokens(fields[1..]));
    }
  }

  lemma SomeCodecPrintsWell(v: Json.Value)
    requires Printable(SomeCodec(), v)
    ensures PrintsWell(SomeCodec(), v)
  {
    var t := TreeExists(SomeCodec(), v);
    assert Spells(v, t);
    assert Spells(v, Layout(v));
    TruthfulTree(SomeCodec(), Layout(v));
    LexInverts(Json.Tokens(Layout(v)));
    SpellingIsOneLine(Json.Tokens(Layout(v)));
    assert "[DONE]"[0] == '[';
  }

  /** The laws can be met. */
  lemma LawsAreConsistent()
    ensures Lawful(SomeCodec())
  {
    var codec := SomeCodec();
    forall v ensures PrintLaw(codec, v) {
      if Printable(codec, v) { SomeCodecPrintsWell(v); }
    }
    forall text ensures LexLaw(codec, text) { assert Truthful(Lex(text)); }
  }
}
