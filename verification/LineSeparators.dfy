/** The U+2028 / U+2029 unescaper that follows every canonical JSON encoding,
    written once in internal/capsule/json.go and once in internal/artifacts/fs.go.
    It works on bytes and decides by the parity of the backslashes before an
    escape whether that escape is real (section 7 of RFC 8259). */
module LineSeparators {
  import opened Text

  const BACKSLASH: Byte := 92
  const QUOTE: Byte := 34
  const LOWER_U: Byte := 117

  /** The six bytes `\u2028` or `\u2029` start at `i`. */
  predicate EscapeAt(s: seq<Byte>, i: nat) {
    && i + 6 <= |s|
    && s[i] == BACKSLASH && s[i + 1] == LOWER_U && s[i + 2] == 50 && s[i + 3] == 48 && s[i + 4] == 50
    && (s[i + 5] == 56 || s[i + 5] == 57)
  }

  /** The length of the run of backslashes that ends just before `i`. */
  function Preceding(s: seq<Byte>, i: nat): nat
    requires i <= |s|
  {
    if i > 0 && s[i - 1] == BACKSLASH then 1 + Preceding(s, i - 1) else 0
  }

  predicate Replaceable(s: seq<Byte>, i: nat) {
    EscapeAt(s, i) && Preceding(s, i) % 2 == 0
  }

  /** The UTF-8 form of U+2028 (last digit `8`) or U+2029 (last digit `9`). */
  function Separator(digit: Byte): seq<Byte> {
    [0xE2, 0x80, if digit == 56 then 0xA8 else 0xA9]
  }

  /** What the loop still has to produce from index `i` on. */
  function UnescapeFrom(s: seq<Byte>, i: nat): seq<Byte>
    requires i <= |s|
    decreases |s| - i
  {
    if i == |s| then []
    else if Replaceable(s, i) then Separator(s[i + 5]) + UnescapeFrom(s, i + 6)
    else [s[i]] + UnescapeFrom(s, i + 1)
  }

  function Unescape(s: seq<Byte>): seq<Byte> {
    UnescapeFrom(s, 0)
  }

  /** What is written so far, followed by what is still to come, is the result. */
  ghost predicate OnTrack(s: seq<Byte>, i: nat, result: seq<Byte>) {
    i <= |s| && result + UnescapeFrom(s, i) == Unescape(s)
  }

  lemma TakeSeparator(s: seq<Byte>, i: nat, result: seq<Byte>)
    requires OnTrack(s, i, result) && Replaceable(s, i)
    ensures OnTrack(s, i + 6, result + Separator(s[i + 5]))
  {
    assert result + Separator(s[i + 5]) + UnescapeFrom(s, i + 6) == result + UnescapeFrom(s, i);
  }

  lemma TakeByte(s: seq<Byte>, i: nat, result: seq<Byte>)
    requires OnTrack(s, i, result) && i < |s| && !Replaceable(s, i)
    ensures OnTrack(s, i + 1, result + [s[i]])
  {
    assert result + [s[i]] + UnescapeFrom(s, i + 1) == result + UnescapeFrom(s, i);
  }

  /** The inner loop of internal/capsule/json.go. */
  method CountBackwards(encoded: seq<Byte>, index: nat) returns (preceding: nat)
    requires index < |encoded|
    ensures preceding == Preceding(encoded, index)
  {
    preceding := 0;
    var cursor := index - 1;
    while cursor >= 0 && encoded[cursor] == BACKSLASH
      invariant -1 <= cursor < index
      invariant preceding + Preceding(encoded, cursor + 1) == Preceding(encoded, index)
    {
      preceding := preceding + 1;
      cursor := cursor - 1;
    }
  }

  /** The copy in internal/capsule/json.go. */
  method UnescapeCapsule(encoded: seq<Byte>) returns (result: seq<Byte>)
    ensures result == Unescape(encoded)
  {
    result := [];
    var index := 0;
    while index < |encoded|
      invariant 0 <= index <= |encoded| && OnTrack(encoded, index, result)
    {
      if encoded[index] == BACKSLASH && EscapeAt(encoded, index) {
        var preceding := CountBackwards(encoded, index);
        if preceding % 2 == 0 {
          TakeSeparator(encoded, index, result);
          result := result + Separator(encoded[index + 5]);
          index := index + 6;
          continue;
        }
      }
      TakeByte(encoded, index, result);
      result := result + [encoded[index]];
      index := index + 1;
    }
  }

  /** The inner loop of internal/artifacts/fs.go. */
  method CountSelected(encoded: seq<Byte>, index: nat) returns (preceding: nat)
    requires index < |encoded|
    ensures preceding == Preceding(encoded, index)
  {
    preceding := 0;
    var selected := index;
    while selected > 0 && encoded[selected - 1] == BACKSLASH
      invariant 0 <= selected <= index
      invariant preceding + Preceding(encoded, selected) == Preceding(encoded, index)
    {
      preceding := preceding + 1;
      selected := selected - 1;
    }
  }

  /** The copy in internal/artifacts/fs.go, which tests the length first. */
  method UnescapeArtifacts(encoded: seq<Byte>) returns (result: seq<Byte>)
    ensures result == Unescape(encoded)
  {
    result := [];
    var index := 0;
    while index < |encoded|
      invariant 0 <= index <= |encoded| && OnTrack(encoded, index, result)
    {
      if index + 6 <= |encoded| && encoded[index] == BACKSLASH && EscapeAt(encoded, index) {
        var preceding := CountSelected(encoded, index);
        if preceding % 2 == 0 {
          TakeSeparator(encoded, index, result);
          if encoded[index + 5] == 56 {
            result := result + [0xE2, 0x80, 0xA8];
          } else {
            result := result + [0xE2, 0x80, 0xA9];
          }
          index := index + 6;
          continue;
        }
      }
      TakeByte(encoded, index, result);
      result := result + [encoded[index]];
      index := index + 1;
    }
  }

  // ---------------------------------------------------------------------
  // No escape is left, and the function is idempotent, on every byte string
  // ---------------------------------------------------------------------

  lemma {:induction false} PrecedingPrefix(a: seq<Byte>, b: seq<Byte>, i: nat)
    requires i <= |a|
    ensures Preceding(a + b, i) == Preceding(a, i)
  {
    if i > 0 { PrecedingPrefix(a, b, i - 1); }
  }

  /** If six output bytes spell an escape, they were copied from the input. */
  lemma EscapeWasCopied(s: seq<Byte>, i: nat)
    requires i <= |s|
    requires EscapeAt(UnescapeFrom(s, i), 0)
    ensures EscapeAt(s, i) && !Replaceable(s, i)
  {
    var out := UnescapeFrom(s, i);
    assert !Replaceable(s, i);
    assert out[1] == UnescapeFrom(s, i + 1)[0] && !Replaceable(s, i + 1);
    assert out[2] == UnescapeFrom(s, i + 2)[0] && !Replaceable(s, i + 2);
    assert out[3] == UnescapeFrom(s, i + 3)[0] && !Replaceable(s, i + 3);
    assert out[4] == UnescapeFrom(s, i + 4)[0] && !Replaceable(s, i + 4);
    assert out[5] == UnescapeFrom(s, i + 5)[0] && !Replaceable(s, i + 5);
  }

  /** Behind the output `done` of a scanned prefix no replaceable escape
      appears, provided the run of backslashes at the seam is the same. */
  lemma {:induction false} NoEscapeBehind(s: seq<Byte>, i: nat, done: seq<Byte>)
    requires i <= |s|
    requires Preceding(done, |done|) == Preceding(s, i)
    ensures var out := done + UnescapeFrom(s, i);
            forall j :: |done| <= j <= |out| ==> !Replaceable(out, j)
    decreases |s| - i
  {
    var out := done + UnescapeFrom(s, i);
    if i < |s| {
      var step := if Replaceable(s, i) then Separator(s[i + 5]) else [s[i]];
      var next := if Replaceable(s, i) then i + 6 else i + 1;
      assert UnescapeFrom(s, i) == step + UnescapeFrom(s, next);
      assert out == (done + step) + UnescapeFrom(s, next);
      PrecedingPrefix(done, step, |done|);
      assert Preceding(done + step, |done + step|) == Preceding(s, next);
      NoEscapeBehind(s, next, done + step);
      assert !Replaceable(out, |done|) by {
        if EscapeAt(out, |done|) {
          assert EscapeAt(UnescapeFrom(s, i), 0);
          EscapeWasCopied(s, i);
          PrecedingPrefix(done, UnescapeFrom(s, i), |done|);
        }
      }
      forall j | |done| < j < |done + step| ensures !Replaceable(out, j) {
        assert out[j] == step[j - |done|];
      }
    }
  }

  lemma {:induction false} NothingToDo(s: seq<Byte>, i: nat)
    requires i <= |s|
    requires forall j :: i <= j <= |s| ==> !Replaceable(s, j)
    ensures UnescapeFrom(s, i) == s[i..]
    decreases |s| - i
  {
    if i < |s| { NothingToDo(s, i + 1); }
  }

  lemma NoEscapeRemains(s: seq<Byte>)
    ensures forall j: nat :: !Replaceable(Unescape(s), j)
  {
    NoEscapeBehind(s, 0, []);
    assert [] + UnescapeFrom(s, 0) == Unescape(s);
  }

  lemma UnescapeIdempotent(s: seq<Byte>)
    ensures Unescape(Unescape(s)) == Unescape(s)
  {
    NoEscapeRemains(s);
    NothingToDo(Unescape(s), 0);
  }

  // ---------------------------------------------------------------------
  // A lexer for JSON text, with strings decoded to their UTF-8 bytes
  // ---------------------------------------------------------------------

  /** A JSON value is a function of its lexemes: the bytes outside strings and
      the decoded strings. */
  datatype Lexeme = Mark(byte: Byte) | Literal(bytes: seq<Byte>)

  predicate HexDigit(b: Byte) {
    48 <= b <= 57 || 65 <= b <= 70 || 97 <= b <= 102
  }

  function HexValue(b: Byte): (v: int)
    requires HexDigit(b)
    ensures 0 <= v < 16
  {
    if b <= 57 then b - 48 else if b <= 70 then b - 55 else b - 87
  }

  /** A `\uXXXX` escape starts at the front of `t`. */
  predicate UnitAt(t: seq<Byte>) {
    && |t| >= 6 && t[0] == BACKSLASH && t[1] == LOWER_U
    && HexDigit(t[2]) && HexDigit(t[3]) && HexDigit(t[4]) && HexDigit(t[5])
  }

  function Unit(t: seq<Byte>): (u: int)
    requires UnitAt(t)
    ensures 0 <= u < 0x1_0000
  {
    HexValue(t[2]) * 4096 + HexValue(t[3]) * 256 + HexValue(t[4]) * 16 + HexValue(t[5])
  }

  predicate HighSurrogate(u: int) { 0xD800 <= u < 0xDC00 }
  predicate LowSurrogate(u: int) { 0xDC00 <= u < 0xE000 }

  function Utf8(codePoint: int): seq<Byte>
    requires 0 <= codePoint < 0x11_0000
  {
    if codePoint < 0x80 then [codePoint]
    else if codePoint < 0x800 then [0xC0 + codePoint / 64, 0x80 + codePoint % 64]
    else if codePoint < 0x1_0000 then [0xE0 + codePoint / 4096, 0x80 + codePoint / 64 % 64, 0x80 + codePoint % 64]
    else [0xF0 + codePoint / 262144, 0x80 + codePoint / 4096 % 64, 0x80 + codePoint / 64 % 64, 0x80 + codePoint % 64]
  }

  /** One piece of a string: what it decodes to and how many bytes it takes. */
  datatype Piece = Invalid | Piece(bytes: seq<Byte>, width: nat)

  predicate PairAt(t: seq<Byte>) {
    UnitAt(t) && HighSurrogate(Unit(t)) && LowUnitAt(t[6..])
  }

  /** The byte that a two-byte escape stands for. */
  function Simple(b: Byte): Option<Byte> {
    if b == QUOTE || b == BACKSLASH || b == 47 then Some(b)
    else if b == 98 then Some(8)
    else if b == 102 then Some(12)
    else if b == 110 then Some(10)
    else if b == 114 then Some(13)
    else if b == 116 then Some(9)
    else None
  }

  /** Reads a piece inside a string. Surrogate pairs combine; a lone surrogate
      becomes U+FFFD, as `encoding/json` does. */
  function Read(t: seq<Byte>): (p: Piece)
    requires t != [] && t[0] != QUOTE
    ensures p.Piece? ==> 0 < p.width <= |t|
  {
    if t[0] < 32 then Invalid
    else if t[0] != BACKSLASH then Piece([t[0]], 1)
    else if PairAt(t) then
      var high, low := Unit(t), Unit(t[6..]);
      Piece(Utf8(0x1_0000 + (high - 0xD800) * 1024 + (low - 0xDC00)), 12)
    else if UnitAt(t) then
      Piece(Utf8(if HighSurrogate(Unit(t)) || LowSurrogate(Unit(t)) then 0xFFFD else Unit(t)), 6)
    else if |t| >= 2 && Simple(t[1]).Some? then Piece([Simple(t[1]).value], 2)
    else Invalid
  }

  function Outside(t: seq<Byte>): Option<seq<Lexeme>>
    decreases |t|, 1
  {
    if t == [] then Some([])
    else if t[0] == QUOTE then Inside(t[1..], [])
    else if t[0] == BACKSLASH then None
    else match Outside(t[1..])
      case None => None
      case Some(rest) => Some([Mark(t[0])] + rest)
  }

  function Inside(t: seq<Byte>, decoded: seq<Byte>): Option<seq<Lexeme>>
    decreases |t|, 0
  {
    if t == [] then None
    else if t[0] == QUOTE then
      match Outside(t[1..])
      case None => None
      case Some(rest) => Some([Literal(decoded)] + rest)
    else match Read(t)
      case Invalid => None
      case Piece(bytes, width) => Inside(t[width..], decoded + bytes)
  }

  // ---------------------------------------------------------------------
  // The unescaper preserves meaning
  // ---------------------------------------------------------------------

  /** `n` bytes at `i` are copied when none of them starts a replaceable escape. */
  lemma {:induction false} CopyBytes(s: seq<Byte>, i: nat, n: nat)
    requires i + n <= |s|
    requires forall j :: i <= j < i + n ==> !Replaceable(s, j)
    ensures var out := UnescapeFrom(s, i);
            && |out| >= n
            && out[n..] == UnescapeFrom(s, i + n)
            && forall j :: 0 <= j < n ==> out[j] == s[i + j]
    decreases n
  {
    if n > 0 {
      var out := UnescapeFrom(s, i);
      assert !Replaceable(s, i);
      assert out[1..] == UnescapeFrom(s, i + 1);
      CopyBytes(s, i + 1, n - 1);
      assert out[n..] == out[1..][n - 1..];
      forall j | 0 <= j < n ensures out[j] == s[i + j] {
        if j > 0 { assert out[j] == out[1..][j - 1]; }
      }
    }
  }

  /** A unit escape that is not a separator escape is copied whole. */
  lemma CopyUnit(s: seq<Byte>, i: nat)
    requires i <= |s| && UnitAt(s[i..]) && !EscapeAt(s, i)
    ensures var out := UnescapeFrom(s, i);
            && UnitAt(out) && Unit(out) == Unit(s[i..])
            && out[6..] == UnescapeFrom(s, i + 6)
    ensures Preceding(s, i + 6) == 0
  {
    assert forall j :: 0 <= j < 6 ==> s[i + j] == s[i..][j];
    CopyBytes(s, i, 6);
  }

  lemma SeparatorUnit(s: seq<Byte>, i: nat)
    requires EscapeAt(s, i)
    ensures UnitAt(s[i..]) && !PairAt(s[i..]) && !LowUnitAt(s[i..])
    ensures Read(s[i..]) == Piece(Separator(s[i + 5]), 6)
    ensures Preceding(s, i + 6) == 0
  {
    var t := s[i..];
    assert t[0] == s[i] && t[1] == s[i + 1] && t[2] == s[i + 2] && t[3] == s[i + 3] && t[4] == s[i + 4] &&
           t[5] == s[i + 5];
    assert Unit(t) == 0x2028 || Unit(t) == 0x2029;
  }

  /** Reading the three bytes of a separator adds them to the string. */
  lemma ReadSeparator(digit: Byte, rest: seq<Byte>, decoded: seq<Byte>)
    ensures Inside(Separator(digit) + rest, decoded) == Inside(rest, decoded + Separator(digit))
  {
    var sep := Separator(digit);
    var t := sep + rest;
    assert t[1..] == sep[1..] + rest && t[1..][1..] == sep[2..] + rest && t[1..][1..][1..] == rest;
    assert decoded + [sep[0]] + [sep[1]] + [sep[2]] == decoded + sep;
    assert Inside(t, decoded) == Inside(t[1..], decoded + [sep[0]]);
    assert Inside(t[1..], decoded + [sep[0]]) == Inside(t[1..][1..], decoded + [sep[0]] + [sep[1]]);
  }

  /** Behind a unit, the output shows a low-surrogate unit exactly when the
      input does. */
  lemma LowUnitKept(s: seq<Byte>, i: nat)
    requires i <= |s| && Preceding(s, i) == 0
    requires i < |s| && s[i] == BACKSLASH ==> Read(s[i..]).Piece?
    ensures LowUnitAt(s[i..]) <==> LowUnitAt(UnescapeFrom(s, i))
  {
    var out := UnescapeFrom(s, i);
    if i == |s| || s[i] != BACKSLASH {
      assert i < |s| ==> out[0] == s[i] && s[i..][0] == s[i];
    } else if EscapeAt(s, i) {
      SeparatorUnit(s, i);
      assert out[0] == 0xE2;
    } else if UnitAt(s[i..]) {
      CopyUnit(s, i);
    } else if UnitAt(out) {
      UnitWasCopied(s, i);
    }
  }

  predicate LowUnitAt(t: seq<Byte>) {
    UnitAt(t) && LowSurrogate(Unit(t))
  }

  /** One piece of the input corresponds to the same decoded bytes of the output. */
  lemma PieceKept(s: seq<Byte>, i: nat, decoded: seq<Byte>)
    requires i < |s| && s[i] != QUOTE && Preceding(s, i) % 2 == 0
    requires Read(s[i..]).Piece?
    requires var w := Read(s[i..]).width; i + w < |s| && s[i + w] == BACKSLASH ==> Read(s[i + w..]).Piece?
    ensures var p := Read(s[i..]);
            && Preceding(s, i + p.width) % 2 == 0
            && Inside(UnescapeFrom(s, i), decoded) == Inside(UnescapeFrom(s, i + p.width), decoded + p.bytes)
  {
    var t := s[i..];
    var out := UnescapeFrom(s, i);
    if s[i] != BACKSLASH {
      assert out[1..] == UnescapeFrom(s, i + 1);
    } else if EscapeAt(s, i) {
      SeparatorUnit(s, i);
      ReadSeparator(s[i + 5], UnescapeFrom(s, i + 6), decoded);
    } else if UnitAt(t) {
      UnitKept(s, i, decoded);
    } else {
      assert t[1] == s[i + 1];
      assert !UnitAt(out) by {
        if UnitAt(out) { assert out[1] == s[i + 1]; UnitWasCopied(s, i); }
      }
      assert Preceding(s, i + 1) % 2 == 1;
      assert out == [s[i]] + ([s[i + 1]] + UnescapeFrom(s, i + 2));
      assert out[2..] == UnescapeFrom(s, i + 2);
    }
  }

  /** A unit escape in the output was copied from the input. */
  lemma UnitWasCopied(s: seq<Byte>, i: nat)
    requires i < |s| && !Replaceable(s, i)
    requires UnitAt(UnescapeFrom(s, i))
    ensures UnitAt(s[i..])
  {
    var out := UnescapeFrom(s, i);
    assert out[1] == UnescapeFrom(s, i + 1)[0] && !Replaceable(s, i + 1);
    assert out[2] == UnescapeFrom(s, i + 2)[0] && !Replaceable(s, i + 2);
    assert out[3] == UnescapeFrom(s, i + 3)[0] && !Replaceable(s, i + 3);
    assert out[4] == UnescapeFrom(s, i + 4)[0] && !Replaceable(s, i + 4);
    assert out[5] == UnescapeFrom(s, i + 5)[0] && !Replaceable(s, i + 5);
    assert forall j :: 0 <= j < 6 ==> s[i..][j] == s[i + j];
  }

  /** The output reads like the input at `i`, and goes on behind the same width. */
  ghost predicate SameRead(s: seq<Byte>, i: nat)
    requires i < |s| && s[i] == BACKSLASH && !EscapeAt(s, i)
  {
    var p, out := Read(s[i..]), UnescapeFrom(s, i);
    && Read(out) == p && p.Piece? && i + p.width <= |s| && p.width <= |out|
    && out[p.width..] == UnescapeFrom(s, i + p.width) && Preceding(s, i + p.width) == 0
  }

  lemma PairKept(s: seq<Byte>, i: nat)
    requires i < |s| && UnitAt(s[i..]) && !EscapeAt(s, i) && PairAt(s[i..])
    ensures SameRead(s, i)
  {
    var t, out := s[i..], UnescapeFrom(s, i);
    CopyUnit(s, i);
    assert t[6..] == s[i + 6..];
    LowUnitIsNoSeparator(s, i + 6);
    CopyUnit(s, i + 6);
    assert out[12..] == out[6..][6..];
  }

  lemma SingleKept(s: seq<Byte>, i: nat)
    requires i < |s| && UnitAt(s[i..]) && !EscapeAt(s, i) && !PairAt(s[i..])
    requires i + 6 < |s| && s[i + 6] == BACKSLASH ==> Read(s[i + 6..]).Piece?
    ensures SameRead(s, i)
  {
    var t := s[i..];
    CopyUnit(s, i);
    assert t[6..] == s[i + 6..];
    if HighSurrogate(Unit(t)) { LowUnitKept(s, i + 6); }
  }

  lemma InsideStep(out: seq<Byte>, decoded: seq<Byte>)
    requires out != [] && out[0] != QUOTE && Read(out).Piece? && Read(out).width <= |out|
    ensures Inside(out, decoded) == Inside(out[Read(out).width..], decoded + Read(out).bytes)
  {}

  lemma UnitKept(s: seq<Byte>, i: nat, decoded: seq<Byte>)
    requires i <= |s| && UnitAt(s[i..]) && !EscapeAt(s, i)
    requires var w := Read(s[i..]).width; i + w < |s| && s[i + w] == BACKSLASH ==> Read(s[i + w..]).Piece?
    ensures var p := Read(s[i..]);
            && Preceding(s, i + p.width) == 0
            && Inside(UnescapeFrom(s, i), decoded) == Inside(UnescapeFrom(s, i + p.width), decoded + p.bytes)
  {
    if PairAt(s[i..]) { PairKept(s, i); } else { SingleKept(s, i); }
    var out := UnescapeFrom(s, i);
    assert out[0] == BACKSLASH;
    InsideStep(out, decoded);
  }

  lemma LowUnitIsNoSeparator(s: seq<Byte>, i: nat)
    requires i <= |s| && LowUnitAt(s[i..])
    ensures !EscapeAt(s, i)
  {
    if EscapeAt(s, i) { SeparatorUnit(s, i); }
  }

  lemma {:induction false} InsideKept(s: seq<Byte>, i: nat, decoded: seq<Byte>)
    requires i <= |s| && Preceding(s, i) % 2 == 0
    requires Inside(s[i..], decoded).Some?
    ensures Inside(UnescapeFrom(s, i), decoded) == Inside(s[i..], decoded)
    decreases |s| - i, 0
  {
    var t := s[i..];
    if t[0] == QUOTE {
      assert UnescapeFrom(s, i)[1..] == UnescapeFrom(s, i + 1);
      assert t[1..] == s[i + 1..];
      OutsideKept(s, i + 1);
    } else {
      var p := Read(t);
      assert t[p.width..] == s[i + p.width..];
      PieceKept(s, i, decoded);
      InsideKept(s, i + p.width, decoded + p.bytes);
    }
  }

  lemma {:induction false} OutsideKept(s: seq<Byte>, i: nat)
    requires i <= |s| && Preceding(s, i) == 0
    requires Outside(s[i..]).Some?
    ensures Outside(UnescapeFrom(s, i)) == Outside(s[i..])
    decreases |s| - i, 1
  {
    if i < |s| {
      var t := s[i..];
      assert UnescapeFrom(s, i)[1..] == UnescapeFrom(s, i + 1);
      assert t[1..] == s[i + 1..];
      if t[0] == QUOTE {
        InsideKept(s, i + 1, []);
      } else {
        OutsideKept(s, i + 1);
      }
    }
  }

  /** For every JSON text, decoding before and after the unescaper gives the
      same lexemes, hence the same value. */
  lemma UnescapePreservesMeaning(s: seq<Byte>)
    requires Outside(s).Some?
    ensures Outside(Unescape(s)) == Outside(s)
  {
    OutsideKept(s, 0);
    assert s[0..] == s;
  }

  /** The precondition is needed: outside a string an escape is not JSON, and
      replacing it would make it look like two plain marks. */
  lemma MeaningNeedsJson()
    ensures var s: seq<Byte> := [BACKSLASH, LOWER_U, 50, 48, 50, 56];
            Outside(s).None? && Outside(Unescape(s)).Some?
  {
    var s: seq<Byte> := [BACKSLASH, LOWER_U, 50, 48, 50, 56];
    assert Unescape(s) == Separator(56) + UnescapeFrom(s, 6);
    assert Unescape(s) == [0xE2, 0x80, 0xA8];
    var out: seq<Byte> := [0xE2, 0x80, 0xA8];
    assert out[1..][1..][1..] == [];
    assert Outside(out[1..][1..]).Some?;
    assert Outside(out[1..]).Some?;
  }
}
