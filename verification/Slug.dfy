/** Page slugs (internal/artifacts/model.go): the checks of NormalizePageSlug
    and the facts about accepted slugs that artifact paths rest on. */
module Slug {
  import opened Text

  /** `unicode.IsSpace`. */
  predicate IsSpace(c: char) {
    var n := c as int;
    9 <= n <= 13 || n == 32 || n == 0x85 || n == 0xA0 || n == 0x1680 || 0x2000 <= n <= 0x200A ||
    n == 0x2028 || n == 0x2029 || n == 0x202F || n == 0x205F || n == 0x3000
  }

  /** `value == strings.TrimSpace(value)` for a nonempty value. */
  predicate Trimmed(value: string)
    requires value != ""
  {
    !IsSpace(value[0]) && !IsSpace(value[|value| - 1])
  }

  /** `strings.Split(value, "/")`. */
  function Segments(value: string): (r: seq<string>)
    ensures r != []
  {
    if value == "" then [""]
    else
      var rest := Segments(value[1..]);
      if value[0] == '/' then [""] + rest
      else [[value[0]] + rest[0]] + rest[1..]
  }

  predicate SlugChar(c: char) {
    'a' <= c <= 'z' || '0' <= c <= '9'
  }

  /** The pattern `[a-z0-9]+(?:-[a-z0-9]+)*`: words joined by single hyphens. */
  predicate SegmentMatches(segment: string) {
    && segment != ""
    && SlugChar(segment[0]) && SlugChar(segment[|segment| - 1])
    && (forall i :: 0 <= i < |segment| ==> SlugChar(segment[i]) || segment[i] == '-')
    && (forall i :: 0 <= i < |segment| - 1 ==> segment[i] != '-' || segment[i + 1] != '-')
  }

  predicate DoubleSlash(value: string) {
    exists i :: 0 <= i < |value| - 1 && value[i] == '/' && value[i + 1] == '/'
  }

  /** What NormalizePageSlug asks of the whole value. */
  predicate GoodShape(value: string) {
    && value != "" && Trimmed(value) && ByteLen(value) <= 255
    && value[0] != '/' && value[|value| - 1] != '/' && !DoubleSlash(value) && '\\' !in value
  }

  /** What it asks of the segments. */
  predicate GoodSegments(segments: seq<string>)
    requires segments != []
  {
    && (forall i :: 0 <= i < |segments| ==> SegmentMatches(segments[i]))
    && segments[|segments| - 1] != "index" && segments[|segments| - 1] != "log"
  }

  /** `NormalizePageSlug` as a predicate; an accepted slug is returned unchanged. */
  predicate Accepted(value: string) {
    GoodShape(value) && GoodSegments(Segments(value))
  }

  /** The loop of NormalizePageSlug over the segments. */
  method ScanSegments(segments: seq<string>) returns (ok: bool)
    requires segments != []
    ensures ok <==> GoodSegments(segments)
  {
    for index := 0 to |segments|
      invariant forall i :: 0 <= i < index ==> SegmentMatches(segments[i])
      invariant index == |segments| ==> segments[index - 1] != "index" && segments[index - 1] != "log"
    {
      var segment := segments[index];
      if !SegmentMatches(segment) || segment[0] == '.' { return false; }
      if index == |segments| - 1 && (segment == "index" || segment == "log") { return false; }
    }
    ok := true;
  }

  method NormalizePageSlug(value: string) returns (r: Option<string>)
    ensures r == if Accepted(value) then Some(value) else None
  {
    if !GoodShape(value) { return None; }
    var ok := ScanSegments(Segments(value));
    r := if ok then Some(value) else None;
  }

  // ---------------------------------------------------------------------
  // Facts about accepted slugs
  // ---------------------------------------------------------------------

  /** Every character is a slash or belongs to some segment. */
  lemma {:induction false} CharsComeFromSegments(value: string, i: nat) returns (k: nat, j: nat)
    requires i < |value| && value[i] != '/'
    ensures k < |Segments(value)| && j < |Segments(value)[k]| && Segments(value)[k][j] == value[i]
  {
    if i == 0 {
      k, j := 0, 0;
    } else {
      k, j := CharsComeFromSegments(value[1..], i - 1);
      if value[0] == '/' {
        k := k + 1;
      } else if k == 0 {
        j := j + 1;
      }
    }
  }

  /** An accepted slug consists of lower-case words, digits, hyphens and slashes. */
  lemma AcceptedChars(value: string)
    requires Accepted(value)
    ensures forall i :: 0 <= i < |value| ==> SlugChar(value[i]) || value[i] == '-' || value[i] == '/'
    ensures value != "" && value[0] != '/' && value[0] != '.'
  {
    forall i | 0 <= i < |value| ensures SlugChar(value[i]) || value[i] == '-' || value[i] == '/' {
      if value[i] != '/' {
        var k, j := CharsComeFromSegments(value, i);
        assert SegmentMatches(Segments(value)[k]);
      }
    }
  }

  lemma {:induction false} NoSlashIsOneSegment(value: string)
    requires '/' !in value
    ensures Segments(value) == [value]
  {
    if value != "" {
      assert value[0] in value;
      forall c | c in value[1..] ensures c in value {}
      NoSlashIsOneSegment(value[1..]);
      assert [value[0]] + value[1..] == value;
    }
  }

  /** The last segment of `directory + "/" + name` is `name`. */
  lemma {:induction false} LastSegment(directory: string, name: string)
    requires '/' !in name
    ensures var s := Segments(directory + "/" + name); s[|s| - 1] == name && |s| >= 2
  {
    var value := directory + "/" + name;
    if directory == "" {
      assert value[1..] == name;
      NoSlashIsOneSegment(name);
    } else {
      assert value[1..] == directory[1..] + "/" + name;
      LastSegment(directory[1..], name);
    }
  }

  /** An accepted slug names neither an index nor a log. */
  lemma AcceptedIsNoIndex(value: string, directory: string)
    requires Accepted(value)
    ensures value != "index" && value != "log"
    ensures value != directory + "/" + "index" && value != directory + "/" + "log"
  {
    NoSlashIsOneSegment("index");
    NoSlashIsOneSegment("log");
    LastSegment(directory, "index");
    LastSegment(directory, "log");
  }
}
