/** The language of page slugs (internal/artifacts/model.go): the checks accept
    exactly words of lower-case letters and digits, joined by hyphens into segments
    and by slashes into slugs. */
module SlugGrammar {
  import opened Text
  import opened Slug

  function JoinWith(parts: seq<string>, separator: char): string {
    if parts == [] then ""
    else if |parts| == 1 then parts[0]
    else parts[0] + [separator] + JoinWith(parts[1..], separator)
  }

  predicate Word(w: string) { w != "" && forall i :: 0 <= i < |w| ==> SlugChar(w[i]) }

  ghost predicate Words(words: seq<string>) { words != [] && forall i :: 0 <= i < |words| ==> Word(words[i]) }

  /** A segment from its words. */
  function SegmentText(words: seq<string>): string { JoinWith(words, '-') }

  // ---------------------------------------------------------------------
  // Segments
  // ---------------------------------------------------------------------

  lemma WordMatches(w: string)
    requires Word(w)
    ensures SegmentMatches(w)
  {}

  lemma HyphenMatches(w: string, rest: string)
    requires Word(w) && SegmentMatches(rest)
    ensures SegmentMatches(w + "-" + rest)
  {
    var s := w + "-" + rest;
    forall i | 0 <= i < |s| ensures SlugChar(s[i]) || s[i] == '-' {
      if i > |w| { assert s[i] == rest[i - |w| - 1]; }
    }
    forall i | 0 <= i < |s| - 1 ensures s[i] != '-' || s[i + 1] != '-' {
      if i > |w| { assert s[i] == rest[i - |w| - 1] && s[i + 1] == rest[i - |w|]; }
      if i == |w| { assert s[i + 1] == rest[0]; }
    }
  }

  lemma WordsTail(words: seq<string>)
    requires Words(words) && |words| > 1
    ensures Words(words[1..]) && Word(words[0])
  {
    assert forall i :: 0 <= i < |words[1..]| ==> words[1..][i] == words[i + 1];
  }

  lemma {:induction false} JoinedWordsMatch(words: seq<string>)
    requires Words(words)
    ensures SegmentMatches(SegmentText(words))
  {
    if |words| == 1 {
      WordMatches(words[0]);
    } else {
      WordsTail(words);
      JoinedWordsMatch(words[1..]);
      HyphenMatches(words[0], SegmentText(words[1..]));
    }
  }

  /** The first hyphen, if any. */
  function FirstHyphen(s: string): (n: nat)
    ensures n <= |s| && (n < |s| ==> s[n] == '-') && forall i :: 0 <= i < n ==> s[i] != '-'
  {
    if s == "" || s[0] == '-' then 0 else 1 + FirstHyphen(s[1..])
  }

  lemma TailMatches(s: string, n: nat)
    requires SegmentMatches(s) && n < |s| && s[n] == '-'
    ensures n + 1 < |s| && SegmentMatches(s[n + 1..])
  {
    var tail := s[n + 1..];
    forall i | 0 <= i < |tail| - 1 ensures tail[i] != '-' || tail[i + 1] != '-' {
      assert tail[i] == s[n + 1 + i] && tail[i + 1] == s[n + 1 + (i + 1)];
    }
    assert s[n] != '-' || s[n + 1] != '-';
  }

  lemma {:induction false} MatchIsJoined(s: string) returns (words: seq<string>)
    requires SegmentMatches(s)
    ensures Words(words) && SegmentText(words) == s
    decreases |s|
  {
    var n := FirstHyphen(s);
    if n == |s| { return [s]; }
    TailMatches(s, n);
    var rest := MatchIsJoined(s[n + 1..]);
    words := [s[..n]] + rest;
    assert words[1..] == rest;
    assert s == s[..n] + "-" + s[n + 1..];
  }

  // ---------------------------------------------------------------------
  // Slugs
  // ---------------------------------------------------------------------

  /** A slug from its segments. */
  function SlugText(segments: seq<string>): string { JoinWith(segments, '/') }

  ghost predicate AllMatch(segments: seq<string>) {
    segments != [] && forall i :: 0 <= i < |segments| ==> SegmentMatches(segments[i])
  }

  lemma AllMatchTail(segments: seq<string>)
    requires AllMatch(segments) && |segments| > 1
    ensures AllMatch(segments[1..]) && SegmentMatches(segments[0])
  {
    assert forall i :: 0 <= i < |segments[1..]| ==> segments[1..][i] == segments[i + 1];
  }

  lemma NoSlash(segment: string)
    requires SegmentMatches(segment)
    ensures '/' !in segment && '\\' !in segment
  {}

  /** Splitting `name + "/" + rest` gives the name and the segments of the rest. */
  lemma {:induction false} FirstSegment(name: string, rest: string)
    requires '/' !in name
    ensures Segments(name + "/" + rest) == [name] + Segments(rest)
  {
    var value := name + "/" + rest;
    if name == "" {
      assert value[1..] == rest;
    } else {
      assert value[0] == name[0] && value[1..] == name[1..] + "/" + rest;
      assert name[0] in name;
      assert forall c :: c in name[1..] ==> c in name;
      FirstSegment(name[1..], rest);
      assert [name[0]] + name[1..] == name;
    }
  }

  lemma {:induction false} JoinedSplits(segments: seq<string>)
    requires AllMatch(segments)
    ensures Segments(SlugText(segments)) == segments
  {
    NoSlash(segments[0]);
    if |segments| == 1 {
      NoSlashIsOneSegment(segments[0]);
    } else {
      AllMatchTail(segments);
      JoinedSplits(segments[1..]);
      FirstSegment(segments[0], SlugText(segments[1..]));
      assert segments == [segments[0]] + segments[1..];
    }
  }

  lemma {:induction false} SplitJoins(value: string)
    ensures SlugText(Segments(value)) == value
  {
    if value != "" {
      SplitJoins(value[1..]);
      var rest := Segments(value[1..]);
      if value[0] == '/' {
        assert Segments(value)[1..] == rest;
      } else {
        assert Segments(value)[1..] == rest[1..];
      }
      assert value == [value[0]] + value[1..];
    }
  }

  /** What `GoodShape` asks, the length apart. */
  predicate Shaped(s: string) {
    && s != "" && SlugChar(s[0]) && SlugChar(s[|s| - 1]) && !DoubleSlash(s) && '\\' !in s
  }

  lemma SegmentIsShaped(segment: string)
    requires SegmentMatches(segment)
    ensures Shaped(segment)
  {
    NoSlash(segment);
    assert forall i :: 0 <= i < |segment| ==> segment[i] in segment;
  }

  lemma SlashIsShaped(segment: string, rest: string)
    requires SegmentMatches(segment) && Shaped(rest)
    ensures Shaped(segment + "/" + rest)
  {
    var s := segment + "/" + rest;
    NoSlash(segment);
    assert forall i :: 0 <= i < |segment| ==> segment[i] in segment;
    forall i | 0 <= i < |s| - 1 ensures s[i] != '/' || s[i + 1] != '/' {
      if i < |segment| { assert s[i] == segment[i]; }
      if i == |segment| { assert s[i + 1] == rest[0]; }
      if i > |segment| { assert s[i] == rest[i - |segment| - 1] && s[i + 1] == rest[i - |segment|]; }
    }
  }

  lemma {:induction false} SlugIsShaped(segments: seq<string>)
    requires AllMatch(segments)
    ensures Shaped(SlugText(segments))
  {
    if |segments| == 1 {
      SegmentIsShaped(segments[0]);
    } else {
      AllMatchTail(segments);
      SlugIsShaped(segments[1..]);
      SlashIsShaped(segments[0], SlugText(segments[1..]));
    }
  }

  lemma ShapedIsGood(s: string)
    requires Shaped(s) && ByteLen(s) <= 255
    ensures GoodShape(s)
  {}

  /** A slug given by the words of its segments. */
  ghost predicate Lawful(slug: seq<seq<string>>) {
    && slug != [] && (forall i :: 0 <= i < |slug| ==> Words(slug[i]))
    && SegmentText(slug[|slug| - 1]) != "index" && SegmentText(slug[|slug| - 1]) != "log"
    && ByteLen(TextOf(slug)) <= 255
  }

  function TextOf(slug: seq<seq<string>>): string {
    SlugText(seq(|slug|, i requires 0 <= i < |slug| => SegmentText(slug[i])))
  }

  /** Every slug of words is accepted, unless its last segment is reserved or it is
      longer than 255 bytes. */
  lemma WordsAreAccepted(slug: seq<seq<string>>)
    requires Lawful(slug)
    ensures Accepted(TextOf(slug))
  {
    var segments := seq(|slug|, i requires 0 <= i < |slug| => SegmentText(slug[i]));
    forall i | 0 <= i < |segments| ensures SegmentMatches(segments[i]) { JoinedWordsMatch(slug[i]); }
    JoinedSplits(segments);
    SlugIsShaped(segments);
    ShapedIsGood(TextOf(slug));
  }

  lemma {:induction false} SegmentsAreWords(segments: seq<string>) returns (slug: seq<seq<string>>)
    requires forall i :: 0 <= i < |segments| ==> SegmentMatches(segments[i])
    ensures |slug| == |segments| && forall i :: 0 <= i < |slug| ==>
            Words(slug[i]) && SegmentText(slug[i]) == segments[i]
  {
    if segments == [] { return []; }
    var words := MatchIsJoined(segments[0]);
    assert forall i :: 0 <= i < |segments[1..]| ==> segments[1..][i] == segments[i + 1];
    var rest := SegmentsAreWords(segments[1..]);
    slug := [words] + rest;
  }

  /** And every accepted slug is one. */
  lemma AcceptedAreWords(value: string) returns (slug: seq<seq<string>>)
    requires Accepted(value)
    ensures Lawful(slug) && TextOf(slug) == value
  {
    slug := SegmentsAreWords(Segments(value));
    assert seq(|slug|, i requires 0 <= i < |slug| => SegmentText(slug[i])) == Segments(value);
    SplitJoins(value);
  }
}
