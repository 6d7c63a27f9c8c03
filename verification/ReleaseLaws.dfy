/** The release round trip: what a release writes is what is read back, and nothing older changes. */
module ReleaseLaws {
  import opened Overlay
  import opened Text
  import opened ReleaseNotes

  // ---- searching behind a line ----------------------------------------------------------------

  function Shifted(r: Option<nat>, k: nat): Option<nat> {
    match r case Some(p) => Some(p + k) case None => None
  }

  /** Headings of a text are headings of any text that ends with it after a line break. */
  lemma HeadingShift(x: string, b: string, q: nat, pattern: Pattern)
    requires q <= |b|
    ensures var content := x + "\n" + b;
            && HeadingAt(content, |x| + 1 + q, pattern) == HeadingAt(b, q, pattern)
            && content[|x| + 1 + q..] == b[q..]
  {
    var content := x + "\n" + b;
    assert content[|x| + 1 + q..] == b[q..];
    assert content[|x|] == '\n';
    if q > 0 { assert content[|x| + q] == b[q - 1]; }
  }

  lemma {:induction false} SearchShift(x: string, b: string, q: nat, pattern: Pattern)
    requires q <= |b|
    ensures Search(x + "\n" + b, |x| + 1 + q, pattern) == Shifted(Search(b, q, pattern), |x| + 1)
    decreases |b| - q
  {
    hide HeadingAt;
    HeadingShift(x, b, q, pattern);
    if q < |b| { SearchShift(x, b, q + 1, pattern); }
  }

  lemma {:induction false} SearchSkips(content: string, from: nat, to: nat, pattern: Pattern)
    requires from <= to <= |content|
    requires forall p :: from <= p < to ==> HeadingAt(content, p, pattern).None?
    ensures Search(content, from, pattern) == Search(content, to, pattern)
    decreases |content| - from
  {
    hide HeadingAt;
    if from < to { SearchSkips(content, from + 1, to, pattern); }
  }

  predicate OneLine(a: string) {
    forall i :: 0 <= i < |a| ==> a[i] != '\n'
  }

  lemma NoHeadingInside(a: string, b: string, p: nat, pattern: Pattern)
    requires OneLine(a) && Heading(a + "\n" + b, pattern).None? && p <= |a|
    ensures HeadingAt(a + "\n" + b, p, pattern).None?
  {
    hide Heading;
    var content := a + "\n" + b;
    if p == 0 {
      assert content[0..] == content;
    } else {
      assert content[p - 1] == a[p - 1];
    }
  }

  /** A first line that is no heading is skipped. */
  lemma SkipLine(a: string, b: string, pattern: Pattern)
    requires OneLine(a) && Heading(a + "\n" + b, pattern).None?
    ensures Search(a + "\n" + b, 0, pattern) == Shifted(Search(b, 0, pattern), |a| + 1)
  {
    hide Heading, HeadingAt, Search, OneLine;
    var content := a + "\n" + b;
    forall p | 0 <= p < |a| + 1
      ensures HeadingAt(content, p, pattern).None?
    {
      NoHeadingInside(a, b, p, pattern);
    }
    SearchSkips(content, 0, |a| + 1, pattern);
    SearchShift(a, b, 0, pattern);
  }

  // ---- the fixed lines ------------------------------------------------------------------------

  /** A heading of any version, or of a version that could be one. */
  predicate Sane(pattern: Pattern) {
    pattern.Only? ==> ParseVersion(pattern.version).Ok?
  }

  lemma OtherStart(s: string, version: string)
    requires s != "" && s[0] == 'L' && version != "" && IsDigit(version[0])
    ensures !StartsWith(s, version)
  {
  }

  lemma TitleLine(b: string, pattern: Pattern)
    ensures OneLine(TITLE) && Heading(TITLE + "\n" + b, pattern).None?
  {
    hide VersionLength, Tail;
    assert (TITLE + "\n" + b)[1] == ' ';
  }

  lemma EmptyLine(b: string, pattern: Pattern)
    ensures OneLine("") && Heading("" + "\n" + b, pattern).None?
  {
    hide VersionLength, Tail;
    assert ("" + "\n" + b)[0] == '\n';
  }

  lemma LatestLine(b: string, pattern: Pattern)
    requires Sane(pattern)
    ensures OneLine(LATEST) && Heading(LATEST + "\n" + b, pattern).None?
  {
    hide ReadVersion, Tail, StartsWith;
    var s := LATEST + "\n" + b;
    assert s[3..][0] == 'L';
    if pattern.Only? { OtherStart(s[3..], pattern.version); }
  }

  lemma Brackets(b: string)
    ensures LatestHeader() + b == TITLE + "\n" + ("" + "\n" + (LATEST + "\n" + b))
  {
  }

  const HEADER_LENGTH := 35

  lemma HeaderLength()
    ensures |LatestHeader()| == HEADER_LENGTH && |TITLE| == 15 && |LATEST| == 17
  {
  }

  /** The search of the whole file is the search behind its header. */
  lemma SearchBehindHeader(b: string, pattern: Pattern)
    requires Sane(pattern)
    ensures Search(LatestHeader() + b, 0, pattern) == Shifted(Search(b, 0, pattern), HEADER_LENGTH)
  {
    hide Search, Heading, LatestHeader;
    HeaderLength();
    Brackets(b);
    TitleLine("" + "\n" + (LATEST + "\n" + b), pattern);
    SkipLine(TITLE, "" + "\n" + (LATEST + "\n" + b), pattern);
    EmptyLine(LATEST + "\n" + b, pattern);
    SkipLine("", LATEST + "\n" + b, pattern);
    LatestLine(b, pattern);
    SkipLine(LATEST, b, pattern);
  }

  // ---- the new heading ------------------------------------------------------------------------

  lemma {:induction false} ParenAfter(date: string, rest: string)
    requires forall i :: 0 <= i < |date| ==> date[i] != ')'
    ensures ParenIndex(date + ")" + rest) == |date|
  {
    if date == "" {
      assert (date + ")" + rest)[0] == ')';
    } else {
      ParenAfter(date[1..], rest);
      assert (date + ")" + rest)[1..] == date[1..] + ")" + rest;
    }
  }

  lemma DateTail(date: string, b: string)
    requires IsDate(date)
    ensures Tail(" (" + date + ")" + ("\n" + b)) == Some(13)
  {
    hide ParenIndex;
    var s := " (" + date + ")" + ("\n" + b);
    ParenAfter(date, "\n" + b);
    assert s[2..] == date + ")" + ("\n" + b);
    assert s[13..] == "\n" + b;
  }

  lemma ReleaseLine(version: string, date: string, b: string)
    ensures var s := ReleaseHeader(version, date) + "\n" + b;
            && StartsWith(s, "## ") && s[3..] == version + (" (" + date + ")" + ("\n" + b))
  {
  }

  lemma ReleaseHeading(version: string, date: string, b: string, pattern: Pattern)
    requires ParseVersion(version).Ok? && IsDate(date) && (pattern == Any || pattern == Only(version))
    ensures Heading(ReleaseHeader(version, date) + "\n" + b, pattern) == Some(|ReleaseHeader(version, date)|)
    ensures VersionLength((ReleaseHeader(version, date) + "\n" + b)[3..], Any) == Some(|version|)
  {
    hide Tail, ReadVersion, ParseVersion;
    var s := ReleaseHeader(version, date) + "\n" + b;
    var tail := " (" + date + ")" + ("\n" + b);
    ReleaseLine(version, date, b);
    ReadThen(version, tail);
    DateTail(date, b);
    assert s[3..][..|version|] == version;
    assert s[3 + |version|..] == s[3..][|version|..] == tail;
  }

  /** No other version matches at the new heading. */
  lemma OtherHeading(version: string, date: string, b: string, other: string)
    requires ParseVersion(version).Ok? && ParseVersion(other).Ok? && other != version && IsDate(date)
    ensures Heading(ReleaseHeader(version, date) + "\n" + b, Only(other)).None?
  {
    hide ReadVersion, ParseVersion, Tail;
    var s := ReleaseHeader(version, date) + "\n" + b;
    var tail := " (" + date + ")" + ("\n" + b);
    ReleaseLine(version, date, b);
    if Heading(s, Only(other)).Some? {
      OnlyIsAny(s, other);
      ReadThen(version, tail);
      assert false;
    }
  }

  lemma SuffixOfSuffix(s: string, k: nat, n: nat)
    requires k + n <= |s|
    ensures s[k..][n..] == s[k + n..]
  {
  }

  /** Where a version's own heading matches, the heading of any version does, with this version. */
  lemma OnlyIsAny(s: string, version: string)
    requires ParseVersion(version).Ok? && Heading(s, Only(version)).Some?
    ensures Heading(s, Any) == Heading(s, Only(version))
    ensures ReadVersion(s[3..]) == Some((ParseVersion(version).value, |version|)) && s[3..][..|version|] == version
  {
    hide ReadVersion, ParseVersion, ParenIndex;
    var rest := s[3..][|version|..];
    assert s[3..] == version + rest;
    SuffixOfSuffix(s, 3, |version|);
    assert NoDigit(rest);
    ReadThen(version, rest);
  }

  lemma NewBrackets(version: string, date: string, b: string)
    ensures Released(version, date) + b == LatestHeader() + ("" + "\n" + (ReleaseHeader(version, date) + "\n" + b))
    ensures Released(version, date) == LatestHeader() + "\n" + ReleaseHeader(version, date) + "\n"
    ensures |Released(version, date)| == HEADER_LENGTH + 2 + |ReleaseHeader(version, date)|
  {
  }

  /** The new section is found first; another version is found where it was. */
  lemma SearchReleased(version: string, date: string, b: string, pattern: Pattern)
    requires ParseVersion(version).Ok? && IsDate(date) && Sane(pattern)
    ensures Search(Released(version, date) + b, 0, pattern) ==
            if pattern == Any || pattern == Only(version) then Some(HEADER_LENGTH + 1)
            else Shifted(Search(b, 0, pattern), |Released(version, date)|)
  {
    hide Heading, LatestHeader, Released, ReleaseHeader, ParseVersion;
    var line := ReleaseHeader(version, date) + "\n" + b;
    NewBrackets(version, date, b);
    SearchBehindHeader("" + "\n" + line, pattern);
    EmptyLine(line, pattern);
    SkipLine("", line, pattern);
    if pattern == Any || pattern == Only(version) {
      ReleaseHeading(version, date, b, pattern);
      assert line[0..] == line;
    } else {
      OtherHeading(version, date, b, pattern.version);
      HeaderIsLine(version, date);
      SkipLine(ReleaseHeader(version, date), b, pattern);
    }
  }

  lemma {:induction false} VersionIsLine(version: string)
    requires ParseVersion(version).Ok?
    ensures OneLine(version)
  {
    hide ReadVersion;
    var a, b, c, rest := ReadParts(version);
    Nested(a, b, c, rest);
    assert rest == "" && version == Dotted(a, b, c);
    DottedIsLine(a, b, c);
  }

  lemma DottedIsLine(a: string, b: string, c: string)
    requires AllDigits(a) && AllDigits(b) && AllDigits(c)
    ensures OneLine(Dotted(a, b, c))
  {
  }

  lemma HeaderIsLine(version: string, date: string)
    requires ParseVersion(version).Ok? && IsDate(date)
    ensures OneLine(ReleaseHeader(version, date))
  {
    VersionIsLine(version);
  }

  // ---- bodies ---------------------------------------------------------------------------------

  /** A section behind a line break has the body that it has on its own. */
  lemma BodyShift(x: string, b: string, version: string)
    requires Search(x + "\n" + b, 0, Only(version)) == Shifted(Search(b, 0, Only(version)), |x| + 1)
    ensures Body(x + "\n" + b, version) == Body(b, version)
  {
    hide HeadingAt, Search, Trimmed;
    var content := x + "\n" + b;
    var k := |x| + 1;
    match Search(b, 0, Only(version))
    case None =>
    case Some(q) =>
      HeadingShift(x, b, q, Only(version));
      var begin := q + HeadingAt(b, q, Only(version)).value;
      SearchShift(x, b, begin, Any);
      var end := match Search(b, begin, Any) case Some(e) => e case None => |b|;
      assert content[k + begin..k + end] == b[begin..end];
  }

  lemma StripBreak(s: string)
    ensures Trimmed("\n" + s) == Trimmed(s)
  {
  }

  /** What a successful update was given and wrote. */
  lemma UpdateParts(content: string, version: string, date: string) returns (b: string, q: nat)
    requires UpdateNotes(content, version, date).Ok?
    ensures content == LatestHeader() + b && UpdateNotes(content, version, date).value == Released(version, date) + b
    ensures Search(b, 0, Any) == Some(q) && Trimmed(b[..q]) != "" && Search(content, 0, Any) == Some(HEADER_LENGTH + q)
    ensures content[HEADER_LENGTH..HEADER_LENGTH + q] == b[..q]
    ensures ParseVersion(version).Ok? && Search(content, 0, Only(version)).None?
  {
    hide Search, Trimmed, Released, LatestHeader, ParseVersion, Below, VersionAt, HeadingAt;
    b := content[|LatestHeader()|..];
    HeaderLength();
    assert content == LatestHeader() + b;
    SearchBehindHeader(b, Any);
    q := Search(b, 0, Any).value;
    SliceBehind(LatestHeader(), b, q);
  }

  lemma SliceBehind(x: string, b: string, q: nat)
    requires q <= |b|
    ensures (x + b)[|x|..|x| + q] == b[..q]
  {
  }

  /**
   The round trip: after a successful update the current version is the new one, and the body extracted
   for it is the stripped text that stood under Latest Changes.
   */
  lemma ReleaseRoundTrip(content: string, version: string, date: string)
    requires IsDate(date) && UpdateNotes(content, version, date).Ok?
    ensures var next := UpdateNotes(content, version, date).value;
            var first := Search(content, 0, Any);
            && CurrentVersion(next) == Ok(version)
            && first.Some? && HEADER_LENGTH <= first.value <= |content|
            && Body(next, version) == Ok(Trimmed(content[HEADER_LENGTH..first.value]) + "\n")
  {
    hide Search, Trimmed, Released, LatestHeader, ParseVersion, ReleaseHeader, UpdateNotes;
    var b, q := UpdateParts(content, version, date);
    var next := Released(version, date) + b;
    SearchReleased(version, date, b, Any);
    SearchReleased(version, date, b, Only(version));
    NewHeadingAt(version, date, b);
    BodyOfNew(version, date, b, q);
  }

  lemma BodyOfNew(version: string, date: string, b: string, q: nat)
    requires ParseVersion(version).Ok? && IsDate(date) && Search(b, 0, Any) == Some(q) && Trimmed(b[..q]) != ""
    ensures Body(Released(version, date) + b, version) == Ok(Trimmed(b[..q]) + "\n")
  {
    hide Search, Trimmed, Released, LatestHeader, ParseVersion, ReleaseHeader, HeadingAt;
    var next := Released(version, date) + b;
    SearchReleased(version, date, b, Only(version));
    NewHeadingAt(version, date, b);
    var begin := HEADER_LENGTH + 1 + |ReleaseHeader(version, date)|;
    var x := LatestHeader() + "\n" + ReleaseHeader(version, date);
    NewBrackets(version, date, b);
    HeaderLength();
    BreakIsNoHeading(x, b);
    SearchShift(x, b, 0, Any);
    assert next[begin..begin + 1 + q] == "\n" + b[..q];
    StripBreak(b[..q]);
  }

  lemma NewHeadingAt(version: string, date: string, b: string)
    requires ParseVersion(version).Ok? && IsDate(date)
    ensures var next := Released(version, date) + b;
            && HEADER_LENGTH + 1 <= |next|
            && HeadingAt(next, HEADER_LENGTH + 1, Any) == Some(|ReleaseHeader(version, date)|)
            && HeadingAt(next, HEADER_LENGTH + 1, Only(version)) == Some(|ReleaseHeader(version, date)|)
            && VersionAt(next, HEADER_LENGTH + 1) == version
  {
    hide Heading, LatestHeader, Released, ReleaseHeader, ParseVersion;
    var line := ReleaseHeader(version, date) + "\n" + b;
    NewBrackets(version, date, b);
    HeaderLength();
    var x := LatestHeader();
    var next := x + ("" + "\n" + line);
    assert next == x + "\n" + line;
    HeadingShift(x, line, 0, Any);
    HeadingShift(x, line, 0, Only(version));
    assert line[0..] == line;
    ReleaseHeading(version, date, b, Any);
    ReleaseHeading(version, date, b, Only(version));
    ReleaseLine(version, date, b);
    VersionFrom(next, HEADER_LENGTH + 1, line, version, " (" + date + ")" + ("\n" + b));
  }

  lemma VersionFrom(content: string, p: nat, line: string, version: string, tail: string)
    requires p + 3 <= |content| && content[p..] == line && |line| >= 3 && line[3..] == version + tail
    requires HeadingAt(content, p, Any).Some? && ParseVersion(version).Ok? && NoDigit(tail)
    ensures VersionAt(content, p) == version
  {
    hide HeadingAt, ReadVersion, ParseVersion;
    assert content[p + 3..] == content[p..][3..];
    ReadThen(version, tail);
  }

  lemma BreakSuffix(x: string, b: string)
    ensures var s := (x + "\n" + b)[|x|..]; s != "" && s[0] == '\n'
  {
  }

  /** The search for the next heading may start at the end of a line. */
  lemma BreakIsNoHeading(x: string, b: string)
    ensures Search(x + "\n" + b, |x|, Any) == Search(x + "\n" + b, |x| + 1, Any)
  {
    hide ReadVersion, Tail;
    var content := x + "\n" + b;
    BreakSuffix(x, b);
    SearchSkips(content, |x|, |x| + 1, Any);
  }

  /** The bodies of all other versions are as they were. */
  lemma OlderBodiesUnchanged(content: string, version: string, date: string, other: string)
    requires IsDate(date) && UpdateNotes(content, version, date).Ok? && ParseVersion(other).Ok? && other != version
    ensures Body(UpdateNotes(content, version, date).value, other) == Body(content, other)
  {
    hide Search, Body, Released, LatestHeader, ParseVersion, ReleaseHeader, UpdateNotes;
    var b, q := UpdateParts(content, version, date);
    SearchReleased(version, date, b, Only(other));
    SearchBehindHeader(b, Only(other));
    NewBrackets(version, date, b);
    HeaderLength();
    BodyShift(LatestHeader() + "\n" + ReleaseHeader(version, date), b, other);
    var x := TITLE + "\n" + "\n" + LATEST;
    HeaderEnds(x);
    BodyShift(x, b, other);
  }

  lemma HeaderEnds(x: string)
    requires x == TITLE + "\n" + "\n" + LATEST
    ensures LatestHeader() == x + "\n" && |x| + 1 == HEADER_LENGTH
  {
  }

  // ---- the versions of a file -----------------------------------------------------------------

  /** The versions of all headings from a place on, in order. */
  function Versions(content: string, from: nat): seq<string>
    requires from <= |content|
    decreases |content| - from
  {
    if from == |content| then []
    else (if HeadingAt(content, from, Any).Some? then [VersionAt(content, from)] else []) + Versions(content, from + 1)
  }

  lemma SameFront(content: string, p: nat, b: string, q: nat)
    requires p + 3 <= |content| && q + 3 <= |b| && content[p + 3..] == b[q + 3..]
    requires HeadingAt(content, p, Any).Some? && HeadingAt(b, q, Any).Some?
    ensures VersionAt(content, p) == VersionAt(b, q)
  {
    hide HeadingAt, ReadVersion, FrontVersion;
  }

  lemma VersionShift(x: string, b: string, q: nat, content: string, p: nat)
    requires content == x + "\n" + b && p == |x| + 1 + q && q <= |b| && p <= |content|
    requires HeadingAt(b, q, Any).Some? && HeadingAt(content, p, Any).Some?
    ensures VersionAt(content, p) == VersionAt(b, q)
  {
    hide HeadingAt, ReadVersion, FrontVersion;
    SuffixShift(x, b, q + 3);
    SameFront(content, p, b, q);
  }

  lemma SuffixShift(x: string, b: string, k: nat)
    requires k <= |b|
    ensures (x + "\n" + b)[|x| + 1 + k..] == b[k..]
  {
  }

  lemma {:induction false} VersionsShift(x: string, b: string, q: nat)
    requires q <= |b|
    ensures Versions(x + "\n" + b, |x| + 1 + q) == Versions(b, q)
    decreases |b| - q
  {
    hide HeadingAt, VersionAt;
    if q < |b| {
      VersionsShift(x, b, q + 1);
      HeadingShift(x, b, q, Any);
      if HeadingAt(b, q, Any).Some? { VersionShift(x, b, q, x + "\n" + b, |x| + 1 + q); }
    }
  }

  lemma {:induction false} VersionsSkip(content: string, from: nat, to: nat)
    requires from <= to <= |content|
    requires forall p :: from <= p < to ==> HeadingAt(content, p, Any).None?
    ensures Versions(content, from) == Versions(content, to)
    decreases |content| - from
  {
    hide HeadingAt, VersionAt;
    if from < to { VersionsSkip(content, from + 1, to); }
  }

  /** The current version is the first one. */
  lemma FirstVersion(content: string)
    ensures var r := Search(content, 0, Any);
            if r.Some? then Versions(content, 0) != [] && Versions(content, 0)[0] == VersionAt(content, r.value)
            else Versions(content, 0) == []
  {
    hide HeadingAt, VersionAt;
    var r := Search(content, 0, Any);
    VersionsSkip(content, 0, if r.Some? then r.value else |content|);
  }

  /** A release puts its version in front of the others. */
  lemma ReleasedVersions(content: string, version: string, date: string)
    requires IsDate(date) && UpdateNotes(content, version, date).Ok?
    ensures Versions(UpdateNotes(content, version, date).value, 0) == [version] + Versions(content, 0)
  {
    hide Search, Released, LatestHeader, ParseVersion, ReleaseHeader, UpdateNotes, Versions, HeadingAt, VersionAt;
    var b, q := UpdateParts(content, version, date);
    var next := Released(version, date) + b;
    VersionsBehind(content, b);
    VersionsOfReleased(version, date, b);
  }

  lemma VersionsBehind(content: string, b: string)
    requires content == LatestHeader() + b
    ensures Versions(content, 0) == Versions(b, 0)
  {
    hide Search, LatestHeader, Versions, HeadingAt, VersionAt;
    SearchBehindHeader(b, Any);
    HeaderLength();
    var x := TITLE + "\n" + "\n" + LATEST;
    HeaderEnds(x);
    VersionsShift(x, b, 0);
    VersionsSkip(content, 0, HEADER_LENGTH);
  }

  lemma VersionsOfReleased(version: string, date: string, b: string)
    requires ParseVersion(version).Ok? && IsDate(date)
    ensures Versions(Released(version, date) + b, 0) == [version] + Versions(b, 0)
  {
    hide Search, LatestHeader, Released, ReleaseHeader, HeadingAt, VersionAt;
    var next := Released(version, date) + b;
    var k := HEADER_LENGTH + 1;
    SearchReleased(version, date, b, Any);
    NewHeadingAt(version, date, b);
    VersionsSkip(next, 0, k);
    var x := LatestHeader() + "\n" + ReleaseHeader(version, date);
    NewBrackets(version, date, b);
    HeaderLength();
    InsideHeading(x, version, date, b);
    VersionsSkip(next, k + 1, |x| + 1);
    VersionsShift(x, b, 0);
  }

  /** There is no heading inside the new one. */
  lemma InsideHeading(x: string, version: string, date: string, b: string)
    requires ParseVersion(version).Ok? && IsDate(date) && x == LatestHeader() + "\n" + ReleaseHeader(version, date)
    ensures forall p :: HEADER_LENGTH + 2 <= p < |x| + 1 ==> HeadingAt(x + "\n" + b, p, Any).None?
  {
    hide LatestHeader, ReleaseHeader, Heading;
    HeaderIsLine(version, date);
    HeaderLength();
    var content := x + "\n" + b;
    forall k | HEADER_LENGTH + 1 <= k < |x|
      ensures content[k] != '\n'
    {
      assert content[k] == ReleaseHeader(version, date)[k - (HEADER_LENGTH + 1)];
    }
  }

  // ---- bumps ----------------------------------------------------------------------------------

  predicate Greater(version: string, other: string) {
    && ParseVersion(version).Ok? && ParseVersion(other).Ok?
    && Below(ParseVersion(other).value, ParseVersion(version).value)
  }

  predicate Descending(versions: seq<string>) {
    forall i, j :: 0 <= i < j < |versions| ==> Greater(versions[i], versions[j])
  }

  lemma VersionAtParses(content: string, p: nat)
    requires p <= |content| && HeadingAt(content, p, Any).Some?
    ensures ParseVersion(VersionAt(content, p)).Ok?
  {
    hide ParseVersion;
    assert content[p..][3..] == content[p + 3..];
    ReadIsVersion(content[p + 3..]);
  }

  lemma {:induction false} VersionsParse(content: string, from: nat, version: string)
    requires from <= |content| && version in Versions(content, from)
    ensures ParseVersion(version).Ok?
    decreases |content| - from
  {
    hide ParseVersion, HeadingAt, VersionAt;
    if HeadingAt(content, from, Any).Some? && version == VersionAt(content, from) {
      VersionAtParses(content, from);
    } else {
      VersionsParse(content, from + 1, version);
    }
  }

  lemma {:induction false} FoundIsListed(content: string, from: nat, p: nat)
    requires from <= p < |content| && HeadingAt(content, p, Any).Some?
    ensures VersionAt(content, p) in Versions(content, from)
    decreases |content| - from
  {
    hide HeadingAt, VersionAt;
    if from < p { FoundIsListed(content, from + 1, p); }
  }

  /** A version that has a heading is in the list. */
  lemma OwnHeadingIsListed(content: string, version: string)
    requires ParseVersion(version).Ok? && Search(content, 0, Only(version)).Some?
    ensures version in Versions(content, 0)
  {
    hide ParseVersion, Versions;
    var p := Search(content, 0, Only(version)).value;
    OnlyIsAny(content[p..], version);
    assert content[p..][3..] == content[p + 3..];
    FoundIsListed(content, 0, p);
  }

  lemma BumpIsGreater(current: string, bump: Bump)
    requires ParseVersion(current).Ok?
    ensures BumpVersion(current, bump).Ok? && Greater(BumpVersion(current, bump).value, current)
  {
    hide ReadVersion, Format;
    FormatParses(Bumped(ParseVersion(current).value, bump));
  }

  /** The text under Latest Changes is not blank. */
  predicate HasLatest(content: string) {
    var r := Search(content, 0, Any);
    r.Some? && |LatestHeader()| < r.value && Trimmed(content[|LatestHeader()|..r.value]) != ""
  }

  /**
   With descending headings a bump is never rejected as a duplicate or as not greater: it fails only for a
   file without its header, without any version or without changes, and otherwise puts a greater version
   in front.
   */
  lemma PrepareDescends(content: string, bump: Bump, date: string)
    requires IsDate(date) && Descending(Versions(content, 0))
    ensures var r := Prepare(content, bump, date);
            && (r.Ok? <==> StartsWith(content, LatestHeader()) && HasLatest(content))
            && (r.Err? ==> r.error in {NoVersion, BadStart, EmptyLatest})
            && (r.Ok? ==> Versions(r.value.1, 0) == [r.value.0] + Versions(content, 0) && Descending(Versions(r.value.1, 0)))
  {
    hide Search, LatestHeader, ParseVersion, Versions, HeadingAt, VersionAt, Trimmed, Released, BumpVersion;
    FirstVersion(content);
    if Search(content, 0, Any).Some? {
      var current := CurrentVersion(content).value;
      VersionsParse(content, 0, current);
      BumpIsGreater(current, bump);
      var version := BumpVersion(current, bump).value;
      NotListed(Versions(content, 0), version);
      if Search(content, 0, Only(version)).Some? { OwnHeadingIsListed(content, version); }
      if UpdateNotes(content, version, date).Ok? {
        ReleasedVersions(content, version, date);
        InFront(Versions(content, 0), version);
      }
    }
  }

  lemma NotListed(versions: seq<string>, version: string)
    requires Descending(versions) && versions != [] && Greater(version, versions[0])
    ensures version !in versions
  {
  }

  lemma InFront(versions: seq<string>, version: string)
    requires Descending(versions) && versions != [] && Greater(version, versions[0])
    ensures Descending([version] + versions)
  {
    hide ParseVersion;
    var all := [version] + versions;
    forall i, j | 0 <= i < j < |all|
      ensures Greater(all[i], all[j])
    {
      if i == 0 && j > 1 { assert Greater(versions[0], versions[j - 1]); }
    }
  }

  /** Releases, and edits that leave the list of headings as it is. */
  datatype Step = Release(bump: Bump, date: string) | Edit(text: string)

  /** A release that fails writes nothing. */
  function After(content: string, step: Step): string {
    match step
    case Edit(text) => text
    case Release(bump, date) =>
      match Prepare(content, bump, date)
      case Ok(r) => r.1
      case Err(_) => content
  }

  predicate Regular(content: string, step: Step) {
    match step
    case Edit(text) => Versions(text, 0) == Versions(content, 0)
    case Release(_, date) => IsDate(date)
  }

  ghost predicate IsHistory(contents: seq<string>, steps: seq<Step>) {
    && |contents| == |steps| + 1
    && forall i :: 0 <= i < |steps| ==> Regular(contents[i], steps[i]) && contents[i + 1] == After(contents[i], steps[i])
  }

  /** Headings stay descending through any history, and no bump in it is refused as a duplicate or as not greater. */
  lemma {:induction false} HistoryDescends(contents: seq<string>, steps: seq<Step>, i: nat)
    requires IsHistory(contents, steps) && i <= |steps| && Descending(Versions(contents[0], 0))
    ensures Descending(Versions(contents[i], 0))
    ensures i < |steps| && steps[i].Release? ==>
              var r := Prepare(contents[i], steps[i].bump, steps[i].date);
              r.Err? ==> r.error != Duplicate && r.error != NotGreater && r.error != InvalidVersion
  {
    hide Prepare, Versions, Descending, HasLatest;
    if i > 0 {
      HistoryDescends(contents, steps, i - 1);
      var step := steps[i - 1];
      assert Regular(contents[i - 1], step);
      if step.Release? { PrepareDescends(contents[i - 1], step.bump, step.date); }
    }
    if i < |steps| && steps[i].Release? {
      assert Regular(contents[i], steps[i]);
      PrepareDescends(contents[i], steps[i].bump, steps[i].date);
    }
  }
}
