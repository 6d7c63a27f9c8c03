/**
 Release notes: a release turns the Latest Changes text into a new section, and a section's body can be
 extracted again. Headings are found in the text exactly where the regular expressions match.
 */
module ReleaseNotes {
  import opened Overlay
  import opened Text

  const TITLE := "# Release Notes"
  const LATEST := "## Latest Changes"

  /** `"# Release Notes\n\n## Latest Changes\n"`. */
  function LatestHeader(): string {
    TITLE + "\n" + "\n" + LATEST + "\n"
  }

  datatype Error = InvalidVersion | NoVersion | BadStart | Duplicate | NotGreater | EmptyLatest | NoSection | EmptySection

  datatype Bump = Major | Minor | Patch

  // ---- versions -------------------------------------------------------------------------------

  /** How many digits the text begins with. */
  function Digits(s: string): (n: nat)
    ensures n <= |s| && AllDigits(s[..n]) && (n < |s| ==> !IsDigit(s[n]))
  {
    if s == "" || !IsDigit(s[0]) then 0
    else
      var n := 1 + Digits(s[1..]);
      assert s[..n] == [s[0]] + s[1..][..n - 1];
      n
  }

  datatype Version = Version(major: nat, minor: nat, patch: nat)

  datatype Number = Number(value: nat, rest: string)

  /** `\d+` at the beginning of the text, and what follows. */
  function ReadNumber(s: string): (r: Option<Number>)
    ensures r.Some? ==> |r.value.rest| < |s| && IsDigit(s[0])
  {
    var n := Digits(s);
    if n == 0 then None else Some(Number(DecimalValue(s[..n]), s[n..]))
  }

  function ReadAfterDot(s: string): (r: Option<Number>)
    ensures r.Some? ==> |r.value.rest| + 2 <= |s|
  {
    if s != "" && s[0] == '.' then ReadNumber(s[1..]) else None
  }

  /** `\d+\.\d+\.\d+` at the beginning of the text: the numbers and how long the match is. */
  function ReadVersion(s: string): (r: Option<(Version, nat)>)
    ensures r.Some? ==> 5 <= r.value.1 <= |s| && IsDigit(s[0])
  {
    match ReadNumber(s)
    case None => None
    case Some(x) =>
      match ReadAfterDot(x.rest)
      case None => None
      case Some(y) =>
        match ReadAfterDot(y.rest)
        case None => None
        case Some(z) => Some((Version(x.value, y.value, z.value), |s| - |z.rest|))
  }

  function ParseVersion(s: string): Result<Version, Error> {
    var r := ReadVersion(s);
    if r.Some? && r.value.1 == |s| then Ok(r.value.0) else Err(InvalidVersion)
  }

  function Dotted(a: string, b: string, c: string): string {
    a + "." + b + "." + c
  }

  function Format(v: Version): string {
    Dotted(Decimal(v.major), Decimal(v.minor), Decimal(v.patch))
  }

  /** Tuples compare lexicographically. */
  predicate Below(v: Version, w: Version) {
    v.major < w.major || (v.major == w.major && (v.minor < w.minor || (v.minor == w.minor && v.patch < w.patch)))
  }

  function Bumped(v: Version, bump: Bump): Version {
    match bump
    case Major => Version(v.major + 1, 0, 0)
    case Minor => Version(v.major, v.minor + 1, 0)
    case Patch => Version(v.major, v.minor, v.patch + 1)
  }

  function BumpVersion(version: string, bump: Bump): Result<string, Error> {
    match ParseVersion(version)
    case Ok(v) => Ok(Format(Bumped(v, bump)))
    case Err(e) => Err(e)
  }

  // ---- headings -------------------------------------------------------------------------------

  /** A heading of any version, or of the one given. */
  datatype Pattern = Any | Only(version: string)

  function ParenIndex(s: string): (n: nat)
    ensures n <= |s| && (forall i :: 0 <= i < n ==> s[i] != ')') && (n < |s| ==> s[n] == ')')
  {
    if s == "" || s[0] == ')' then 0 else 1 + ParenIndex(s[1..])
  }

  predicate LineEnds(s: string) {
    s == "" || s[0] == '\n'
  }

  /** `(?: \([^)]+\))?$`: how long the match is; the parenthesis may span lines. */
  function Tail(s: string): (r: Option<nat>)
    ensures r.Some? ==> r.value <= |s| && LineEnds(s[r.value..]) && (s == "" || s[0] == '\n' || s[0] == ' ')
  {
    if LineEnds(s) then Some(0)
    else if StartsWith(s, " (") then
      var n := ParenIndex(s[2..]);
      if 0 < n && n + 2 < |s| && LineEnds(s[n + 3..]) then Some(n + 3) else None
    else None
  }

  function VersionLength(s: string, pattern: Pattern): (r: Option<nat>)
    ensures r.Some? ==> r.value <= |s|
  {
    match pattern
    case Any => (match ReadVersion(s) case Some(v) => Some(v.1) case None => None)
    case Only(version) => if StartsWith(s, version) then Some(|version|) else None
  }

  /** Length of the heading that the text begins with. */
  function Heading(s: string, pattern: Pattern): (r: Option<nat>)
    ensures r.Some? ==> 3 <= r.value <= |s|
  {
    if !StartsWith(s, "## ") then None
    else
      match VersionLength(s[3..], pattern)
      case None => None
      case Some(k) =>
        match Tail(s[3 + k..])
        case None => None
        case Some(n) => Some(3 + k + n)
  }

  predicate LineStart(content: string, p: nat)
    requires p <= |content|
  {
    p == 0 || content[p - 1] == '\n'
  }

  function HeadingAt(content: string, p: nat, pattern: Pattern): (r: Option<nat>)
    requires p <= |content|
    ensures r.Some? ==> 3 <= r.value && p + r.value <= |content|
  {
    if LineStart(content, p) then Heading(content[p..], pattern) else None
  }

  /** `pattern.search(content, from)`: where the first match begins. */
  function Search(content: string, from: nat, pattern: Pattern): (r: Option<nat>)
    requires from <= |content|
    ensures r.Some? ==> from <= r.value < |content| && HeadingAt(content, r.value, pattern).Some?
    ensures forall p :: from <= p < (if r.Some? then r.value else |content|) ==> HeadingAt(content, p, pattern).None?
    decreases |content| - from
  {
    if from == |content| then None
    else if HeadingAt(content, from, pattern).Some? then Some(from)
    else Search(content, from + 1, pattern)
  }

  function FrontVersion(s: string): string
    requires ReadVersion(s).Some?
  {
    s[..ReadVersion(s).value.1]
  }

  /** The text of the version of the heading that begins there. */
  function VersionAt(content: string, p: nat): string
    requires p <= |content| && HeadingAt(content, p, Any).Some?
  {
    FrontVersion(content[p + 3..])
  }

  // ---- the commands ---------------------------------------------------------------------------

  /** `text.strip()`. */
  function Trimmed(text: string): string {
    Strip(text, IsSpace)
  }

  function CurrentVersion(content: string): Result<string, Error> {
    match Search(content, 0, Any)
    case None => Err(NoVersion)
    case Some(p) => Ok(VersionAt(content, p))
  }

  predicate IsDate(date: string) {
    |date| == 10 && forall i :: 0 <= i < 10 ==> IsDigit(date[i]) || date[i] == '-'
  }

  function ReleaseHeader(version: string, date: string): string {
    "## " + version + " (" + date + ")"
  }

  function Released(version: string, date: string): string {
    TITLE + "\n" + "\n" + LATEST + "\n" + "\n" + ReleaseHeader(version, date) + "\n"
  }

  function UpdateNotes(content: string, version: string, date: string): Result<string, Error> {
    if !StartsWith(content, LatestHeader()) then Err(BadStart)
    else if Search(content, 0, Only(version)).Some? then Err(Duplicate)
    else
      match Search(content, 0, Any)
      case None => Err(NoVersion)
      case Some(p) =>
        match ParseVersion(version)
        case Err(e) => Err(e)
        case Ok(v) =>
          match ParseVersion(VersionAt(content, p))
          case Err(e) => Err(e)
          case Ok(current) =>
            if !Below(current, v) then Err(NotGreater)
            else
              var h := |LatestHeader()|;
              if h >= p || Trimmed(content[h..p]) == "" then Err(EmptyLatest)
              else Ok(Released(version, date) + content[h..])
  }

  function Body(content: string, version: string): Result<string, Error> {
    match Search(content, 0, Only(version))
    case None => Err(NoSection)
    case Some(p) =>
      var begin := p + HeadingAt(content, p, Only(version)).value;
      var end := match Search(content, begin, Any) case Some(q) => q case None => |content|;
      var body := Trimmed(content[begin..end]);
      if body == "" then Err(EmptySection) else Ok(body + "\n")
  }

  function Prepare(content: string, bump: Bump, date: string): Result<(string, string), Error> {
    match CurrentVersion(content)
    case Err(e) => Err(e)
    case Ok(current) =>
      match BumpVersion(current, bump)
      case Err(e) => Err(e)
      case Ok(version) =>
        match UpdateNotes(content, version, date)
        case Err(e) => Err(e)
        case Ok(next) => Ok((version, next))
  }

  // ---- versions read back what was written ----------------------------------------------------

  lemma {:induction false} DigitsThen(s: string, rest: string)
    requires AllDigits(s) && (rest == "" || !IsDigit(rest[0]))
    ensures Digits(s + rest) == |s|
  {
    if s == "" {
      assert s + rest == rest;
    } else {
      DigitsThen(s[1..], rest);
      assert (s + rest)[1..] == s[1..] + rest;
    }
  }

  lemma Nested(a: string, b: string, c: string, rest: string)
    ensures Dotted(a, b, c) + rest == a + ("." + (b + ("." + (c + rest))))
    ensures |Dotted(a, b, c)| == |a| + |b| + |c| + 2
  {
  }

  predicate Numeral(a: string) {
    AllDigits(a) && a != ""
  }

  predicate NoDigit(rest: string) {
    rest == "" || !IsDigit(rest[0])
  }

  lemma NumberWritten(a: string, rest: string)
    requires Numeral(a) && NoDigit(rest)
    ensures ReadNumber(a + rest) == Some(Number(DecimalValue(a), rest))
  {
    DigitsThen(a, rest);
    assert (a + rest)[..|a|] == a && (a + rest)[|a|..] == rest;
  }

  lemma AfterDotWritten(a: string, rest: string)
    requires Numeral(a) && NoDigit(rest)
    ensures ReadAfterDot("." + (a + rest)) == Some(Number(DecimalValue(a), rest))
  {
    NumberWritten(a, rest);
    assert ("." + (a + rest))[1..] == a + rest;
  }

  /** Written numbers are read to their end, whatever follows that is not a digit. */
  lemma ReadWritten(a: string, b: string, c: string, rest: string)
    requires Numeral(a) && Numeral(b) && Numeral(c) && NoDigit(rest)
    ensures ReadVersion(Dotted(a, b, c) + rest) ==
            Some((Version(DecimalValue(a), DecimalValue(b), DecimalValue(c)), |a| + |b| + |c| + 2))
  {
    hide DecimalValue, Dotted, ReadNumber, ReadAfterDot;
    Nested(a, b, c, rest);
    NumberWritten(a, "." + (b + ("." + (c + rest))));
    AfterDotWritten(b, "." + (c + rest));
    AfterDotWritten(c, rest);
  }

  lemma NumberParts(s: string) returns (a: string)
    requires ReadNumber(s).Some?
    ensures Numeral(a) && NoDigit(ReadNumber(s).value.rest) && s == a + ReadNumber(s).value.rest
  {
    a := s[..Digits(s)];
  }

  lemma AfterDotParts(s: string) returns (a: string)
    requires ReadAfterDot(s).Some?
    ensures Numeral(a) && NoDigit(ReadAfterDot(s).value.rest) && s == "." + (a + ReadAfterDot(s).value.rest)
  {
    a := NumberParts(s[1..]);
    assert s == "." + s[1..];
  }

  /** A version read from the front of a text is its three numerals, and they end where no digit follows. */
  lemma ReadParts(s: string) returns (a: string, b: string, c: string, rest: string)
    requires ReadVersion(s).Some?
    ensures Numeral(a) && Numeral(b) && Numeral(c) && NoDigit(rest)
    ensures s == Dotted(a, b, c) + rest && ReadVersion(s).value.1 == |a| + |b| + |c| + 2
  {
    hide DecimalValue, Dotted, ReadNumber, ReadAfterDot;
    var x := ReadNumber(s).value;
    var y := ReadAfterDot(x.rest).value;
    rest := ReadAfterDot(y.rest).value.rest;
    a := NumberParts(s);
    b := AfterDotParts(x.rest);
    c := AfterDotParts(y.rest);
    Nested(a, b, c, rest);
  }

  /** Reading stops at the end of a valid version unless a digit follows. */
  lemma ReadThen(version: string, rest: string)
    requires ParseVersion(version).Ok? && NoDigit(rest)
    ensures ReadVersion(version + rest) == Some((ParseVersion(version).value, |version|))
  {
    hide Dotted;
    var a, b, c, none := ReadParts(version);
    Nested(a, b, c, none);
    assert none == "" && Dotted(a, b, c) + none == Dotted(a, b, c);
    ReadWritten(a, b, c, none);
    ReadWritten(a, b, c, rest);
  }

  /** What is read is a valid version with the same numbers. */
  lemma ReadIsVersion(s: string)
    requires ReadVersion(s).Some?
    ensures ParseVersion(s[..ReadVersion(s).value.1]) == Ok(ReadVersion(s).value.0)
  {
    hide Dotted;
    var a, b, c, rest := ReadParts(s);
    Nested(a, b, c, rest);
    ReadWritten(a, b, c, "");
    ReadWritten(a, b, c, rest);
    assert Dotted(a, b, c) + "" == Dotted(a, b, c) == s[..|Dotted(a, b, c)|];
  }

  lemma FormatParses(v: Version)
    ensures ParseVersion(Format(v)) == Ok(v)
  {
    hide ReadVersion;
    ReadWritten(Decimal(v.major), Decimal(v.minor), Decimal(v.patch), "");
    Nested(Decimal(v.major), Decimal(v.minor), Decimal(v.patch), "");
    assert Format(v) + "" == Format(v);
    DecimalRoundTrip(v.major);
    DecimalRoundTrip(v.minor);
    DecimalRoundTrip(v.patch);
  }
}
