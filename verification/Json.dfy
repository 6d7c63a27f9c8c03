/**
 JSON values as Python holds them, `json.dumps` with its default ASCII escapes, and `json.loads` on the
 texts that it writes (sections 4 to 7 of RFC 8259). A dictionary is its list of items in insertion order.
 */
module Json {
  import opened Overlay
  import opened Text

  /**
   A finite float, named by the parts of its `repr`, which is the text that `json.dumps` writes and which reads
   back as the same float.
   */
  datatype Repr = Repr(negative: bool, whole: string, fraction: string, exponent: string)

  /** `Other` is a value that JSON does not have: bytes, a datetime, an infinity or a NaN. */
  datatype Json =
    | Null
    | Bool(flag: bool)
    | Int(number: int)
    | Float(repr: Repr)
    | Str(text: string)
    | List(items: seq<Json>)
    | Dict(fields: seq<Field>)
    | Other

  datatype Field = Field(key: string, value: Json)

  predicate DistinctKeys(fields: seq<Field>) {
    forall i, j :: 0 <= i < j < |fields| ==> fields[i].key != fields[j].key
  }

  predicate IsDigits(s: string) {
    s != "" && AllDigits(s)
  }

  predicate IsFraction(s: string) {
    s == "" || (s[0] == '.' && IsDigits(s[1..]))
  }

  predicate IsExponent(s: string) {
    s == "" || (|s| > 2 && s[0] == 'e' && (s[1] == '+' || s[1] == '-') && IsDigits(s[2..]))
  }

  /** Written with a positive exponent. */
  predicate IsLarge(f: Repr) {
    |f.exponent| > 2 && f.exponent[1] == '+'
  }

  /**
   The shape of the `repr` of a float. With a positive exponent, which is 16 to 308, one digit other than zero comes
   before the point and at most 16 after it.
   */
  predicate IsRepr(f: Repr) {
    && IsDigits(f.whole) && IsFraction(f.fraction) && IsExponent(f.exponent) && (f.fraction != "" || f.exponent != "")
    && (IsLarge(f) ==> |f.whole| == 1 && f.whole != "0" && |f.fraction| <= 17 && 16 <= DecimalValue(f.exponent[2..]) <= 308)
  }

  /** A Python value made of JSON types only: dictionaries have one item for each key. */
  predicate IsJson(j: Json) {
    match j
    case List(items) => forall i :: 0 <= i < |items| ==> IsJson(items[i])
    case Dict(fields) => DistinctKeys(fields) && forall i :: 0 <= i < |fields| ==> IsJson(fields[i].value)
    case Float(f) => IsRepr(f)
    case Other => false
    case _ => true
  }

  // ---- dumps ----------------------------------------------------------------------------------

  function EscapeUnit(unit: nat): string
    requires unit < 0x1_0000
  {
    "\\u" + Hex(unit, 4)
  }

  /** Outside of space to tilde, and for the quote and the backslash, an escape; else the character. */
  function Escape(c: char): (s: string)
    ensures s != "" && s[0] != '\"'
  {
    var n := c as int;
    if c == '\"' then "\\\""
    else if c == '\\' then "\\\\"
    else if c == '\n' then "\\n"
    else if c == '\r' then "\\r"
    else if c == '\t' then "\\t"
    else if n == 8 then "\\b"
    else if n == 12 then "\\f"
    else if 0x20 <= n <= 0x7e then [c]
    else if n < 0x1_0000 then EscapeUnit(n)
    else EscapeUnit(0xd800 + (n - 0x1_0000) / 0x400) + EscapeUnit(0xdc00 + (n - 0x1_0000) % 0x400)
  }

  function Escapes(text: string): string {
    if text == "" then "" else Escape(text[0]) + Escapes(text[1..])
  }

  function Quote(text: string): string {
    "\"" + Escapes(text) + "\""
  }

  function DumpsInt(n: int): (s: string)
    ensures s != "" && (s[0] == '-' || IsDigit(s[0]))
  {
    if n < 0 then "-" + Decimal(-n) else Decimal(n)
  }

  function DumpsFloat(f: Repr): (s: string)
    requires IsRepr(f)
    ensures s != "" && (s[0] == '-' || IsDigit(s[0]))
  {
    (if f.negative then "-" else "") + f.whole + f.fraction + f.exponent
  }

  function Dumps(j: Json): string
    requires IsJson(j)
    decreases j, 0
  {
    match j
    case Null => "null"
    case Bool(flag) => if flag then "true" else "false"
    case Int(n) => DumpsInt(n)
    case Float(f) => DumpsFloat(f)
    case Str(text) => Quote(text)
    case List(items) => if items == [] then "[]" else "[" + DumpsItems(items)
    case Dict(fields) => if fields == [] then "{}" else "{" + DumpsFields(fields)
  }

  /** The items with their separators and the closing bracket. */
  function DumpsItems(items: seq<Json>): string
    requires items != [] && forall i :: 0 <= i < |items| ==> IsJson(items[i])
    decreases items, 1
  {
    Dumps(items[0]) + if |items| == 1 then "]" else ", " + DumpsItems(items[1..])
  }

  function DumpsField(f: Field): string
    requires IsJson(f.value)
    decreases f, 1
  {
    Quote(f.key) + ": " + Dumps(f.value)
  }

  function DumpsFields(fields: seq<Field>): string
    requires fields != [] && forall i :: 0 <= i < |fields| ==> IsJson(fields[i].value)
    decreases fields, 2
  {
    DumpsField(fields[0]) + if |fields| == 1 then "}" else ", " + DumpsFields(fields[1..])
  }

  // ---- loads ----------------------------------------------------------------------------------

  /** What a parser has read and the text that it has left. */
  datatype Parsed<+T> = Failed | Read(value: T, rest: string)

  /** One UTF-16 code unit after `\u`. */
  function ReadUnit(s: string): Parsed<nat> {
    if |s| >= 4 && AllHex(s[..4]) then Read(HexNumber(s[..4]), s[4..]) else Failed
  }

  /** The code point of an escape; a high surrogate must be followed by a low one. */
  function ReadCodePoint(s: string): (r: Parsed<char>)
    ensures r.Read? ==> |r.rest| < |s|
  {
    var high := ReadUnit(s);
    if high.Failed? || high.value >= 0x1_0000 then Failed
    else if !(0xd800 <= high.value < 0xe000) then Read(high.value as char, high.rest)
    else if high.value >= 0xdc00 || !StartsWith(high.rest, "\\u") then Failed
    else
      var low := ReadUnit(high.rest[2..]);
      if low.Failed? || !(0xdc00 <= low.value < 0xe000) then Failed
      else Read((0x1_0000 + (high.value - 0xd800) * 0x400 + (low.value - 0xdc00)) as char, low.rest)
  }

  function ReadEscaped(s: string): (r: Parsed<char>)
    ensures r.Read? ==> |r.rest| < |s|
  {
    if s == "" then Failed
    else match s[0]
      case '\"' => Read('\"', s[1..])
      case '\\' => Read('\\', s[1..])
      case '/' => Read('/', s[1..])
      case 'b' => Read(8 as char, s[1..])
      case 'f' => Read(12 as char, s[1..])
      case 'n' => Read('\n', s[1..])
      case 'r' => Read('\r', s[1..])
      case 't' => Read('\t', s[1..])
      case 'u' => ReadCodePoint(s[1..])
      case _ => Failed
  }

  function ReadChar(s: string): (r: Parsed<char>)
    ensures r.Read? ==> |r.rest| < |s|
  {
    if s == "" || s[0] == '\"' || s[0] < ' ' then Failed
    else if s[0] == '\\' then ReadEscaped(s[1..])
    else Read(s[0], s[1..])
  }

  /** The characters up to and including the closing quote. */
  function ReadChars(s: string): (r: Parsed<string>)
    ensures r.Read? ==> |r.rest| < |s|
    decreases |s|
  {
    if s != "" && s[0] == '\"' then Read("", s[1..])
    else
      var c := ReadChar(s);
      if c.Failed? then Failed
      else
        var more := ReadChars(c.rest);
        if more.Failed? then Failed else Read([c.value] + more.value, more.rest)
  }

  function ReadString(s: string): (r: Parsed<string>)
    ensures r.Read? ==> |r.rest| < |s|
  {
    if s != "" && s[0] == '\"' then ReadChars(s[1..]) else Failed
  }

  /** The longest run of digits at the front. */
  function Digits(s: string): (d: string)
    ensures AllDigits(d) && |d| <= |s|
  {
    if s == "" || !IsDigit(s[0]) then "" else [s[0]] + Digits(s[1..])
  }

  function ReadFraction(s: string): (f: string)
    ensures |f| <= |s|
  {
    if s != "" && s[0] == '.' && Digits(s[1..]) != "" then "." + Digits(s[1..]) else ""
  }

  function ReadExponent(s: string): (e: string)
    ensures |e| <= |s|
  {
    if |s| > 2 && s[0] == 'e' && (s[1] == '+' || s[1] == '-') && Digits(s[2..]) != "" then s[..2] + Digits(s[2..]) else ""
  }

  /** The number of these parts: an integer unless there is a fraction or an exponent. */
  function NumberOf(f: Repr): Json
    requires AllDigits(f.whole)
  {
    if f.fraction != "" || f.exponent != "" then Float(f)
    else Int(if f.negative then 0 - DecimalValue(f.whole) else DecimalValue(f.whole))
  }

  function ReadUnsigned(s: string, negative: bool): (r: Parsed<Json>)
    ensures r.Read? ==> |r.rest| < |s|
  {
    var whole := Digits(s);
    var fraction := ReadFraction(s[|whole|..]);
    var exponent := ReadExponent(s[|whole|..][|fraction|..]);
    if whole == "" then Failed
    else Read(NumberOf(Repr(negative, whole, fraction, exponent)), s[|whole|..][|fraction|..][|exponent|..])
  }

  function ReadNumber(s: string): (r: Parsed<Json>)
    ensures r.Read? ==> |r.rest| < |s|
  {
    if s != "" && s[0] == '-' then ReadUnsigned(s[1..], true) else ReadUnsigned(s, false)
  }

  function ReadWord(s: string, word: string, value: Json): (r: Parsed<Json>)
    requires word != ""
    ensures r.Read? ==> |r.rest| < |s|
  {
    if StartsWith(s, word) then Read(value, s[|word|..]) else Failed
  }

  function ReadValue(s: string): (r: Parsed<Json>)
    ensures r.Read? ==> |r.rest| < |s|
    decreases |s|, 0
  {
    if s == "" then Failed
    else match s[0]
      case 'n' => ReadWord(s, "null", Null)
      case 't' => ReadWord(s, "true", Bool(true))
      case 'f' => ReadWord(s, "false", Bool(false))
      case '[' => ReadList(s[1..])
      case '{' => ReadDict(s[1..])
      case '\"' =>
        var text := ReadString(s);
        if text.Failed? then Failed else Read(Str(text.value), text.rest)
      case _ => ReadNumber(s)
  }

  function ReadList(s: string): (r: Parsed<Json>)
    ensures r.Read? ==> |r.rest| < |s|
    decreases |s|, 2
  {
    if s != "" && s[0] == ']' then Read(List([]), s[1..])
    else
      var items := ReadItems(s);
      if items.Failed? then Failed else Read(List(items.value), items.rest)
  }

  function ReadDict(s: string): (r: Parsed<Json>)
    ensures r.Read? ==> |r.rest| < |s|
    decreases |s|, 3
  {
    if s != "" && s[0] == '}' then Read(Dict([]), s[1..])
    else
      var fields := ReadFields(s);
      if fields.Failed? then Failed else Read(Dict(fields.value), fields.rest)
  }

  function ReadItems(s: string): (r: Parsed<seq<Json>>)
    ensures r.Read? ==> |r.rest| < |s|
    decreases |s|, 1
  {
    var item := ReadValue(s);
    if item.Failed? then Failed
    else if StartsWith(item.rest, "]") then Read([item.value], item.rest[1..])
    else if !StartsWith(item.rest, ", ") then Failed
    else
      var more := ReadItems(item.rest[2..]);
      if more.Failed? then Failed else Read([item.value] + more.value, more.rest)
  }

  function ReadField(s: string): (r: Parsed<Field>)
    ensures r.Read? ==> |r.rest| < |s|
    decreases |s|, 1
  {
    var key := ReadString(s);
    if key.Failed? || !StartsWith(key.rest, ": ") then Failed
    else
      var value := ReadValue(key.rest[2..]);
      if value.Failed? then Failed else Read(Field(key.value, value.value), value.rest)
  }

  function ReadFields(s: string): (r: Parsed<seq<Field>>)
    ensures r.Read? ==> |r.rest| < |s|
    decreases |s|, 2
  {
    var field := ReadField(s);
    if field.Failed? then Failed
    else if StartsWith(field.rest, "}") then Read([field.value], field.rest[1..])
    else if !StartsWith(field.rest, ", ") then Failed
    else
      var more := ReadFields(field.rest[2..]);
      if more.Failed? then Failed else Read([field.value] + more.value, more.rest)
  }

  /** The whole text is one value. */
  function Loads(s: string): Option<Json> {
    var j := ReadValue(s);
    if j.Read? && j.rest == "" then Some(j.value) else None
  }

  // ---- loads undoes dumps ---------------------------------------------------------------------

  lemma ReadUnitOfHex(unit: nat, tail: string)
    requires unit < 0x1_0000
    ensures ReadUnit(Hex(unit, 4) + tail) == Read(unit, tail)
  {
    assert Pow16(4) == 0x1_0000;
    HexRoundTrip(unit, 4);
    assert (Hex(unit, 4) + tail)[..4] == Hex(unit, 4);
  }

  lemma ReadCodePointOfBmp(c: char, tail: string)
    requires c as int < 0x1_0000
    ensures ReadCodePoint(Hex(c as int, 4) + tail) == Read(c, tail)
  {
    ReadUnitOfHex(c as int, tail);
  }

  lemma ReadCodePointOfPair(c: char, tail: string)
    requires c as int >= 0x1_0000
    ensures var n := c as int - 0x1_0000;
            ReadCodePoint(Hex(0xd800 + n / 0x400, 4) + EscapeUnit(0xdc00 + n % 0x400) + tail) == Read(c, tail)
  {
    var n := c as int - 0x1_0000;
    var high, low := 0xd800 + n / 0x400, 0xdc00 + n % 0x400;
    var rest := EscapeUnit(low) + tail;
    assert Hex(high, 4) + EscapeUnit(low) + tail == Hex(high, 4) + rest;
    ReadUnitOfHex(high, rest);
    assert rest[..2] == "\\u" && rest[2..] == Hex(low, 4) + tail;
    ReadUnitOfHex(low, tail);
  }

  lemma ReadCharOfShort(c: char, letter: char, tail: string)
    requires Escape(c) == ['\\', letter] && ReadEscaped([letter] + tail) == Read(c, ([letter] + tail)[1..])
    ensures ReadChar(Escape(c) + tail) == Read(c, tail)
  {
  }

  lemma AfterPrefix(prefix: string, s: string)
    ensures (prefix + s)[|prefix|..] == s
  {
  }

  lemma ReadCharOfUnicode(c: char, body: string, tail: string)
    requires Escape(c) == "\\u" + body && ReadCodePoint(body + tail) == Read(c, tail)
    ensures ReadChar(Escape(c) + tail) == Read(c, tail)
  {
    hide Escape, ReadCodePoint;
    AfterPrefix("\\", "u" + (body + tail));
    AfterPrefix("u", body + tail);
    assert Escape(c) + tail == "\\" + ("u" + (body + tail));
  }

  lemma ReadCharOfPlain(c: char, tail: string)
    requires 0x20 <= c as int <= 0x7e && c != '\"' && c != '\\'
    ensures Escape(c) == [c] && ReadChar([c] + tail) == Read(c, tail)
  {
    assert ([c] + tail)[1..] == tail;
  }

  predicate Named(c: char) {
    c in {'\"', '\\', '\n', '\r', '\t'} || c as int == 8 || c as int == 12
  }

  lemma ReadCharOfNamed(c: char, tail: string)
    requires Named(c)
    ensures ReadChar(Escape(c) + tail) == Read(c, tail)
  {
    ReadCharOfShort(c, Escape(c)[1], tail);
  }

  lemma ReadCharOfBmp(c: char, tail: string)
    requires c as int < 0x1_0000 && Escape(c) == EscapeUnit(c as int)
    ensures ReadChar(Escape(c) + tail) == Read(c, tail)
  {
    hide ReadChar, ReadCodePoint, Escape, Hex;
    ReadCodePointOfBmp(c, tail);
    ReadCharOfUnicode(c, Hex(c as int, 4), tail);
  }

  lemma ReadCharOfPair(c: char, tail: string)
    requires c as int >= 0x1_0000
    ensures ReadChar(Escape(c) + tail) == Read(c, tail)
  {
    hide ReadChar, ReadCodePoint, Hex;
    var m := c as int - 0x1_0000;
    var high, low := Hex(0xd800 + m / 0x400, 4), EscapeUnit(0xdc00 + m % 0x400);
    ReadCodePointOfPair(c, tail);
    Associative("\\u", high, low);
    ReadCharOfUnicode(c, high + low, tail);
  }

  lemma ReadCharOfEscape(c: char, tail: string)
    ensures ReadChar(Escape(c) + tail) == Read(c, tail)
  {
    hide ReadChar, EscapeUnit;
    if Named(c) {
      ReadCharOfNamed(c, tail);
    } else if 0x20 <= c as int <= 0x7e {
      ReadCharOfPlain(c, tail);
    } else if c as int < 0x1_0000 {
      ReadCharOfBmp(c, tail);
    } else {
      ReadCharOfPair(c, tail);
    }
  }

  lemma {:induction false} ReadCharsOfEscapes(text: string, tail: string)
    ensures ReadChars(Escapes(text) + "\"" + tail) == Read(text, tail)
    decreases |text|
  {
    hide Escape, ReadChar;
    var s := Escapes(text) + "\"" + tail;
    if text == "" {
      assert s[1..] == tail;
    } else {
      var more := Escapes(text[1..]) + "\"" + tail;
      assert s == Escape(text[0]) + more;
      ReadCharOfEscape(text[0], more);
      ReadCharsOfEscapes(text[1..], tail);
      assert [text[0]] + text[1..] == text;
    }
  }

  lemma ReadStringOfQuote(text: string, tail: string)
    ensures ReadString(Quote(text) + tail) == Read(text, tail)
  {
    var s := Quote(text) + tail;
    assert s[1..] == Escapes(text) + "\"" + tail;
    ReadCharsOfEscapes(text, tail);
  }

  /** Digits cannot run on into what follows. */
  predicate NoDigit(tail: string) {
    tail == "" || !IsDigit(tail[0])
  }

  /** A number cannot run on into what follows. */
  predicate Ends(tail: string) {
    tail == "" || !(IsDigit(tail[0]) || tail[0] == '.' || tail[0] == 'e')
  }

  lemma {:induction false} DigitsOf(d: string, tail: string)
    requires AllDigits(d) && NoDigit(tail)
    ensures Digits(d + tail) == d
  {
    if d == "" {
      assert d + tail == tail;
    } else {
      assert (d + tail)[1..] == d[1..] + tail;
      DigitsOf(d[1..], tail);
    }
  }

  lemma FractionOf(f: string, tail: string)
    requires IsFraction(f) && NoDigit(tail) && (f == "" && tail != "" ==> tail[0] != '.')
    ensures ReadFraction(f + tail) == f
  {
    if f == "" {
      assert f + tail == tail;
    } else {
      assert (f + tail)[1..] == f[1..] + tail;
      DigitsOf(f[1..], tail);
    }
  }

  lemma ExponentOf(e: string, tail: string)
    requires IsExponent(e) && Ends(tail)
    ensures ReadExponent(e + tail) == e
  {
    if e == "" {
      assert e + tail == tail;
    } else {
      assert (e + tail)[2..] == e[2..] + tail && (e + tail)[..2] == e[..2];
      DigitsOf(e[2..], tail);
    }
  }

  lemma ReadUnsignedOf(f: Repr, tail: string)
    requires IsDigits(f.whole) && IsFraction(f.fraction) && IsExponent(f.exponent) && Ends(tail)
    ensures ReadUnsigned(f.whole + (f.fraction + (f.exponent + tail)), f.negative) == Read(NumberOf(f), tail)
  {
    hide NumberOf, Digits, ReadFraction, ReadExponent;
    var third := f.exponent + tail;
    var second := f.fraction + third;
    DigitsOf(f.whole, second);
    FractionOf(f.fraction, third);
    ExponentOf(f.exponent, tail);
    AfterPrefix(f.whole, second);
    AfterPrefix(f.fraction, third);
    AfterPrefix(f.exponent, tail);
  }

  lemma ReadNumberOf(f: Repr, tail: string)
    requires IsDigits(f.whole) && IsFraction(f.fraction) && IsExponent(f.exponent) && Ends(tail)
    ensures ReadNumber((if f.negative then "-" else "") + f.whole + f.fraction + f.exponent + tail) == Read(NumberOf(f), tail)
  {
    hide ReadUnsigned, NumberOf, IsFraction, IsExponent, Ends;
    ReadUnsignedOf(f, tail);
    var parts := f.whole + (f.fraction + (f.exponent + tail));
    var text := f.whole + f.fraction + f.exponent + tail;
    assert text == parts && parts[0] == f.whole[0];
    if f.negative {
      assert "-" + f.whole + f.fraction + f.exponent + tail == "-" + parts;
      AfterPrefix("-", parts);
    } else {
      assert "" + f.whole == f.whole;
    }
  }

  lemma ReadNumberOfInt(n: int, tail: string)
    requires Ends(tail)
    ensures ReadNumber(DumpsInt(n) + tail) == Read(Int(n), tail)
  {
    hide ReadNumber, Ends, Decimal;
    var f := Repr(n < 0, Decimal(if n < 0 then -n else n), "", "");
    DecimalRoundTrip(if n < 0 then -n else n);
    ReadNumberOf(f, tail);
    assert (if f.negative then "-" else "") + f.whole + "" + "" == DumpsInt(n);
  }

  /** No text of one kind of value starts like the text of another kind. */
  lemma FirstChar(j: Json)
    requires IsJson(j)
    ensures Dumps(j) != ""
    ensures match j
            case Null => Dumps(j) == "null"
            case Bool(flag) => Dumps(j) == if flag then "true" else "false"
            case Int(_) => Dumps(j)[0] == '-' || IsDigit(Dumps(j)[0])
            case Float(_) => Dumps(j)[0] == '-' || IsDigit(Dumps(j)[0])
            case Str(_) => Dumps(j)[0] == '\"'
            case List(_) => Dumps(j)[0] == '['
            case Dict(_) => Dumps(j)[0] == '{'
  {
  }

  lemma ReadWordOf(word: string, value: Json, tail: string)
    requires word != ""
    ensures ReadWord(word + tail, word, value) == Read(value, tail)
  {
  }

  lemma ReadScalarOfDumps(j: Json, tail: string)
    requires IsJson(j) && Ends(tail) && !j.List? && !j.Dict?
    ensures ReadValue(Dumps(j) + tail) == Read(j, tail)
  {
    hide ReadWord, ReadNumber, ReadString, Quote, Ends;
    FirstChar(j);
    assert (Dumps(j) + tail)[0] == Dumps(j)[0];
    match j {
      case Null => ReadWordOf("null", Null, tail);
      case Bool(flag) => ReadWordOf(if flag then "true" else "false", Bool(flag), tail);
      case Int(n) => ReadNumberOfInt(n, tail);
      case Float(f) => ReadNumberOf(f, tail);
      case Str(text) => ReadStringOfQuote(text, tail);
    }
  }

  lemma DumpsItemsOpens(items: seq<Json>)
    requires items != [] && forall i :: 0 <= i < |items| ==> IsJson(items[i])
    ensures DumpsItems(items) != "" && DumpsItems(items)[0] != ']'
  {
    FirstChar(items[0]);
  }

  lemma ReadListOfText(body: string, items: seq<Json>, tail: string)
    requires body != "" && body[0] != ']' && ReadItems(body) == Read(items, tail)
    ensures ReadValue("[" + body) == Read(List(items), tail)
  {
    hide ReadItems;
    assert ("[" + body)[1..] == body;
  }

  lemma {:induction false} ReadListOfDumps(items: seq<Json>, tail: string)
    requires IsJson(List(items)) && Ends(tail)
    ensures ReadValue(Dumps(List(items)) + tail) == Read(List(items), tail)
    decreases items, 2
  {
    if items == [] {
      assert ("[]" + tail)[1..] == "]" + tail && ("]" + tail)[1..] == tail;
    } else {
      ReadItemsOfDumps(items, tail);
      DumpsItemsOpens(items);
      ReadListOfText(DumpsItems(items) + tail, items, tail);
      assert Dumps(List(items)) + tail == "[" + (DumpsItems(items) + tail);
    }
  }

  lemma DumpsFieldsOpens(fields: seq<Field>)
    requires fields != [] && forall i :: 0 <= i < |fields| ==> IsJson(fields[i].value)
    ensures DumpsFields(fields) != "" && DumpsFields(fields)[0] == '\"'
  {
  }

  lemma ReadDictOfText(body: string, fields: seq<Field>, tail: string)
    requires body != "" && body[0] == '\"' && ReadFields(body) == Read(fields, tail)
    ensures ReadValue("{" + body) == Read(Dict(fields), tail)
  {
  }

  lemma {:induction false} ReadDictOfDumps(fields: seq<Field>, tail: string)
    requires IsJson(Dict(fields)) && Ends(tail)
    ensures ReadValue(Dumps(Dict(fields)) + tail) == Read(Dict(fields), tail)
    decreases fields, 3
  {
    if fields == [] {
      assert ("{}" + tail)[1..] == "}" + tail && ("}" + tail)[1..] == tail;
    } else {
      ReadFieldsOfDumps(fields, tail);
      DumpsFieldsOpens(fields);
      ReadDictOfText(DumpsFields(fields) + tail, fields, tail);
      assert Dumps(Dict(fields)) + tail == "{" + (DumpsFields(fields) + tail);
    }
  }

  lemma {:induction false} ReadValueOfDumps(j: Json, tail: string)
    requires IsJson(j) && Ends(tail)
    ensures ReadValue(Dumps(j) + tail) == Read(j, tail)
    decreases j, 0
  {
    match j {
      case List(items) => ReadListOfDumps(items, tail);
      case Dict(fields) => ReadDictOfDumps(fields, tail);
      case _ => ReadScalarOfDumps(j, tail);
    }
  }

  lemma ReadLastItem(s: string, j: Json, tail: string)
    requires ReadValue(s) == Read(j, "]" + tail)
    ensures ReadItems(s) == Read([j], tail)
  {
  }

  lemma ReadMoreItems(s: string, j: Json, more: string, items: seq<Json>, tail: string)
    requires ReadValue(s) == Read(j, ", " + more) && ReadItems(more) == Read(items, tail)
    ensures ReadItems(s) == Read([j] + items, tail)
  {
    var rest := ", " + more;
    assert rest[..2] == ", " && rest[2..] == more && rest[..1] == ",";
  }

  lemma {:induction false} ReadItemsOfDumps(items: seq<Json>, tail: string)
    requires items != [] && forall i :: 0 <= i < |items| ==> IsJson(items[i])
    ensures ReadItems(DumpsItems(items) + tail) == Read(items, tail)
    decreases items, 1
  {
    var j := items[0];
    if |items| == 1 {
      ReadValueOfDumps(j, "]" + tail);
      ReadLastItem(Dumps(j) + ("]" + tail), j, tail);
      Associative(Dumps(j), "]", tail);
      assert [j] == items;
    } else {
      var rest := DumpsItems(items[1..]);
      ReadValueOfDumps(j, ", " + (rest + tail));
      ReadItemsOfDumps(items[1..], tail);
      ReadMoreItems(Dumps(j) + (", " + (rest + tail)), j, rest + tail, items[1..], tail);
      Associative(", ", rest, tail);
      Associative(Dumps(j), ", " + rest, tail);
      assert [j] + items[1..] == items;
    }
  }

  lemma {:induction false} ReadFieldOfDumps(f: Field, tail: string)
    requires IsJson(f.value) && Ends(tail)
    ensures ReadField(DumpsField(f) + tail) == Read(f, tail)
    decreases f, 1
  {
    var value := Dumps(f.value) + tail;
    var rest := ": " + value;
    ReadStringOfQuote(f.key, rest);
    assert rest[..2] == ": " && rest[2..] == value;
    ReadValueOfDumps(f.value, tail);
    Associative(Quote(f.key), ": ", value);
    Associative(Quote(f.key) + ": ", Dumps(f.value), tail);
  }

  lemma ReadLastField(s: string, f: Field, tail: string)
    requires ReadField(s) == Read(f, "}" + tail)
    ensures ReadFields(s) == Read([f], tail)
  {
  }

  lemma ReadMoreFields(s: string, f: Field, more: string, fields: seq<Field>, tail: string)
    requires ReadField(s) == Read(f, ", " + more) && ReadFields(more) == Read(fields, tail)
    ensures ReadFields(s) == Read([f] + fields, tail)
  {
    var rest := ", " + more;
    assert rest[..2] == ", " && rest[2..] == more && rest[..1] == ",";
  }

  lemma {:induction false} ReadFieldsOfDumps(fields: seq<Field>, tail: string)
    requires fields != [] && forall i :: 0 <= i < |fields| ==> IsJson(fields[i].value)
    ensures ReadFields(DumpsFields(fields) + tail) == Read(fields, tail)
    decreases fields, 2
  {
    var f := fields[0];
    if |fields| == 1 {
      ReadFieldOfDumps(f, "}" + tail);
      ReadLastField(DumpsField(f) + ("}" + tail), f, tail);
      Associative(DumpsField(f), "}", tail);
      assert [f] == fields;
    } else {
      var rest := DumpsFields(fields[1..]);
      ReadFieldOfDumps(f, ", " + (rest + tail));
      ReadFieldsOfDumps(fields[1..], tail);
      ReadMoreFields(DumpsField(f) + (", " + (rest + tail)), f, rest + tail, fields[1..], tail);
      Associative(", ", rest, tail);
      Associative(DumpsField(f), ", " + rest, tail);
      assert [f] + fields[1..] == fields;
    }
  }

  /** Reading back what was written gives the same value, with its items in the same order. */
  lemma LoadsUndoesDumps(j: Json)
    requires IsJson(j)
    ensures Loads(Dumps(j)) == Some(j)
  {
    assert Dumps(j) + "" == Dumps(j);
    ReadValueOfDumps(j, "");
  }
}
