/** What a dispatch may carry (`validate_dispatch_payload`) and when two payloads are the same. */
module Payload {
  import opened Overlay
  import opened Text
  import opened Json

  // ---- equality of payloads -------------------------------------------------------------------

  function IndexOf(fields: seq<Field>, key: string): (i: nat)
    ensures i < |fields| ==> fields[i].key == key
    ensures i >= |fields| ==> forall j :: 0 <= j < |fields| ==> fields[j].key != key
  {
    if fields == [] then 0 else if fields[0].key == key then 0 else 1 + IndexOf(fields[1..], key)
  }

  /** The same JSON value up to key order: dictionaries are the same whatever the order of their items. */
  predicate Same(a: Json, b: Json)
    decreases a
  {
    match (a, b)
    case (List(xs), List(ys)) => |xs| == |ys| && forall i :: 0 <= i < |xs| ==> Same(xs[i], ys[i])
    case (Dict(fs), Dict(gs)) =>
      |fs| == |gs| && forall i :: 0 <= i < |fs| ==>
        var j := IndexOf(gs, fs[i].key); j < |gs| && Same(fs[i].value, gs[j].value)
    case (_, _) => a == b
  }

  predicate KeysAscend(fields: seq<Field>) {
    forall i, j :: 0 <= i < j < |fields| ==> Less(fields[i].key, fields[j].key)
  }

  function Insert(f: Field, fields: seq<Field>): seq<Field> {
    if fields == [] || Less(f.key, fields[0].key) then [f] + fields else [fields[0]] + Insert(f, fields[1..])
  }

  /** `sorted(items)`: the keys of one dictionary are distinct, so they alone decide. */
  function SortFields(fields: seq<Field>): seq<Field> {
    if fields == [] then [] else Insert(fields[0], SortFields(fields[1..]))
  }

  /** The value as `json.dumps(..., sort_keys=True)` walks it. */
  function SortKeys(j: Json): Json
    decreases j, 0
  {
    match j
    case List(items) => List(seq(|items|, i requires 0 <= i < |items| => SortKeys(items[i])))
    case Dict(fields) =>
      Dict(SortFields(Inner(fields)))
    case _ => j
  }

  /** The items with their values sorted inside. */
  function Inner(fields: seq<Field>): seq<Field>
    decreases fields, 1
  {
    seq(|fields|, i requires 0 <= i < |fields| => Field(fields[i].key, SortKeys(fields[i].value)))
  }

  /** `json.dumps(payload, sort_keys=True)`. */
  function SortedDumps(j: Json): string
    requires IsJson(j)
  {
    SortKeysIsJson(j);
    Dumps(SortKeys(j))
  }

  lemma {:induction false} InsertElements(f: Field, fields: seq<Field>)
    ensures Elements(Insert(f, fields)) == {f} + Elements(fields)
  {
    ConsElements(f, fields);
    if fields != [] {
      assert fields == [fields[0]] + fields[1..];
      InsertElements(f, fields[1..]);
      ConsElements(fields[0], fields[1..]);
      ConsElements(fields[0], Insert(f, fields[1..]));
    }
  }

  lemma ConsElements(f: Field, fields: seq<Field>)
    ensures Elements([f] + fields) == {f} + Elements(fields)
  {
  }

  lemma {:induction false} InsertAscends(f: Field, fields: seq<Field>)
    requires KeysAscend(fields) && forall i :: 0 <= i < |fields| ==> fields[i].key != f.key
    ensures KeysAscend(Insert(f, fields))
  {
    if fields != [] {
      LessTotal(f.key, fields[0].key);
      if Less(f.key, fields[0].key) {
        forall i | 0 < i < |fields|
          ensures Less(f.key, fields[i].key)
        {
          LessTransitive(f.key, fields[0].key, fields[i].key);
        }
      } else {
        InsertAscends(f, fields[1..]);
        InsertElements(f, fields[1..]);
        var more := Insert(f, fields[1..]);
        forall i | 0 <= i < |more|
          ensures Less(fields[0].key, more[i].key)
        {
          assert more[i] in Elements(more);
        }
      }
    }
  }

  lemma {:induction false} SortFieldsSorts(fields: seq<Field>)
    requires DistinctKeys(fields)
    ensures Elements(SortFields(fields)) == Elements(fields) && KeysAscend(SortFields(fields))
  {
    if fields != [] {
      var f, more := fields[0], SortFields(fields[1..]);
      assert fields == [f] + fields[1..];
      SortFieldsSorts(fields[1..]);
      InsertElements(f, more);
      forall i | 0 <= i < |more|
        ensures more[i].key != f.key
      {
        assert more[i] in Elements(more);
      }
      InsertAscends(f, more);
    }
  }

  lemma {:induction false} SortKeysIsJson(j: Json)
    requires IsJson(j)
    ensures IsJson(SortKeys(j))
    decreases j
  {
    match j {
      case List(items) =>
        forall i | 0 <= i < |items| ensures IsJson(SortKeys(items[i])) { SortKeysIsJson(items[i]); }
      case Dict(fields) =>
        var fs := Inner(fields);
        forall i | 0 <= i < |fields| ensures IsJson(fs[i].value) { SortKeysIsJson(fields[i].value); }
        SortFieldsSorts(fs);
        AscendingDistinct(SortFields(fs));
        forall i | 0 <= i < |SortFields(fs)|
          ensures IsJson(SortFields(fs)[i].value)
        {
          assert SortFields(fs)[i] in Elements(SortFields(fs));
        }
      case _ =>
    }
  }

  lemma AscendingDistinct(fields: seq<Field>)
    requires KeysAscend(fields)
    ensures DistinctKeys(fields)
  {
    forall i, j | 0 <= i < j < |fields|
      ensures fields[i].key != fields[j].key
    {
      LessTotal(fields[i].key, fields[j].key);
    }
  }

  /** Ascending lists with the same elements are the same list. */
  lemma {:induction false} AscendingUnique(fs: seq<Field>, gs: seq<Field>)
    requires KeysAscend(fs) && KeysAscend(gs) && Elements(fs) == Elements(gs)
    ensures fs == gs
  {
    SameEmptiness(fs, gs);
    if fs != [] {
      AscendingFirst(fs, gs);
      AscendingFirst(gs, fs);
      LessTotal(fs[0].key, gs[0].key);
      AscendingRest(fs);
      AscendingRest(gs);
      AscendingUnique(fs[1..], gs[1..]);
      assert fs == [fs[0]] + fs[1..] && gs == [gs[0]] + gs[1..];
    }
  }

  lemma AscendingFirst(fs: seq<Field>, gs: seq<Field>)
    requires fs != [] && gs != [] && KeysAscend(fs) && Elements(fs) == Elements(gs)
    ensures fs[0] == gs[0] || Less(fs[0].key, gs[0].key)
  {
    assert gs[0] in Elements(gs);
    var i :| 0 <= i < |fs| && fs[i] == gs[0];
  }

  lemma AscendingRest(fs: seq<Field>)
    requires fs != [] && KeysAscend(fs)
    ensures Elements(fs[1..]) == Elements(fs) - {fs[0]}
  {
    AscendingDistinct(fs);
    assert fs == [fs[0]] + fs[1..];
  }

  lemma {:induction false} DistinctCount(fields: seq<Field>)
    requires DistinctKeys(fields)
    ensures |Elements(fields)| == |fields|
  {
    if fields != [] {
      DistinctCount(fields[1..]);
      assert fields == [fields[0]] + fields[1..];
      assert Elements(fields) == {fields[0]} + Elements(fields[1..]);
    }
  }

  /** A dictionary that holds all items of another one with as many items holds no more. */
  lemma ContainedEqual(fs: seq<Field>, gs: seq<Field>)
    requires DistinctKeys(fs) && DistinctKeys(gs) && |fs| == |gs|
    requires Elements(fs) <= Elements(gs)
    ensures Elements(fs) == Elements(gs)
  {
    DistinctCount(fs);
    DistinctCount(gs);
    assert |Elements(gs) - Elements(fs)| == |Elements(gs)| - |Elements(fs)|;
  }

  lemma {:induction false} IndexOfKey(fields: seq<Field>, j: nat)
    requires DistinctKeys(fields) && j < |fields|
    ensures IndexOf(fields, fields[j].key) == j
  {
  }

  lemma {:induction false} SameDict(fs: seq<Field>, gs: seq<Field>)
    requires IsJson(Dict(fs)) && IsJson(Dict(gs))
    ensures Elements(Inner(fs)) == Elements(Inner(gs)) <==> Same(Dict(fs), Dict(gs))
    decreases fs, 0
  {
    var xs, ys := Inner(fs), Inner(gs);
    if Elements(xs) == Elements(ys) {
      DistinctCount(xs);
      DistinctCount(ys);
      forall i | 0 <= i < |fs|
        ensures var j := IndexOf(gs, fs[i].key); j < |gs| && Same(fs[i].value, gs[j].value)
      {
        assert xs[i] in Elements(xs);
        var j :| 0 <= j < |ys| && ys[j] == xs[i];
        IndexOfKey(gs, j);
        SortKeysSame(fs[i].value, gs[j].value);
      }
    }
    if Same(Dict(fs), Dict(gs)) {
      forall i | 0 <= i < |fs|
        ensures xs[i] in Elements(ys)
      {
        var j := IndexOf(gs, fs[i].key);
        SortKeysSame(fs[i].value, gs[j].value);
        assert ys[j] == xs[i];
      }
      ContainedEqual(xs, ys);
    }
  }

  /** Sorting keys is a canonical form for equality. */
  lemma {:induction false} SortKeysSame(a: Json, b: Json)
    requires IsJson(a) && IsJson(b)
    ensures SortKeys(a) == SortKeys(b) <==> Same(a, b)
    decreases a, 1
  {
    match (a, b) {
      case (List(xs), List(ys)) =>
        var us, vs := SortKeys(a).items, SortKeys(b).items;
        forall i | 0 <= i < |xs| && |xs| == |ys|
          ensures us[i] == vs[i] <==> Same(xs[i], ys[i])
        {
          SortKeysSame(xs[i], ys[i]);
        }
      case (Dict(fs), Dict(gs)) =>
        SameDict(fs, gs);
        SortFieldsSorts(Inner(fs));
        SortFieldsSorts(Inner(gs));
        if Elements(Inner(fs)) == Elements(Inner(gs)) {
          AscendingUnique(SortFields(Inner(fs)), SortFields(Inner(gs)));
        }
      case (_, _) =>
    }
  }

  /**
   The text comparison of the conflict test decides equality of payloads: the texts with sorted keys are
   equal exactly when the values are, whatever the order of their items.
   */
  lemma SortedDumpsDecide(a: Json, b: Json)
    requires IsJson(a) && IsJson(b)
    ensures SortedDumps(a) == SortedDumps(b) <==> Same(a, b)
  {
    SortKeysSame(a, b);
    SortKeysIsJson(a);
    SortKeysIsJson(b);
    LoadsUndoesDumps(SortKeys(a));
    LoadsUndoesDumps(SortKeys(b));
  }

  lemma SameReflexive(j: Json)
    requires IsJson(j)
    ensures Same(j, j)
  {
  }

  // ---- what the jsonb column keeps ------------------------------------------------------------

  predicate AllZeros(s: string) {
    forall i :: 0 <= i < |s| ==> s[i] == '0' || s[i] == '.'
  }

  predicate IsNegativeZero(f: Repr) {
    f.negative && f.exponent == "" && AllZeros(f.whole) && AllZeros(f.fraction)
  }

  /** The digits of a large float, which is an integer, with zeros in place of the exponent. */
  function IntegerOf(f: Repr): nat
    requires IsRepr(f) && IsLarge(f)
  {
    var fraction := if f.fraction == "" then "" else f.fraction[1..];
    DecimalValue(f.whole + fraction) * Pow10(DecimalValue(f.exponent[2..]) - |fraction|)
  }

  /** The column keeps numbers as decimals without exponents, and zero without a sign. */
  function StoredFloat(f: Repr): Json {
    if IsRepr(f) && IsLarge(f) then Int(if f.negative then 0 - IntegerOf(f) else IntegerOf(f))
    else if IsNegativeZero(f) then Float(f.(negative := false))
    else Float(f)
  }

  /** The value as it is read back from the column, up to key order. */
  function Stored(j: Json): Json
    decreases j
  {
    match j
    case Float(f) => StoredFloat(f)
    case List(items) => List(seq(|items|, i requires 0 <= i < |items| => Stored(items[i])))
    case Dict(fields) =>
      Dict(seq(|fields|, i requires 0 <= i < |fields| => Field(fields[i].key, Stored(fields[i].value))))
    case _ => j
  }

  /** Neither a float of `1e16` or more in magnitude nor a negative zero is in it. */
  predicate Lasting(j: Json)
    decreases j
  {
    match j
    case Float(f) => !IsLarge(f) && !IsNegativeZero(f)
    case List(items) => forall i :: 0 <= i < |items| ==> Lasting(items[i])
    case Dict(fields) => forall i :: 0 <= i < |fields| ==> Lasting(fields[i].value)
    case _ => true
  }

  predicate IsStored(j: Json) {
    IsJson(j) && Lasting(j)
  }

  lemma {:induction false} StoredIsStored(j: Json)
    requires IsJson(j)
    ensures IsStored(Stored(j))
    decreases j
  {
    match j {
      case List(items) =>
        forall i | 0 <= i < |items| ensures IsStored(Stored(items[i])) { StoredIsStored(items[i]); }
      case Dict(fields) =>
        forall i | 0 <= i < |fields| ensures IsStored(Stored(fields[i].value)) { StoredIsStored(fields[i].value); }
      case _ =>
    }
  }

  lemma {:induction false} LastingStored(j: Json)
    requires IsStored(j)
    ensures Stored(j) == j
    decreases j
  {
    match j {
      case List(items) =>
        forall i | 0 <= i < |items| ensures Stored(items[i]) == items[i] { LastingStored(items[i]); }
      case Dict(fields) =>
        forall i | 0 <= i < |fields|
          ensures Field(fields[i].key, Stored(fields[i].value)) == fields[i]
        {
          LastingStored(fields[i].value);
        }
      case _ =>
    }
  }

  /** Equal payloads last together. */
  lemma {:induction false} SameLasting(a: Json, b: Json)
    requires IsJson(a) && IsJson(b) && Same(a, b) && Lasting(a)
    ensures Lasting(b)
    decreases a
  {
    match (a, b) {
      case (List(xs), List(ys)) =>
        forall i | 0 <= i < |ys| ensures Lasting(ys[i]) { SameLasting(xs[i], ys[i]); }
      case (Dict(fs), Dict(gs)) =>
        forall j | 0 <= j < |gs|
          ensures Lasting(gs[j].value)
        {
          var i := ItemOf(fs, gs, j);
          SameLasting(fs[i].value, gs[j].value);
        }
      case (_, _) =>
    }
  }

  /** In equal dictionaries every item of the second one is the partner of an item of the first one. */
  lemma ItemOf(fs: seq<Field>, gs: seq<Field>, j: nat) returns (i: nat)
    requires IsJson(Dict(fs)) && IsJson(Dict(gs)) && Same(Dict(fs), Dict(gs)) && j < |gs|
    ensures i < |fs| && fs[i].key == gs[j].key && Same(fs[i].value, gs[j].value)
  {
    SameDict(fs, gs);
    var xs, ys := Inner(fs), Inner(gs);
    assert ys[j] in Elements(xs);
    i :| 0 <= i < |xs| && xs[i] == ys[j];
    SortKeysSame(fs[i].value, gs[j].value);
  }

  /** A stored payload that came from this one matches it again exactly if it lasts. */
  lemma StoredMatches(stored: Json, payload: Json)
    requires IsStored(stored) && IsJson(payload) && Same(stored, Stored(payload))
    ensures Same(stored, payload) <==> Lasting(payload)
  {
    hide Same, Lasting, Stored;
    if Same(stored, payload) { LastingSame(stored, payload); }
    if Lasting(payload) { LastingStored(payload); }
  }

  lemma LastingSame(stored: Json, payload: Json)
    requires IsStored(stored) && IsJson(payload) && Same(stored, payload)
    ensures Lasting(payload) && Stored(payload) == payload
  {
    SameLasting(stored, payload);
    LastingStored(payload);
  }

  // ---- accepted payloads ----------------------------------------------------------------------

  const SECRET_NAMES: seq<string> := [
    "token", "cookie", "password", "secret", "authorization", "credential", "filebody", "filecontent",
    "filedata", "filebytes", "filebase64", "videobody", "videocontent", "videodata", "videobytes", "body", "content"]

  const MAX_DEPTH := 8
  const MAX_KEY := 128
  const MAX_TEXT := 1024
  const MAX_ENCODED := 16384
  /** `int` refuses to print longer numbers, and `json.dumps` passes that refusal on. */
  const MAX_DIGITS := 4300

  /** `re.sub(r"[^a-z0-9]", "", text)`. */
  function Alphanumeric(text: string): string {
    if text == "" then ""
    else (if IsLowerAscii(text[0]) || IsDigit(text[0]) then [text[0]] else "") + Alphanumeric(text[1..])
  }

  predicate Contains(s: string, word: string) {
    StartsWith(s, word) || (s != "" && Contains(s[1..], word))
  }

  predicate NamesSecret(key: string) {
    exists i :: 0 <= i < |SECRET_NAMES| && Contains(Alphanumeric(Lower(key)), SECRET_NAMES[i])
  }

  /** `check`: bounded depth, keys that name no secret, bounded strings, JSON types only. */
  predicate Checked(j: Json, depth: nat)
    decreases j
  {
    depth <= MAX_DEPTH &&
    match j
    case Dict(fields) =>
      forall i :: 0 <= i < |fields| ==>
        |fields[i].key| <= MAX_KEY && !NamesSecret(fields[i].key) && Checked(fields[i].value, depth + 1)
    case List(items) => forall i :: 0 <= i < |items| ==> Checked(items[i], depth + 1)
    case Str(text) => |text| <= MAX_TEXT
    case Other => false
    case _ => true
  }

  predicate NumbersPrint(j: Json)
    decreases j
  {
    match j
    case Int(n) => |Decimal(if n < 0 then -n else n)| <= MAX_DIGITS
    case Dict(fields) => forall i :: 0 <= i < |fields| ==> NumbersPrint(fields[i].value)
    case List(items) => forall i :: 0 <= i < |items| ==> NumbersPrint(items[i])
    case _ => true
  }

  /** The items of a Python dictionary never repeat a key; a finite float has a `repr`. */
  predicate IsPython(j: Json)
    decreases j
  {
    match j
    case Dict(fields) => DistinctKeys(fields) && forall i :: 0 <= i < |fields| ==> IsPython(fields[i].value)
    case List(items) => forall i :: 0 <= i < |items| ==> IsPython(items[i])
    case Float(f) => IsRepr(f)
    case _ => true
  }

  lemma {:induction false} CheckedIsJson(j: Json, depth: nat)
    requires IsPython(j) && Checked(j, depth)
    ensures IsJson(j)
    decreases j
  {
    match j {
      case Dict(fields) =>
        forall i | 0 <= i < |fields| ensures IsJson(fields[i].value) { CheckedIsJson(fields[i].value, depth + 1); }
      case List(items) =>
        forall i | 0 <= i < |items| ensures IsJson(items[i]) { CheckedIsJson(items[i], depth + 1); }
      case _ =>
    }
  }

  /** `validate_dispatch_payload`: the snapshot of an accepted payload, or nothing when it raises. */
  function Validate(payload: Json): Option<Json>
    requires IsPython(payload)
  {
    if !payload.Dict? || !Checked(payload, 0) || !NumbersPrint(payload) then None
    else
      CheckedIsJson(payload, 0);
      var encoded := Dumps(payload);
      if |encoded| > MAX_ENCODED then None else Loads(encoded)
  }

  /** The snapshot equals the payload, item order included, so validating it again changes nothing. */
  lemma ValidateIsSnapshot(payload: Json)
    requires IsPython(payload)
    ensures Validate(payload) == None || Validate(payload) == Some(payload)
    ensures Validate(payload).Some? <==>
            payload.Dict? && Checked(payload, 0) && NumbersPrint(payload) && IsJson(payload) &&
            |Dumps(payload)| <= MAX_ENCODED
  {
    if payload.Dict? && Checked(payload, 0) {
      CheckedIsJson(payload, 0);
      LoadsUndoesDumps(payload);
    }
  }

  const LARGE := Dict([Field("x", Float(Repr(false, "1", "", "e+16")))])

  /** For instance `{"x": 1e16}` is accepted but does not last: the column gives it back as an integer. */
  lemma LargeIsAccepted()
    ensures IsPython(LARGE) && Validate(LARGE) == Some(LARGE) && !Lasting(LARGE) && !Same(Stored(LARGE), LARGE)
  {
    hide Validate, Same, Stored;
    LargeIsFloat();
    LargeNamesNothing();
    ValidateIsSnapshot(LARGE);
    StoredIsStored(LARGE);
    if Same(Stored(LARGE), LARGE) { SameLasting(Stored(LARGE), LARGE); }
  }

  lemma LargeIsFloat()
    ensures IsRepr(Repr(false, "1", "", "e+16"))
  {
    assert "e+16"[2..] == "16" && "16"[..1] == "1" && "1"[..0] == "";
  }

  lemma LargeNamesNothing()
    ensures !NamesSecret("x")
  {
    assert Alphanumeric(Lower("x")) == "x";
    forall i | 0 <= i < |SECRET_NAMES|
      ensures !Contains("x", SECRET_NAMES[i])
    {
      assert |SECRET_NAMES[i]| > 1;
    }
  }
}
