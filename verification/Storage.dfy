/** What the second validation, before sending, makes of a payload that the first one has accepted and the column has kept. */
module Storage {
  import opened Overlay
  import opened Text
  import opened Json
  import opened Payload

  // ---- large floats as integers ---------------------------------------------------------------

  lemma {:induction false} ValueBounds(s: string)
    requires AllDigits(s)
    ensures DecimalValue(s) < Pow10(|s|)
    ensures s != "" && s[0] != '0' ==> DecimalValue(s) >= Pow10(|s| - 1)
  {
    if |s| > 1 {
      ValueBounds(s[..|s| - 1]);
    } else if |s| == 1 {
      assert s[..0] == "" && Pow10(1) == 10 && Pow10(0) == 1;
    }
  }

  lemma {:induction false} PowAdd(a: nat, b: nat)
    ensures Pow10(a) * Pow10(b) == Pow10(a + b)
  {
    if a > 0 {
      PowAdd(a - 1, b);
      Reorder(10, Pow10(a - 1), Pow10(b));
    }
  }

  lemma Reorder(x: int, y: int, z: int)
    ensures (x * y) * z == x * (y * z)
  {
  }

  lemma MulBounds(low: nat, v: nat, high: nat, m: nat)
    requires low <= v < high && m >= 1
    ensures low * m <= v * m < high * m
  {
  }

  /** In the column the number has one digit more than its exponent says. */
  lemma IntegerDigits(f: Repr)
    requires IsRepr(f) && IsLarge(f)
    ensures |Decimal(IntegerOf(f))| == DecimalValue(f.exponent[2..]) + 1
  {
    hide Pow10, DecimalValue, Decimal;
    var fraction := if f.fraction == "" then "" else f.fraction[1..];
    var e := DecimalValue(f.exponent[2..]);
    var digits := f.whole + fraction;
    assert digits[0] == f.whole[0] != '0';
    ValueBounds(digits);
    PowPositive(e - |fraction|);
    MulBounds(Pow10(|digits| - 1), DecimalValue(digits), Pow10(|digits|), Pow10(e - |fraction|));
    PowAdd(|digits| - 1, e - |fraction|);
    PowAdd(|digits|, e - |fraction|);
    DecimalLength(IntegerOf(f), e);
    DecimalLength(IntegerOf(f), e + 1);
  }

  // ---- the second validation ------------------------------------------------------------------

  lemma {:induction false} StoredChecked(j: Json, depth: nat)
    requires Checked(j, depth)
    ensures Checked(Stored(j), depth)
    decreases j
  {
    hide NamesSecret;
    match j {
      case List(items) =>
        forall i | 0 <= i < |items| ensures Checked(Stored(items[i]), depth + 1) { StoredChecked(items[i], depth + 1); }
      case Dict(fields) =>
        forall i | 0 <= i < |fields|
          ensures Checked(Stored(fields[i].value), depth + 1)
        {
          StoredChecked(fields[i].value, depth + 1);
        }
      case _ =>
    }
  }

  lemma {:induction false} StoredPrints(j: Json)
    requires IsJson(j) && NumbersPrint(j)
    ensures NumbersPrint(Stored(j))
    decreases j
  {
    hide IntegerOf, Decimal, IsNegativeZero;
    match j {
      case Float(f) => if IsLarge(f) { IntegerDigits(f); }
      case List(items) =>
        forall i | 0 <= i < |items| ensures NumbersPrint(Stored(items[i])) { StoredPrints(items[i]); }
      case Dict(fields) =>
        forall i | 0 <= i < |fields| ensures NumbersPrint(Stored(fields[i].value)) { StoredPrints(fields[i].value); }
      case _ =>
    }
  }

  lemma {:induction false} JsonIsPython(j: Json)
    requires IsJson(j)
    ensures IsPython(j)
    decreases j
  {
    match j {
      case List(items) =>
        forall i | 0 <= i < |items| ensures IsPython(items[i]) { JsonIsPython(items[i]); }
      case Dict(fields) =>
        forall i | 0 <= i < |fields| ensures IsPython(fields[i].value) { JsonIsPython(fields[i].value); }
      case _ =>
    }
  }

  /**
   An accepted payload is accepted again before it is sent exactly if its encoding still fits once the column has
   written large floats out; if it lasts in the column, it always is.
   */
  lemma AcceptedAgain(payload: Json)
    requires IsPython(payload) && Validate(payload).Some?
    ensures IsStored(Stored(payload)) && IsPython(Stored(payload))
    ensures Validate(Stored(payload)).Some? <==> |Dumps(Stored(payload))| <= MAX_ENCODED
    ensures Lasting(payload) ==> Validate(Stored(payload)) == Some(payload)
  {
    hide Checked, NumbersPrint, Dumps, Stored, Lasting, IsPython;
    ValidateIsSnapshot(payload);
    StoredIsStored(payload);
    JsonIsPython(Stored(payload));
    StoredChecked(payload, 0);
    StoredPrints(payload);
    StaysDict(payload);
    ValidateIsSnapshot(Stored(payload));
    if Lasting(payload) { LastingStored(payload); }
  }

  lemma StaysDict(j: Json)
    ensures Stored(j).Dict? == j.Dict?
  {
  }

  // ---- the order of keys does not matter ------------------------------------------------------

  ghost predicate FieldsAreJson(fields: seq<Field>) {
    forall i :: 0 <= i < |fields| ==> IsJson(fields[i].value)
  }

  /** The lengths of the items' texts. */
  function Total(fields: seq<Field>): nat
    requires FieldsAreJson(fields)
  {
    if fields == [] then 0 else |DumpsField(fields[0])| + Total(fields[1..])
  }

  lemma {:induction false} DumpsFieldsLength(fields: seq<Field>)
    requires fields != [] && FieldsAreJson(fields)
    ensures |DumpsFields(fields)| == Total(fields) + 2 * |fields| - 1
  {
    hide DumpsField;
    if |fields| > 1 {
      DumpsFieldsLength(fields[1..]);
    } else {
      assert fields[1..] == [];
    }
  }

  lemma {:induction false} InsertTotal(f: Field, fields: seq<Field>)
    requires IsJson(f.value) && FieldsAreJson(fields)
    ensures FieldsAreJson(Insert(f, fields)) && |Insert(f, fields)| == |fields| + 1
    ensures Total(Insert(f, fields)) == |DumpsField(f)| + Total(fields)
  {
    hide DumpsField, Less;
    if fields == [] || Less(f.key, fields[0].key) {
      assert ([f] + fields)[1..] == fields;
    } else {
      InsertTotal(f, fields[1..]);
      assert Insert(f, fields)[1..] == Insert(f, fields[1..]);
    }
  }

  lemma {:induction false} SortTotal(fields: seq<Field>)
    requires FieldsAreJson(fields)
    ensures FieldsAreJson(SortFields(fields)) && |SortFields(fields)| == |fields| && Total(SortFields(fields)) == Total(fields)
  {
    hide DumpsField;
    if fields != [] {
      SortTotal(fields[1..]);
      InsertTotal(fields[0], SortFields(fields[1..]));
    }
  }

  lemma {:induction false} SameTotal(fs: seq<Field>, gs: seq<Field>)
    requires |fs| == |gs| && FieldsAreJson(fs) && FieldsAreJson(gs)
    requires forall i :: 0 <= i < |fs| ==> fs[i].key == gs[i].key && |Dumps(fs[i].value)| == |Dumps(gs[i].value)|
    ensures Total(fs) == Total(gs)
  {
    hide Dumps;
    if fs != [] { SameTotal(fs[1..], gs[1..]); }
  }

  lemma {:induction false} SameItemsLength(xs: seq<Json>, ys: seq<Json>)
    requires |xs| == |ys| > 0 && forall i :: 0 <= i < |xs| ==> IsJson(xs[i]) && IsJson(ys[i]) && |Dumps(xs[i])| == |Dumps(ys[i])|
    ensures |DumpsItems(xs)| == |DumpsItems(ys)|
  {
    hide Dumps;
    if |xs| > 1 { SameItemsLength(xs[1..], ys[1..]); }
  }

  lemma DictLength(fields: seq<Field>)
    requires IsJson(Dict(fields))
    ensures FieldsAreJson(fields) && |Dumps(Dict(fields))| == if fields == [] then 2 else Total(fields) + 2 * |fields|
  {
    hide Total, DumpsFields;
    if fields != [] { DumpsFieldsLength(fields); }
  }

  /** Sorting keys keeps the length of the text. */
  lemma {:induction false} SortedLength(j: Json)
    requires IsJson(j)
    ensures IsJson(SortKeys(j)) && |Dumps(SortKeys(j))| == |Dumps(j)|
    decreases j
  {
    SortKeysIsJson(j);
    match j {
      case List(items) =>
        var sorted := SortKeys(j).items;
        forall i | 0 <= i < |items|
          ensures IsJson(sorted[i]) && |Dumps(sorted[i])| == |Dumps(items[i])|
        {
          SortedLength(items[i]);
        }
        if items != [] { SameItemsLength(sorted, items); }
      case Dict(fields) =>
        SortedDictLength(fields);
      case _ =>
    }
  }

  lemma {:induction false} SortedDictLength(fields: seq<Field>)
    requires IsJson(Dict(fields))
    ensures IsJson(SortKeys(Dict(fields))) && |Dumps(SortKeys(Dict(fields)))| == |Dumps(Dict(fields))|
    decreases fields, 0
  {
    hide Dumps, Total;
    var inner := Inner(fields);
    SortKeysIsJson(Dict(fields));
    forall i | 0 <= i < |fields|
      ensures IsJson(inner[i].value) && |Dumps(inner[i].value)| == |Dumps(fields[i].value)|
    {
      SortKeysIsJson(fields[i].value);
      SortedLength(fields[i].value);
    }
    SameTotal(inner, fields);
    SortTotal(inner);
    DictLength(fields);
    DictLength(SortFields(inner));
  }

  lemma ItemsChecked(xs: seq<Json>, ys: seq<Json>, depth: nat)
    requires |xs| == |ys|
    requires forall i :: 0 <= i < |xs| ==> (Checked(xs[i], depth + 1) <==> Checked(ys[i], depth + 1))
    requires forall i :: 0 <= i < |xs| ==> (NumbersPrint(xs[i]) <==> NumbersPrint(ys[i]))
    ensures Checked(List(xs), depth) <==> Checked(List(ys), depth)
    ensures NumbersPrint(List(xs)) <==> NumbersPrint(List(ys))
  {
  }

  lemma {:induction false} SortedChecked(j: Json, depth: nat)
    requires IsJson(j)
    ensures Checked(SortKeys(j), depth) <==> Checked(j, depth)
    ensures NumbersPrint(SortKeys(j)) <==> NumbersPrint(j)
    decreases j
  {
    hide NamesSecret, Decimal;
    match j {
      case List(items) =>
        var sorted := SortKeys(j).items;
        forall i | 0 <= i < |items|
          ensures Checked(sorted[i], depth + 1) <==> Checked(items[i], depth + 1)
          ensures NumbersPrint(sorted[i]) <==> NumbersPrint(items[i])
        {
          SortedChecked(items[i], depth + 1);
        }
        assert SortKeys(j) == List(sorted) && |sorted| == |items|;
        ItemsChecked(sorted, items, depth);
      case Dict(fields) => SortedDictChecked(fields, depth);
      case _ =>
    }
  }

  lemma {:induction false} SortedDictChecked(fields: seq<Field>, depth: nat)
    requires IsJson(Dict(fields))
    ensures Checked(SortKeys(Dict(fields)), depth) <==> Checked(Dict(fields), depth)
    ensures NumbersPrint(SortKeys(Dict(fields))) <==> NumbersPrint(Dict(fields))
    decreases fields, 0
  {
    hide NamesSecret, Decimal, SortFields;
    var inner := Inner(fields);
    forall i | 0 <= i < |fields|
      ensures Checked(inner[i].value, depth + 1) <==> Checked(fields[i].value, depth + 1)
      ensures NumbersPrint(inner[i].value) <==> NumbersPrint(fields[i].value)
    {
      SortedChecked(fields[i].value, depth + 1);
    }
    SortFieldsSorts(inner);
    SameElementsChecked(inner, SortFields(inner), depth);
  }

  lemma ContainedChecked(fs: seq<Field>, gs: seq<Field>, depth: nat)
    requires Elements(gs) <= Elements(fs)
    ensures Checked(Dict(fs), depth) ==> Checked(Dict(gs), depth)
    ensures NumbersPrint(Dict(fs)) ==> NumbersPrint(Dict(gs))
  {
    hide NamesSecret;
    forall i | 0 <= i < |gs|
      ensures exists k :: 0 <= k < |fs| && fs[k] == gs[i]
    {
      assert gs[i] in Elements(gs);
    }
  }

  lemma SameElementsChecked(fs: seq<Field>, gs: seq<Field>, depth: nat)
    requires Elements(fs) == Elements(gs)
    ensures Checked(Dict(fs), depth) <==> Checked(Dict(gs), depth)
    ensures NumbersPrint(Dict(fs)) <==> NumbersPrint(Dict(gs))
  {
    hide Checked, NumbersPrint;
    ContainedChecked(fs, gs, depth);
    ContainedChecked(gs, fs, depth);
  }

  /** Payloads that are the same up to key order are accepted together. */
  lemma SameAccepted(a: Json, b: Json)
    requires IsJson(a) && IsJson(b) && Same(a, b)
    ensures IsPython(a) && IsPython(b) && (Validate(a).Some? <==> Validate(b).Some?) && |Dumps(a)| == |Dumps(b)|
  {
    hide Checked, NumbersPrint, Dumps, SortKeys, Validate;
    SortKeysSame(a, b);
    JsonIsPython(a);
    JsonIsPython(b);
    SortedLength(a);
    SortedLength(b);
    SortedChecked(a, 0);
    SortedChecked(b, 0);
    assert a.Dict? == b.Dict? by { SameKind(a, b); }
    ValidateIsSnapshot(a);
    ValidateIsSnapshot(b);
  }

  lemma SameKind(a: Json, b: Json)
    requires Same(a, b)
    ensures a.Dict? == b.Dict?
  {
  }

  // ---- accepted and never sent ----------------------------------------------------------------

  const HUGE := Repr(false, "1", "", "e+308")

  /** The dictionary `{"x": [1e308, ..., 1e308]}` with `n` floats. */
  function Many(n: nat): Json {
    Dict([Field("x", List(seq(n, i => Float(HUGE))))])
  }

  lemma HugeIsFloat()
    ensures IsRepr(HUGE) && IsLarge(HUGE) && DecimalValue(HUGE.exponent[2..]) == 308
  {
    assert "e+308"[2..] == "308" && "308"[..2] == "30" && "30"[..1] == "3" && "3"[..0] == "";
  }

  lemma {:induction false} EqualItemsLength(items: seq<Json>, j: Json, w: nat)
    requires items != [] && IsJson(j) && |Dumps(j)| == w && forall i :: 0 <= i < |items| ==> items[i] == j
    ensures |DumpsItems(items)| == |items| * (w + 2) - 1
  {
    hide Dumps;
    if |items| > 1 { EqualItemsLength(items[1..], j, w); }
  }

  lemma ManyLength(items: seq<Json>, j: Json, w: nat)
    requires items != [] && IsJson(j) && |Dumps(j)| == w && forall i :: 0 <= i < |items| ==> items[i] == j
    ensures IsJson(Dict([Field("x", List(items))]))
    ensures |Dumps(Dict([Field("x", List(items))]))| == |items| * (w + 2) + 7
  {
    hide Quote;
    EqualItemsLength(items, j, w);
    QuotedX();
    var f := Field("x", List(items));
    assert DumpsField(f) == Quote("x") + ": " + Dumps(f.value);
    assert DumpsFields([f]) == DumpsField(f) + "}";
  }

  lemma QuotedX()
    ensures |Quote("x")| == 3
  {
    assert "x"[1..] == "";
    assert Escapes("x") == Escape('x') + "";
  }

  lemma ManyChecked(n: nat)
    ensures Many(n).Dict? && Checked(Many(n), 0) && NumbersPrint(Many(n)) && IsJson(Many(n))
  {
    hide NamesSecret;
    HugeIsFloat();
    LargeNamesNothing();
    var items := Many(n).fields[0].value.items;
    forall i | 0 <= i < |items|
      ensures Checked(items[i], 2) && NumbersPrint(items[i]) && IsJson(items[i])
    {
    }
    var list := List(items);
    assert Checked(list, 1);
    assert NumbersPrint(list);
    assert IsJson(list);
    assert Many(n) == Dict([Field("x", list)]);
  }

  function ManyIntegers(n: nat, m: nat): Json {
    Dict([Field("x", List(seq(n, i => Int(m))))])
  }

  lemma StoredMany(n: nat)
    ensures IsRepr(HUGE) && IsLarge(HUGE) && Stored(Many(n)) == ManyIntegers(n, IntegerOf(HUGE))
  {
    hide IntegerOf;
    HugeIsFloat();
    var list := Many(n).fields[0].value;
    assert Stored(Float(HUGE)) == Int(IntegerOf(HUGE));
    assert Stored(list).items == seq(n, i => Int(IntegerOf(HUGE)));
    assert Stored(Many(n)).fields == [Field("x", Stored(list))];
  }

  /** Many floats are accepted as long as their texts fit, but beyond 52 they do not fit any more when they are to be sent. */
  lemma ManyAreRefusedLater(n: nat)
    requires 1 <= n <= 2047
    ensures IsPython(Many(n)) && Validate(Many(n)).Some? && IsPython(Stored(Many(n)))
    ensures Validate(Stored(Many(n))).Some? <==> n <= 52
  {
    hide Validate, IntegerOf, Decimal, Dumps, Checked, NumbersPrint, Stored, Many, IsPython;
    HugeIsFloat();
    ManyChecked(n);
    ManyLengths(n);
    JsonIsPython(Many(n));
    ValidateIsSnapshot(Many(n));
    AcceptedAgain(Many(n));
  }

  lemma ManyLengths(n: nat)
    requires n >= 1
    ensures IsJson(Many(n)) && |Dumps(Many(n))| == n * 8 + 7
    ensures IsJson(Stored(Many(n))) && |Dumps(Stored(Many(n)))| == n * 311 + 7
  {
    hide IntegerOf, Decimal, Dumps, Stored;
    HugeIsFloat();
    HugeLength();
    ManyLength(Many(n).fields[0].value.items, Float(HUGE), 6);
    StoredMany(n);
    IntegerDigits(HUGE);
    IntegerLength(HUGE);
    ManyLength(ManyIntegers(n, IntegerOf(HUGE)).fields[0].value.items, Int(IntegerOf(HUGE)), 309);
  }

  lemma HugeLength()
    ensures IsJson(Float(HUGE)) && |Dumps(Float(HUGE))| == 6
  {
    HugeIsFloat();
  }

  lemma IntegerLength(f: Repr)
    requires IsRepr(f) && IsLarge(f)
    ensures |Dumps(Int(IntegerOf(f)))| == |Decimal(IntegerOf(f))|
  {
    hide IntegerOf, Decimal;
  }
}
