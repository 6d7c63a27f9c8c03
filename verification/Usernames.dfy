/** The mapping from e-mail addresses to user names, which resolves collisions and keeps to 64 characters. */
module Usernames {
  import opened Overlay
  import opened Text
  import opened Ordering

  const ADMIN := "admin@example.com"
  const MAX_LENGTH := 64

  datatype User = User(id: nat, email: string)

  // ---- one name -------------------------------------------------------------------------------

  predicate IsNameChar(c: char) {
    IsLowerAscii(c) || IsDigit(c) || c == '_' || c == '.' || c == '-'
  }

  predicate NameChars(s: string) {
    forall c :: c in s ==> IsNameChar(c)
  }

  /** `re.sub(r"[^a-z0-9_.-]", "-", text)`. */
  function Replaced(text: string): (s: string)
    ensures NameChars(s) && |s| == |text|
  {
    seq(|text|, i requires 0 <= i < |text| => if IsNameChar(text[i]) then text[i] else '-')
  }

  /** `text.split("@", 1)[0]`. */
  function LocalPart(text: string): string {
    if text == "" || text[0] == '@' then "" else [text[0]] + LocalPart(text[1..])
  }

  predicate IsPunctuation(c: char) {
    c == '.' || c == '-' || c == '_'
  }

  /** Python's `text[:n]`, which counts from the end when `n` is negative. */
  function Prefix(text: string, n: int): (s: string)
    ensures s <= text && |s| == (if n >= 0 then if n < |text| then n else |text| else if |text| + n > 0 then |text| + n else 0)
  {
    if n >= |text| then text
    else if n >= 0 then text[..n]
    else if |text| + n > 0 then text[..|text| + n]
    else ""
  }

  /** `row.id.hex`. */
  function IdHex(id: nat): string {
    Hex(id, 32)
  }

  function Base(user: User): string {
    var name := Prefix(Strip(Replaced(Lower(LocalPart(user.email))), IsPunctuation), MAX_LENGTH);
    if |name| < 3 then "user-" + IdHex(user.id) else name
  }

  function Suffix(id: nat, counter: nat): string {
    "-" + IdHex(id) + if counter > 0 then "-" + Decimal(counter) else ""
  }

  function WithSuffix(base: string, id: nat, counter: nat): string {
    var suffix := Suffix(id, counter);
    Prefix(base, MAX_LENGTH - |suffix|) + suffix
  }

  /** What is tried: the base, and then the base with ever new suffixes. */
  function Candidate(base: string, id: nat, tries: nat): string {
    if tries == 0 then base else WithSuffix(base, id, tries - 1)
  }

  // ---- characters and lengths -----------------------------------------------------------------

  lemma {:induction false} HexIsName(n: nat, width: nat)
    ensures NameChars(Hex(n, width))
  {
    if width > 0 { HexIsName(n / 16, width - 1); }
  }

  lemma BaseFits(user: User)
    ensures 3 <= |Base(user)| <= MAX_LENGTH && NameChars(Base(user))
  {
    HexIsName(user.id, 32);
    var all := Replaced(Lower(LocalPart(user.email)));
    PrefixIsName(Strip(all, IsPunctuation), MAX_LENGTH);
  }

  lemma PrefixIsName(text: string, n: int)
    requires NameChars(text)
    ensures NameChars(Prefix(text, n))
  {
  }

  lemma SuffixFits(id: nat, counter: nat)
    ensures NameChars(Suffix(id, counter))
    ensures |Suffix(id, counter)| == 33 + if counter > 0 then 1 + |Decimal(counter)| else 0
    ensures |Suffix(id, counter)| <= MAX_LENGTH <==> counter < Pow10(30)
  {
    HexIsName(id, 32);
    DecimalLength(counter, 30);
  }

  /** Candidates have at least 3 characters, and at most 64 exactly as long as no more than ten to the thirty were taken. */
  lemma CandidateFits(user: User, tries: nat)
    ensures var name := Candidate(Base(user), user.id, tries);
            3 <= |name| && NameChars(name) && (|name| <= MAX_LENGTH <==> tries <= Pow10(30))
  {
    BaseFits(user);
    if tries > 0 { SuffixFits(user.id, tries - 1); }
  }

  // ---- the search ends ------------------------------------------------------------------------

  lemma EqualEnds(a: string, x: string, b: string, y: string)
    requires a + x == b + y && |x| == |y|
    ensures x == y
  {
    assert x == (a + x)[|a|..] && y == (b + y)[|b|..];
  }

  lemma DashBeforeNumber(a: string, m: nat, b: string, n: nat)
    requires a + "-" + Decimal(m) == b + "-" + Decimal(n)
    ensures m == n
  {
    var s, x, y := a + "-" + Decimal(m), Decimal(m), Decimal(n);
    assert s[|a|] == '-' && s[|b|] == '-';
    assert |a| == |b|;
    EqualEnds(a + "-", x, b + "-", y);
    DecimalInjective(m, n);
  }

  lemma SuffixParts(base: string, id: nat, counter: nat)
    requires counter > 0
    ensures WithSuffix(base, id, counter) ==
            Prefix(base, MAX_LENGTH - |Suffix(id, counter)|) + "-" + IdHex(id) + "-" + Decimal(counter)
  {
  }

  /** Candidates with different counters differ. */
  lemma CandidatesDiffer(base: string, id: nat, m: nat, n: nat)
    requires m < n
    ensures WithSuffix(base, id, m) != WithSuffix(base, id, n)
  {
    SuffixParts(base, id, n);
    if WithSuffix(base, id, m) == WithSuffix(base, id, n) {
      if m > 0 {
        SuffixParts(base, id, m);
        DashBeforeNumber(Prefix(base, MAX_LENGTH - |Suffix(id, m)|) + "-" + IdHex(id), m,
                         Prefix(base, MAX_LENGTH - |Suffix(id, n)|) + "-" + IdHex(id), n);
      } else {
        FirstSuffixDiffers(base, id, n);
      }
    }
  }

  /** The last dash of the longer one is before its number; the shorter one would have it inside its identifier. */
  lemma FirstSuffixDiffers(base: string, id: nat, n: nat)
    requires n > 0
    ensures WithSuffix(base, id, 0) != WithSuffix(base, id, n)
  {
    var x, y := WithSuffix(base, id, 0), WithSuffix(base, id, n);
    var p := Prefix(base, MAX_LENGTH - |Suffix(id, n)|) + "-" + IdHex(id);
    SuffixParts(base, id, n);
    SuffixFits(id, 0);
    SuffixFits(id, n);
    HexHasNoDash(id, 32);
    assert y == p + "-" + Decimal(n) && y[|p|] == '-';
  }

  lemma {:induction false} HexHasNoDash(n: nat, width: nat)
    ensures forall i :: 0 <= i < width ==> Hex(n, width)[i] != '-'
  {
    if width > 0 { HexHasNoDash(n / 16, width - 1); }
  }

  ghost function Suffixed(base: string, id: nat, n: nat): set<string> {
    set j | 0 <= j < n :: WithSuffix(base, id, j)
  }

  lemma {:induction false} SuffixedCount(base: string, id: nat, n: nat)
    ensures |Suffixed(base, id, n)| == n
  {
    hide WithSuffix;
    if n > 0 {
      SuffixedCount(base, id, n - 1);
      assert Suffixed(base, id, n) == Suffixed(base, id, n - 1) + {WithSuffix(base, id, n - 1)};
      forall j | 0 <= j < n - 1
        ensures WithSuffix(base, id, j) != WithSuffix(base, id, n - 1)
      {
        CandidatesDiffer(base, id, j, n - 1);
      }
    }
  }

  lemma SubsetCount(a: set<string>, b: set<string>)
    requires a <= b
    ensures |a| <= |b|
  {
    if a != b { assert |b - a| >= 1 && a + (b - a) == b; }
  }

  /** All candidates that were tried are taken. */
  predicate AllTaken(base: string, id: nat, used: set<string>, n: nat) {
    forall j :: 0 <= j < n ==> Candidate(base, id, j) in used
  }

  /** After the base at most as many suffixes fail as names are taken. */
  lemma TriesBounded(base: string, id: nat, used: set<string>, n: nat)
    requires AllTaken(base, id, used, n)
    ensures n <= |used| + 1
  {
    hide WithSuffix;
    if n > 0 {
      SuffixedCount(base, id, n - 1);
      assert forall j :: 0 <= j < n - 1 ==> WithSuffix(base, id, j) == Candidate(base, id, j + 1);
      SubsetCount(Suffixed(base, id, n - 1), used);
    }
  }

  ghost predicate IsTries(base: string, id: nat, used: set<string>, n: nat) {
    AllTaken(base, id, used, n) && Candidate(base, id, n) !in used
  }

  lemma {:induction false} TriesFrom(base: string, id: nat, used: set<string>, n: nat)
    requires AllTaken(base, id, used, n)
    ensures exists k :: IsTries(base, id, used, k)
    decreases |used| + 1 - n
  {
    if Candidate(base, id, n) in used {
      TriesBounded(base, id, used, n + 1);
      TriesFrom(base, id, used, n + 1);
    } else {
      assert IsTries(base, id, used, n);
    }
  }

  /** How many candidates are taken before one that is not. */
  ghost function Tries(base: string, id: nat, used: set<string>): (n: nat)
    ensures IsTries(base, id, used, n)
  {
    TriesFrom(base, id, used, 0);
    var n :| IsTries(base, id, used, n);
    n
  }

  lemma TriesUnique(base: string, id: nat, used: set<string>, m: nat, n: nat)
    requires IsTries(base, id, used, m) && IsTries(base, id, used, n)
    ensures m == n
  {
  }

  /** The first candidate that is free, found after at most `|used| + 1` others. */
  ghost function NameFor(user: User, used: set<string>): (name: string)
    ensures name !in used
  {
    Candidate(Base(user), user.id, Tries(Base(user), user.id, used))
  }

  method ChooseName(user: User, used: set<string>) returns (candidate: string, ghost tries: nat)
    ensures candidate == NameFor(user, used)
    ensures tries == Tries(Base(user), user.id, used) <= |used| + 1
  {
    var base := Base(user);
    candidate := base;
    var counter := 0;
    tries := 0;
    while candidate in used
      invariant tries == counter && candidate == Candidate(base, user.id, tries) && AllTaken(base, user.id, used, tries)
      decreases |used| + 1 - tries
    {
      TriesBounded(base, user.id, used, tries + 1);
      var suffix := "-" + IdHex(user.id) + if counter > 0 then "-" + Decimal(counter) else "";
      candidate := Prefix(base, MAX_LENGTH - |suffix|) + suffix;
      counter := counter + 1;
      tries := tries + 1;
    }
    TriesBounded(base, user.id, used, tries);
    TriesUnique(base, user.id, used, tries, Tries(base, user.id, used));
  }

  // ---- all names ------------------------------------------------------------------------------

  predicate DistinctIds(rows: seq<User>) {
    forall i, j :: 0 <= i < j < |rows| ==> rows[i].id != rows[j].id
  }

  function Ids(rows: seq<User>): set<nat> {
    set i | 0 <= i < |rows| :: rows[i].id
  }

  function UserOf(rows: seq<User>, id: nat): (user: User)
    requires id in Ids(rows)
    ensures user in rows && user.id == id
  {
    if rows[0].id == id then rows[0] else UserOf(rows[1..], id)
  }

  /** The sort key: the exact address first, then the address in other letter case, then by identifier. */
  function SortKey(email: string): (int, int) {
    (if email != ADMIN then 1 else 0, if Lower(email) != ADMIN then 1 else 0)
  }

  function RankOf(rows: seq<User>): Ranking {
    id => if id in Ids(rows) then SortKey(UserOf(rows, id).email) else (0, 0)
  }

  function SortedIds(rows: seq<User>): seq<nat> {
    Sorted(RankOf(rows), Ids(rows))
  }

  /** The names of users served in this order; `names[..i]` is what is taken when the turn is at `i`. */
  ghost function NamesOf(rows: seq<User>, order: seq<nat>): (names: seq<string>)
    requires forall id :: id in order ==> id in Ids(rows)
    ensures |names| == |order|
  {
    if order == [] then []
    else
      var n := |order| - 1;
      var before := NamesOf(rows, order[..n]);
      before + [NameFor(UserOf(rows, order[n]), Taken(before))]
  }

  function Taken(names: seq<string>): set<string> {
    set name | name in names
  }

  lemma SortedIdsValid(rows: seq<User>)
    ensures forall id :: id in SortedIds(rows) <==> id in Ids(rows)
    ensures forall i, j :: 0 <= i < j < |SortedIds(rows)| ==> SortedIds(rows)[i] != SortedIds(rows)[j]
  {
  }

  /** The mapping: identifiers in sorted order, each with its name. */
  method Mapping(rows: seq<User>) returns (ids: seq<nat>, names: seq<string>)
    requires DistinctIds(rows)
    ensures ids == SortedIds(rows) && (forall id :: id in ids <==> id in Ids(rows)) && names == NamesOf(rows, ids)
  {
    hide SortedIds, NamesOf, NameFor, Tries, UserOf;
    SortedIdsValid(rows);
    ids := SortedIds(rows);
    NamesOfNone(rows);
    names := [];
    var used: set<string> := {};
    for i := 0 to |ids|
      invariant names == NamesOf(rows, ids[..i]) && used == Taken(names)
    {
      var name;
      ghost var tries;
      name, tries := ChooseName(UserOf(rows, ids[i]), used);
      NamesNext(rows, ids, i);
      used := used + {name};
      names := names + [name];
    }
    assert ids[..|ids|] == ids;
  }

  lemma NamesOfNone(rows: seq<User>)
    ensures NamesOf(rows, []) == [] && Taken([]) == {}
  {
  }

  lemma NamesNext(rows: seq<User>, order: seq<nat>, i: nat)
    requires i < |order| && forall id :: id in order ==> id in Ids(rows)
    ensures var before := NamesOf(rows, order[..i]);
            NamesOf(rows, order[..i + 1]) == before + [NameFor(UserOf(rows, order[i]), Taken(before))]
  {
    assert order[..i + 1][..i] == order[..i];
  }

  predicate AllDifferent(names: seq<string>) {
    forall i, j :: 0 <= i < j < |names| ==> names[i] != names[j]
  }

  lemma Appended(names: seq<string>, name: string)
    requires AllDifferent(names) && name !in Taken(names)
    ensures AllDifferent(names + [name])
  {
  }

  /** No two users get the same name. */
  lemma {:induction false} NamesDistinct(rows: seq<User>, order: seq<nat>)
    requires forall id :: id in order ==> id in Ids(rows)
    ensures AllDifferent(NamesOf(rows, order))
    decreases |order|
  {
    hide UserOf, Taken;
    if order != [] {
      var n := |order| - 1;
      NamesDistinct(rows, order[..n]);
      var before := NamesOf(rows, order[..n]);
      var name := NameFor(UserOf(rows, order[n]), Taken(before));
      assert name !in Taken(before);
      assert AllDifferent(before);
      Appended(before, name);
    }
  }

  lemma {:induction false} TakenCount(names: seq<string>)
    ensures |Taken(names)| <= |names|
  {
    if names == [] {
      assert Taken(names) == {};
    } else {
      var n := |names| - 1;
      TakenCount(names[..n]);
      assert names == names[..n] + [names[n]];
      assert Taken(names) == Taken(names[..n]) + {names[n]};
    }
  }

  /** Every name passes the check on it, and the names of the first ten to the thirty users fit the column. */
  predicate Fit(names: seq<string>) {
    forall i :: 0 <= i < |names| ==> 3 <= |names[i]| && NameChars(names[i]) && (i < Pow10(30) ==> |names[i]| <= MAX_LENGTH)
  }

  lemma {:induction false} NamesFit(rows: seq<User>, order: seq<nat>)
    requires forall id :: id in order ==> id in Ids(rows)
    ensures Fit(NamesOf(rows, order))
    decreases |order|
  {
    hide Pow10, NameFor, Taken, NameChars;
    if order != [] {
      var n := |order| - 1;
      NamesFit(rows, order[..n]);
      var before := NamesOf(rows, order[..n]);
      TakenCount(before);
      NameFits(UserOf(rows, order[n]), Taken(before));
    }
  }

  lemma NameFits(user: User, used: set<string>)
    ensures var name := NameFor(user, used);
            3 <= |name| && NameChars(name) && (|used| < Pow10(30) ==> |name| <= MAX_LENGTH)
  {
    hide Pow10, NameChars, Candidate, Base;
    var tries := Tries(Base(user), user.id, used);
    TriesBounded(Base(user), user.id, used, tries);
    CandidateFits(user, tries);
  }

  // ---- the administrator ----------------------------------------------------------------------

  /** Lower-casing neither makes nor removes an `@`. */
  lemma {:induction false} LowerLocal(text: string)
    ensures Lower(LocalPart(text)) == LocalPart(Lower(text))
  {
    if text != "" && text[0] != '@' {
      LowerLocal(text[1..]);
      assert LocalPart(text)[1..] == LocalPart(text[1..]);
    }
  }

  lemma {:induction false} LocalBeforeAt(local: string, domain: string)
    requires forall i :: 0 <= i < |local| ==> local[i] != '@'
    ensures LocalPart(local + "@" + domain) == local
  {
    var text := local + "@" + domain;
    if local == "" {
      assert text[0] == '@';
    } else {
      LocalBeforeAt(local[1..], domain);
      assert text[1..] == local[1..] + "@" + domain;
    }
  }

  lemma AdminLocal()
    ensures LocalPart(ADMIN) == "admin"
  {
    assert ADMIN == "admin" + "@" + "example.com";
    LocalBeforeAt("admin", "example.com");
  }

  lemma AdminBase(user: User)
    requires Lower(user.email) == ADMIN
    ensures Base(user) == "admin"
  {
    hide Lower, LocalPart, Replaced, Strip, Prefix;
    LowerLocal(user.email);
    AdminLocal();
    CleanAdmin();
  }

  lemma CleanAdmin()
    ensures Prefix(Strip(Replaced("admin"), IsPunctuation), MAX_LENGTH) == "admin"
  {
  }

  /** The exact address when someone has it, and otherwise the address in any letter case when just one user has it. */
  predicate IsAdmin(rows: seq<User>, id: nat)
    requires id in Ids(rows)
  {
    var email := UserOf(rows, id).email;
    && Lower(email) == ADMIN
    && forall j :: j in Ids(rows) && j != id ==>
         var other := UserOf(rows, j).email;
         other != ADMIN && (email == ADMIN || Lower(other) != ADMIN)
  }

  lemma {:induction false} NamesFirst(rows: seq<User>, order: seq<nat>)
    requires order != [] && forall id :: id in order ==> id in Ids(rows)
    ensures NamesOf(rows, order)[0] == NameFor(UserOf(rows, order[0]), {})
    decreases |order|
  {
    hide NameFor, UserOf;
    var n := |order| - 1;
    if n > 0 {
      NamesFirst(rows, order[..n]);
    } else {
      assert order[..n] == [] && Taken([]) == {};
    }
  }

  lemma AdminSortsFirst(rows: seq<User>, id: nat)
    requires id in Ids(rows) && IsAdmin(rows, id) && Lower(ADMIN) == ADMIN
    ensures SortedIds(rows) != [] && SortedIds(rows)[0] == id
  {
    hide Lower;
    SortedIdsValid(rows);
    var ids := SortedIds(rows);
    assert id in ids;
    var i :| 0 <= i < |ids| && ids[i] == id;
    if i > 0 { AdminBefore(rows, ids[0], id); }
  }

  lemma AdminBefore(rows: seq<User>, other: nat, id: nat)
    requires id in Ids(rows) && other in Ids(rows) && other != id && IsAdmin(rows, id) && Lower(ADMIN) == ADMIN
    ensures Before(RankOf(rows), id, other) && !Before(RankOf(rows), other, id)
  {
    hide Lower;
  }

  lemma {:induction false} LowerKeeps(text: string)
    requires forall i :: 0 <= i < |text| ==> 'a' <= text[i] <= 'z' || text[i] == '@' || text[i] == '.'
    ensures Lower(text) == text
  {
    if text != "" { LowerKeeps(text[1..]); }
  }

  /** The administrator's address becomes "admin". */
  lemma AdminName(rows: seq<User>, id: nat)
    requires id in Ids(rows) && IsAdmin(rows, id)
    ensures (forall j :: j in SortedIds(rows) ==> j in Ids(rows))
    ensures SortedIds(rows) != [] && SortedIds(rows)[0] == id && NamesOf(rows, SortedIds(rows))[0] == "admin"
  {
    hide Base, Lower;
    LowerKeeps(ADMIN);
    AdminSortsFirst(rows, id);
    SortedIdsValid(rows);
    NamesFirst(rows, SortedIds(rows));
    var user := UserOf(rows, id);
    AdminBase(user);
    assert IsTries(Base(user), user.id, {}, 0);
    TriesUnique(Base(user), user.id, {}, 0, Tries(Base(user), user.id, {}));
  }

  // ---- the order of the rows does not matter --------------------------------------------------

  lemma SameUsers(rows: seq<User>, other: seq<User>, id: nat)
    requires DistinctIds(rows) && DistinctIds(other) && (forall u :: u in rows <==> u in other) && id in Ids(rows)
    ensures id in Ids(other) && UserOf(rows, id) == UserOf(other, id)
  {
    hide UserOf;
    var user := UserOf(rows, id);
    var i :| 0 <= i < |other| && other[i] == user;
    assert other[i].id == id && id in Ids(other);
    UniqueUser(other, user, UserOf(other, id));
  }

  lemma UniqueUser(rows: seq<User>, user: User, other: User)
    requires DistinctIds(rows) && user in rows && other in rows && user.id == other.id
    ensures user == other
  {
  }

  lemma {:induction false} SameNames(rows: seq<User>, other: seq<User>, order: seq<nat>)
    requires forall id :: id in order ==> id in Ids(rows) && id in Ids(other) && UserOf(rows, id) == UserOf(other, id)
    ensures NamesOf(rows, order) == NamesOf(other, order)
    decreases |order|
  {
    hide NameFor, UserOf;
    if order != [] { SameNames(rows, other, order[..|order| - 1]); }
  }

  /** The same users in another order get the same names. */
  lemma OrderIndependent(rows: seq<User>, other: seq<User>)
    requires DistinctIds(rows) && DistinctIds(other) && forall u :: u in rows <==> u in other
    ensures SortedIds(rows) == SortedIds(other) && (forall id :: id in SortedIds(rows) ==> id in Ids(rows) && id in Ids(other))
    ensures NamesOf(rows, SortedIds(rows)) == NamesOf(other, SortedIds(other))
  {
    forall id
      ensures id in Ids(rows) ==> id in Ids(other) && UserOf(rows, id) == UserOf(other, id)
      ensures id in Ids(other) ==> id in Ids(rows)
    {
      if id in Ids(rows) { SameUsers(rows, other, id); }
      if id in Ids(other) { SameUsers(other, rows, id); }
    }
    hide UserOf, NameFor, SortKey;
    assert Ids(rows) == Ids(other);
    SortedAgrees(RankOf(rows), RankOf(other), Ids(rows));
    SortedIdsValid(rows);
    SameNames(rows, other, SortedIds(rows));
  }

  // ---- the order of identifiers ---------------------------------------------------------------

  function Dash(text: string, k: nat): (s: string)
    requires k <= |text|
    ensures |s| == |text| + 1
  {
    text[..k] + "-" + text[k..]
  }

  /** `str(row.id)`: the hexadecimal digits in groups of 8, 4, 4, 4 and 12. */
  function IdText(id: nat): string {
    Dash(Dash(Dash(Dash(IdHex(id), 8), 13), 18), 23)
  }

  lemma {:induction false} LessConcat(a: string, x: string, b: string, y: string)
    requires |a| == |b|
    ensures Less(a + x, b + y) <==> Less(a, b) || (a == b && Less(x, y))
  {
    if a == "" {
      assert a + x == x && b + y == y;
    } else {
      LessConcat(a[1..], x, b[1..], y);
      assert (a + x)[1..] == a[1..] + x && (b + y)[1..] == b[1..] + y;
      assert a == [a[0]] + a[1..] && b == [b[0]] + b[1..];
    }
  }

  lemma LessChar(c: char, d: char)
    ensures Less([c], [d]) <==> c < d
  {
  }

  lemma {:induction false} HexOrder(a: nat, b: nat, width: nat)
    requires a < Pow16(width) && b < Pow16(width)
    ensures Less(Hex(a, width), Hex(b, width)) <==> a < b
  {
    if width > 0 {
      HexOrder(a / 16, b / 16, width - 1);
      LessConcat(Hex(a / 16, width - 1), [HexChar(a % 16)], Hex(b / 16, width - 1), [HexChar(b % 16)]);
      LessChar(HexChar(a % 16), HexChar(b % 16));
      if Hex(a / 16, width - 1) == Hex(b / 16, width - 1) {
        HexRoundTrip(a / 16, width - 1);
        HexRoundTrip(b / 16, width - 1);
      }
    }
  }

  /** A dash at the same place changes nothing. */
  lemma LessWithDash(a: string, x: string, b: string, y: string)
    requires |a| == |b|
    ensures Less(a + "-" + x, b + "-" + y) <==> Less(a + x, b + y)
  {
    LessConcat(a, x, b, y);
    LessConcat(a, "-" + x, b, "-" + y);
    LessConcat("-", x, "-", y);
    assert a + "-" + x == a + ("-" + x) && b + "-" + y == b + ("-" + y);
    LessChar('-', '-');
  }

  lemma DashKeepsOrder(s: string, t: string, k: nat)
    requires |s| == |t| && k <= |s|
    ensures Less(Dash(s, k), Dash(t, k)) <==> Less(s, t)
  {
    LessWithDash(s[..k], s[k..], t[..k], t[k..]);
    assert s[..k] + s[k..] == s && t[..k] + t[k..] == t;
  }

  /** Sorting by `str(row.id)` is sorting by the identifiers themselves. */
  lemma IdTextOrder(a: nat, b: nat)
    requires a < Pow16(32) && b < Pow16(32)
    ensures Less(IdText(a), IdText(b)) <==> a < b
  {
    hide Dash, Pow16;
    var s, t := IdHex(a), IdHex(b);
    HexOrder(a, b, 32);
    DashKeepsOrder(s, t, 8);
    DashKeepsOrder(Dash(s, 8), Dash(t, 8), 13);
    DashKeepsOrder(Dash(Dash(s, 8), 13), Dash(Dash(t, 8), 13), 18);
    DashKeepsOrder(Dash(Dash(Dash(s, 8), 13), 18), Dash(Dash(Dash(t, 8), 13), 18), 23);
  }
}
