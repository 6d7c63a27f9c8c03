/**
 One publisher round while other transactions commit between any two of its queries: what it has locked stays
 as it is, everything else may change. Its limits do not depend on the others keeping still.
 */
module Contention {
  import opened Overlay
  import opened Ordering
  import opened Serving
  import opened Outbox
  import opened Rounds
  import D = Dispatcher

  datatype Tables = Tables(rows: Rows, cursors: Cursors)

  /** What the round has locked. */
  datatype Held = Held(rows: set<Uuid>, tenants: set<Uuid>)

  ghost predicate Respects(before: Tables, after: Tables, held: Held) {
    && (forall id :: id in held.rows ==> Get(after.rows, id) == Get(before.rows, id))
    && (forall t :: t in held.tenants ==> Get(after.cursors, t) == Get(before.cursors, t))
  }

  /** The outside: the tables that others leave for the round's n-th query, and what they hold then. */
  datatype World = World(others: (nat, Tables, Held) -> Tables, locks: nat -> Locks, env: Env) {
    ghost predicate Fair() {
      forall n, tables, held :: Respects(tables, others(n, tables, held), held)
    }
  }

  // ---- one tenant -----------------------------------------------------------------------------

  /** A tenant served: the tables that its two queries saw, the rows that others held then, and its slots. */
  datatype Visit = Visit(tenant: Uuid, slots: nat, first: Rows, firstLocked: set<Uuid>, second: Rows, secondLocked: set<Uuid>)
  {
    function Expansions(now: Time): seq<Uuid> {
      Take(DueInOrder(first, tenant, now, firstLocked, true), 1)
    }

    function Ordinary(now: Time): seq<Uuid> {
      var e := |Expansions(now)|;
      if slots > e then Take(DueInOrder(second, tenant, now, secondLocked, false), slots - e) else []
    }

    function Records(now: Time): seq<Uuid> {
      Expansions(now) + Ordinary(now)
    }
  }

  /** The expansion that the first query has locked is unchanged when the second one runs. */
  ghost predicate IsVisit(v: Visit, now: Time) {
    v.slots >= 1 && forall id :: id in v.Expansions(now) ==> Get(v.second, id) == Get(v.first, id)
  }

  /** Due rows of the tenant, each once, as many as there are slots at most; only the first can be an expansion. */
  lemma VisitRecords(v: Visit, now: Time)
    requires IsVisit(v, now)
    ensures var ids := v.Records(now);
            && Distinct(ids) && |ids| <= v.slots
            && (forall id :: id in ids ==> id in v.second && v.second[id].tenant == v.tenant && IsDue(v.second[id], now))
            && (forall j :: 1 <= j < |ids| ==> v.second[ids[j]].task != EXPANSION_TASK)
  {
    hide DueInOrder;
    var es, os := v.Expansions(now), v.Ordinary(now);
    DueInOrderMembers(v.first, v.tenant, now, v.firstLocked, true);
    DueInOrderMembers(v.second, v.tenant, now, v.secondLocked, false);
    TakeDistinct(DueInOrder(v.first, v.tenant, now, v.firstLocked, true), 1);
    TakeDistinct(DueInOrder(v.second, v.tenant, now, v.secondLocked, false), if v.slots > |es| then v.slots - |es| else 0);
    assert forall id :: id in os ==> id in v.second && v.second[id].task != EXPANSION_TASK;
    ConcatDistinct(es, os);
    forall j | 1 <= j < |v.Records(now)|
      ensures v.Records(now)[j] in os
    {
      assert v.Records(now)[j] == os[j - |es|];
    }
  }

  /** Its rows are locked and attempted, and its cursor has moved if there were any. */
  ghost predicate Done(tasks: Registry, v: Visit, now: Time, env: Env, tables: Tables, held: Held) {
    && IsVisit(v, now) && v.tenant in held.tenants
    && (forall id :: id in v.Records(now) ==>
          && id in held.rows && id in v.second && v.second[id].tenant == v.tenant
          && Get(tables.rows, id) == Some(Attempted(tasks, v.second[id], id, env)))
    && (v.Records(now) != [] ==> Get(tables.cursors, v.tenant) == Some(Some(env.servedAt(v.tenant))))
  }

  lemma DoneStays(tasks: Registry, v: Visit, now: Time, env: Env, before: Tables, after: Tables, held: Held)
    requires Done(tasks, v, now, env, before, held) && Respects(before, after, held)
    ensures Done(tasks, v, now, env, after, held)
  {
  }

  /** The tables after a visit that found `mid`. */
  ghost function Visited(tasks: Registry, v: Visit, now: Time, env: Env, mid: Tables): Tables
  {
    Tables(AttemptAll(tasks, mid.rows, Elements(v.Records(now)), env),
           if v.Records(now) != [] then mid.cursors[v.tenant := Some(env.servedAt(v.tenant))] else mid.cursors)
  }

  function Holding(held: Held, v: Visit, now: Time): Held
  {
    Held(held.rows + Elements(v.Records(now)), held.tenants + {v.tenant})
  }

  lemma NewDone(tasks: Registry, v: Visit, now: Time, env: Env, mid: Tables, held: Held)
    requires IsVisit(v, now) && mid.rows == v.second
    ensures Done(tasks, v, now, env, Visited(tasks, v, now, env, mid), Holding(held, v, now))
  {
    hide Visit.Records, IsVisit;
    VisitRecords(v, now);
  }

  /** A visit to another tenant leaves a done one as it is. */
  lemma DoneBeside(tasks: Registry, v: Visit, w: Visit, now: Time, env: Env, mid: Tables, held: Held)
    requires Done(tasks, v, now, env, mid, held) && IsVisit(w, now) && mid.rows == w.second && v.tenant != w.tenant
    ensures Done(tasks, v, now, env, Visited(tasks, w, now, env, mid), Holding(held, w, now))
    ensures forall id :: id in v.Records(now) ==> id !in w.Records(now)
  {
    hide Visit.Records, IsVisit;
    VisitRecords(w, now);
  }

  // ---- the visits of a round ------------------------------------------------------------------

  /** What a round attempts, in order. */
  ghost function Attempts(visits: seq<Visit>, now: Time): seq<Uuid>
  {
    if visits == [] then [] else
      var n := |visits| - 1;
      Attempts(visits[..n], now) + visits[n].Records(now)
  }

  /** What a round hands to the broker, in order. */
  ghost function Handed(tasks: Registry, visits: seq<Visit>, now: Time, env: Env): seq<Message>
  {
    if visits == [] then [] else
      var n := |visits| - 1;
      Handed(tasks, visits[..n], now, env) + Messages(tasks, visits[n].second, visits[n].Records(now), env)
  }

  /** Each visit is to another tenant and has the slots that are left, at most five. */
  ghost predicate IsRound(visits: seq<Visit>, now: Time, cap: nat) {
    visits == [] ||
    var n := |visits| - 1;
    && IsRound(visits[..n], now, cap) && |Attempts(visits[..n], now)| < cap
    && IsVisit(visits[n], now) && visits[n].slots == Slots(cap, |Attempts(visits[..n], now)|)
    && forall i :: 0 <= i < n ==> visits[i].tenant != visits[n].tenant
  }

  ghost predicate AllDone(tasks: Registry, visits: seq<Visit>, now: Time, env: Env, tables: Tables, held: Held) {
    forall i :: 0 <= i < |visits| ==> Done(tasks, visits[i], now, env, tables, held)
  }

  lemma {:induction false} AttemptsAreRecords(visits: seq<Visit>, now: Time, id: Uuid)
    requires id in Attempts(visits, now)
    ensures exists i :: 0 <= i < |visits| && id in visits[i].Records(now)
  {
    hide Visit.Records;
    var n := |visits| - 1;
    if id in Attempts(visits[..n], now) {
      AttemptsAreRecords(visits[..n], now, id);
      var i :| 0 <= i < n && id in visits[..n][i].Records(now);
      assert visits[i] == visits[..n][i];
    } else {
      assert id in visits[n].Records(now);
    }
  }

  /** A round so far: its visits are done, and no row has been attempted twice. */
  ghost predicate Underway(tasks: Registry, visits: seq<Visit>, now: Time, cap: nat, env: Env, tables: Tables, held: Held) {
    && IsRound(visits, now, cap) && Distinct(Attempts(visits, now)) && |Attempts(visits, now)| <= cap
    && AllDone(tasks, visits, now, env, tables, held)
  }

  lemma UnderwayStays(tasks: Registry, visits: seq<Visit>, now: Time, cap: nat, env: Env, before: Tables, after: Tables, held: Held)
    requires Underway(tasks, visits, now, cap, env, before, held) && Respects(before, after, held)
    ensures Underway(tasks, visits, now, cap, env, after, held)
  {
    hide Done, Respects, IsRound, Attempts;
    forall i | 0 <= i < |visits|
      ensures Done(tasks, visits[i], now, env, after, held)
    {
      DoneStays(tasks, visits[i], now, env, before, after, held);
    }
  }

  lemma VisitsAppend(visits: seq<Visit>, v: Visit, now: Time)
    ensures (visits + [v])[..|visits|] == visits && (visits + [v])[|visits|] == v
    ensures Attempts(visits + [v], now) == Attempts(visits, now) + v.Records(now)
  {
    hide Visit.Records;
    assert (visits + [v])[..|visits|] == visits;
  }

  lemma RoundNext(visits: seq<Visit>, v: Visit, now: Time, cap: nat)
    requires IsRound(visits, now, cap) && IsVisit(v, now) && |Attempts(visits, now)| < cap
    requires v.slots == Slots(cap, |Attempts(visits, now)|) && forall i :: 0 <= i < |visits| ==> visits[i].tenant != v.tenant
    ensures IsRound(visits + [v], now, cap) && |Attempts(visits + [v], now)| <= cap
    ensures Attempts(visits + [v], now) == Attempts(visits, now) + v.Records(now)
  {
    hide IsVisit, Visit.Records, Attempts;
    VisitsAppend(visits, v, now);
    VisitRecords(v, now);
  }

  lemma UnderwayNext(tasks: Registry, visits: seq<Visit>, v: Visit, now: Time, cap: nat, env: Env, mid: Tables, held: Held)
    requires Underway(tasks, visits, now, cap, env, mid, held) && IsVisit(v, now) && mid.rows == v.second
    requires |Attempts(visits, now)| < cap && v.slots == Slots(cap, |Attempts(visits, now)|)
    requires forall i :: 0 <= i < |visits| ==> visits[i].tenant != v.tenant
    ensures Underway(tasks, visits + [v], now, cap, env, Visited(tasks, v, now, env, mid), Holding(held, v, now))
  {
    hide Done, Visit.Records, IsVisit, IsRound, Attempts, Visited, Holding;
    RoundNext(visits, v, now, cap);
    NewDone(tasks, v, now, env, mid, held);
    forall i | 0 <= i < |visits|
      ensures Done(tasks, visits[i], now, env, Visited(tasks, v, now, env, mid), Holding(held, v, now))
      ensures forall id :: id in visits[i].Records(now) ==> id !in v.Records(now)
    {
      DoneBeside(tasks, visits[i], v, now, env, mid, held);
    }
    forall id | id in Attempts(visits, now)
      ensures id !in v.Records(now)
    {
      AttemptsAreRecords(visits, now, id);
    }
    VisitRecords(v, now);
    ConcatDistinct(Attempts(visits, now), v.Records(now));
  }

  /** The limits of a round: five attempts for a tenant, no tenant twice. */
  lemma {:induction false} RoundLimits(visits: seq<Visit>, now: Time, cap: nat, i: nat)
    requires IsRound(visits, now, cap) && i < |visits|
    ensures IsVisit(visits[i], now) && 1 <= visits[i].slots <= PER_TENANT && |visits[i].Records(now)| <= PER_TENANT
    ensures forall j :: i < j < |visits| ==> visits[j].tenant != visits[i].tenant
  {
    hide Visit.Records, Attempts, IsVisit;
    var n := |visits| - 1;
    if i < n {
      RoundLimits(visits[..n], now, cap, i);
    } else {
      VisitRecords(visits[n], now);
    }
  }

  // ---- the round ------------------------------------------------------------------------------

  /** Where a round is: what it holds, its queries so far, its attempts, and how many of them succeeded. */
  datatype Progress = Progress(held: Held, queries: nat, attempted: nat, published: nat)

  ghost function View(d: D.Dispatcher): Tables
    reads d
  {
    Tables(d.rows, d.cursors)
  }

  /** What others do before the next query. */
  method Meanwhile(d: D.Dispatcher, w: World, n: nat, held: Held)
    requires w.Fair()
    modifies d`rows, d`cursors
    ensures Respects(old(View(d)), View(d), held)
  {
    var after := w.others(n, Tables(d.rows, d.cursors), held);
    d.rows, d.cursors := after.rows, after.cursors;
  }

  /** The two queries for a tenant whose cursor is locked. */
  method LockRecords(d: D.Dispatcher, t: Uuid, slots: nat, now: Time, w: World, n: nat, held: Held)
    returns (records: seq<Uuid>, ghost v: Visit)
    requires w.Fair() && slots >= 1
    modifies d`rows, d`cursors
    ensures v.tenant == t && v.slots == slots && IsVisit(v, now) && records == v.Records(now) && v.second == d.rows
    ensures Respects(old(View(d)), View(d), held)
  {
    Meanwhile(d, w, n, held);
    ghost var first := d.rows;
    records := Take(DueInOrder(d.rows, t, now, w.locks(n).rows, true), 1);
    Meanwhile(d, w, n + 1, Held(held.rows + Elements(records), held.tenants));
    if slots > |records| {
      records := records + Take(DueInOrder(d.rows, t, now, w.locks(n + 1).rows, false), slots - |records|);
    }
    v := Visit(t, slots, first, w.locks(n).rows, d.rows, w.locks(n + 1).rows);
  }

  /** Locks the due rows of a tenant whose cursor is locked, attempts them, and moves the cursor if there were any. */
  method ServeLocked(d: D.Dispatcher, t: Uuid, slots: nat, now: Time, w: World, n: nat, held: Held)
    returns (size: nat, published: nat, after: Held, ghost v: Visit, ghost mid: Tables)
    requires w.Fair() && slots >= 1 && t in held.tenants
    modifies d`rows, d`cursors, d`sent
    ensures v.tenant == t && v.slots == slots && IsVisit(v, now) && v.second == mid.rows && size == |v.Records(now)|
    ensures Respects(old(View(d)), mid, held) && View(d) == Visited(d.tasks, v, now, w.env, mid)
    ensures after == Held(held.rows + Elements(v.Records(now)), held.tenants)
    ensures d.sent == old(d.sent) + Messages(d.tasks, v.second, v.Records(now), w.env)
    ensures published == |Messages(d.tasks, v.second, v.Records(now), w.env)|
  {
    hide DueInOrder, Respects, Visit.Records, IsVisit;
    var records;
    records, v := LockRecords(d, t, slots, now, w, n, held);
    mid := View(d);
    VisitRecords(v, now);
    published := d.AttemptBatch(records, w.env);
    if records != [] {
      d.cursors := d.cursors[t := Some(w.env.servedAt(t))];
    }
    size, after := |records|, Held(held.rows + Elements(records), held.tenants);
  }

  /** What the round has sent, and how much that is. */
  ghost predicate Counts(tasks: Registry, visits: seq<Visit>, now: Time, env: Env, before: seq<Message>, sent: seq<Message>, p: Progress) {
    && sent == before + Handed(tasks, visits, now, env) && p.published == |Handed(tasks, visits, now, env)|
    && p.attempted == |Attempts(visits, now)|
  }

  lemma CountsNext(tasks: Registry, visits: seq<Visit>, v: Visit, now: Time, env: Env, before: seq<Message>, sent: seq<Message>,
                   p: Progress, q: Progress)
    requires Counts(tasks, visits, now, env, before, sent, p)
    requires q.published == p.published + |Messages(tasks, v.second, v.Records(now), env)|
    requires q.attempted == p.attempted + |v.Records(now)|
    ensures Counts(tasks, visits + [v], now, env, before, sent + Messages(tasks, v.second, v.Records(now), env), q)
  {
    hide Visit.Records, Messages;
    VisitsAppend(visits, v, now);
  }

  /** Serves one tenant, unless its cursor is locked or gone; `visits` is the round so far. */
  method Serve(d: D.Dispatcher, t: Uuid, now: Time, cap: nat, w: World, p: Progress, ghost visits: seq<Visit>, ghost before: seq<Message>)
    returns (q: Progress, ghost more: seq<Visit>)
    requires w.Fair() && Underway(d.tasks, visits, now, cap, w.env, View(d), p.held) && p.attempted < cap
    requires Counts(d.tasks, visits, now, w.env, before, d.sent, p) && forall i :: 0 <= i < |visits| ==> visits[i].tenant != t
    modifies d`rows, d`cursors, d`sent
    ensures more == visits || (|more| == |visits| + 1 && more[..|visits|] == visits && more[|visits|].tenant == t)
    ensures Underway(d.tasks, more, now, cap, w.env, View(d), q.held) && Counts(d.tasks, more, now, w.env, before, d.sent, q)
  {
    hide Underway, Visit.Records, IsVisit, Visited, Attempts, Handed, Messages, World.Fair;
    Meanwhile(d, w, p.queries, p.held);
    UnderwayStays(d.tasks, visits, now, cap, w.env, old(View(d)), View(d), p.held);
    if t !in d.cursors || t in w.locks(p.queries).tenants { return p.(queries := p.queries + 1), visits; }
    label Locked:
    var size, published, held;
    ghost var v, mid;
    size, published, held, v, mid := ServeLocked(d, t, Slots(cap, p.attempted), now, w, p.queries + 1,
                                                 Held(p.held.rows, p.held.tenants + {t}));
    q := Progress(held, p.queries + 3, p.attempted + size, p.published + published);
    UnderwayStays(d.tasks, visits, now, cap, w.env, old@Locked(View(d)), mid, p.held);
    UnderwayNext(d.tasks, visits, v, now, cap, w.env, mid, p.held);
    CountsNext(d.tasks, visits, v, now, w.env, before, old(d.sent), p, q);
    VisitsAppend(visits, v, now);
    more := visits + [v];
  }

  ghost predicate Of(visits: seq<Visit>, tenants: set<Uuid>) {
    forall i :: 0 <= i < |visits| ==> visits[i].tenant in tenants
  }

  lemma OfMore(visits: seq<Visit>, more: seq<Visit>, checked: set<Uuid>, page: seq<Uuid>, i: nat)
    requires i < |page| && Of(visits, checked + Elements(page[..i]))
    requires more == visits || (|more| == |visits| + 1 && more[..|visits|] == visits && more[|visits|].tenant == page[i])
    ensures Of(more, checked + Elements(page[..i + 1]))
  {
    forall j | 0 <= j < |visits|
      ensures visits[j].tenant in checked + Elements(page[..i + 1])
    {
      assert visits[j].tenant in page[..i] ==> visits[j].tenant in page[..i + 1];
    }
    assert page[i] in page[..i + 1];
    assert forall j :: 0 <= j < |visits| && more != visits ==> more[j] == more[..|visits|][j];
  }

  lemma NotYet(visits: seq<Visit>, checked: set<Uuid>, page: seq<Uuid>, i: nat)
    requires i < |page| && Distinct(page) && page[i] !in checked && Of(visits, checked + Elements(page[..i]))
    ensures forall j :: 0 <= j < |visits| ==> visits[j].tenant != page[i]
  {
  }

  /** Serves the tenants of a page, none of them visited before, until the limit is reached. */
  method ServePage(d: D.Dispatcher, page: seq<Uuid>, now: Time, cap: nat, w: World, p: Progress, ghost checked: set<Uuid>,
                   ghost visits: seq<Visit>, ghost before: seq<Message>)
    returns (q: Progress, ghost more: seq<Visit>)
    requires w.Fair() && Underway(d.tasks, visits, now, cap, w.env, View(d), p.held)
    requires Counts(d.tasks, visits, now, w.env, before, d.sent, p)
    requires Distinct(page) && (forall t :: t in page ==> t !in checked) && Of(visits, checked)
    modifies d`rows, d`cursors, d`sent
    ensures Underway(d.tasks, more, now, cap, w.env, View(d), q.held) && Counts(d.tasks, more, now, w.env, before, d.sent, q)
    ensures Of(more, checked + Elements(page)) && |more| <= |visits| + |page|
  {
    hide Underway, Counts, World.Fair;
    q, more := p, visits;
    var i := 0;
    while i < |page| && q.attempted < cap
      invariant i <= |page| && Of(more, checked + Elements(page[..i])) && |more| <= |visits| + i
      invariant Underway(d.tasks, more, now, cap, w.env, View(d), q.held)
      invariant Counts(d.tasks, more, now, w.env, before, d.sent, q)
    {
      NotYet(more, checked, page, i);
      ghost var visited := more;
      q, more := Serve(d, page[i], now, cap, w, q, visited, before);
      OfMore(visited, more, checked, page, i);
      i := i + 1;
    }
    assert forall t :: t in page[..i] ==> t in page;
  }

  lemma NothingVisited(tasks: Registry, now: Time, cap: nat, env: Env, tables: Tables, sent: seq<Message>, p: Progress)
    requires p.attempted == 0 && p.published == 0
    ensures Underway(tasks, [], now, cap, env, tables, p.held) && Counts(tasks, [], now, env, sent, sent, p) && Of([], {})
  {
  }

  /** The published ones of these rows. */
  function Published(ids: seq<Uuid>, rows: Rows): set<Uuid> {
    set id | id in ids && id in rows && rows[id].publishedAt.Some?
  }

  /**
   At most ten pages of as many tenants as the limit, each of tenants not checked before. The visits are the
   round: within the limit, five for a tenant, no tenant and no row twice, with every row and cursor as the
   attempt has left it, whatever the others have committed in between.
   */
  method Round(d: D.Dispatcher, cap: nat, now: Time, w: World) returns (published: nat, ghost visits: seq<Visit>, ghost held: Held)
    requires w.Fair()
    modifies d`rows, d`cursors, d`sent
    ensures IsRound(visits, now, cap) && |visits| <= MAX_PAGES * cap
    ensures |Attempts(visits, now)| <= cap && Distinct(Attempts(visits, now))
    ensures AllDone(d.tasks, visits, now, w.env, View(d), held)
    ensures d.sent == old(d.sent) + Handed(d.tasks, visits, now, w.env)
    ensures published == |Published(Attempts(visits, now), d.rows)|
  {
    hide Counts, World.Fair, AllDone, IsRound, Attempts, Respects, Handed, Published, D.Times;
    var checked: set<Uuid> := {};
    var p, pages, more := Progress(Held({}, {}), 0, 0, 0), 0, true;
    visits := [];
    ghost var room := D.Times(0, cap);
    NothingVisited(d.tasks, now, cap, w.env, View(d), d.sent, p);
    while pages < MAX_PAGES && more
      invariant Underway(d.tasks, visits, now, cap, w.env, View(d), p.held) && Of(visits, checked)
      invariant Counts(d.tasks, visits, now, w.env, old(d.sent), d.sent, p)
      invariant pages <= MAX_PAGES && |visits| <= room == D.Times(pages, cap)
    {
      label Before:
      D.TimesNext(pages, cap);
      Meanwhile(d, w, p.queries, p.held);
      UnderwayStays(d.tasks, visits, now, cap, w.env, old@Before(View(d)), View(d), p.held);
      var page := Take(Sorted(CursorRank(d.cursors), Candidates(d.rows, d.cursors, now) - checked), cap);
      PageFresh(CursorRank(d.cursors), Candidates(d.rows, d.cursors, now), checked, cap);
      StillCounts(d.tasks, visits, now, w.env, old(d.sent), d.sent, p);
      p, visits := ServePage(d, page, now, cap, w, p.(queries := p.queries + 1), checked, visits, old(d.sent));
      checked, pages, room := checked + Elements(page), pages + 1, room + cap;
      more := p.attempted < cap && |page| == cap;
    }
    D.TenPages(pages, cap);
    held, published := p.held, p.published;
    RoundCounts(d.tasks, visits, now, w.env, View(d), held, old(d.sent), d.sent, p);
  }

  lemma PageFresh(rank: Ranking, candidates: set<Uuid>, checked: set<Uuid>, cap: nat)
    ensures var page := Take(Sorted(rank, candidates - checked), cap); Distinct(page) && forall t :: t in page ==> t !in checked
  {
    var all := Sorted(rank, candidates - checked);
    assert forall t :: t in all ==> t in Elements(all);
    TakeDistinct(all, cap);
  }

  lemma StillCounts(tasks: Registry, visits: seq<Visit>, now: Time, env: Env, before: seq<Message>, sent: seq<Message>, p: Progress)
    requires Counts(tasks, visits, now, env, before, sent, p)
    ensures Counts(tasks, visits, now, env, before, sent, p.(queries := p.queries + 1))
  {
  }

  lemma VisitPublishes(tasks: Registry, v: Visit, now: Time, env: Env, tables: Tables, held: Held)
    requires Done(tasks, v, now, env, tables, held)
    ensures |Messages(tasks, v.second, v.Records(now), env)| == |Published(v.Records(now), tables.rows)|
  {
    hide Visit.Records, IsVisit;
    VisitRecords(v, now);
    MessagesCountPublished(tasks, v.second, v.Records(now), env);
    var after := AttemptAll(tasks, v.second, Elements(v.Records(now)), env);
    assert NewlyPublished(v.second, after) == Published(v.Records(now), tables.rows);
  }

  lemma DistinctParts(a: seq<nat>, b: seq<nat>)
    requires Distinct(a + b)
    ensures Distinct(a) && forall x :: x in a ==> x !in b
  {
    assert forall i :: 0 <= i < |a| ==> (a + b)[i] == a[i];
    assert forall j :: 0 <= j < |b| ==> (a + b)[|a| + j] == b[j];
  }

  lemma {:induction false} HandedCounts(tasks: Registry, visits: seq<Visit>, now: Time, env: Env, tables: Tables, held: Held)
    requires AllDone(tasks, visits, now, env, tables, held) && Distinct(Attempts(visits, now))
    ensures |Handed(tasks, visits, now, env)| == |Published(Attempts(visits, now), tables.rows)|
  {
    hide Visit.Records, Done;
    if visits != [] {
      var n := |visits| - 1;
      var v, ids := visits[n], Attempts(visits[..n], now);
      assert Attempts(visits, now) == ids + v.Records(now);
      DistinctParts(ids, v.Records(now));
      HandedCounts(tasks, visits[..n], now, env, tables, held);
      VisitPublishes(tasks, v, now, env, tables, held);
      var were, are := Published(ids, tables.rows), Published(v.Records(now), tables.rows);
      assert were !! are;
      assert Published(Attempts(visits, now), tables.rows) == were + are;
    }
  }

  lemma RoundCounts(tasks: Registry, visits: seq<Visit>, now: Time, env: Env, tables: Tables, held: Held, before: seq<Message>,
                    sent: seq<Message>, p: Progress)
    requires AllDone(tasks, visits, now, env, tables, held) && Distinct(Attempts(visits, now))
    requires Counts(tasks, visits, now, env, before, sent, p)
    ensures sent == before + Handed(tasks, visits, now, env) && p.published == |Published(Attempts(visits, now), tables.rows)|
  {
    HandedCounts(tasks, visits, now, env, tables, held);
  }
}
