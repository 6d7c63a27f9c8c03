/** What one publisher round attempts: its shape, its bounds, and that nothing is lost. */
module Rounds {
  import opened Overlay
  import opened Ordering
  import opened Serving
  import opened Outbox
  import Payload

  // ---- one tenant's batch ---------------------------------------------------------------------

  lemma DueInOrderMembers(rows: Rows, t: Uuid, now: Time, locked: set<Uuid>, expansion: bool)
    ensures var s := DueInOrder(rows, t, now, locked, expansion);
            Distinct(s) && forall id :: id in s <==> id in DueRows(rows, t, now, locked, expansion)
  {
  }

  lemma TakeDistinct(s: seq<nat>, limit: nat)
    requires Distinct(s)
    ensures Distinct(Take(s, limit)) && forall x :: x in Take(s, limit) ==> x in s
  {
  }

  /** The expansions and the ordinary rows of a batch. */
  function ExpansionPart(rows: Rows, t: Uuid, now: Time, locked: set<Uuid>): seq<Uuid> {
    Take(DueInOrder(rows, t, now, locked, true), 1)
  }

  function OrdinaryPart(rows: Rows, t: Uuid, now: Time, slots: nat, locked: set<Uuid>): seq<Uuid> {
    var e := |ExpansionPart(rows, t, now, locked)|;
    if slots > e then Take(DueInOrder(rows, t, now, locked, false), slots - e) else []
  }

  /** The batch names unlocked due rows of the tenant, each once. */
  lemma BatchRows(rows: Rows, t: Uuid, now: Time, slots: nat, locked: set<Uuid>)
    ensures var batch := Batch(rows, t, now, slots, locked);
            && Distinct(batch)
            && forall id :: id in batch ==> id in rows && rows[id].tenant == t && IsDue(rows[id], now) && id !in locked
  {
    hide DueInOrder;
    var es, os := DueInOrder(rows, t, now, locked, true), DueInOrder(rows, t, now, locked, false);
    var e, o := ExpansionPart(rows, t, now, locked), OrdinaryPart(rows, t, now, slots, locked);
    DueInOrderMembers(rows, t, now, locked, true);
    DueInOrderMembers(rows, t, now, locked, false);
    TakeDistinct(es, 1);
    TakeDistinct(os, if slots > |e| then slots - |e| else 0);
    ConcatDistinct(e, o);
    assert Batch(rows, t, now, slots, locked) == e + o;
  }

  /** Comes earlier in the delivery order of a tenant's rows. */
  predicate Earlier(rows: Rows, x: Uuid, y: Uuid) {
    Ordering.Before(RowRank(rows), x, y)
  }

  lemma FirstIsEarliest(rows: Rows, t: Uuid, now: Time, locked: set<Uuid>, expansion: bool)
    ensures var s := DueInOrder(rows, t, now, locked, expansion);
            s != [] ==> forall x :: x in s && x != s[0] ==> Earlier(rows, s[0], x)
  {
    var s := DueInOrder(rows, t, now, locked, expansion);
    forall x | x in s && x != s[0]
      ensures Earlier(rows, s[0], x)
    {
      var i :| 0 <= i < |s| && s[i] == x;
    }
  }

  /** A due expansion, the earliest one, is attempted first, and no other one is attempted. */
  lemma BatchExpansion(rows: Rows, t: Uuid, now: Time, slots: nat, locked: set<Uuid>)
    ensures var batch := Batch(rows, t, now, slots, locked);
            var es := DueRows(rows, t, now, locked, true);
            es != {} ==> batch != [] && batch[0] in es &&
                         forall e :: e in es && e != batch[0] ==> Earlier(rows, batch[0], e) && e !in batch
  {
    hide DueInOrder, Earlier;
    var es, os := DueInOrder(rows, t, now, locked, true), DueInOrder(rows, t, now, locked, false);
    var o := OrdinaryPart(rows, t, now, slots, locked);
    DueInOrderMembers(rows, t, now, locked, true);
    DueInOrderMembers(rows, t, now, locked, false);
    FirstIsEarliest(rows, t, now, locked, true);
    TakeDistinct(os, if slots > 1 then slots - 1 else 0);
    if es != [] {
      assert Batch(rows, t, now, slots, locked) == [es[0]] + o;
    }
  }

  /** Ordinary rows are attempted in order, without gaps, and until none is left or the slots are used. */
  lemma BatchOrdinary(rows: Rows, t: Uuid, now: Time, slots: nat, locked: set<Uuid>)
    ensures var batch := Batch(rows, t, now, slots, locked);
            var os := DueRows(rows, t, now, locked, false);
            && (forall x, y :: x in os && y in os && x in batch && Earlier(rows, y, x) ==> y in batch)
            && (|batch| < slots ==> forall x :: x in os ==> x in batch)
  {
  }

  lemma BatchSize(rows: Rows, t: Uuid, now: Time, slots: nat, locked: set<Uuid>)
    requires slots >= 1
    ensures var batch := Batch(rows, t, now, slots, locked);
            |batch| <= slots &&
            (batch == [] <==> DueRows(rows, t, now, locked, true) + DueRows(rows, t, now, locked, false) == {})
  {
  }

  /** With a single slot a due expansion takes it; with two, an ordinary row that is due always gets one. */
  lemma OrdinaryProgress(rows: Rows, t: Uuid, now: Time, slots: nat, locked: set<Uuid>)
    requires slots >= 1 && DueRows(rows, t, now, locked, false) != {}
    ensures var os := DueRows(rows, t, now, locked, false);
            (exists x :: x in os && x in Batch(rows, t, now, slots, locked)) <==>
            slots >= 2 || DueRows(rows, t, now, locked, true) == {}
  {
  }

  // ---- the whole round ------------------------------------------------------------------------

  /** The rows of these tenants are the same in both tables. */
  ghost predicate SameFor(rows: Rows, other: Rows, tenants: set<Uuid>) {
    rows.Keys == other.Keys &&
    forall id :: id in rows && (rows[id].tenant in tenants || other[id].tenant in tenants) ==> other[id] == rows[id]
  }

  lemma DueAgrees(rows: Rows, other: Rows, t: Uuid, now: Time, locked: set<Uuid>, expansion: bool)
    requires SameFor(rows, other, {t})
    ensures DueInOrder(rows, t, now, locked, expansion) == DueInOrder(other, t, now, locked, expansion)
  {
    var due := DueRows(rows, t, now, locked, expansion);
    assert due == DueRows(other, t, now, locked, expansion);
    SortedAgrees(RowRank(rows), RowRank(other), due);
  }

  /** A batch looks only at the rows of its tenant. */
  lemma BatchAgrees(rows: Rows, other: Rows, t: Uuid, now: Time, slots: nat, locked: set<Uuid>)
    requires SameFor(rows, other, {t})
    ensures Batch(rows, t, now, slots, locked) == Batch(other, t, now, slots, locked)
  {
    DueAgrees(rows, other, t, now, locked, true);
    DueAgrees(rows, other, t, now, locked, false);
  }

  function Owner(rows: Rows): Uuid -> Uuid {
    id => if id in rows then rows[id].tenant else 0
  }

  lemma BatchesOwned(rows: Rows, now: Time, locked: set<Uuid>)
    ensures Owned(BatchesOf(rows, now, locked), Owner(rows))
  {
    forall t, slots
      ensures var batch := BatchesOf(rows, now, locked)(t, slots);
              Distinct(batch) && forall id :: id in batch ==> Owner(rows)(id) == t
    {
      BatchRows(rows, t, now, slots, locked);
    }
  }

  /** No row is attempted twice, and attempted rows are unlocked due rows of listed tenants. */
  lemma PlannedRows(rows: Rows, order: seq<Uuid>, now: Time, limit: nat, attempted: nat, locks: Locks)
    requires attempted <= limit && Distinct(order)
    ensures var ids := AttemptedIds(Plan(BatchesOf(rows, now, locks.rows), order, limit, attempted, locks.tenants));
            && Distinct(ids)
            && forall id :: id in ids ==> && id in rows && IsDue(rows[id], now) && id !in locks.rows
                                          && rows[id].tenant in order && rows[id].tenant !in locks.tenants
  {
    var f := BatchesOf(rows, now, locks.rows);
    BatchesOwned(rows, now, locks.rows);
    PlanRows(f, Owner(rows), order, limit, attempted, locks.tenants);
    var ids := AttemptedIds(Plan(f, order, limit, attempted, locks.tenants));
    forall id | id in ids
      ensures id in rows && IsDue(rows[id], now) && id !in locks.rows
      ensures rows[id].tenant in order && rows[id].tenant !in locks.tenants
    {
      var slots :| id in f(Owner(rows)(id), slots);
      BatchRows(rows, Owner(rows)(id), now, slots, locks.rows);
    }
  }

  lemma OrderDistinct(rows: Rows, cursors: Cursors, now: Time, n: nat)
    ensures var order := CandidateOrder(rows, cursors, now);
            Distinct(order) && Distinct(Take(order, n)) && forall t :: t in order <==> t in Candidates(rows, cursors, now)
  {
  }

  /**
   The shape of a round. Each service is of a different, unlocked tenant that had a due row; its attempts
   are its batch for one to five slots; and all attempts together stay within the limit, each row once.
   */
  lemma RoundShape(rows: Rows, cursors: Cursors, now: Time, limit: nat, locks: Locks)
    ensures var plan := RoundPlan(rows, cursors, now, limit, locks);
            var ids := AttemptedIds(plan);
            && |ids| <= limit && Distinct(ids)
            && (forall id :: id in ids ==> id in rows && IsDue(rows[id], now) && id !in locks.rows)
            && DistinctTenants(plan)
            && (forall i :: 0 <= i < |plan| ==>
                  && plan[i].tenant in Candidates(rows, cursors, now) && plan[i].tenant !in locks.tenants
                  && exists slots :: 1 <= slots <= PER_TENANT && plan[i].batch == Batch(rows, plan[i].tenant, now, slots, locks.rows))
  {
    var order := Take(CandidateOrder(rows, cursors, now), MAX_PAGES * limit);
    var f := BatchesOf(rows, now, locks.rows);
    OrderDistinct(rows, cursors, now, MAX_PAGES * limit);
    PlanTotal(f, order, limit, 0, locks.tenants);
    PlannedRows(rows, order, now, limit, 0, locks);
    PlanTenants(f, order, limit, 0, locks.tenants);
    var plan := RoundPlan(rows, cursors, now, limit, locks);
    forall i | 0 <= i < |plan|
      ensures plan[i].tenant in Candidates(rows, cursors, now) && plan[i].tenant !in locks.tenants
      ensures exists slots :: 1 <= slots <= PER_TENANT && plan[i].batch == Batch(rows, plan[i].tenant, now, slots, locks.rows)
    {
      PlanServices(f, order, limit, 0, locks.tenants, i);
      var slots :| 1 <= slots <= PER_TENANT && plan[i].batch == f(plan[i].tenant, slots);
      assert plan[i].batch == Batch(rows, plan[i].tenant, now, slots, locks.rows);
    }
  }

  /** A page read in the middle of the round continues the order that the round started with. */
  lemma NextPage(rows: Rows, cursors: Cursors, now: Time, n: nat, rows': Rows, cursors': Cursors)
    requires n <= |CandidateOrder(rows, cursors, now)|
    requires var checked := Elements(CandidateOrder(rows, cursors, now)[..n]);
             && cursors'.Keys == cursors.Keys
             && (forall t :: t in cursors && t !in checked ==> cursors'[t] == cursors[t])
             && SameExcept(rows, rows', checked)
    ensures var order := CandidateOrder(rows, cursors, now);
            Sorted(CursorRank(cursors'), Candidates(rows', cursors', now) - Elements(order[..n])) == order[n..]
  {
    var order := CandidateOrder(rows, cursors, now);
    var checked := Elements(order[..n]);
    var rest := Candidates(rows, cursors, now) - checked;
    assert Candidates(rows', cursors', now) - checked == rest by {
      forall t
        ensures t in Candidates(rows', cursors', now) - checked <==> t in rest
      {
        if t in rest {
          var id :| id in rows && rows[id].tenant == t && IsDue(rows[id], now);
          assert rows'[id] == rows[id];
        }
        if t in Candidates(rows', cursors', now) - checked {
          var id :| id in rows' && rows'[id].tenant == t && IsDue(rows'[id], now);
          assert rows'[id] == rows[id];
        }
      }
    }
    SortedSuffix(CursorRank(cursors), Candidates(rows, cursors, now), n);
    SortedAgrees(CursorRank(cursors), CursorRank(cursors'), rest);
  }

  /** Only rows of these tenants may differ. */
  ghost predicate SameExcept(rows: Rows, other: Rows, tenants: set<Uuid>) {
    rows.Keys == other.Keys &&
    forall id :: id in rows && (rows[id].tenant !in tenants || other[id].tenant !in tenants) ==> other[id] == rows[id]
  }

  /** The batches of tenants whose rows are untouched are as they were. */
  lemma PlanFrom(rows: Rows, rows': Rows, tenants: set<Uuid>, order: seq<Uuid>, now: Time, limit: nat, attempted: nat, locks: Locks)
    requires attempted <= limit && SameExcept(rows, rows', tenants) && forall t :: t in order ==> t !in tenants
    ensures Plan(BatchesOf(rows', now, locks.rows), order, limit, attempted, locks.tenants) ==
            Plan(BatchesOf(rows, now, locks.rows), order, limit, attempted, locks.tenants)
  {
    forall t, slots | t in order
      ensures BatchesOf(rows', now, locks.rows)(t, slots) == BatchesOf(rows, now, locks.rows)(t, slots)
    {
      BatchAgrees(rows, rows', t, now, slots, locks.rows);
    }
    PlanAgrees(BatchesOf(rows', now, locks.rows), BatchesOf(rows, now, locks.rows), order, limit, attempted, locks.tenants);
  }

  /** Without contention a full page uses the whole limit. */
  lemma FullPageIsEnough(rows: Rows, cursors: Cursors, now: Time, limit: nat, n: nat)
    requires n <= |CandidateOrder(rows, cursors, now)|
    ensures var front := CandidateOrder(rows, cursors, now)[..n];
            var total := |AttemptedIds(Plan(BatchesOf(rows, now, {}), front, limit, 0, {}))|;
            total == limit || total >= n
  {
    var order := CandidateOrder(rows, cursors, now);
    var f := BatchesOf(rows, now, {});
    OrderDistinct(rows, cursors, now, n);
    forall t, slots | t in order[..n] && slots >= 1
      ensures f(t, slots) != []
    {
      assert t in order;
      CandidateHasBatch(rows, cursors, now, t, slots);
    }
    PlanUsesLimit(f, order[..n], limit, 0);
  }

  lemma CandidateHasBatch(rows: Rows, cursors: Cursors, now: Time, t: Uuid, slots: nat)
    requires t in Candidates(rows, cursors, now) && slots >= 1
    ensures Batch(rows, t, now, slots, {}) != []
  {
    BatchSize(rows, t, now, slots, {});
    var id :| id in rows && rows[id].tenant == t && IsDue(rows[id], now);
    assert id in DueRows(rows, t, now, {}, rows[id].task == EXPANSION_TASK);
  }

  // ---- effects --------------------------------------------------------------------------------

  lemma AttemptKeepsOthers(tasks: Registry, rows: Rows, ids: set<Uuid>, env: Env, tenants: set<Uuid>)
    requires forall id :: id in ids && id in rows ==> rows[id].tenant !in tenants
    ensures SameFor(rows, AttemptAll(tasks, rows, ids, env), tenants)
  {
  }

  lemma {:induction false} MessagesConcat(tasks: Registry, rows: Rows, a: seq<Uuid>, b: seq<Uuid>, env: Env)
    ensures Messages(tasks, rows, a + b, env) == Messages(tasks, rows, a, env) + Messages(tasks, rows, b, env)
    decreases |b|
  {
    if b == [] {
      assert a + b == a;
    } else {
      var n := |b| - 1;
      assert (a + b)[..|a + b| - 1] == a + b[..n] && (a + b)[|a + b| - 1] == b[n];
      MessagesConcat(tasks, rows, a, b[..n], env);
    }
  }

  /** Messages depend only on the rows that are attempted. */
  lemma {:induction false} MessagesAgree(tasks: Registry, rows: Rows, other: Rows, ids: seq<Uuid>, env: Env)
    requires forall id :: id in ids ==> id in rows && id in other && rows[id] == other[id]
    ensures Messages(tasks, rows, ids, env) == Messages(tasks, other, ids, env)
    decreases |ids|
  {
    if ids != [] { MessagesAgree(tasks, rows, other, ids[..|ids| - 1], env); }
  }

  lemma ServeUnion(cursors: Cursors, a: set<Uuid>, b: set<Uuid>, env: Env)
    ensures ServeAll(ServeAll(cursors, a, env), b, env) == ServeAll(cursors, a + b, env)
  {
  }

  lemma AttemptInTurn(tasks: Registry, rows: Rows, a: seq<Uuid>, b: seq<Uuid>, env: Env)
    requires forall id :: id in b ==> id !in a
    ensures AttemptAll(tasks, AttemptAll(tasks, rows, Elements(a), env), Elements(b), env) ==
            AttemptAll(tasks, rows, Elements(a + b), env)
  {
  }

  lemma MessagesInTurn(tasks: Registry, rows: Rows, a: seq<Uuid>, b: seq<Uuid>, env: Env)
    requires forall id :: id in b ==> id in rows && id !in a
    ensures Messages(tasks, rows, a, env) + Messages(tasks, AttemptAll(tasks, rows, Elements(a), env), b, env) ==
            Messages(tasks, rows, a + b, env)
  {
    var after := AttemptAll(tasks, rows, Elements(a), env);
    forall id | id in b
      ensures id in after && rows[id] == after[id]
    {
    }
    MessagesConcat(tasks, rows, a, b, env);
    MessagesAgree(tasks, rows, after, b, env);
  }

  /** Serving two lists of tenants with different rows, one list after the other, is serving them together. */
  lemma OutcomeConcat(tasks: Registry, s: State, a: seq<Service>, b: seq<Service>, env: Env)
    requires forall id :: id in AttemptedIds(b) ==> id in s.rows && id !in AttemptedIds(a)
    ensures Outcome(tasks, Outcome(tasks, s, a, env), b, env) == Outcome(tasks, s, a + b, env)
  {
    var x, y := AttemptedIds(a), AttemptedIds(b);
    AttemptedConcat(a, b);
    ServedConcat(a, b);
    AttemptInTurn(tasks, s.rows, x, y, env);
    MessagesInTurn(tasks, s.rows, x, y, env);
    Associative(s.sent, Messages(tasks, s.rows, x, env),
                Messages(tasks, AttemptAll(tasks, s.rows, Elements(x), env), y, env));
    ServeUnion(s.cursors, Served(a), Served(b), env);
  }

  lemma OutcomeNothing(tasks: Registry, s: State, env: Env)
    ensures Outcome(tasks, s, [], env) == s
  {
  }

  lemma ServedOne(s: Service)
    ensures Served([s]) == if s.batch == [] then {} else {s.tenant}
    ensures AttemptedIds([s]) == s.batch
  {
    AttemptedFirst(s, []);
    assert [s] == [s] + [];
    assert forall u :: u in Served([s]) <==> s.batch != [] && u == s.tenant;
  }

  lemma ServeOneTenant(cursors: Cursors, t: Uuid, env: Env)
    requires t in cursors
    ensures ServeAll(cursors, {t}, env) == cursors[t := Some(env.servedAt(t))]
    ensures ServeAll(cursors, {}, env) == cursors
  {
  }

  /** One service: its batch, and its cursor when the batch is not empty. */
  lemma OutcomeOne(tasks: Registry, s: State, t: Uuid, batch: seq<Uuid>, env: Env)
    requires t in s.cursors
    ensures Outcome(tasks, s, [Service(t, batch)], env) ==
            State(AttemptAll(tasks, s.rows, Elements(batch), env),
                  if batch == [] then s.cursors else s.cursors[t := Some(env.servedAt(t))],
                  s.sent + Messages(tasks, s.rows, batch, env))
  {
    ServedOne(Service(t, batch));
    ServeOneTenant(s.cursors, t, env);
  }

  /** The rows that become published: unpublished before and published after. */
  function NewlyPublished(rows: Rows, after: Rows): set<Uuid> {
    set id | id in rows && id in after && rows[id].publishedAt.None? && after[id].publishedAt.Some?
  }

  lemma PublishedGrows(tasks: Registry, rows: Rows, ids: set<Uuid>, id: Uuid, env: Env)
    requires id in rows && id !in ids && rows[id].publishedAt.None?
    ensures var before, after := AttemptAll(tasks, rows, ids, env), AttemptAll(tasks, rows, ids + {id}, env);
            && id !in NewlyPublished(rows, before)
            && NewlyPublished(rows, after) ==
               NewlyPublished(rows, before) + if Sent(tasks, rows[id], id, env) then {id} else {}
  {
  }

  lemma NothingNew(tasks: Registry, rows: Rows, env: Env)
    ensures NewlyPublished(rows, AttemptAll(tasks, rows, Elements([]), env)) == {}
  {
  }

  lemma LastElement(ids: seq<Uuid>)
    requires ids != [] && Distinct(ids)
    ensures Elements(ids) == Elements(ids[..|ids| - 1]) + {ids[|ids| - 1]} && ids[|ids| - 1] !in Elements(ids[..|ids| - 1])
  {
    assert ids == ids[..|ids| - 1] + [ids[|ids| - 1]];
  }

  /** As many messages are sent as rows become published. */
  lemma {:induction false} MessagesCountPublished(tasks: Registry, rows: Rows, ids: seq<Uuid>, env: Env)
    requires Distinct(ids) && forall id :: id in ids ==> id in rows && rows[id].publishedAt.None?
    ensures |Messages(tasks, rows, ids, env)| == |NewlyPublished(rows, AttemptAll(tasks, rows, Elements(ids), env))|
    decreases |ids|
  {
    hide Sent, Attempted, MessageOf, AttemptAll, NewlyPublished, Elements;
    if ids == [] {
      NothingNew(tasks, rows, env);
    } else {
      var n := |ids| - 1;
      MessagesCountPublished(tasks, rows, ids[..n], env);
      LastElement(ids);
      PublishedGrows(tasks, rows, Elements(ids[..n]), ids[n], env);
    }
  }

  /** The row can be sent, and the message is its own: id, tenant, actor, task, its queue, and the payload unchanged. */
  predicate CarriesRow(tasks: Registry, row: Row, m: Message) {
    && Sendable(tasks, row) && m.tenant == row.tenant && m.actor == row.actor && m.task == row.task && m.payload == row.payload
    && row.task in tasks && m.queue == tasks[row.task]
  }

  /** Every message is of a row that becomes published, and carries that row. */
  lemma {:induction false} MessagesCarryRows(tasks: Registry, rows: Rows, ids: seq<Uuid>, env: Env, m: Message)
    requires forall id :: id in ids ==> id in rows
    requires m in Messages(tasks, rows, ids, env)
    ensures m.id in ids && Sent(tasks, rows[m.id], m.id, env) && CarriesRow(tasks, rows[m.id], m)
    decreases |ids|
  {
    var n := |ids| - 1;
    if m in Messages(tasks, rows, ids[..n], env) {
      MessagesCarryRows(tasks, rows, ids[..n], env, m);
    } else {
      Payload.ValidateIsSnapshot(rows[ids[n]].payload);
    }
  }

  /**
   Conservation: a round loses and adds no row, changes nothing but the attempts and times of the rows it
   attempts, raises their attempts by one, and leaves each either published or due again no sooner than
   two seconds after its attempt.
   */
  lemma AttemptConserves(tasks: Registry, rows: Rows, ids: set<Uuid>, env: Env)
    ensures var after := AttemptAll(tasks, rows, ids, env);
            && after.Keys == rows.Keys
            && forall id :: id in rows ==>
                 && after[id].(availableAt := 0, publishedAt := None, attempts := 0) ==
                    rows[id].(availableAt := 0, publishedAt := None, attempts := 0)
                 && (id !in ids ==> after[id] == rows[id])
                 && (id in ids ==> after[id].attempts == rows[id].attempts + 1 &&
                                   (after[id].publishedAt.Some? || after[id].availableAt >= env.doneAt(id) + 2 * SECOND))
  {
    forall id | id in rows && id in ids
      ensures env.doneAt(id) + Backoff(rows[id].attempts + 1) >= env.doneAt(id) + 2 * SECOND
    {
      BackoffRange(rows[id].attempts + 1);
    }
  }
}
