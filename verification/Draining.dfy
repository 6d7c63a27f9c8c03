/** Consecutive publisher rounds: what they publish, when they have nothing left, and that none repeats a row. */
module Draining {
  import opened Overlay
  import opened Ordering
  import opened Serving
  import opened Outbox
  import opened Rounds

  /** The outside of one round; `late` says that the time budget is used up after it. */
  datatype Turn = Turn(now: Time, locks: Locks, env: Env, late: bool)

  ghost function Round(tasks: Registry, s: State, cap: nat, turn: Turn): State {
    Outcome(tasks, s, RoundPlan(s.rows, s.cursors, turn.now, cap, turn.locks), turn.env)
  }

  /**
   Rounds one after the other. Whatever other transactions commit between the end of one and the start of the
   next is in the difference of the two states.
   */
  ghost predicate IsDrain(tasks: Registry, starts: seq<State>, ends: seq<State>, turns: nat -> Turn, cap: nat) {
    && |starts| == |ends|
    && forall i :: 0 <= i < |starts| ==> ends[i] == Round(tasks, starts[i], cap, turns(i))
  }

  /** The rows that a round publishes. */
  ghost function PublishedAt(starts: seq<State>, ends: seq<State>, i: nat): set<Uuid>
    requires i < |starts| == |ends|
  {
    NewlyPublished(starts[i].rows, ends[i].rows)
  }

  /** What all rounds publish. */
  ghost function PublishedIn(starts: seq<State>, ends: seq<State>): nat
    requires |starts| == |ends|
  {
    if starts == [] then 0
    else
      var n := |starts| - 1;
      PublishedIn(starts[..n], ends[..n]) + |PublishedAt(starts, ends, n)|
  }

  lemma PublishedNext(starts: seq<State>, ends: seq<State>, start: State, end: State)
    requires |starts| == |ends|
    ensures PublishedIn(starts + [start], ends + [end]) == PublishedIn(starts, ends) + |NewlyPublished(start.rows, end.rows)|
  {
    assert (starts + [start])[..|starts|] == starts && (ends + [end])[..|ends|] == ends;
  }

  predicate IsPublished(rows: Rows, id: Uuid) {
    id in rows && rows[id].publishedAt.Some?
  }

  /** Between rounds nobody makes the row unpublished again. */
  predicate StaysPublished(rows: Rows, later: Rows, id: Uuid) {
    IsPublished(rows, id) ==> IsPublished(later, id)
  }

  lemma RoundKeepsPublished(tasks: Registry, s: State, cap: nat, turn: Turn, id: Uuid)
    requires IsPublished(s.rows, id)
    ensures IsPublished(Round(tasks, s, cap, turn).rows, id)
  {
    hide RoundPlan, Batch, Candidates, DistinctTenants;
    RoundShape(s.rows, s.cursors, turn.now, cap, turn.locks);
  }

  lemma NowPublished(starts: seq<State>, ends: seq<State>, id: Uuid, i: nat)
    requires i < |starts| == |ends| && id in PublishedAt(starts, ends, i)
    ensures IsPublished(ends[i].rows, id)
  {
  }

  /** Published, and nobody makes it unpublished: it is published at the start of every later round. */
  lemma {:induction false} PublishedStays(tasks: Registry, starts: seq<State>, ends: seq<State>, turns: nat -> Turn, cap: nat, id: Uuid,
                                          i: nat, j: nat)
    requires IsDrain(tasks, starts, ends, turns, cap) && i < j < |starts| && id in PublishedAt(starts, ends, i)
    requires forall k :: i <= k < j ==> StaysPublished(ends[k].rows, starts[k + 1].rows, id)
    ensures IsPublished(starts[j].rows, id)
    decreases j
  {
    hide Round, IsPublished, PublishedAt;
    NowPublished(starts, ends, id, i);
    if j > i + 1 {
      PublishedStays(tasks, starts, ends, turns, cap, id, i, j - 1);
      RoundKeepsPublished(tasks, starts[j - 1], cap, turns(j - 1), id);
    }
    assert StaysPublished(ends[j - 1].rows, starts[j].rows, id);
  }

  /** Two rounds publish the same row only if it was made unpublished between them. */
  lemma PublishedApart(tasks: Registry, starts: seq<State>, ends: seq<State>, turns: nat -> Turn, cap: nat, id: Uuid, i: nat, j: nat)
    requires IsDrain(tasks, starts, ends, turns, cap) && i < j < |starts| && id in PublishedAt(starts, ends, i)
    requires forall k :: i <= k < j ==> StaysPublished(ends[k].rows, starts[k + 1].rows, id)
    ensures id !in PublishedAt(starts, ends, j)
  {
    PublishedStays(tasks, starts, ends, turns, cap, id, i, j);
  }

  // ---- nothing is attempted twice -------------------------------------------------------------

  /** The rows that a round attempts. */
  ghost function Attempts(s: State, cap: nat, turn: Turn): set<Uuid> {
    Elements(AttemptedIds(RoundPlan(s.rows, s.cursors, turn.now, cap, turn.locks)))
  }

  /** Not there, published, or not due before two seconds after the start. */
  predicate Calm(rows: Rows, id: Uuid, start: Time) {
    id in rows ==> rows[id].publishedAt.Some? || rows[id].availableAt >= start + 2 * SECOND
  }

  /** Between rounds nobody makes a calm row due again before that time: no re-arming and no hastening. */
  predicate KeepsCalm(rows: Rows, later: Rows, id: Uuid, start: Time) {
    Calm(rows, id, start) ==> Calm(later, id, start)
  }

  /** The round starts less than two seconds after the drain, and the clock does not go back. */
  ghost predicate Prompt(turn: Turn, start: Time) {
    turn.now < start + 2 * SECOND && forall id :: turn.env.doneAt(id) >= start
  }

  /** A round does not attempt a calm row, and leaves every row calm that it attempts. */
  lemma RoundCalms(tasks: Registry, s: State, cap: nat, turn: Turn, id: Uuid, start: Time)
    requires Prompt(turn, start)
    ensures Calm(s.rows, id, start) ==> id !in Attempts(s, cap, turn)
    ensures Calm(s.rows, id, start) || id in Attempts(s, cap, turn) ==> Calm(Round(tasks, s, cap, turn).rows, id, start)
  {
    hide RoundPlan, Batch, Candidates, DistinctTenants, Sent, Backoff;
    RoundShape(s.rows, s.cursors, turn.now, cap, turn.locks);
    AttemptConserves(tasks, s.rows, Attempts(s, cap, turn), turn.env);
  }

  lemma {:induction false} AttemptedStaysCalm(tasks: Registry, starts: seq<State>, ends: seq<State>, turns: nat -> Turn, cap: nat,
                                              start: Time, id: Uuid, i: nat, j: nat)
    requires IsDrain(tasks, starts, ends, turns, cap) && i < j < |starts| && id in Attempts(starts[i], cap, turns(i))
    requires forall k :: i <= k < j ==> Prompt(turns(k), start) && KeepsCalm(ends[k].rows, starts[k + 1].rows, id, start)
    ensures Calm(starts[j].rows, id, start)
    decreases j
  {
    hide Round, Attempts, Prompt, Calm;
    if j > i + 1 { AttemptedStaysCalm(tasks, starts, ends, turns, cap, start, id, i, j - 1); }
    RoundCalms(tasks, starts[j - 1], cap, turns(j - 1), id, start);
    assert KeepsCalm(ends[j - 1].rows, starts[j].rows, id, start);
  }

  /**
   When every round starts less than two seconds after the drain began, no row is attempted in two of its
   rounds, whatever the broker does, whatever is locked and whatever is enqueued or changed between the rounds,
   unless somebody makes an attempted row due again in between.
   */
  lemma NoRowTwice(tasks: Registry, starts: seq<State>, ends: seq<State>, turns: nat -> Turn, cap: nat, start: Time, id: Uuid,
                   i: nat, j: nat)
    requires IsDrain(tasks, starts, ends, turns, cap) && i < j < |starts|
    requires forall k :: i <= k <= j ==> Prompt(turns(k), start)
    requires forall k :: i <= k < j ==> KeepsCalm(ends[k].rows, starts[k + 1].rows, id, start)
    ensures !(id in Attempts(starts[i], cap, turns(i)) && id in Attempts(starts[j], cap, turns(j)))
  {
    hide Round, Attempts, Calm;
    if id in Attempts(starts[i], cap, turns(i)) {
      AttemptedStaysCalm(tasks, starts, ends, turns, cap, start, id, i, j);
      RoundCalms(tasks, starts[j], cap, turns(j), id, start);
    }
  }

  // ---- a round that publishes nothing ---------------------------------------------------------

  function Due(rows: Rows, now: Time): set<Uuid> {
    set id | id in rows && IsDue(rows[id], now)
  }

  /** Nobody else holds a lock and everything due is taken by the broker. */
  ghost predicate Smooth(tasks: Registry, rows: Rows, turn: Turn) {
    && turn.locks == Locks({}, {})
    && forall id :: id in rows && IsDue(rows[id], turn.now) ==> Sent(tasks, rows[id], id, turn.env)
  }

  /** The tenant of a due row is on the first page. */
  lemma DueIsListed(rows: Rows, cursors: Cursors, now: Time, cap: nat, id: Uuid)
    requires cap >= 1 && id in Due(rows, now) && rows[id].tenant in cursors
    ensures var order := CandidateOrder(rows, cursors, now);
            order != [] && Take(order, MAX_PAGES * cap) == order[..|Take(order, MAX_PAGES * cap)|] != []
  {
    hide CandidateOrder;
    OrderDistinct(rows, cursors, now, 1);
    assert rows[id].tenant in Candidates(rows, cursors, now);
  }

  /** A round with something due attempts something. */
  lemma DueIsAttempted(rows: Rows, cursors: Cursors, now: Time, cap: nat)
    requires cap >= 1 && forall id :: id in rows ==> rows[id].tenant in cursors
    ensures AttemptedIds(RoundPlan(rows, cursors, now, cap, Locks({}, {}))) == [] ==> Due(rows, now) == {}
  {
    hide CandidateOrder, Plan, AttemptedIds, Batch, Candidates;
    if id :| id in Due(rows, now) {
      DueIsListed(rows, cursors, now, cap, id);
      FullPageIsEnough(rows, cursors, now, cap, |Take(CandidateOrder(rows, cursors, now), MAX_PAGES * cap)|);
    }
  }

  /** When all that is attempted is sent, exactly that becomes published. */
  lemma AllPublished(tasks: Registry, rows: Rows, ids: set<Uuid>, env: Env, now: Time, later: Time)
    requires forall id :: id in ids ==> id in rows && IsDue(rows[id], now) && Sent(tasks, rows[id], id, env)
    ensures var after := AttemptAll(tasks, rows, ids, env);
            && NewlyPublished(rows, after) == ids && ids <= Due(rows, now)
            && Due(after, later) == Due(rows, later) - ids
  {
  }

  /**
   A smooth round takes exactly what it publishes off the due rows, at any time that one may ask for; and it
   publishes nothing only when nothing was due.
   */
  lemma SmoothRound(tasks: Registry, s: State, cap: nat, turn: Turn, later: Time)
    requires cap >= 1 && Smooth(tasks, s.rows, turn) && forall id :: id in s.rows ==> s.rows[id].tenant in s.cursors
    ensures var after := Round(tasks, s, cap, turn);
            var published := NewlyPublished(s.rows, after.rows);
            && Due(after.rows, later) == Due(s.rows, later) - published
            && published <= Due(s.rows, turn.now)
            && (published == {} <==> Due(s.rows, turn.now) == {})
  {
    var ids := AttemptedIds(RoundPlan(s.rows, s.cursors, turn.now, cap, turn.locks));
    RoundShape(s.rows, s.cursors, turn.now, cap, turn.locks);
    AllPublished(tasks, s.rows, Elements(ids), turn.env, turn.now, later);
    if ids != [] {
      assert ids[0] in Elements(ids);
    } else {
      DueIsAttempted(s.rows, s.cursors, turn.now, cap);
    }
  }

  // ---- which rows a round attempts ------------------------------------------------------------

  /** The attempts that the tenants before the n-th one use. */
  ghost function UsedBefore(s: State, cap: nat, turn: Turn, n: nat): nat
    requires n <= |CandidateOrder(s.rows, s.cursors, turn.now)|
  {
    |AttemptedIds(Plan(BatchesOf(s.rows, turn.now, turn.locks.rows), CandidateOrder(s.rows, s.cursors, turn.now)[..n], cap, 0,
                       turn.locks.tenants))|
  }

  /** The round comes to the n-th tenant, which is the row's, with attempts left, and finds the row in its batch. */
  ghost predicate ReachedAt(s: State, cap: nat, turn: Turn, id: Uuid, n: nat) {
    var order := CandidateOrder(s.rows, s.cursors, turn.now);
    && n < |order| && n < MAX_PAGES * cap && order[n] !in turn.locks.tenants
    && id in s.rows && s.rows[id].tenant == order[n]
    && UsedBefore(s, cap, turn, n) < cap
    && id in Batch(s.rows, order[n], turn.now, Slots(cap, UsedBefore(s, cap, turn, n)), turn.locks.rows)
  }

  lemma AttemptedAt(s: State, cap: nat, turn: Turn, id: Uuid, n: nat)
    requires var order := CandidateOrder(s.rows, s.cursors, turn.now);
             && n < |order| && n < MAX_PAGES * cap && order[n] !in turn.locks.tenants && id in s.rows
             && s.rows[id].tenant == order[n]
    ensures id in Attempts(s, cap, turn) <==> ReachedAt(s, cap, turn, id, n)
  {
    hide CandidateOrder, Batch, Candidates, Plan, AttemptedIds, IsDue;
    var order := CandidateOrder(s.rows, s.cursors, turn.now);
    var all := Take(order, MAX_PAGES * cap);
    var f := BatchesOf(s.rows, turn.now, turn.locks.rows);
    OrderDistinct(s.rows, s.cursors, turn.now, MAX_PAGES * cap);
    assert all[..n] == order[..n] && all == order[..n] + all[n..] && all[n..][0] == order[n];
    AttemptedInPlan(s.rows, f, all[..n], all[n..], turn.now, cap, turn.locks, id);
  }

  lemma AttemptedInTurn(rows: Rows, f: Batches, back: seq<Uuid>, now: Time, cap: nat, used: nat, locks: Locks, id: Uuid)
    requires f == BatchesOf(rows, now, locks.rows) && back != [] && back[0] !in locks.tenants && used <= cap
    requires Distinct(back[1..]) && back[0] !in back[1..] && id in rows && rows[id].tenant == back[0]
    ensures id in AttemptedIds(Plan(f, back, cap, used, locks.tenants)) <==>
            used < cap && id in Batch(rows, back[0], now, Slots(cap, used), locks.rows)
  {
    hide Batch, IsDue, AttemptedIds;
    if used < cap {
      var batch := f(back[0], Slots(cap, used));
      var rest := Plan(f, back[1..], cap, used + |batch|, locks.tenants);
      AttemptedFirst(Service(back[0], batch), rest);
      PlannedRows(rows, back[1..], now, cap, used + |batch|, locks);
    } else {
      NothingAttempted();
    }
  }

  lemma NothingAttempted()
    ensures AttemptedIds([]) == []
  {
  }

  /** A tenant's row is attempted when its tenant has its turn, or not at all. */
  lemma AttemptedInPlan(rows: Rows, f: Batches, front: seq<Uuid>, back: seq<Uuid>, now: Time, cap: nat, locks: Locks, id: Uuid)
    requires f == BatchesOf(rows, now, locks.rows) && Distinct(front + back) && back != [] && back[0] !in locks.tenants
    requires id in rows && rows[id].tenant == back[0]
    ensures var used := |AttemptedIds(Plan(f, front, cap, 0, locks.tenants))|;
            && used <= cap
            && (id in AttemptedIds(Plan(f, front + back, cap, 0, locks.tenants)) <==>
                used < cap && id in Batch(rows, back[0], now, Slots(cap, used), locks.rows))
  {
    hide Batch, IsDue, AttemptedIds, Plan;
    var used := |AttemptedIds(Plan(f, front, cap, 0, locks.tenants))|;
    PlanSplit(f, front, back, cap, 0, locks.tenants);
    PlanTotal(f, front, cap, 0, locks.tenants);
    AttemptedConcat(Plan(f, front, cap, 0, locks.tenants), Plan(f, back, cap, used, locks.tenants));
    DistinctFront(front, back);
    PlannedRows(rows, front, now, cap, 0, locks);
    AttemptedInTurn(rows, f, back, now, cap, used, locks, id);
  }

  lemma DistinctFront(front: seq<nat>, back: seq<nat>)
    requires Distinct(front + back) && back != []
    ensures Distinct(front) && Distinct(back[1..]) && back[0] !in front && back[0] !in back[1..]
  {
    assert forall i :: 0 <= i < |front| ==> (front + back)[i] == front[i];
    assert forall i :: 0 <= i < |back| ==> (front + back)[|front| + i] == back[i];
  }

  /** A round attempts exactly the rows that it reaches: nothing else of a row matters, such as earlier attempts. */
  lemma AttemptedIffReached(s: State, cap: nat, turn: Turn, id: Uuid)
    ensures id in Attempts(s, cap, turn) <==> exists n :: ReachedAt(s, cap, turn, id, n)
  {
    hide CandidateOrder, Batch, Plan, AttemptedIds, IsDue, Candidates;
    if id in Attempts(s, cap, turn) {
      var all := Take(CandidateOrder(s.rows, s.cursors, turn.now), MAX_PAGES * cap);
      OrderDistinct(s.rows, s.cursors, turn.now, MAX_PAGES * cap);
      PlannedRows(s.rows, all, turn.now, cap, 0, turn.locks);
      var n :| 0 <= n < |all| && all[n] == s.rows[id].tenant;
      AttemptedAt(s, cap, turn, id, n);
    }
    if n :| ReachedAt(s, cap, turn, id, n) {
      AttemptedAt(s, cap, turn, id, n);
    }
  }

  /** The condition is needed: an attempted row that is made due again is attempted again, for instance when it is the only one due. */
  lemma RearmedIsAttemptedAgain(s: State, cap: nat, turn: Turn, id: Uuid)
    requires cap >= 1 && turn.locks == Locks({}, {}) && Due(s.rows, turn.now) == {id}
    requires forall j :: j in s.rows ==> s.rows[j].tenant in s.cursors
    ensures Attempts(s, cap, turn) == {id}
  {
    hide RoundPlan, Batch, Candidates, DistinctTenants;
    var ids := AttemptedIds(RoundPlan(s.rows, s.cursors, turn.now, cap, turn.locks));
    RoundShape(s.rows, s.cursors, turn.now, cap, turn.locks);
    DueIsAttempted(s.rows, s.cursors, turn.now, cap);
    assert id in Due(s.rows, turn.now);
    assert ids != [];
    forall j | j in ids
      ensures j == id
    {
      assert j in Due(s.rows, turn.now);
    }
    assert ids[0] in ids;
  }
}
