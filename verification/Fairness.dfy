/** Bounded wait: a tenant that stays due is served after at most so many rounds, whatever the others enqueue. */
module Fairness {
  import opened Overlay
  import opened Ordering
  import opened Serving
  import opened Outbox
  import opened Rounds
  import opened Draining

  /** Cursors that are ordered before the tenant's. */
  function Ahead(cursors: Cursors, t: Uuid): set<Uuid> {
    set u | u in cursors && Ordering.Before(CursorRank(cursors), u, t)
  }

  /** Cursor times of a round are later than all that were recorded before it. */
  ghost predicate Advances(cursors: Cursors, env: Env) {
    forall u, x :: x in cursors && cursors[x].Some? ==> env.servedAt(u) > cursors[x].value
  }

  /** `ceil(cap / 5)`: how many tenants it takes to use the limit up. */
  function Least(cap: nat): (n: nat)
    ensures cap <= PER_TENANT * n < cap + PER_TENANT
  {
    (cap + PER_TENANT - 1) / PER_TENANT
  }

  // ---- one round ------------------------------------------------------------------------------

  /** Without contention the front of the order is served, until it ends or the limit is used up. */
  lemma {:induction false} PlanIsFront(f: Batches, order: seq<Uuid>, limit: nat, attempted: nat)
    requires Fits(f) && attempted <= limit
    requires forall t, slots :: t in order && slots >= 1 ==> f(t, slots) != []
    ensures var plan := Plan(f, order, limit, attempted, {});
            var n := |AttemptedIds(plan)|;
            && |plan| <= |order| && |plan| <= n <= PER_TENANT * |plan|
            && (forall i :: 0 <= i < |plan| ==> plan[i].tenant == order[i] && plan[i].batch != [])
            && (|plan| == |order| || attempted + n == limit)
    decreases |order|
  {
    if order != [] && attempted != limit {
      var service := Service(order[0], f(order[0], Slots(limit, attempted)));
      var rest := Plan(f, order[1..], limit, attempted + |service.batch|, {});
      PlanIsFront(f, order[1..], limit, attempted + |service.batch|);
      AttemptedFirst(service, rest);
      var plan := Plan(f, order, limit, attempted, {});
      assert plan == [service] + rest;
      forall i | 0 <= i < |plan|
        ensures plan[i].tenant == order[i] && plan[i].batch != []
      {
        if i > 0 { assert plan[i] == rest[i - 1] && order[i] == order[1..][i - 1]; }
      }
    }
  }

  lemma ServedIsFront(plan: seq<Service>, order: seq<Uuid>)
    requires |plan| <= |order| && forall i :: 0 <= i < |plan| ==> plan[i].tenant == order[i] && plan[i].batch != []
    ensures Served(plan) == Elements(order[..|plan|])
  {
  }

  lemma {:induction false} ElementsCount(s: seq<Uuid>)
    requires Distinct(s)
    ensures |Elements(s)| == |s|
  {
    if s == [] {
      assert Elements(s) == {};
    } else {
      var n := |s| - 1;
      ElementsCount(s[..n]);
      assert s == s[..n] + [s[n]];
      assert Elements(s) == Elements(s[..n]) + {s[n]} && s[n] !in Elements(s[..n]);
    }
  }

  /** The served tenants of a round that passes over a due tenant: enough of them, and all before it. */
  lemma PassedOver(rows: Rows, cursors: Cursors, now: Time, cap: nat, t: Uuid)
    requires cap >= 1 && t in Candidates(rows, cursors, now)
    requires t !in Served(RoundPlan(rows, cursors, now, cap, Locks({}, {})))
    ensures var served := Served(RoundPlan(rows, cursors, now, cap, Locks({}, {})));
            |served| >= Least(cap) && served <= Ahead(cursors, t)
  {
    var order := CandidateOrder(rows, cursors, now);
    var all := Take(order, MAX_PAGES * cap);
    var plan := RoundPlan(rows, cursors, now, cap, Locks({}, {}));
    OrderDistinct(rows, cursors, now, MAX_PAGES * cap);
    AllHaveBatches(rows, cursors, now, all);
    PlanIsFront(BatchesOf(rows, now, {}), all, cap, 0);
    PlanTotal(BatchesOf(rows, now, {}), all, cap, 0, {});
    ServedIsFront(plan, all);
    ElementsCount(all[..|plan|]);
    var p :| 0 <= p < |order| && order[p] == t;
    FrontIsAhead(cursors, order, all[..|plan|], p);
  }

  lemma AllHaveBatches(rows: Rows, cursors: Cursors, now: Time, tenants: seq<Uuid>)
    requires forall t :: t in tenants ==> t in Candidates(rows, cursors, now)
    ensures forall t, slots :: t in tenants && slots >= 1 ==> BatchesOf(rows, now, {})(t, slots) != []
  {
    forall t, slots | t in tenants && slots >= 1
      ensures BatchesOf(rows, now, {})(t, slots) != []
    {
      CandidateHasBatch(rows, cursors, now, t, slots);
    }
  }

  lemma FrontIsAhead(cursors: Cursors, order: seq<Uuid>, front: seq<Uuid>, p: nat)
    requires Ascends(CursorRank(cursors), order) && front <= order && |front| <= p < |order|
    requires forall u :: u in order ==> u in cursors
    ensures Elements(front) <= Ahead(cursors, order[p])
  {
  }

  /** Who is served goes behind everybody who is not; nobody else moves. */
  lemma ServedGoBehind(cursors: Cursors, served: set<Uuid>, env: Env, t: Uuid)
    requires t in cursors && t !in served && Advances(cursors, env)
    ensures Ahead(ServeAll(cursors, served, env), t) == Ahead(cursors, t) - served
  {
  }

  lemma Smaller(a: set<Uuid>, b: set<Uuid>)
    requires b <= a
    ensures |a - b| == |a| - |b|
  {
  }

  /** A round that passes over a due tenant takes at least `ceil(cap / 5)` cursors from before it and puts none there. */
  lemma RoundOvertaken(tasks: Registry, s: State, cap: nat, turn: Turn, t: Uuid)
    requires cap >= 1 && turn.locks == Locks({}, {}) && t in Candidates(s.rows, s.cursors, turn.now)
    requires Advances(s.cursors, turn.env)
    requires t !in Served(RoundPlan(s.rows, s.cursors, turn.now, cap, turn.locks))
    ensures Ahead(Round(tasks, s, cap, turn).cursors, t) <= Ahead(s.cursors, t)
    ensures |Ahead(Round(tasks, s, cap, turn).cursors, t)| + Least(cap) <= |Ahead(s.cursors, t)|
  {
    hide RoundPlan, Candidates, Ahead;
    var served := Served(RoundPlan(s.rows, s.cursors, turn.now, cap, turn.locks));
    PassedOver(s.rows, s.cursors, turn.now, cap, t);
    CandidateHasCursor(s.rows, s.cursors, turn.now, t);
    ServedGoBehind(s.cursors, served, turn.env, t);
    Smaller(Ahead(s.cursors, t), served);
  }

  lemma CandidateHasCursor(rows: Rows, cursors: Cursors, now: Time, t: Uuid)
    requires t in Candidates(rows, cursors, now)
    ensures t in cursors
  {
  }

  // ---- runs of rounds -------------------------------------------------------------------------

  /**
   Rounds one after the other without contention and without new cursors. Between them the rows may change
   in any way.
   */
  ghost predicate FairRun(tasks: Registry, states: seq<State>, turns: seq<Turn>, cap: nat) {
    && |states| == |turns| + 1
    && forall i :: 0 <= i < |turns| ==>
         && turns[i].locks == Locks({}, {}) && Advances(states[i].cursors, turns[i].env)
         && states[i + 1].cursors == Round(tasks, states[i], cap, turns[i]).cursors
  }

  ghost predicate ServedIn(states: seq<State>, turns: seq<Turn>, cap: nat, i: nat, t: Uuid)
    requires i < |turns| < |states|
  {
    t in Served(RoundPlan(states[i].rows, states[i].cursors, turns[i].now, cap, turns[i].locks))
  }

  /** Each round that misses the tenant costs it `ceil(cap / 5)` places. */
  lemma {:induction false} Waits(tasks: Registry, states: seq<State>, turns: seq<Turn>, cap: nat, t: Uuid, n: nat)
    requires cap >= 1 && FairRun(tasks, states, turns, cap) && n <= |turns|
    requires forall i :: 0 <= i < n ==> t in Candidates(states[i].rows, states[i].cursors, turns[i].now)
    requires forall i :: 0 <= i < n ==> !ServedIn(states, turns, cap, i, t)
    ensures |Ahead(states[n].cursors, t)| + n * Least(cap) <= |Ahead(states[0].cursors, t)|
  {
    hide RoundPlan, Candidates, Ahead, Round, Least;
    if n > 0 {
      Waits(tasks, states, turns, cap, t, n - 1);
      assert !ServedIn(states, turns, cap, n - 1, t);
      RoundOvertaken(tasks, states[n - 1], cap, turns[n - 1], t);
      assert n * Least(cap) == (n - 1) * Least(cap) + Least(cap);
    }
  }

  /**
   Bounded wait: a tenant that stays due, with `k` cursors before its own, is served in one of the first
   `k / ceil(cap / 5) + 1` rounds.
   */
  lemma BoundedWait(tasks: Registry, states: seq<State>, turns: seq<Turn>, cap: nat, t: Uuid)
    requires cap >= 1 && FairRun(tasks, states, turns, cap)
    requires |turns| == |Ahead(states[0].cursors, t)| / Least(cap) + 1
    requires forall i :: 0 <= i < |turns| ==> t in Candidates(states[i].rows, states[i].cursors, turns[i].now)
    ensures exists i :: 0 <= i < |turns| && ServedIn(states, turns, cap, i, t)
  {
    hide RoundPlan, Candidates, Ahead, Round, Least;
    if forall i :: 0 <= i < |turns| ==> !ServedIn(states, turns, cap, i, t) {
      Waits(tasks, states, turns, cap, t, |turns|);
      TooMany(|Ahead(states[0].cursors, t)|, Least(cap));
      assert false;
    }
  }

  lemma TooMany(k: nat, m: nat)
    requires m >= 1
    ensures (k / m + 1) * m > k
  {
  }
}
