/**
 Serving tenants in order under a limit on attempts, whatever the batch of each tenant is: a tenant gets up
 to five slots, fewer when less than five attempts are left, and serving ends when none is left.
 */
module Serving {
  type Tenant = nat

  const PER_TENANT := 5

  /** The batch of a tenant for a number of slots. */
  type Batches = (Tenant, nat) -> seq<nat>

  datatype Service = Service(tenant: Tenant, batch: seq<nat>)

  ghost predicate Fits(f: Batches) {
    forall t, slots :: slots >= 1 ==> |f(t, slots)| <= slots
  }

  predicate Distinct(s: seq<nat>) {
    forall i, j :: 0 <= i < j < |s| ==> s[i] != s[j]
  }

  function Slots(limit: nat, attempted: nat): nat
    requires attempted <= limit
  {
    if limit - attempted < PER_TENANT then limit - attempted else PER_TENANT
  }

  /** What is served when `attempted` attempts have been used; tenants in `skip` are locked by others. */
  ghost function Plan(f: Batches, order: seq<Tenant>, limit: nat, attempted: nat, skip: set<Tenant>): seq<Service>
    requires Fits(f) && attempted <= limit
    decreases |order|
  {
    if order == [] || attempted == limit then []
    else if order[0] in skip then Plan(f, order[1..], limit, attempted, skip)
    else
      var batch := f(order[0], Slots(limit, attempted));
      [Service(order[0], batch)] + Plan(f, order[1..], limit, attempted + |batch|, skip)
  }

  function AttemptedIds(plan: seq<Service>): seq<nat> {
    if plan == [] then [] else plan[0].batch + AttemptedIds(plan[1..])
  }

  /** Tenants with at least one attempt: these move their cursors. */
  function Served(plan: seq<Service>): set<Tenant> {
    set i | 0 <= i < |plan| && plan[i].batch != [] :: plan[i].tenant
  }

  lemma AttemptedFirst(s: Service, rest: seq<Service>)
    ensures AttemptedIds([s] + rest) == s.batch + AttemptedIds(rest)
  {
  }

  lemma AttemptedNext(s: Service, a: seq<Service>, b: seq<Service>)
    requires AttemptedIds(a + b) == AttemptedIds(a) + AttemptedIds(b)
    ensures AttemptedIds([s] + a + b) == AttemptedIds([s] + a) + AttemptedIds(b)
  {
    hide AttemptedIds;
    AttemptedFirst(s, a);
    AttemptedFirst(s, a + b);
    assert [s] + a + b == [s] + (a + b);
  }

  lemma {:induction false} AttemptedConcat(a: seq<Service>, b: seq<Service>)
    ensures AttemptedIds(a + b) == AttemptedIds(a) + AttemptedIds(b)
  {
    if a == [] {
      assert a + b == b;
    } else {
      AttemptedConcat(a[1..], b);
      AttemptedNext(a[0], a[1..], b);
      assert [a[0]] + a[1..] == a;
    }
  }

  lemma ServedConcat(a: seq<Service>, b: seq<Service>)
    ensures Served(a + b) == Served(a) + Served(b)
  {
    forall t
      ensures t in Served(a + b) <==> t in Served(a) + Served(b)
    {
      if t in Served(a) {
        var i :| 0 <= i < |a| && a[i].batch != [] && a[i].tenant == t;
        assert (a + b)[i] == a[i];
      }
      if t in Served(b) {
        var i :| 0 <= i < |b| && b[i].batch != [] && b[i].tenant == t;
        assert (a + b)[|a| + i] == b[i];
      }
    }
  }

  lemma {:induction false} PlanAgrees(f: Batches, g: Batches, order: seq<Tenant>, limit: nat, attempted: nat, skip: set<Tenant>)
    requires Fits(f) && Fits(g) && attempted <= limit
    requires forall t, slots :: t in order ==> f(t, slots) == g(t, slots)
    ensures Plan(f, order, limit, attempted, skip) == Plan(g, order, limit, attempted, skip)
    decreases |order|
  {
    if order != [] && attempted != limit {
      var batch := f(order[0], Slots(limit, attempted));
      PlanAgrees(f, g, order[1..], limit, if order[0] in skip then attempted else attempted + |batch|, skip);
    }
  }

  /** The limit holds. */
  lemma {:induction false} PlanTotal(f: Batches, order: seq<Tenant>, limit: nat, attempted: nat, skip: set<Tenant>)
    requires Fits(f) && attempted <= limit
    ensures attempted + |AttemptedIds(Plan(f, order, limit, attempted, skip))| <= limit
    decreases |order|
  {
    if order != [] && attempted != limit {
      if order[0] in skip {
        PlanTotal(f, order[1..], limit, attempted, skip);
      } else {
        var batch := f(order[0], Slots(limit, attempted));
        PlanTotal(f, order[1..], limit, attempted + |batch|, skip);
        AttemptedFirst(Service(order[0], batch), Plan(f, order[1..], limit, attempted + |batch|, skip));
      }
    }
  }

  /** Serving a list of tenants is serving its front and then, with what is left of the limit, its rest. */
  lemma {:induction false} PlanSplit(f: Batches, a: seq<Tenant>, b: seq<Tenant>, limit: nat, attempted: nat, skip: set<Tenant>)
    requires Fits(f) && attempted <= limit
    ensures var front := Plan(f, a, limit, attempted, skip);
            var n := attempted + |AttemptedIds(front)|;
            n <= limit && Plan(f, a + b, limit, attempted, skip) == front + Plan(f, b, limit, n, skip)
    decreases |a|
  {
    if a == [] {
      assert a + b == b;
    } else if attempted != limit {
      assert (a + b)[0] == a[0] && (a + b)[1..] == a[1..] + b;
      if a[0] in skip {
        PlanSplit(f, a[1..], b, limit, attempted, skip);
      } else {
        var batch := f(a[0], Slots(limit, attempted));
        PlanSplit(f, a[1..], b, limit, attempted + |batch|, skip);
        AttemptedFirst(Service(a[0], batch), Plan(f, a[1..], limit, attempted + |batch|, skip));
      }
    }
  }

  /** Every service is of a listed, unlocked tenant, with its batch for one to five slots. */
  lemma {:induction false} PlanServices(f: Batches, order: seq<Tenant>, limit: nat, attempted: nat, skip: set<Tenant>, i: nat)
    requires Fits(f) && attempted <= limit && i < |Plan(f, order, limit, attempted, skip)|
    ensures var s := Plan(f, order, limit, attempted, skip)[i];
            && s.tenant in order && s.tenant !in skip
            && exists slots :: 1 <= slots <= PER_TENANT && s.batch == f(s.tenant, slots)
    decreases |order|
  {
    if order[0] in skip {
      PlanServices(f, order[1..], limit, attempted, skip, i);
    } else if i > 0 {
      PlanServices(f, order[1..], limit, attempted + |f(order[0], Slots(limit, attempted))|, skip, i - 1);
    }
  }

  predicate DistinctTenants(plan: seq<Service>) {
    forall i, j :: 0 <= i < j < |plan| ==> plan[i].tenant != plan[j].tenant
  }

  /** No tenant is served twice. */
  lemma {:induction false} PlanTenants(f: Batches, order: seq<Tenant>, limit: nat, attempted: nat, skip: set<Tenant>)
    requires Fits(f) && attempted <= limit && Distinct(order)
    ensures var plan := Plan(f, order, limit, attempted, skip);
            DistinctTenants(plan)
    decreases |order|
  {
    if order != [] && attempted != limit {
      var n := if order[0] in skip then attempted else attempted + |f(order[0], Slots(limit, attempted))|;
      var rest := Plan(f, order[1..], limit, n, skip);
      PlanTenants(f, order[1..], limit, n, skip);
      if order[0] !in skip {
        forall j | 0 <= j < |rest|
          ensures rest[j].tenant != order[0]
        {
          PlanServices(f, order[1..], limit, n, skip, j);
        }
        var plan := Plan(f, order, limit, attempted, skip);
        assert plan == [Service(order[0], f(order[0], Slots(limit, attempted)))] + rest;
        forall i, j | 0 <= i < j < |plan|
          ensures plan[i].tenant != plan[j].tenant
        {
          assert plan[j] == rest[j - 1] && (i > 0 ==> plan[i] == rest[i - 1]);
        }
      }
    }
  }

  /** Batches of different tenants share no row. */
  ghost predicate Owned(f: Batches, owner: nat -> Tenant) {
    forall t, slots :: Distinct(f(t, slots)) && forall id :: id in f(t, slots) ==> owner(id) == t
  }

  lemma ConcatDistinct(a: seq<nat>, b: seq<nat>)
    requires Distinct(a) && Distinct(b) && forall x :: x in a ==> x !in b
    ensures Distinct(a + b)
  {
    forall i, j | 0 <= i < j < |a + b|
      ensures (a + b)[i] != (a + b)[j]
    {
      assert i < |a| ==> (a + b)[i] in a;
      assert j >= |a| ==> (a + b)[j] in b;
    }
  }

  /** No row is attempted twice, and every attempted row is in the batch of a listed, unlocked tenant. */
  lemma {:induction false} PlanRows(f: Batches, owner: nat -> Tenant, order: seq<Tenant>, limit: nat, attempted: nat, skip: set<Tenant>)
    requires Fits(f) && Owned(f, owner) && attempted <= limit && Distinct(order)
    ensures var ids := AttemptedIds(Plan(f, order, limit, attempted, skip));
            && Distinct(ids)
            && forall id :: id in ids ==> owner(id) in order && owner(id) !in skip && exists slots :: id in f(owner(id), slots)
    decreases |order|
  {
    if order != [] && attempted != limit {
      if order[0] in skip {
        PlanRows(f, owner, order[1..], limit, attempted, skip);
      } else {
        var batch := f(order[0], Slots(limit, attempted));
        var rest := Plan(f, order[1..], limit, attempted + |batch|, skip);
        PlanRows(f, owner, order[1..], limit, attempted + |batch|, skip);
        AttemptedFirst(Service(order[0], batch), rest);
        assert forall id :: id in batch ==> owner(id) == order[0];
        ConcatDistinct(batch, AttemptedIds(rest));
      }
    }
  }

  /** When nothing is locked and every listed tenant has something to attempt, each uses the limit up. */
  lemma {:induction false} PlanUsesLimit(f: Batches, order: seq<Tenant>, limit: nat, attempted: nat)
    requires Fits(f) && attempted <= limit
    requires forall t, slots :: t in order && slots >= 1 ==> f(t, slots) != []
    ensures var total := attempted + |AttemptedIds(Plan(f, order, limit, attempted, {}))|;
            total == limit || total >= attempted + |order|
    decreases |order|
  {
    if order != [] && attempted != limit {
      var batch := f(order[0], Slots(limit, attempted));
      PlanUsesLimit(f, order[1..], limit, attempted + |batch|);
      AttemptedFirst(Service(order[0], batch), Plan(f, order[1..], limit, attempted + |batch|, {}));
    }
  }
}
