/** The outbox tables and the registry of tasks, changed in place by enqueueing, publishing and draining. */
module Dispatcher {
  import opened Overlay
  import opened Text
  import Json
  import Payload
  import opened Ordering
  import opened Serving
  import opened Outbox
  import opened Rounds
  import opened Draining

  datatype Error = TaskNotAllowed | PayloadInvalid | KeyConflict | BadLimit | BadTask

  predicate GoodTask(name: string) {
    name != "" && |name| <= MAX_NAME && name != "jobs.flush_dispatch"
  }

  predicate GoodQueue(queue: string) {
    queue == "control" || queue == "resources" || queue == "builds"
  }

  /** The id of the row that has the key. */
  function TheOne(ids: set<Uuid>): (id: Uuid)
    requires ids != {} && forall i, j :: i in ids && j in ids ==> i == j
    ensures id in ids
  {
    var id :| id in ids;
    id
  }

  /**
   The call found or added the one row with its key, and an equal call finds it again exactly if the payload
   lasts; other rows are as they were.
   */
  predicate Enqueued(before: Rows, after: Rows, id: Uuid, tenant: Uuid, actor: Uuid, task: string, key: string,
                     payload: Json.Json, newId: Uuid, now: Time) {
    && id in after && after[id].tenant == tenant && after[id].key == key
    && (SameRequest(after[id], actor, task, payload) <==> Payload.Lasting(payload))
    && (if id in before then after == before && SameRequest(after[id], actor, task, payload)
        else id == newId && HasKey(before, tenant, key) == {} &&
             after == before[id := Row(tenant, actor, task, key, Payload.Stored(payload), now, None, 0)])
  }

  /** Unique (tenant, key), a cursor for every tenant with a row, and payloads as the column keeps them. */
  ghost predicate ValidTables(rows: Rows, cursors: Cursors) {
    && (forall i, j :: i in rows && j in rows && rows[i].tenant == rows[j].tenant && rows[i].key == rows[j].key ==> i == j)
    && (forall id :: id in rows ==> rows[id].tenant in cursors && Payload.IsStored(rows[id].payload))
  }

  /** A row that matches a call, or was inserted by it, matches an equal call exactly if the payload lasts. */
  lemma Repeats(row: Row, actor: Uuid, task: string, payload: Json.Json)
    requires Payload.IsStored(row.payload) && Json.IsJson(payload)
    requires || SameRequest(row, actor, task, payload)
             || (row.task == task && row.actor == actor && row.payload == Payload.Stored(payload))
    ensures SameRequest(row, actor, task, payload) <==> Payload.Lasting(payload)
  {
    hide Payload.Same, Payload.Stored, Payload.Lasting;
    if SameRequest(row, actor, task, payload) {
      Payload.LastingSame(row.payload, payload);
    } else {
      Payload.SameReflexive(row.payload);
      Payload.StoredMatches(row.payload, payload);
    }
  }

  /** Attempts change neither the keys of the rows nor what they carry, and rounds keep all cursors. */
  lemma AttemptsValid(tasks: Registry, rows: Rows, cursors: Cursors, ids: set<Uuid>, tenants: set<Uuid>, env: Env)
    requires ValidTables(rows, cursors)
    ensures ValidTables(AttemptAll(tasks, rows, ids, env), ServeAll(cursors, tenants, env))
  {
    var after := AttemptAll(tasks, rows, ids, env);
    forall id | id in after
      ensures after[id].tenant == rows[id].tenant && after[id].key == rows[id].key && after[id].payload == rows[id].payload
    {
    }
  }

  lemma RoundValid(tasks: Registry, s: State, cap: nat, turn: Turn)
    requires ValidTables(s.rows, s.cursors)
    ensures ValidTables(Round(tasks, s, cap, turn).rows, Round(tasks, s, cap, turn).cursors)
  {
    var plan := RoundPlan(s.rows, s.cursors, turn.now, cap, turn.locks);
    AttemptsValid(tasks, s.rows, s.cursors, Elements(AttemptedIds(plan)), Served(plan), turn.env);
  }

  class Dispatcher {
    var rows: Rows
    var cursors: Cursors
    var tasks: Registry
    var sent: seq<Message>

    ghost predicate Valid()
      reads this
    {
      && ValidTables(rows, cursors)
      && (forall t :: t in tasks ==> GoodTask(t) && GoodQueue(tasks[t]))
    }

    constructor ()
      ensures Valid() && rows == map[] && cursors == map[] && sent == []
      ensures tasks == map["jobs.probe" := "control", "accounts.refresh_mcp" := "control",
                           "accounts.runtime_discover" := "resources", "builds.historical_read_step" := "resources"]
    {
      rows, cursors, sent := map[], map[], [];
      tasks := map["jobs.probe" := "control", "accounts.refresh_mcp" := "control",
                   "accounts.runtime_discover" := "resources", "builds.historical_read_step" := "resources"];
    }

    /** A task keeps the queue it was first registered with. */
    method RegisterTask(name: string, queue: string) returns (ok: bool)
      requires Valid()
      modifies this`tasks
      ensures Valid()
      ensures ok <==> GoodTask(name) && GoodQueue(queue) && (name in old(tasks) ==> old(tasks)[name] == queue)
      ensures tasks == if ok then old(tasks)[name := queue] else old(tasks)
      ensures forall t :: t in old(tasks) ==> t in tasks && tasks[t] == old(tasks)[t]
    {
      if !GoodTask(name) || !GoodQueue(queue) { return false; }
      if name in tasks && tasks[name] != queue { return false; }
      tasks := tasks[name := queue];
      return true;
    }

    /** The stored row is compared by its task, its actor and the sorted serialisation of its payload. */
    method Matches(id: Uuid, actor: Uuid, task: string, snapshot: Json.Json) returns (same: bool)
      requires id in rows && Json.IsJson(rows[id].payload) && Json.IsJson(snapshot)
      ensures same <==> SameRequest(rows[id], actor, task, snapshot)
    {
      Payload.SortedDumpsDecide(rows[id].payload, snapshot);
      return rows[id].task == task && rows[id].actor == actor &&
        Payload.SortedDumps(rows[id].payload) == Payload.SortedDumps(snapshot);
    }

    /** Both inserts do nothing on conflict; when the row's does, the stored row must match. */
    method InsertOrFind(tenant: Uuid, actor: Uuid, task: string, key: string, snapshot: Json.Json, newId: Uuid, now: Time)
      returns (r: Result<Uuid, Error>)
      requires Valid() && Json.IsJson(snapshot) && newId !in rows
      modifies this`rows, this`cursors
      ensures Valid()
      ensures cursors == if tenant in old(cursors) then old(cursors) else old(cursors)[tenant := None]
      ensures var existing := HasKey(old(rows), tenant, key);
              if existing == {} then
                r == Ok(newId) && rows == old(rows)[newId := Row(tenant, actor, task, key, Payload.Stored(snapshot), now, None, 0)]
              else
                && rows == old(rows)
                && r == if forall id :: id in existing ==> SameRequest(rows[id], actor, task, snapshot)
                        then Ok(TheOne(existing)) else Err(KeyConflict)
    {
      if tenant !in cursors {
        cursors := cursors[tenant := None];
      }
      var existing := HasKey(rows, tenant, key);
      if existing == {} {
        assert forall j :: j in rows && rows[j].tenant == tenant && rows[j].key == key ==> j in existing;
        Payload.StoredIsStored(snapshot);
        rows := rows[newId := Row(tenant, actor, task, key, Payload.Stored(snapshot), now, None, 0)];
        return Ok(newId);
      }
      var id :| id in existing;
      assert existing == {id};
      var same := Matches(id, actor, task, snapshot);
      return if same then Ok(id) else Err(KeyConflict);
    }

    /**
     Idempotent per (tenant, key): the first call inserts, an equal one returns the same id, any other
     one fails and changes no row. The given id is a new one.
     */
    method Enqueue(tenant: Uuid, actor: Uuid, task: string, key: string, payload: Json.Json, newId: Uuid, now: Time)
      returns (r: Result<Uuid, Error>)
      requires Valid() && Payload.IsPython(payload) && newId !in rows
      modifies this`rows, this`cursors
      ensures Valid()
      ensures r == Err(TaskNotAllowed) <==> task !in tasks
      ensures r == Err(PayloadInvalid) <==> task in tasks && !(Payload.Validate(payload).Some? && GoodKey(key))
      ensures r == Err(KeyConflict) <==>
              && task in tasks && Payload.Validate(payload).Some? && GoodKey(key)
              && exists id :: id in HasKey(old(rows), tenant, key) && !SameRequest(old(rows)[id], actor, task, payload)
      ensures r.Err? ==> rows == old(rows)
      ensures r.Ok? ==> Enqueued(old(rows), rows, r.value, tenant, actor, task, key, payload, newId, now)
      ensures cursors == if r == Err(TaskNotAllowed) || r == Err(PayloadInvalid) || tenant in old(cursors) then old(cursors)
                         else old(cursors)[tenant := None]
    {
      if task !in tasks { return Err(TaskNotAllowed); }
      var snapshot := Payload.Validate(payload);
      Payload.ValidateIsSnapshot(payload);
      if snapshot.None? || !GoodKey(key) { return Err(PayloadInvalid); }
      r := InsertOrFind(tenant, actor, task, key, snapshot.value, newId, now);
      if r.Ok? { Repeats(rows[r.value], actor, task, payload); }
    }

    /** Attempts a list of records in turn. */
    method AttemptBatch(batch: seq<Uuid>, env: Env) returns (published: nat)
      requires Distinct(batch) && forall id :: id in batch ==> id in rows
      modifies this`rows, this`sent
      ensures rows == AttemptAll(tasks, old(rows), Elements(batch), env)
      ensures sent == old(sent) + Messages(tasks, old(rows), batch, env)
      ensures published == |Messages(tasks, old(rows), batch, env)|
    {
      published := 0;
      for i := 0 to |batch|
        invariant rows == AttemptAll(tasks, old(rows), Elements(batch[..i]), env)
        invariant sent == old(sent) + Messages(tasks, old(rows), batch[..i], env)
        invariant published == |Messages(tasks, old(rows), batch[..i], env)|
      {
        var id := batch[i];
        AttemptNext(tasks, old(rows), batch, i, env);
        MessagesNext(tasks, old(rows), batch, i, env);
        if Sent(tasks, rows[id], id, env) {
          sent := sent + [MessageOf(tasks, rows[id], id)];
          published := published + 1;
        }
        rows := rows[id := Attempted(tasks, rows[id], id, env)];
      }
      assert batch[..|batch|] == batch;
    }

    ghost function Now(): State
      reads this
    {
      State(rows, cursors, sent)
    }

    /** Serves a tenant whose cursor is free: its batch as of now, and its cursor when anything was attempted. */
    method ServeTenant(t: Uuid, now: Time, slots: nat, locks: Locks, env: Env) returns (size: nat, published: nat)
      requires t in cursors
      modifies this`rows, this`cursors, this`sent
      ensures Now() == Outcome(tasks, old(Now()), [Service(t, Batch(old(rows), t, now, slots, locks.rows))], env)
      ensures size == |Batch(old(rows), t, now, slots, locks.rows)|
      ensures |sent| == |old(sent)| + published
    {
      var batch := Batch(rows, t, now, slots, locks.rows);
      BatchRows(rows, t, now, slots, locks.rows);
      OutcomeOne(tasks, Now(), t, batch, env);
      published := AttemptBatch(batch, env);
      if batch != [] {
        cursors := cursors[t := Some(env.servedAt(t))];
      }
      size := |batch|;
    }

    /** Serves tenant `i` of a page, unless it is locked; `plan` is the page so far, begun in state `s`. */
    method ServeNext(page: seq<Uuid>, i: nat, now: Time, limit: nat, attempted: nat, total: nat, locks: Locks, env: Env,
                     ghost s: State, ghost f: Batches, ghost plan: seq<Service>)
      returns (size: nat, published: nat, ghost next: seq<Service>)
      requires f == BatchesOf(s.rows, now, locks.rows) && Distinct(page) && i < |page| && page[i] in cursors
      requires attempted <= limit && total < limit && total == attempted + |AttemptedIds(plan)|
      requires plan == Plan(f, page[..i], limit, attempted, locks.tenants) && Now() == Outcome(tasks, s, plan, env)
      modifies this`rows, this`cursors, this`sent
      ensures next == Plan(f, page[..i + 1], limit, attempted, locks.tenants) && Now() == Outcome(tasks, s, next, env)
      ensures total + size == attempted + |AttemptedIds(next)| <= limit
      ensures |sent| == |old(sent)| + published && cursors.Keys == old(cursors).Keys
    {
      PlanNext(f, page, i, limit, attempted, locks.tenants, plan, total);
      if page[i] in locks.tenants { return 0, 0, plan; }
      ghost var service := Service(page[i], f(page[i], Slots(limit, total)));
      ServedElsewhere(f, s.rows, page, i, now, limit, attempted, locks);
      AppendService(tasks, s, f, plan, page[i], now, Slots(limit, total), locks, env);
      assert Batch(rows, page[i], now, Slots(limit, total), locks.rows) == service.batch;
      size, published := ServeTenant(page[i], now, Slots(limit, total), locks, env);
      next := plan + [service];
    }

    /** Serves the tenants of one page in turn until the limit is reached. */
    method ServePage(page: seq<Uuid>, now: Time, limit: nat, attempted: nat, locks: Locks, env: Env, ghost f: Batches)
      returns (total: nat, published: nat)
      requires f == BatchesOf(rows, now, locks.rows)
      requires Distinct(page) && attempted <= limit && forall t :: t in page ==> t in cursors
      modifies this`rows, this`cursors, this`sent
      ensures var plan := Plan(f, page, limit, attempted, locks.tenants);
              && Now() == Outcome(tasks, old(Now()), plan, env)
              && total == attempted + |AttemptedIds(plan)| <= limit
      ensures |sent| == |old(sent)| + published
    {
      ghost var s := Now();
      ghost var plan: seq<Service> := [];
      var i := 0;
      total, published := attempted, 0;
      OutcomeNothing(tasks, s, env);
      while i < |page| && total < limit
        invariant i <= |page| && attempted <= total <= limit && cursors.Keys == s.cursors.Keys
        invariant plan == Plan(f, page[..i], limit, attempted, locks.tenants)
        invariant Now() == Outcome(tasks, s, plan, env)
        invariant total == attempted + |AttemptedIds(plan)|
        invariant |sent| == |s.sent| + published
      {
        var size, n;
        size, n, plan := ServeNext(page, i, now, limit, attempted, total, locks, env, s, f, plan);
        total, published, i := total + size, published + n, i + 1;
      }
      PlanDone(f, page, i, limit, attempted, locks.tenants);
    }

    /** Reads the next page and serves it; `front` and `plan` are the round so far, begun in state `s`. */
    method NextPageServed(now: Time, cap: nat, locks: Locks, env: Env, checked: set<Uuid>, attempted: nat, ghost s: State,
                          ghost f: Batches, ghost front: seq<Uuid>, ghost plan: seq<Service>)
      returns (page: seq<Uuid>, total: nat, published: nat, ghost longer: seq<Uuid>, ghost next: seq<Service>)
      requires f == BatchesOf(s.rows, now, locks.rows) && IsFront(front, CandidateOrder(s.rows, s.cursors, now))
      requires checked == Elements(front) && plan == Plan(f, front, cap, 0, locks.tenants)
      requires attempted == |AttemptedIds(plan)| && Now() == Outcome(tasks, s, plan, env)
      modifies this`rows, this`cursors, this`sent
      ensures var order := CandidateOrder(s.rows, s.cursors, now);
              IsFront(longer, order) && (|page| < cap ==> IsWhole(longer, order))
      ensures |page| <= cap && |longer| == |front| + |page| && Elements(longer) == checked + Elements(page)
      ensures next == Plan(f, longer, cap, 0, locks.tenants) && Now() == Outcome(tasks, s, next, env)
      ensures total == |AttemptedIds(next)| <= cap && |sent| == |old(sent)| + published
    {
      page := Take(Sorted(CursorRank(cursors), Candidates(rows, cursors, now) - checked), cap);
      ghost var g, current := BatchesOf(rows, now, locks.rows), Now();
      ghost var more := NextServices(tasks, s, f, g, now, cap, front, locks, env, page, plan, attempted, current);
      total, published := ServePage(page, now, cap, attempted, locks, env, g);
      assert Now() == Outcome(tasks, current, more, env);
      longer, next := front + page, plan + more;
    }

    /**
     Pages are read from the tables as they are then, yet together they serve the plan that the state at the
     start determines; and without contention one page is all that is read.
     */
    method ServeRound(cap: nat, now: Time, locks: Locks, env: Env, ghost s: State) returns (published: nat, ghost pages: nat)
      requires cap >= 1 && s == Now() && s.rows == rows && s.cursors == cursors && s.sent == sent
      modifies this`rows, this`cursors, this`sent
      ensures |sent| == |s.sent| + published
      ensures Now() == Outcome(tasks, s, RoundPlan(s.rows, s.cursors, now, cap, locks), env)
      ensures pages <= MAX_PAGES && (locks == Locks({}, {}) ==> pages == 1)
    {
      hide *;
      var checked: set<Uuid> := {};
      var attempted, read, more := 0, 0, true;
      published, pages := 0, 0;
      ghost var front, plan, room: nat := [], [], 0;
      ghost var f, order := BatchesOf(rows, now, locks.rows), CandidateOrder(rows, cursors, now);
      RoundBegins(tasks, s, f, order, cap, locks.tenants, env);
      while read < MAX_PAGES && more
        invariant read == pages <= MAX_PAGES && IsFront(front, order) && checked == Elements(front)
        invariant plan == Plan(f, front, cap, 0, locks.tenants)
        invariant Now() == Outcome(tasks, s, plan, env)
        invariant attempted == |AttemptedIds(plan)| <= cap && |sent| == |s.sent| + published
        invariant |front| <= room && if more then |front| == room else attempted == cap || IsWhole(front, order)
        invariant room == Times(read, cap)
        invariant locks == Locks({}, {}) ==> if more then pages == 0 else pages == 1
      {
        var page, k;
        page, attempted, k, front, plan := NextPageServed(now, cap, locks, env, checked, attempted, s, f, front, plan);
        published := published + k;
        checked := checked + Elements(page);
        TimesNext(read, cap);
        read, pages, room := read + 1, pages + 1, room + cap;
        more := attempted < cap && |page| == cap;
        if locks == Locks({}, {}) { OnePage(s.rows, s.cursors, now, cap, front, f, plan); }
      }
      TenPages(read, cap);
      RoundDone(s.rows, s.cursors, now, cap, front, locks, f);
    }

    /** A round, and how many rows it publishes. */
    method RunRound(cap: nat, turn: Turn) returns (published: nat)
      requires cap >= 1
      modifies this`rows, this`cursors, this`sent
      ensures published == |NewlyPublished(old(rows), rows)|
      ensures Now() == Round(tasks, old(Now()), cap, turn)
    {
      ghost var plan := RoundPlan(rows, cursors, turn.now, cap, turn.locks);
      RoundShape(rows, cursors, turn.now, cap, turn.locks);
      RoundCounts(tasks, Now(), plan, turn.now, turn.env);
      ghost var pages;
      published, pages := ServeRound(cap, turn.now, turn.locks, turn.env, Now());
    }

    /** One publisher round, for a limit that it may bound. */
    method Flush(limit: int, turn: Turn) returns (r: Result<nat, Error>)
      requires Valid()
      modifies this`rows, this`cursors, this`sent
      ensures Valid()
      ensures limit < 1 ==> r == Err(BadLimit) && Now() == old(Now())
      ensures limit >= 1 ==> r == Ok(|NewlyPublished(old(rows), rows)|)
      ensures limit >= 1 ==> Now() == Round(tasks, old(Now()), Bounded(limit), turn)
    {
      if limit < 1 { return Err(BadLimit); }
      RoundValid(tasks, Now(), Bounded(limit), turn);
      var published := RunRound(Bounded(limit), turn);
      return Ok(published);
    }

    /** Round `i` of a drain: what others have left, then a round. */
    method DrainRound(limit: int, turns: nat -> Turn, others: nat -> State, i: nat)
      returns (count: nat, stop: bool, ghost start: State, ghost end: State)
      requires Valid() && limit >= 1 && ValidTables(others(i).rows, others(i).cursors)
      modifies this`rows, this`cursors, this`sent
      ensures Valid() && end == Now() && end == Round(tasks, start, Bounded(limit), turns(i))
      ensures start == if i == 0 then old(Now()) else others(i)
      ensures count == |NewlyPublished(start.rows, end.rows)|
      ensures stop <==> !GoesOn(start, end, turns(i))
    {
      if i > 0 { rows, cursors, sent := others(i).rows, others(i).cursors, others(i).sent; }
      start := Now();
      var r := Flush(limit, turns(i));
      count, end := r.value, Now();
      stop := count == 0 || turns(i).late;
    }

    method DrainRounds(limit: int, maxRounds: nat, turns: nat -> Turn, others: nat -> State, ghost first: State)
      returns (published: nat, ghost starts: seq<State>, ghost ends: seq<State>)
      requires Valid() && limit >= 1 && maxRounds >= 1 && first == Now()
      requires forall i :: ValidTables(others(i).rows, others(i).cursors)
      modifies this`rows, this`cursors, this`sent
      ensures Valid() && 1 <= |starts| <= maxRounds && |ends| == |starts| && ends[|ends| - 1] == Now()
      ensures DrainedSoFar(tasks, first, starts, ends, turns, others, Bounded(limit), |starts|)
      ensures published == PublishedIn(starts, ends) && Stops(starts, ends, turns, maxRounds)
    {
      hide *;
      NothingDrained(tasks, first, turns, others, Bounded(limit));
      starts, ends, published := [], [], 0;
      var i, stop := 0, false;
      while i < maxRounds && !stop
        invariant i <= maxRounds && (stop ==> i > 0) && Valid() && |starts| == |ends| == i
        invariant DrainedSoFar(tasks, first, starts, ends, turns, others, Bounded(limit), i) && WentOn(starts, ends, turns, stop)
        invariant if i == 0 then Now() == first else ends[i - 1] == Now()
        invariant published == PublishedIn(starts, ends)
      {
        var count;
        ghost var start, end;
        count, stop, start, end := DrainRound(limit, turns, others, i);
        OneMoreRound(tasks, first, starts, ends, turns, others, Bounded(limit), start, end, stop);
        starts, ends, published, i := starts + [start], ends + [end], published + count, i + 1;
      }
      DrainStops(tasks, first, starts, ends, turns, others, Bounded(limit), i, stop, maxRounds);
    }

    /**
     Rounds, each committed before the next, until one publishes nothing, the time budget is used up or
     `maxRounds` are done. Before each but the first, `others` says what other transactions have left: callers
     have enqueued, other publishers have sent, modules have changed rows. `starts` and `ends` are the states
     before and after each round.
     */
    method Drain(limit: int, maxRounds: nat, turns: nat -> Turn, others: nat -> State)
      returns (r: Result<nat, Error>, ghost starts: seq<State>, ghost ends: seq<State>)
      requires Valid() && maxRounds >= 1 && forall i :: ValidTables(others(i).rows, others(i).cursors)
      modifies this`rows, this`cursors, this`sent
      ensures Valid()
      ensures limit < 1 ==> r == Err(BadLimit) && Now() == old(Now())
      ensures limit >= 1 ==> 1 <= |starts| <= maxRounds && |ends| == |starts| && ends[|ends| - 1] == Now()
      ensures limit >= 1 ==> DrainedSoFar(tasks, old(Now()), starts, ends, turns, others, Bounded(limit), |starts|)
      ensures limit >= 1 ==> r == Ok(PublishedIn(starts, ends)) && Stops(starts, ends, turns, maxRounds)
    {
      hide *;
      if limit < 1 { return Err(BadLimit), [], []; }
      var published;
      published, starts, ends := DrainRounds(limit, maxRounds, turns, others, Now());
      return Ok(published), starts, ends;
    }
  }

  /** A drain of `n` rounds from `first` on, each but the first beginning where others left the tables. */
  ghost predicate DrainedSoFar(tasks: Registry, first: State, starts: seq<State>, ends: seq<State>, turns: nat -> Turn,
                               others: nat -> State, cap: nat, n: nat) {
    && |starts| == n && IsDrain(tasks, starts, ends, turns, cap)
    && forall i :: 0 <= i < n ==> starts[i] == if i == 0 then first else others(i)
  }

  /** The round has published something within the time budget. */
  ghost predicate GoesOn(start: State, end: State, turn: Turn) {
    NewlyPublished(start.rows, end.rows) != {} && !turn.late
  }

  /** The drain ends at the first round that publishes nothing or uses the time up, or after the last one. */
  ghost predicate Stops(starts: seq<State>, ends: seq<State>, turns: nat -> Turn, maxRounds: nat)
    requires |starts| == |ends| >= 1
  {
    var n := |starts| - 1;
    && (forall i :: 0 <= i < n ==> GoesOn(starts[i], ends[i], turns(i)))
    && (!GoesOn(starts[n], ends[n], turns(n)) || n + 1 == maxRounds)
  }

  /** All rounds so far but perhaps the last one have gone on; `stop` says that the last one has not. */
  ghost predicate WentOn(starts: seq<State>, ends: seq<State>, turns: nat -> Turn, stop: bool) {
    && |starts| == |ends| && (stop ==> starts != [])
    && forall i :: 0 <= i < |starts| ==> (GoesOn(starts[i], ends[i], turns(i)) <==> !(stop && i == |starts| - 1))
  }

  lemma NothingDrained(tasks: Registry, first: State, turns: nat -> Turn, others: nat -> State, cap: nat)
    ensures DrainedSoFar(tasks, first, [], [], turns, others, cap, 0) && WentOn([], [], turns, false) && PublishedIn([], []) == 0
  {
  }

  lemma MoreWentOn(starts: seq<State>, ends: seq<State>, turns: nat -> Turn, start: State, end: State, stop: bool)
    requires WentOn(starts, ends, turns, false)
    requires stop <==> !GoesOn(start, end, turns(|starts|))
    ensures WentOn(starts + [start], ends + [end], turns, stop)
  {
    hide GoesOn;
  }

  lemma MoreDrained(tasks: Registry, first: State, starts: seq<State>, ends: seq<State>, turns: nat -> Turn, others: nat -> State,
                    cap: nat, start: State, end: State)
    requires DrainedSoFar(tasks, first, starts, ends, turns, others, cap, |starts|)
    requires start == (if |starts| == 0 then first else others(|starts|)) && end == Round(tasks, start, cap, turns(|starts|))
    ensures DrainedSoFar(tasks, first, starts + [start], ends + [end], turns, others, cap, |starts| + 1)
  {
    hide Round;
  }

  lemma OneMoreRound(tasks: Registry, first: State, starts: seq<State>, ends: seq<State>, turns: nat -> Turn, others: nat -> State,
                     cap: nat, start: State, end: State, stop: bool)
    requires DrainedSoFar(tasks, first, starts, ends, turns, others, cap, |starts|) && WentOn(starts, ends, turns, false)
    requires start == (if |starts| == 0 then first else others(|starts|)) && end == Round(tasks, start, cap, turns(|starts|))
    requires stop <==> !GoesOn(start, end, turns(|starts|))
    ensures DrainedSoFar(tasks, first, starts + [start], ends + [end], turns, others, cap, |starts| + 1)
    ensures WentOn(starts + [start], ends + [end], turns, stop)
    ensures PublishedIn(starts + [start], ends + [end]) == PublishedIn(starts, ends) + |NewlyPublished(start.rows, end.rows)|
  {
    hide Round, GoesOn, NewlyPublished, IsDrain, PublishedIn;
    MoreDrained(tasks, first, starts, ends, turns, others, cap, start, end);
    MoreWentOn(starts, ends, turns, start, end, stop);
    PublishedNext(starts, ends, start, end);
  }

  lemma DrainStops(tasks: Registry, first: State, starts: seq<State>, ends: seq<State>, turns: nat -> Turn, others: nat -> State,
                   cap: nat, n: nat, stop: bool, maxRounds: nat)
    requires DrainedSoFar(tasks, first, starts, ends, turns, others, cap, n) && WentOn(starts, ends, turns, stop)
    requires 1 <= n <= maxRounds && (stop || n == maxRounds)
    ensures |starts| == |ends| == n && Stops(starts, ends, turns, maxRounds)
  {
    hide Round, GoesOn;
  }

  /** As many messages as rows that become published. */
  lemma RoundCounts(tasks: Registry, s: State, plan: seq<Service>, now: Time, env: Env)
    requires Distinct(AttemptedIds(plan))
    requires forall id :: id in AttemptedIds(plan) ==> id in s.rows && IsDue(s.rows[id], now)
    ensures var after := Outcome(tasks, s, plan, env);
            |after.sent| == |s.sent| + |NewlyPublished(s.rows, after.rows)|
  {
    MessagesCountPublished(tasks, s.rows, AttemptedIds(plan), env);
  }

  predicate IsFront(front: seq<Uuid>, order: seq<Uuid>) {
    front <= order
  }

  predicate IsWhole(front: seq<Uuid>, order: seq<Uuid>) {
    front == order
  }

  // ---- pages ----------------------------------------------------------------------------------

  /** What has been served so far is of the tenants read so far. */
  lemma OnlyRead(tasks: Registry, s: State, f: Batches, now: Time, cap: nat, n: nat, locks: Locks, env: Env)
    requires f == BatchesOf(s.rows, now, locks.rows) && n <= |CandidateOrder(s.rows, s.cursors, now)|
    ensures var front := CandidateOrder(s.rows, s.cursors, now)[..n];
            var plan := Plan(f, front, cap, 0, locks.tenants);
            var after := Outcome(tasks, s, plan, env);
            && SameExcept(s.rows, after.rows, Elements(front))
            && after.cursors.Keys == s.cursors.Keys
            && (forall t :: t in s.cursors && t !in Elements(front) ==> after.cursors[t] == s.cursors[t])
  {
    var front := CandidateOrder(s.rows, s.cursors, now)[..n];
    var plan := Plan(f, front, cap, 0, locks.tenants);
    FrontDistinct(s.rows, s.cursors, now, n);
    PlannedRows(s.rows, front, now, cap, 0, locks);
    forall t | t in Served(plan)
      ensures t in Elements(front)
    {
      var i :| 0 <= i < |plan| && plan[i].batch != [] && plan[i].tenant == t;
      PlanServices(f, front, cap, 0, locks.tenants, i);
    }
  }

  lemma FrontDistinct(rows: Rows, cursors: Cursors, now: Time, n: nat)
    requires n <= |CandidateOrder(rows, cursors, now)|
    ensures var order := CandidateOrder(rows, cursors, now);
            && Distinct(order) && Distinct(order[..n]) && Distinct(order[n..])
            && (forall t :: t in order ==> t in cursors)
            && (forall t :: t in order[n..] ==> t !in order[..n])
  {
    OrderDistinct(rows, cursors, now, 0);
  }

  /** The page continues the order at the start of the round. */
  lemma PageRead(tasks: Registry, s: State, f: Batches, now: Time, cap: nat, n: nat, locks: Locks, env: Env, page: seq<Uuid>)
    requires f == BatchesOf(s.rows, now, locks.rows) && n <= |CandidateOrder(s.rows, s.cursors, now)|
    requires var front := CandidateOrder(s.rows, s.cursors, now)[..n];
             var after := Outcome(tasks, s, Plan(f, front, cap, 0, locks.tenants), env);
             page == Take(Sorted(CursorRank(after.cursors), Candidates(after.rows, after.cursors, now) - Elements(front)), cap)
    ensures var order := CandidateOrder(s.rows, s.cursors, now);
            && page == Take(order[n..], cap) && Distinct(page)
            && (forall t :: t in page ==> t in s.cursors && t !in Elements(order[..n]))
            && n + |page| <= |order| && order[..n + |page|] == order[..n] + page
            && Elements(order[..n + |page|]) == Elements(order[..n]) + Elements(page)
            && (|page| < cap ==> n + |page| == |order|)
  {
    var order := CandidateOrder(s.rows, s.cursors, now);
    var after := Outcome(tasks, s, Plan(f, order[..n], cap, 0, locks.tenants), env);
    OnlyRead(tasks, s, f, now, cap, n, locks, env);
    NextPage(s.rows, s.cursors, now, n, after.rows, after.cursors);
    FrontDistinct(s.rows, s.cursors, now, n);
    ContinueList(order, n, page, cap);
  }

  lemma ContinueList(order: seq<Uuid>, n: nat, page: seq<Uuid>, cap: nat)
    requires n <= |order| && page == Take(order[n..], cap)
    ensures n + |page| <= |order| && order[..n + |page|] == order[..n] + page
    ensures Elements(order[..n + |page|]) == Elements(order[..n]) + Elements(page)
    ensures forall t :: t in page ==> t in order[n..]
    ensures |page| < cap ==> n + |page| == |order|
    ensures Distinct(order[n..]) ==> Distinct(page)
  {
  }

  /** Serving the page continues the plan that the state at the start of the round determines. */
  lemma PageServed(tasks: Registry, s: State, f: Batches, g: Batches, now: Time, cap: nat, n: nat, locks: Locks, env: Env,
                   page: seq<Uuid>)
    requires f == BatchesOf(s.rows, now, locks.rows) && n <= |CandidateOrder(s.rows, s.cursors, now)|
    requires var front := CandidateOrder(s.rows, s.cursors, now)[..n];
             var plan := Plan(f, front, cap, 0, locks.tenants);
             && g == BatchesOf(Outcome(tasks, s, plan, env).rows, now, locks.rows)
             && Distinct(page) && (forall t :: t in page ==> t !in Elements(front))
    ensures var front := CandidateOrder(s.rows, s.cursors, now)[..n];
            var plan := Plan(f, front, cap, 0, locks.tenants);
            var n := |AttemptedIds(plan)|;
            n <= cap &&
            var more := Plan(g, page, cap, n, locks.tenants);
            && Plan(f, front + page, cap, 0, locks.tenants) == plan + more
            && |AttemptedIds(plan + more)| == n + |AttemptedIds(more)|
            && Outcome(tasks, Outcome(tasks, s, plan, env), more, env) == Outcome(tasks, s, plan + more, env)
  {
    hide Batch, Outcome, CandidateOrder;
    var front := CandidateOrder(s.rows, s.cursors, now)[..n];
    var plan := Plan(f, front, cap, 0, locks.tenants);
    var k := |AttemptedIds(plan)|;
    var after := Outcome(tasks, s, plan, env);
    PlanSplit(f, front, page, cap, 0, locks.tenants);
    OnlyRead(tasks, s, f, now, cap, n, locks, env);
    PlanFrom(s.rows, after.rows, Elements(front), page, now, cap, k, locks);
    var more := Plan(g, page, cap, k, locks.tenants);
    assert more == Plan(f, page, cap, k, locks.tenants);
    AttemptedConcat(plan, more);
    FrontDistinct(s.rows, s.cursors, now, n);
    PlannedRows(s.rows, front, now, cap, 0, locks);
    PlannedRows(s.rows, page, now, cap, k, locks);
    OutcomeConcat(tasks, s, plan, more, env);
  }

  lemma PageHasCursors(rows: Rows, cursors: Cursors, now: Time, checked: set<Uuid>, cap: nat)
    ensures forall t :: t in Take(Sorted(CursorRank(cursors), Candidates(rows, cursors, now) - checked), cap) ==> t in cursors
  {
    hide Sorted, CursorRank;
    var all := Sorted(CursorRank(cursors), Candidates(rows, cursors, now) - checked);
    forall t | t in Take(all, cap)
      ensures t in cursors
    {
      assert t in Elements(all);
    }
  }

  /** The step of the round's loop: what the page adds to the plan and to the state. */
  lemma NextServices(tasks: Registry, s: State, f: Batches, g: Batches, now: Time, cap: nat, front: seq<Uuid>,
                     locks: Locks, env: Env, page: seq<Uuid>, plan: seq<Service>, attempted: nat, current: State)
    returns (more: seq<Service>)
    requires f == BatchesOf(s.rows, now, locks.rows) && front <= CandidateOrder(s.rows, s.cursors, now)
    requires plan == Plan(f, front, cap, 0, locks.tenants) && attempted == |AttemptedIds(plan)|
    requires current == Outcome(tasks, s, plan, env) && g == BatchesOf(current.rows, now, locks.rows)
    requires page == Take(Sorted(CursorRank(current.cursors), Candidates(current.rows, current.cursors, now) - Elements(front)), cap)
    ensures Distinct(page) && forall t :: t in page ==> t in current.cursors
    ensures attempted <= cap && more == Plan(g, page, cap, attempted, locks.tenants)
    ensures var order := CandidateOrder(s.rows, s.cursors, now);
            front + page <= order && (|page| < cap ==> front + page == order)
    ensures Elements(front + page) == Elements(front) + Elements(page)
    ensures Plan(f, front + page, cap, 0, locks.tenants) == plan + more
    ensures |AttemptedIds(plan + more)| == attempted + |AttemptedIds(more)|
    ensures Outcome(tasks, current, more, env) == Outcome(tasks, s, plan + more, env)
  {
    hide CandidateOrder, Candidates, Plan, AttemptedIds, Outcome;
    assert front == CandidateOrder(s.rows, s.cursors, now)[..|front|];
    PageHasCursors(current.rows, current.cursors, now, Elements(front), cap);
    PageRead(tasks, s, f, now, cap, |front|, locks, env, page);
    PageServed(tasks, s, f, g, now, cap, |front|, locks, env, page);
    more := Plan(g, page, cap, attempted, locks.tenants);
  }

  lemma RoundBegins(tasks: Registry, s: State, f: Batches, order: seq<Uuid>, cap: nat, skip: set<Uuid>, env: Env)
    requires Fits(f)
    ensures Outcome(tasks, s, [], env) == s && AttemptedIds([]) == [] && Plan(f, [], cap, 0, skip) == []
    ensures IsFront([], order) && Elements<Uuid>([]) == {} && Times(0, cap) == 0 < MAX_PAGES
  {
  }

  function Times(n: nat, cap: nat): nat {
    n * cap
  }

  lemma TimesNext(n: nat, cap: nat)
    ensures Times(n + 1, cap) == Times(n, cap) + cap
  {
  }

  lemma TenPages(read: nat, cap: nat)
    requires read <= MAX_PAGES
    ensures Times(read, cap) == read * cap <= MAX_PAGES * cap == Times(MAX_PAGES, cap)
  {
  }

  lemma OnePage(rows: Rows, cursors: Cursors, now: Time, cap: nat, front: seq<Uuid>, f: Batches, plan: seq<Service>)
    requires f == BatchesOf(rows, now, {}) && IsFront(front, CandidateOrder(rows, cursors, now))
    requires plan == Plan(f, front, cap, 0, {})
    ensures |AttemptedIds(plan)| == cap || |AttemptedIds(plan)| >= |front|
  {
    assert front == CandidateOrder(rows, cursors, now)[..|front|];
    FullPageIsEnough(rows, cursors, now, cap, |front|);
  }

  /** When the limit is reached, the candidates have run out or ten pages are read, the round's plan is served. */
  lemma RoundDone(rows: Rows, cursors: Cursors, now: Time, cap: nat, front: seq<Uuid>, locks: Locks, f: Batches)
    requires f == BatchesOf(rows, now, locks.rows) && IsFront(front, CandidateOrder(rows, cursors, now)) && |front| <= MAX_PAGES * cap
    requires || |AttemptedIds(Plan(f, front, cap, 0, locks.tenants))| >= cap
             || IsWhole(front, CandidateOrder(rows, cursors, now)) || |front| == MAX_PAGES * cap
    ensures RoundPlan(rows, cursors, now, cap, locks) == Plan(f, front, cap, 0, locks.tenants)
  {
    var all := Take(CandidateOrder(rows, cursors, now), MAX_PAGES * cap);
    assert front == all[..|front|];
    PlanDone(f, all, |front|, cap, 0, locks.tenants);
  }

  lemma AppendService(tasks: Registry, s: State, f: Batches, before: seq<Service>, t: Uuid, now: Time, slots: nat, locks: Locks, env: Env)
    requires f == BatchesOf(s.rows, now, locks.rows)
    requires forall id :: id in AttemptedIds(before) ==> id in s.rows && s.rows[id].tenant != t
    ensures var after := Outcome(tasks, s, before, env);
            var service := Service(t, f(t, slots));
            && Batch(after.rows, t, now, slots, locks.rows) == f(t, slots)
            && AttemptedIds(before + [service]) == AttemptedIds(before) + f(t, slots)
            && Outcome(tasks, after, [service], env) == Outcome(tasks, s, before + [service], env)
  {
    var batch := Batch(s.rows, t, now, slots, locks.rows);
    var more := [Service(t, batch)];
    StillThere(tasks, s.rows, before, t, now, slots, locks, env);
    AttemptedConcat(before, more);
    ServedOne(Service(t, batch));
    BatchRows(s.rows, t, now, slots, locks.rows);
    OutcomeConcat(tasks, s, before, more, env);
  }

  lemma NothingAdded<T>(s: seq<T>)
    ensures s + [] == s
  {
  }

  lemma PlanOne(f: Batches, t: Uuid, limit: nat, total: nat, skip: set<Uuid>)
    requires Fits(f) && total < limit
    ensures Plan(f, [t], limit, total, skip) == if t in skip then [] else [Service(t, f(t, Slots(limit, total)))]
  {
  }

  /** The next tenant adds one service or, when locked, none. */
  lemma PlanNext(f: Batches, page: seq<Uuid>, i: nat, limit: nat, attempted: nat, skip: set<Uuid>, plan: seq<Service>, total: nat)
    requires Fits(f) && attempted <= limit && i < |page| && total < limit
    requires plan == Plan(f, page[..i], limit, attempted, skip) && total == attempted + |AttemptedIds(plan)|
    ensures Plan(f, page[..i + 1], limit, attempted, skip) ==
            if page[i] in skip then plan else plan + [Service(page[i], f(page[i], Slots(limit, total)))]
  {
    assert page[..i + 1] == page[..i] + [page[i]];
    PlanSplit(f, page[..i], [page[i]], limit, attempted, skip);
    PlanOne(f, page[i], limit, total, skip);
    NothingAdded(plan);
  }

  /** What has been attempted so far is of other tenants. */
  lemma ServedElsewhere(f: Batches, rows: Rows, page: seq<Uuid>, i: nat, now: Time, limit: nat, attempted: nat, locks: Locks)
    requires f == BatchesOf(rows, now, locks.rows) && attempted <= limit && Distinct(page) && i < |page|
    ensures var plan := Plan(f, page[..i], limit, attempted, locks.tenants);
            forall id :: id in AttemptedIds(plan) ==> id in rows && rows[id].tenant != page[i]
  {
    PlannedRows(rows, page[..i], now, limit, attempted, locks);
    assert page[i] !in page[..i];
  }

  /** The tenant's batch is what it was at the start. */
  lemma StillThere(tasks: Registry, rows: Rows, plan: seq<Service>, t: Uuid, now: Time, slots: nat, locks: Locks, env: Env)
    requires forall id :: id in AttemptedIds(plan) ==> id in rows && rows[id].tenant != t
    ensures var after := AttemptAll(tasks, rows, Elements(AttemptedIds(plan)), env);
            var batch := Batch(after, t, now, slots, locks.rows);
            && batch == Batch(rows, t, now, slots, locks.rows)
            && Distinct(batch)
            && (forall id :: id in batch ==> id in rows && id in after && id !in AttemptedIds(plan) && after[id] == rows[id])
  {
    var after := AttemptAll(tasks, rows, Elements(AttemptedIds(plan)), env);
    AttemptKeepsOthers(tasks, rows, Elements(AttemptedIds(plan)), env, {t});
    BatchAgrees(rows, after, t, now, slots, locks.rows);
    BatchRows(rows, t, now, slots, locks.rows);
  }

  /** At the end of the page or of the limit, what has been served is the whole plan. */
  lemma PlanDone(f: Batches, page: seq<Uuid>, i: nat, limit: nat, attempted: nat, skip: set<Uuid>)
    requires Fits(f) && attempted <= limit && i <= |page|
    requires i == |page| || attempted + |AttemptedIds(Plan(f, page[..i], limit, attempted, skip))| >= limit
    ensures Plan(f, page, limit, attempted, skip) == Plan(f, page[..i], limit, attempted, skip)
  {
    PlanSplit(f, page[..i], page[i..], limit, attempted, skip);
    assert page[..i] + page[i..] == page;
  }

  lemma AttemptNext(tasks: Registry, rows: Rows, batch: seq<Uuid>, i: nat, env: Env)
    requires Distinct(batch) && i < |batch| && batch[i] in rows
    ensures var before := AttemptAll(tasks, rows, Elements(batch[..i]), env);
            var id := batch[i];
            && before[id] == rows[id]
            && AttemptAll(tasks, rows, Elements(batch[..i + 1]), env) == before[id := Attempted(tasks, rows[id], id, env)]
  {
  }

  lemma MessagesNext(tasks: Registry, rows: Rows, batch: seq<Uuid>, i: nat, env: Env)
    requires i < |batch| && batch[i] in rows
    ensures var id := batch[i];
            Messages(tasks, rows, batch[..i + 1], env) ==
            Messages(tasks, rows, batch[..i], env) + if Sent(tasks, rows[id], id, env) then [MessageOf(tasks, rows[id], id)] else []
  {
    assert batch[..i + 1][..i] == batch[..i];
  }
}
