/**
 Rows and cursors of the transactional outbox, the queries of one publisher round, and what a round does.

 Ids, tenants and actors are UUIDs and compare as numbers. Times are in microseconds.
 */
module Outbox {
  import opened Overlay
  import opened Text
  import opened Json
  import opened Payload
  import opened Ordering
  import opened Serving

  type Uuid = nat
  type Time = int

  const SECOND := 1_000_000
  const EXPANSION_TASK := "builds.expand_submission"
  const MAX_LIMIT := 100
  const MAX_PAGES := 10

  datatype Row = Row(tenant: Uuid, actor: Uuid, task: string, key: string, payload: Json, availableAt: Time,
                     publishedAt: Option<Time>, attempts: nat)

  type Rows = map<Uuid, Row>
  type Cursors = map<Uuid, Option<Time>>

  /** What the broker receives. */
  datatype Message = Message(id: Uuid, tenant: Uuid, actor: Uuid, task: string, queue: string, payload: Json)

  /** Task name to queue. */
  type Registry = map<string, string>

  // ---- enqueueing -----------------------------------------------------------------------------

  const MAX_NAME := 255

  /** `task_key.strip()` is not empty and the key fits its column. */
  predicate GoodKey(key: string) {
    Strip(key, IsSpace) != "" && |key| <= MAX_NAME
  }

  /** What the unique constraint on (tenant_id, task_key) finds. */
  function HasKey(rows: Rows, tenant: Uuid, key: string): set<Uuid> {
    set id | id in rows && rows[id].tenant == tenant && rows[id].key == key
  }

  /** The stored configuration is the one that the call asks for. */
  predicate SameRequest(row: Row, actor: Uuid, task: string, payload: Json) {
    row.task == task && row.actor == actor && Same(row.payload, payload)
  }

  // ---- the queries ----------------------------------------------------------------------------

  predicate IsDue(row: Row, now: Time) {
    row.publishedAt.None? && row.availableAt <= now
  }

  /** Unlocked due rows of a tenant, either its expansions or its ordinary rows. */
  function DueRows(rows: Rows, tenant: Uuid, now: Time, locked: set<Uuid>, expansion: bool): set<Uuid> {
    set id | id in rows && rows[id].tenant == tenant && IsDue(rows[id], now) && id !in locked &&
             (rows[id].task == EXPANSION_TASK) == expansion
  }

  /** ORDER BY available_at, id. */
  function RowRank(rows: Rows): Ranking {
    id => if id in rows then (0, rows[id].availableAt) else (0, 0)
  }

  function DueInOrder(rows: Rows, tenant: Uuid, now: Time, locked: set<Uuid>, expansion: bool): seq<Uuid> {
    Sorted(RowRank(rows), DueRows(rows, tenant, now, locked, expansion))
  }

  /** The records of one served tenant: at most one expansion, then ordinary rows in the slots left. */
  function Batch(rows: Rows, tenant: Uuid, now: Time, slots: nat, locked: set<Uuid>): (batch: seq<Uuid>)
    ensures |batch| <= slots || (slots == 0 && |batch| <= 1)
  {
    var expansion := Take(DueInOrder(rows, tenant, now, locked, true), 1);
    expansion +
    if slots > |expansion| then Take(DueInOrder(rows, tenant, now, locked, false), slots - |expansion|) else []
  }

  /** Tenants with a cursor and a due row. */
  function Candidates(rows: Rows, cursors: Cursors, now: Time): set<Uuid> {
    set t, id | t in cursors && id in rows && rows[id].tenant == t && IsDue(rows[id], now) :: t
  }

  /** ORDER BY last_published_at NULLS FIRST, tenant_id. */
  function CursorRank(cursors: Cursors): Ranking {
    t => if t in cursors && cursors[t].Some? then (1, cursors[t].value) else (0, 0)
  }

  function CandidateOrder(rows: Rows, cursors: Cursors, now: Time): seq<Uuid> {
    Sorted(CursorRank(cursors), Candidates(rows, cursors, now))
  }

  // ---- one attempt ----------------------------------------------------------------------------

  function Pow2(n: nat): nat {
    if n == 0 then 1 else 2 * Pow2(n - 1)
  }

  /** `min(300, 2 ** min(attempts, 8))` seconds. */
  function Backoff(attempts: nat): Time {
    var seconds := Pow2(if attempts < 8 then attempts else 8);
    SECOND * if seconds < 300 then seconds else 300
  }

  /** The bound of 300 never applies: the exponent already bounds the delay by 256 seconds. */
  lemma BackoffRange(attempts: nat)
    requires attempts >= 1
    ensures 2 * SECOND <= Backoff(attempts) <= 256 * SECOND
    ensures Backoff(attempts) == SECOND * Pow2(if attempts < 8 then attempts else 8)
  {
    var n := if attempts < 8 then attempts else 8;
    assert Pow2(1) == 2 && Pow2(2) == 4 && Pow2(3) == 8 && Pow2(4) == 16;
    assert Pow2(5) == 32 && Pow2(6) == 64 && Pow2(7) == 128 && Pow2(8) == 256;
  }

  /** What the outside does in one round, where a row is attempted and a tenant served at most once. */
  datatype Env = Env(accepts: Uuid -> bool, doneAt: Uuid -> Time, servedAt: Uuid -> Time)

  /** The row names a registered task and its stored payload still validates. */
  predicate Sendable(tasks: Registry, row: Row) {
    row.task in tasks && IsPython(row.payload) && Validate(row.payload).Some?
  }

  predicate Sent(tasks: Registry, row: Row, id: Uuid, env: Env) {
    Sendable(tasks, row) && env.accepts(id)
  }

  function MessageOf(tasks: Registry, row: Row, id: Uuid): Message
    requires Sendable(tasks, row)
  {
    Message(id, row.tenant, row.actor, row.task, tasks[row.task], Validate(row.payload).value)
  }

  /** The row after an attempt that did or did not succeed. */
  function Recorded(row: Row, ok: bool, doneAt: Time): Row {
    if ok
    then row.(attempts := row.attempts + 1, publishedAt := Some(doneAt))
    else row.(attempts := row.attempts + 1, availableAt := doneAt + Backoff(row.attempts + 1))
  }

  function Attempted(tasks: Registry, row: Row, id: Uuid, env: Env): Row {
    Recorded(row, Sent(tasks, row, id, env), env.doneAt(id))
  }

  /** Exactly the rows in `ids` are attempted, once each. */
  function AttemptAll(tasks: Registry, rows: Rows, ids: set<Uuid>, env: Env): Rows {
    map id | id in rows :: if id in ids then Attempted(tasks, rows[id], id, env) else rows[id]
  }

  /** The messages that attempting `ids` in turn hands to the broker. */
  function Messages(tasks: Registry, rows: Rows, ids: seq<Uuid>, env: Env): seq<Message> {
    if ids == [] then []
    else
      var n := |ids| - 1;
      Messages(tasks, rows, ids[..n], env) +
      if ids[n] in rows && Sent(tasks, rows[ids[n]], ids[n], env) then [MessageOf(tasks, rows[ids[n]], ids[n])] else []
  }

  function ServeAll(cursors: Cursors, tenants: set<Uuid>, env: Env): Cursors {
    map t | t in cursors :: if t in tenants then Some(env.servedAt(t)) else cursors[t]
  }

  // ---- a round --------------------------------------------------------------------------------

  /** Rows and cursors that other transactions hold, which the round skips. */
  datatype Locks = Locks(tenants: set<Uuid>, rows: set<Uuid>)

  function BatchesOf(rows: Rows, now: Time, locked: set<Uuid>): (f: Batches)
    ensures Fits(f)
  {
    (t, slots) => Batch(rows, t, now, slots, locked)
  }

  /** The whole round, from the state at its start: ten pages of candidates, in order. */
  ghost function RoundPlan(rows: Rows, cursors: Cursors, now: Time, limit: nat, locks: Locks): seq<Service> {
    Plan(BatchesOf(rows, now, locks.rows), Take(CandidateOrder(rows, cursors, now), MAX_PAGES * limit), limit, 0,
         locks.tenants)
  }

  /** The tables and what the broker has received. */
  datatype State = State(rows: Rows, cursors: Cursors, sent: seq<Message>)

  /** Each planned row is attempted, each served tenant's cursor moves, the messages go out in order. */
  ghost function Outcome(tasks: Registry, s: State, plan: seq<Service>, env: Env): State {
    var ids := AttemptedIds(plan);
    State(AttemptAll(tasks, s.rows, Elements(ids), env), ServeAll(s.cursors, Served(plan), env),
          s.sent + Messages(tasks, s.rows, ids, env))
  }

  function Bounded(limit: nat): nat {
    if limit < MAX_LIMIT then limit else MAX_LIMIT
  }
}
