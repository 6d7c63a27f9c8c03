/**
 Several publishers and callers at once, and the modules that reuse dispatch rows. Each works in a
 transaction of its own: rows and cursors that it has locked stay its own until it commits or ends
 otherwise, and until then only it sees its writes. What the broker was handed stays with the broker.
 */
module Publishers {
  import opened Overlay
  import opened Outbox
  import Json
  import Payload

  type TxId = nat

  /** A call of `enqueue_after_commit` that succeeded, and the id that it returned. */
  datatype Call = Call(id: Uuid, tenant: Uuid, actor: Uuid, task: string, key: string, payload: Json.Json)

  /**
   A transaction, begun at `now`. `records` are rows that its queries have returned and that it has not
   attempted yet. History: `scheduled` rows whose times it has set itself, `rearmed` of them from published
   to unpublished, and `sent` rows that it has sent successfully.
   */
  datatype Tx = Tx(now: Time, tenants: set<Uuid>, locked: set<Uuid>, records: set<Uuid>, updates: Rows, inserts: Rows,
                   deletes: set<Uuid>, stamps: Cursors, calls: set<Call>, scheduled: set<Uuid>, rearmed: multiset<Uuid>,
                   sent: multiset<Uuid>)

  /** Committed tables. History: every row `ever` committed, the `deleted` ones, and committed re-armings. */
  datatype Base = Base(rows: Rows, cursors: Cursors, ever: Rows, deleted: set<Uuid>, rearmed: multiset<Uuid>, calls: set<Call>)

  /** `clean`: no transaction has sent something and then not committed, and no send failed although it got through. */
  datatype Db = Db(base: Base, log: seq<Message>, txs: map<TxId, Tx>, clean: bool)

  datatype Delivery = Accepted | Ambiguous | Refused

  datatype Action =
    | Begin(t: TxId, now: Time)
    | LockTenant(t: TxId, tenant: Uuid)
    | LockRow(t: TxId, id: Uuid)
    | Attempt(t: TxId, id: Uuid, delivery: Delivery, doneAt: Time)
    | Stamp(t: TxId, tenant: Uuid, at: Time)
    | Enqueue(t: TxId, call: Call, now: Time)
    | Schedule(t: TxId, id: Uuid, at: Time, rearm: bool)
    | Delete(t: TxId, id: Uuid)
    | Commit(t: TxId)
    | Abort(t: TxId)

  predicate SameKey(a: Row, b: Row) {
    a.tenant == b.tenant && a.key == b.key
  }

  predicate KeyOf(row: Row, c: Call) {
    row.tenant == c.tenant && row.key == c.key
  }

  /** The row as the transaction sees it. */
  function Look(rows: Rows, tx: Tx, id: Uuid): Row
    requires id in rows
  {
    if id in tx.updates then tx.updates[id] else rows[id]
  }

  /** The keys that the transaction sees; updates do not change them. */
  function Visible(rows: Rows, tx: Tx): Rows {
    (rows - tx.deletes) + tx.inserts
  }

  function Applied(rows: Rows, tx: Tx): Rows {
    ((rows + tx.updates) - tx.deletes) + tx.inserts
  }

  // ---- steps ----------------------------------------------------------------------------------

  /** No other transaction holds it. */
  ghost predicate TenantFree(d: Db, t: TxId, tenant: Uuid) {
    forall u :: u in d.txs && u != t ==> tenant !in d.txs[u].tenants
  }

  ghost predicate RowFree(d: Db, t: TxId, id: Uuid) {
    forall u :: u in d.txs && u != t ==> id !in d.txs[u].locked
  }

  /** No other transaction has inserted or deleted a row with the key, or inserted the cursor: the insert would wait for it. */
  ghost predicate InsertFree(d: Db, t: TxId, c: Call) {
    forall u :: u in d.txs && u != t ==>
      && (forall i :: i in d.txs[u].inserts ==> !KeyOf(d.txs[u].inserts[i], c))
      && (forall i :: i in d.txs[u].deletes && i in d.base.rows ==> !KeyOf(d.base.rows[i], c))
      && (c.tenant in d.base.cursors || c.tenant !in d.txs[u].stamps)
  }

  ghost predicate NewId(d: Db, id: Uuid) {
    id !in d.base.ever && forall u :: u in d.txs ==> id !in d.txs[u].inserts
  }

  /** The row exists for the transaction, nobody else holds it, and it is not about to be attempted. */
  ghost predicate Writable(d: Db, t: TxId, id: Uuid)
    requires t in d.txs
  {
    id in d.base.rows && RowFree(d, t, id) && id !in d.txs[t].records && id !in d.txs[t].deletes
  }

  ghost predicate Enabled(tasks: Registry, d: Db, a: Action) {
    if a.Begin? then
      a.t !in d.txs
    else
      a.t in d.txs &&
      var tx := d.txs[a.t];
      match a {
        case LockTenant(t, tenant) => tenant in d.base.cursors && TenantFree(d, t, tenant)
        case LockRow(t, id) =>
          && Writable(d, t, id)
          && IsDue(Look(d.base.rows, tx, id), tx.now) && d.base.rows[id].tenant in tx.tenants
        case Attempt(_, id, delivery, doneAt) =>
          && id in d.base.rows && id in tx.records && doneAt >= tx.now
          && (delivery.Refused? || Sendable(tasks, Look(d.base.rows, tx, id)))
        case Stamp(_, tenant, _) => tenant in tx.tenants
        case Enqueue(t, c, _) =>
          && c.task in tasks && Payload.IsPython(c.payload) && Payload.Validate(c.payload).Some? && GoodKey(c.key)
          && NewId(d, c.id) && InsertFree(d, t, c)
        case Schedule(t, id, _, _) => id in tx.inserts || Writable(d, t, id)
        case Delete(t, id) => Writable(d, t, id) && Look(d.base.rows, tx, id).publishedAt.None?
        case _ => true
      }
  }

  /** The caller's transaction after the call: the row with the key is found, or added, or does not match. */
  function EnqueueTx(rows: Rows, cursors: Cursors, tx: Tx, c: Call, now: Time): Tx {
    var stamps := if c.tenant in cursors || c.tenant in tx.stamps then tx.stamps else tx.stamps[c.tenant := None];
    var seen := Visible(rows, tx);
    var existing := HasKey(seen, c.tenant, c.key);
    if existing == {} then
      tx.(stamps := stamps, inserts := tx.inserts[c.id := Row(c.tenant, c.actor, c.task, c.key, Payload.Stored(c.payload), now, None, 0)],
          calls := tx.calls + {c})
    else if forall id :: id in existing ==> SameRequest(seen[id], c.actor, c.task, c.payload) then
      tx.(stamps := stamps, calls := tx.calls + set id | id in existing :: c.(id := id))
    else
      tx.(stamps := stamps)
  }

  /** The attempt is recorded in the row; an accepted one is sent for good. */
  function AttemptTx(rows: Rows, tx: Tx, id: Uuid, delivery: Delivery, doneAt: Time): Tx
    requires id in rows
  {
    tx.(records := tx.records - {id}, updates := tx.updates[id := Recorded(Look(rows, tx, id), delivery.Accepted?, doneAt)],
        sent := if delivery.Accepted? then tx.sent + multiset{id} else tx.sent)
  }

  function Rescheduled(row: Row, at: Time, rearm: bool): Row {
    row.(availableAt := at, publishedAt := if rearm then None else row.publishedAt)
  }

  /** A time of a row is set, and with `rearm` a published row becomes unpublished, so that it is sent again. */
  function ScheduleTx(rows: Rows, tx: Tx, id: Uuid, at: Time, rearm: bool): Tx {
    if id in tx.inserts then
      tx.(inserts := tx.inserts[id := Rescheduled(tx.inserts[id], at, rearm)])
    else if id !in rows then tx
    else
      var row := Look(rows, tx, id);
      tx.(locked := tx.locked + {id}, scheduled := tx.scheduled + {id},
          updates := tx.updates[id := Rescheduled(row, at, rearm)],
          rearmed := if rearm && row.publishedAt.Some? then tx.rearmed + multiset{id} else tx.rearmed)
  }

  function CommittedBase(base: Base, tx: Tx): Base {
    Base(Applied(base.rows, tx), base.cursors + tx.stamps, base.ever + tx.inserts, base.deleted + tx.deletes,
         base.rearmed + tx.rearmed, base.calls + tx.calls)
  }

  const NOTHING := Tx(0, {}, {}, {}, map[], map[], {}, map[], {}, {}, multiset{}, multiset{})

  /** The transaction after one of its own steps. */
  function Worked(base: Base, tx: Tx, a: Action): Tx {
    match a
    case LockTenant(_, tenant) => tx.(tenants := tx.tenants + {tenant})
    case LockRow(_, id) => tx.(locked := tx.locked + {id}, records := tx.records + {id})
    case Attempt(_, id, delivery, doneAt) => if id in base.rows then AttemptTx(base.rows, tx, id, delivery, doneAt) else tx
    case Stamp(_, tenant, at) => tx.(stamps := tx.stamps[tenant := Some(at)])
    case Enqueue(_, c, now) => EnqueueTx(base.rows, base.cursors, tx, c, now)
    case Schedule(_, id, at, rearm) => ScheduleTx(base.rows, tx, id, at, rearm)
    case Delete(_, id) => tx.(locked := tx.locked + {id}, deletes := tx.deletes + {id})
    case _ => tx
  }

  /** What the broker has after the step. */
  function Logged(tasks: Registry, d: Db, a: Action): seq<Message> {
    if a.Attempt? && a.t in d.txs && a.id in d.base.rows && !a.delivery.Refused? && Sendable(tasks, Look(d.base.rows, d.txs[a.t], a.id))
    then d.log + [MessageOf(tasks, Look(d.base.rows, d.txs[a.t], a.id), a.id)]
    else d.log
  }

  function Next(tasks: Registry, d: Db, a: Action): Db {
    if a.Begin? then d.(txs := d.txs[a.t := NOTHING.(now := a.now)])
    else if a.t !in d.txs then d
    else if a.Commit? then d.(base := CommittedBase(d.base, d.txs[a.t]), txs := Without(d.txs, a.t))
    else if a.Abort? then d.(txs := Without(d.txs, a.t), clean := d.clean && d.txs[a.t].sent == multiset{})
    else
      d.(txs := d.txs[a.t := Worked(d.base, d.txs[a.t], a)], log := Logged(tasks, d, a),
         clean := d.clean && !(a.Attempt? && a.delivery.Ambiguous?))
  }

  ghost predicate Initial(d: Db) {
    d.base == Base(map[], map[], map[], {}, multiset{}, {}) && d.log == [] && d.txs == map[] && d.clean
  }

  ghost predicate IsRun(tasks: Registry, run: seq<Db>, actions: seq<Action>) {
    && |run| == |actions| + 1
    && Initial(run[0])
    && forall i :: 0 <= i < |actions| ==> Enabled(tasks, run[i], actions[i]) && run[i + 1] == Next(tasks, run[i], actions[i])
  }
}
