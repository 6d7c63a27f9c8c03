/** What every step of every publisher, caller and module keeps. */
module PublisherInvariant {
  import opened Overlay
  import opened Outbox
  import opened Rounds
  import opened Publishers
  import Json
  import Payload

  // ---- the invariant --------------------------------------------------------------------------

  /** What no transaction changes in a row. */
  predicate SameRow(a: Row, b: Row) {
    a.tenant == b.tenant && a.actor == b.actor && a.task == b.task && a.key == b.key && a.payload == b.payload
  }

  function Copies(log: seq<Message>, id: Uuid): nat {
    if log == [] then 0 else Copies(log[..|log| - 1], id) + if log[|log| - 1].id == id then 1 else 0
  }

  predicate RowHas(row: Row, c: Call) {
    && KeyOf(row, c) && SameRequest(row, c.actor, c.task, Payload.Stored(c.payload))
    && Json.IsJson(c.payload) && Payload.IsStored(row.payload)
  }

  ghost predicate Unique(rows: Rows) {
    forall i, j :: i in rows && j in rows && SameKey(rows[i], rows[j]) ==> i == j
  }

  ghost predicate NoKeyInCommon(rows: Rows, other: Rows) {
    forall i, j :: i in rows && j in other ==> !SameKey(rows[i], other[j])
  }

  ghost predicate CallsHold(rows: Rows, calls: set<Call>) {
    forall c :: c in calls ==> c.id in rows && RowHas(rows[c.id], c)
  }

  ghost predicate LogHolds(tasks: Registry, rows: Rows, log: seq<Message>) {
    forall m :: m in log ==> m.id in rows && CarriesRow(tasks, rows[m.id], m)
  }

  ghost predicate RowsOk(rows: Rows, cursors: Cursors, log: seq<Message>) {
    forall id :: id in rows ==>
      && rows[id].tenant in cursors && Payload.IsStored(rows[id].payload)
      && (rows[id].publishedAt.Some? ==> Copies(log, id) > 0)
  }

  /** Every row that was ever committed is there as it was in what is immutable, or was deleted. */
  ghost predicate EverOk(base: Base) {
    && base.ever.Keys == base.rows.Keys + base.deleted && base.rows.Keys !! base.deleted
    && forall id :: id in base.rows ==> SameRow(base.ever[id], base.rows[id])
  }

  ghost predicate BaseOk(tasks: Registry, base: Base, log: seq<Message>) {
    && RowsOk(base.rows, base.cursors, log) && Unique(base.rows) && EverOk(base)
    && LogHolds(tasks, base.ever, log) && CallsHold(base.ever, base.calls)
  }

  /** One for a published row. */
  function Flag(row: Row): nat {
    if row.publishedAt.Some? then 1 else 0
  }

  /**
   The transaction's own version of a row: what is immutable is kept, it is published only when it was sent,
   sends and re-armings account for the difference to the committed row, a row returned by a query is due, and
   an attempted row is not due again in the same transaction.
   */
  ghost predicate RowOk(rows: Rows, log: seq<Message>, tx: Tx, id: Uuid)
    requires id in rows
  {
    var row := Look(rows, tx, id);
    && SameRow(rows[id], row)
    && (row.publishedAt.Some? ==> Copies(log, id) > 0)
    && Flag(row) + tx.rearmed[id] == Flag(rows[id]) + tx.sent[id]
    && (id in tx.records ==> IsDue(row, tx.now) && id !in tx.deletes)
    && (id in tx.deletes ==> row.publishedAt.None?)
    && (id in tx.updates && id !in tx.scheduled ==>
          rows[id].publishedAt.None? && row.attempts == rows[id].attempts + 1 && !IsDue(row, tx.now))
    && (rows[id].publishedAt.Some? && tx.rearmed[id] == 0 ==> row.(availableAt := 0) == rows[id].(availableAt := 0))
  }

  ghost predicate LocksOk(rows: Rows, tx: Tx) {
    && tx.updates.Keys + tx.records + tx.deletes + tx.scheduled <= tx.locked <= rows.Keys
    && forall id :: id !in tx.locked ==> tx.rearmed[id] == 0 && tx.sent[id] == 0
  }

  ghost predicate UpdatesOk(rows: Rows, log: seq<Message>, tx: Tx) {
    LocksOk(rows, tx) && forall id :: id in rows ==> RowOk(rows, log, tx, id)
  }

  ghost predicate InsertsOk(base: Base, tx: Tx) {
    && (forall id :: id in tx.inserts ==>
          && id !in base.ever && (tx.inserts[id].tenant in base.cursors || tx.inserts[id].tenant in tx.stamps)
          && Payload.IsStored(tx.inserts[id].payload) && tx.inserts[id].publishedAt.None?)
    && NoKeyInCommon(base.rows - tx.deletes, tx.inserts) && Unique(tx.inserts)
    && CallsHold(base.ever + tx.inserts, tx.calls)
  }

  ghost predicate TxOk(base: Base, log: seq<Message>, tx: Tx) {
    UpdatesOk(base.rows, log, tx) && InsertsOk(base, tx)
  }

  ghost predicate Apart(a: Tx, b: Tx) {
    && a.tenants !! b.tenants && a.locked !! b.locked && a.inserts.Keys !! b.inserts.Keys
    && NoKeyInCommon(a.inserts, b.inserts)
  }

  /** How often a row may have been sent by committed transactions. */
  function Allowed(base: Base, id: Uuid): nat {
    base.rearmed[id] + if id in base.rows then Flag(base.rows[id]) else 0
  }

  ghost predicate NoSend(txs: map<TxId, Tx>, id: Uuid) {
    forall t :: t in txs ==> txs[t].sent[id] == 0
  }

  /** Once, and once more for each re-arming; the holder of the row may have sent it in addition. */
  ghost predicate OnceFor(base: Base, txs: map<TxId, Tx>, log: seq<Message>, id: Uuid) {
    && (NoSend(txs, id) ==> Copies(log, id) <= Allowed(base, id))
    && (forall t :: t in txs && txs[t].sent[id] > 0 ==> Copies(log, id) <= Allowed(base, id) + txs[t].sent[id])
  }

  ghost predicate Once(base: Base, txs: map<TxId, Tx>, log: seq<Message>) {
    forall id :: id in base.ever ==> OnceFor(base, txs, log, id)
  }

  ghost predicate AllApart(txs: map<TxId, Tx>) {
    forall t, u :: t in txs && u in txs && t != u ==> Apart(txs[t], txs[u])
  }

  ghost predicate Inv(tasks: Registry, d: Db) {
    && BaseOk(tasks, d.base, d.log)
    && (forall t :: t in d.txs ==> TxOk(d.base, d.log, d.txs[t]))
    && AllApart(d.txs)
    && (d.clean ==> Once(d.base, d.txs, d.log))
  }

  // ---- the log --------------------------------------------------------------------------------

  lemma CopiesNext(log: seq<Message>, m: Message, id: Uuid)
    ensures Copies(log + [m], id) == Copies(log, id) + if m.id == id then 1 else 0
  {
  }

  lemma {:induction false} CopiesZero(log: seq<Message>, id: Uuid)
    ensures Copies(log, id) > 0 <==> exists m :: m in log && m.id == id
  {
    if log != [] {
      var n := |log| - 1;
      CopiesZero(log[..n], id);
      assert log == log[..n] + [log[n]];
    }
  }

  /** What holds of the tables and of a transaction still does when the log has grown by a message of a row. */
  lemma LogGrows(tasks: Registry, base: Base, log: seq<Message>, m: Message)
    requires BaseOk(tasks, base, log) && m.id in base.ever && CarriesRow(tasks, base.ever[m.id], m)
    ensures BaseOk(tasks, base, log + [m])
  {
    hide CarriesRow, EverOk, Unique, CallsHold, Json.IsJson, Payload.IsStored, Payload.Stored;
    forall id
      ensures Copies(log + [m], id) >= Copies(log, id)
    {
      CopiesNext(log, m, id);
    }
  }

  lemma LogGrowsTx(base: Base, log: seq<Message>, tx: Tx, m: Message)
    requires TxOk(base, log, tx)
    ensures TxOk(base, log + [m], tx)
  {
    hide InsertsOk, LocksOk;
    forall id | id in base.rows
      ensures RowOk(base.rows, log + [m], tx, id)
    {
      assert RowOk(base.rows, log, tx, id);
      CopiesNext(log, m, id);
    }
  }

  // ---- a step inside one transaction ----------------------------------------------------------

  lemma ApartSwaps(a: Tx, b: Tx)
    requires Apart(a, b)
    ensures Apart(b, a)
  {
  }

  /** Only transaction `t` and perhaps the log have changed. */
  lemma WorkKeeps(tasks: Registry, d: Db, t: TxId, tx: Tx, log: seq<Message>, clean: bool)
    requires Inv(tasks, d) && t in d.txs
    requires BaseOk(tasks, d.base, log) && TxOk(d.base, log, tx)
    requires forall u :: u in d.txs && u != t ==> TxOk(d.base, log, d.txs[u]) && Apart(tx, d.txs[u])
    requires clean ==> Once(d.base, d.txs[t := tx], log)
    ensures Inv(tasks, d.(txs := d.txs[t := tx], log := log, clean := clean))
  {
    hide BaseOk, TxOk, Apart, Once;
    forall u | u in d.txs && u != t
      ensures Apart(d.txs[u], tx)
    {
      ApartSwaps(tx, d.txs[u]);
    }
  }

  lemma SameSent(base: Base, txs: map<TxId, Tx>, log: seq<Message>, t: TxId, tx: Tx)
    requires Once(base, txs, log) && t in txs && txs[t].sent == tx.sent
    ensures Once(base, txs[t := tx], log)
  {
    hide Copies, Allowed;
    var after := txs[t := tx];
    forall id | id in base.ever
      ensures OnceFor(base, after, log, id)
    {
      assert OnceFor(base, txs, log, id);
      if NoSend(after, id) {
        forall u | u in txs
          ensures txs[u].sent[id] == 0
        {
          assert after[u].sent[id] == 0;
        }
      }
    }
  }

  /** Changes that neither touch the log nor what the transaction has sent. */
  lemma QuietKeeps(tasks: Registry, d: Db, t: TxId, tx: Tx)
    requires Inv(tasks, d) && t in d.txs && tx.sent == d.txs[t].sent
    requires TxOk(d.base, d.log, tx)
    requires forall u :: u in d.txs && u != t ==> Apart(tx, d.txs[u])
    ensures Inv(tasks, d.(txs := d.txs[t := tx]))
  {
    hide BaseOk, TxOk, Apart, Once;
    if d.clean { SameSent(d.base, d.txs, d.log, t, tx); }
    WorkKeeps(tasks, d, t, tx, d.log, d.clean);
  }

  /** A step that keeps the inserts apart may take a row or a tenant that is free. */
  lemma StillApart(d: Db, t: TxId, tx: Tx)
    requires t in d.txs && AllApart(d.txs)
    requires tx.inserts.Keys == d.txs[t].inserts.Keys && (forall i :: i in tx.inserts ==> SameKey(tx.inserts[i], d.txs[t].inserts[i]))
    requires forall x :: x in tx.tenants && x !in d.txs[t].tenants ==> TenantFree(d, t, x)
    requires forall x :: x in tx.locked && x !in d.txs[t].locked ==> RowFree(d, t, x)
    ensures forall u :: u in d.txs && u != t ==> Apart(tx, d.txs[u])
  {
    forall u | u in d.txs && u != t
      ensures Apart(tx, d.txs[u])
    {
      assert Apart(d.txs[t], d.txs[u]);
    }
  }

  /** Rows of which a step has not changed the transaction's version stay in order. */
  lemma SameRowOk(rows: Rows, log: seq<Message>, tx: Tx, next: Tx, id: Uuid)
    requires id in rows && RowOk(rows, log, tx, id) && Look(rows, next, id) == Look(rows, tx, id) && next.now == tx.now
    requires (id in next.updates <==> id in tx.updates) && (id in next.scheduled <==> id in tx.scheduled)
    requires (id in next.records ==> id in tx.records) && (id in next.deletes <==> id in tx.deletes)
    requires next.rearmed[id] == tx.rearmed[id] && next.sent[id] == tx.sent[id]
    ensures RowOk(rows, log, next, id)
  {
  }

  /** Inserts that nothing has changed stay in order. */
  lemma SameInsertsOk(base: Base, tx: Tx, next: Tx)
    requires InsertsOk(base, tx) && next.inserts == tx.inserts && next.calls == tx.calls && tx.deletes <= next.deletes
    requires forall t :: t in tx.stamps ==> t in next.stamps
    ensures InsertsOk(base, next)
  {
    hide CallsHold, Unique, Json.IsJson, Payload.IsStored, Payload.Stored;
    FewerRows(base.rows - tx.deletes, base.rows - next.deletes, tx.inserts);
  }

  lemma FewerRows(rows: Rows, fewer: Rows, other: Rows)
    requires NoKeyInCommon(rows, other) && forall id :: id in fewer ==> id in rows && rows[id] == fewer[id]
    ensures NoKeyInCommon(fewer, other)
  {
  }

  lemma SameUpdatesOk(rows: Rows, log: seq<Message>, tx: Tx, next: Tx)
    requires UpdatesOk(rows, log, tx)
    requires next == tx.(tenants := next.tenants, inserts := next.inserts, stamps := next.stamps, calls := next.calls)
    ensures UpdatesOk(rows, log, next)
  {
    hide RowOk;
    forall id | id in rows
      ensures RowOk(rows, log, next, id)
    {
      SameRowOk(rows, log, tx, next, id);
    }
  }

  lemma LockTenantKeeps(tasks: Registry, d: Db, a: Action)
    requires Inv(tasks, d) && a.LockTenant? && Enabled(tasks, d, a)
    ensures Inv(tasks, Next(tasks, d, a))
  {
    hide BaseOk, UpdatesOk, InsertsOk, Apart, Once;
    var tx := Worked(d.base, d.txs[a.t], a);
    SameUpdatesOk(d.base.rows, d.log, d.txs[a.t], tx);
    SameInsertsOk(d.base, d.txs[a.t], tx);
    StillApart(d, a.t, tx);
    QuietKeeps(tasks, d, a.t, tx);
  }

  lemma StampKeeps(tasks: Registry, d: Db, a: Action)
    requires Inv(tasks, d) && a.Stamp? && Enabled(tasks, d, a)
    ensures Inv(tasks, Next(tasks, d, a))
  {
    hide BaseOk, UpdatesOk, InsertsOk, Apart, Once;
    var tx := Worked(d.base, d.txs[a.t], a);
    SameUpdatesOk(d.base.rows, d.log, d.txs[a.t], tx);
    SameInsertsOk(d.base, d.txs[a.t], tx);
    StillApart(d, a.t, tx);
    QuietKeeps(tasks, d, a.t, tx);
  }

  /** Only the version of one row has changed, and it is in order. */
  lemma OneRowChanged(rows: Rows, log: seq<Message>, tx: Tx, next: Tx, id: Uuid)
    requires UpdatesOk(rows, log, tx) && id in rows && RowOk(rows, log, next, id)
    requires next.locked == tx.locked + {id} && next.now == tx.now
    requires next.updates.Keys + next.records + next.deletes + next.scheduled <= next.locked
    requires forall j :: j != id ==>
               && (j in next.updates <==> j in tx.updates) && (j in tx.updates ==> next.updates[j] == tx.updates[j])
               && (j in next.scheduled <==> j in tx.scheduled) && (j in next.records ==> j in tx.records)
               && (j in next.deletes <==> j in tx.deletes)
               && next.rearmed[j] == tx.rearmed[j] && next.sent[j] == tx.sent[j]
    ensures UpdatesOk(rows, log, next)
  {
    hide RowOk;
    forall j | j in rows
      ensures RowOk(rows, log, next, j)
    {
      if j != id { SameRowOk(rows, log, tx, next, j); }
    }
  }

  lemma DueRowOk(rows: Rows, log: seq<Message>, tx: Tx, id: Uuid)
    requires id in rows && RowOk(rows, log, tx, id) && id !in tx.deletes && IsDue(Look(rows, tx, id), tx.now)
    ensures RowOk(rows, log, tx.(locked := tx.locked + {id}, records := tx.records + {id}), id)
  {
  }

  lemma LockRowKeeps(tasks: Registry, d: Db, a: Action)
    requires Inv(tasks, d) && a.LockRow? && Enabled(tasks, d, a)
    ensures Inv(tasks, Next(tasks, d, a))
  {
    hide BaseOk, InsertsOk, Apart, Once, RowOk, IsDue;
    var tx := Worked(d.base, d.txs[a.t], a);
    DueRowOk(d.base.rows, d.log, d.txs[a.t], a.id);
    OneRowChanged(d.base.rows, d.log, d.txs[a.t], tx, a.id);
    SameInsertsOk(d.base, d.txs[a.t], tx);
    StillApart(d, a.t, tx);
    QuietKeeps(tasks, d, a.t, tx);
  }

  lemma DeletedRowOk(rows: Rows, log: seq<Message>, tx: Tx, id: Uuid)
    requires id in rows && RowOk(rows, log, tx, id) && id !in tx.records && Look(rows, tx, id).publishedAt.None?
    ensures RowOk(rows, log, tx.(locked := tx.locked + {id}, deletes := tx.deletes + {id}), id)
  {
  }

  lemma DeleteKeeps(tasks: Registry, d: Db, a: Action)
    requires Inv(tasks, d) && a.Delete? && Enabled(tasks, d, a)
    ensures Inv(tasks, Next(tasks, d, a))
  {
    hide BaseOk, InsertsOk, Apart, Once, RowOk;
    var tx := Worked(d.base, d.txs[a.t], a);
    DeletedRowOk(d.base.rows, d.log, d.txs[a.t], a.id);
    OneRowChanged(d.base.rows, d.log, d.txs[a.t], tx, a.id);
    SameInsertsOk(d.base, d.txs[a.t], tx);
    StillApart(d, a.t, tx);
    QuietKeeps(tasks, d, a.t, tx);
  }

  // ---- schedules ------------------------------------------------------------------------------

  lemma ScheduledRowOk(rows: Rows, log: seq<Message>, tx: Tx, id: Uuid, at: Time, rearm: bool)
    requires id in rows && id !in tx.inserts && RowOk(rows, log, tx, id) && id !in tx.records && id !in tx.deletes
    ensures RowOk(rows, log, ScheduleTx(rows, tx, id, at, rearm), id)
  {
  }

  lemma RescheduledInserts(base: Base, tx: Tx, id: Uuid, at: Time, rearm: bool)
    requires InsertsOk(base, tx) && id in tx.inserts
    ensures InsertsOk(base, tx.(inserts := tx.inserts[id := Rescheduled(tx.inserts[id], at, rearm)]))
  {
    hide Json.IsJson, Payload.IsStored, Payload.Stored, SameRequest;
    var inserts := tx.inserts[id := Rescheduled(tx.inserts[id], at, rearm)];
    forall i | i in inserts
      ensures SameRow(inserts[i], tx.inserts[i])
    {
    }
    forall c | c in tx.calls
      ensures c.id in base.ever + inserts && RowHas((base.ever + inserts)[c.id], c)
    {
      assert RowHas((base.ever + tx.inserts)[c.id], c);
      SameRowHas((base.ever + tx.inserts)[c.id], (base.ever + inserts)[c.id], c);
    }
  }

  lemma SameRowHas(a: Row, b: Row, c: Call)
    requires SameRow(a, b) && RowHas(a, c)
    ensures RowHas(b, c)
  {
  }

  lemma ScheduleInsertKeeps(tasks: Registry, d: Db, a: Action)
    requires Inv(tasks, d) && a.Schedule? && a.t in d.txs && a.id in d.txs[a.t].inserts
    ensures Inv(tasks, Next(tasks, d, a))
  {
    hide BaseOk, UpdatesOk, InsertsOk, Apart, Once;
    var tx := Worked(d.base, d.txs[a.t], a);
    SameUpdatesOk(d.base.rows, d.log, d.txs[a.t], tx);
    RescheduledInserts(d.base, d.txs[a.t], a.id, a.at, a.rearm);
    StillApart(d, a.t, tx);
    QuietKeeps(tasks, d, a.t, tx);
  }

  lemma ScheduleRowKeeps(tasks: Registry, d: Db, a: Action)
    requires Inv(tasks, d) && a.Schedule? && a.t in d.txs && Writable(d, a.t, a.id) && a.id !in d.txs[a.t].inserts
    ensures Inv(tasks, Next(tasks, d, a))
  {
    hide BaseOk, InsertsOk, Apart, Once, RowOk;
    var tx := Worked(d.base, d.txs[a.t], a);
    ScheduledRowOk(d.base.rows, d.log, d.txs[a.t], a.id, a.at, a.rearm);
    OneRowChanged(d.base.rows, d.log, d.txs[a.t], tx, a.id);
    SameInsertsOk(d.base, d.txs[a.t], tx);
    StillApart(d, a.t, tx);
    QuietKeeps(tasks, d, a.t, tx);
  }

  lemma ScheduleKeeps(tasks: Registry, d: Db, a: Action)
    requires Inv(tasks, d) && a.Schedule? && Enabled(tasks, d, a)
    ensures Inv(tasks, Next(tasks, d, a))
  {
    hide Inv, Next;
    if a.id in d.txs[a.t].inserts { ScheduleInsertKeeps(tasks, d, a); } else { ScheduleRowKeeps(tasks, d, a); }
  }

  // ---- attempts -------------------------------------------------------------------------------

  /** After an attempt the row is not due again in the same round. */
  lemma AttemptedRowOk(rows: Rows, log: seq<Message>, tx: Tx, id: Uuid, delivery: Delivery, doneAt: Time)
    requires id in rows && RowOk(rows, log, tx, id) && id in tx.records && doneAt >= tx.now
    requires delivery.Accepted? ==> Copies(log, id) > 0
    ensures RowOk(rows, log, AttemptTx(rows, tx, id, delivery, doneAt), id)
  {
    BackoffRange(Look(rows, tx, id).attempts + 1);
  }

  lemma MessageCarries(tasks: Registry, row: Row, id: Uuid)
    requires Sendable(tasks, row)
    ensures CarriesRow(tasks, row, MessageOf(tasks, row, id)) && MessageOf(tasks, row, id).id == id
  {
    Payload.ValidateIsSnapshot(row.payload);
  }

  /** A row that somebody holds has been sent by nobody else who is still at work. */
  lemma OthersSentNothing(d: Db, t: TxId, id: Uuid)
    requires AllApart(d.txs) && t in d.txs && id in d.txs[t].locked
    requires forall u :: u in d.txs ==> LocksOk(d.base.rows, d.txs[u])
    ensures forall u :: u in d.txs && u != t ==> d.txs[u].sent[id] == 0
  {
    forall u | u in d.txs && u != t
      ensures d.txs[u].sent[id] == 0
    {
      assert Apart(d.txs[t], d.txs[u]);
    }
  }

  /** An accepted attempt sends the row once more than before. */
  lemma SentOnceMore(base: Base, txs: map<TxId, Tx>, log: seq<Message>, t: TxId, tx: Tx, m: Message)
    requires Once(base, txs, log) && t in txs && tx.sent == txs[t].sent + multiset{m.id} && m.id in base.ever
    requires forall u :: u in txs && u != t ==> txs[u].sent[m.id] == 0
    ensures Once(base, txs[t := tx], log + [m])
  {
    hide Copies, Allowed;
    var after := txs[t := tx];
    forall id | id in base.ever
      ensures OnceFor(base, after, log + [m], id)
    {
      CopiesNext(log, m, id);
      assert OnceFor(base, txs, log, id);
      if id == m.id {
        assert after[t].sent[id] > 0;
        assert txs[t].sent[id] == 0 ==> NoSend(txs, id);
      } else {
        assert NoSend(after, id) ==> NoSend(txs, id) by {
          if NoSend(after, id) {
            forall u | u in txs
              ensures txs[u].sent[id] == 0
            {
              assert after[u].sent[id] == 0;
            }
          }
        }
      }
    }
  }

  lemma RefusedKeeps(tasks: Registry, d: Db, a: Action)
    requires Inv(tasks, d) && a.Attempt? && Enabled(tasks, d, a) && a.delivery.Refused?
    ensures Inv(tasks, Next(tasks, d, a))
  {
    hide BaseOk, InsertsOk, Apart, Once, RowOk, Sendable, Recorded, IsDue;
    var tx := Worked(d.base, d.txs[a.t], a);
    AttemptedRowOk(d.base.rows, d.log, d.txs[a.t], a.id, a.delivery, a.doneAt);
    OneRowChanged(d.base.rows, d.log, d.txs[a.t], tx, a.id);
    SameInsertsOk(d.base, d.txs[a.t], tx);
    StillApart(d, a.t, tx);
    QuietKeeps(tasks, d, a.t, tx);
  }

  /** The message of a transaction's version of a row carries the row. */
  lemma OwnMessage(tasks: Registry, base: Base, log: seq<Message>, tx: Tx, id: Uuid)
    requires EverOk(base) && id in base.rows && RowOk(base.rows, log, tx, id) && Sendable(tasks, Look(base.rows, tx, id))
    ensures var m := MessageOf(tasks, Look(base.rows, tx, id), id);
            m.id == id && id in base.ever && CarriesRow(tasks, base.ever[id], m)
  {
    MessageCarries(tasks, Look(base.rows, tx, id), id);
  }

  lemma SendKeeps(tasks: Registry, d: Db, a: Action)
    requires Inv(tasks, d) && a.Attempt? && Enabled(tasks, d, a) && !a.delivery.Refused?
    ensures Inv(tasks, Next(tasks, d, a))
  {
    hide RowsOk, Unique, LogHolds, CallsHold, EverOk, InsertsOk, Apart, Once, RowOk, Sendable, Recorded, IsDue, MessageOf, CarriesRow;
    var tx := Worked(d.base, d.txs[a.t], a);
    var m := MessageOf(tasks, Look(d.base.rows, d.txs[a.t], a.id), a.id);
    var log := d.log + [m];
    OwnMessage(tasks, d.base, d.log, d.txs[a.t], a.id);
    LogGrows(tasks, d.base, d.log, m);
    CopiesNext(d.log, m, a.id);
    forall u | u in d.txs
      ensures TxOk(d.base, log, d.txs[u])
    {
      LogGrowsTx(d.base, d.log, d.txs[u], m);
    }
    AttemptedRowOk(d.base.rows, log, d.txs[a.t], a.id, a.delivery, a.doneAt);
    OneRowChanged(d.base.rows, log, d.txs[a.t], tx, a.id);
    SameInsertsOk(d.base, d.txs[a.t], tx);
    StillApart(d, a.t, tx);
    if d.clean && a.delivery.Accepted? {
      OthersSentNothing(d, a.t, a.id);
      SentOnceMore(d.base, d.txs, d.log, a.t, tx, m);
    }
    WorkKeeps(tasks, d, a.t, tx, log, d.clean && !a.delivery.Ambiguous?);
  }

  // ---- enqueueing -----------------------------------------------------------------------------

  /** A key that nobody seen has stays unique when a row gets it. */
  lemma InsertKeys(rows: Rows, inserts: Rows, c: Call, row: Row)
    requires NoKeyInCommon(rows, inserts) && Unique(inserts) && KeyOf(row, c)
    requires c.id !in inserts && rows.Keys !! inserts.Keys && HasKey(rows + inserts, c.tenant, c.key) == {}
    ensures NoKeyInCommon(rows, inserts[c.id := row]) && Unique(inserts[c.id := row])
  {
    var seen := rows + inserts;
    forall i | i in seen
      ensures !SameKey(seen[i], row)
    {
      assert i !in HasKey(seen, c.tenant, c.key);
    }
    forall i | i in inserts
      ensures !SameKey(inserts[i], row)
    {
      assert seen[i] == inserts[i];
    }
    forall i | i in rows
      ensures !SameKey(rows[i], row)
    {
      assert seen[i] == rows[i];
    }
  }

  lemma InsertCalls(ever: Rows, inserts: Rows, calls: set<Call>, c: Call, row: Row)
    requires CallsHold(ever + inserts, calls) && RowHas(row, c) && c.id !in ever && c.id !in inserts
    ensures CallsHold(ever + inserts[c.id := row], calls + {c})
  {
    hide RowHas;
    assert ever + inserts[c.id := row] == (ever + inserts)[c.id := row];
  }

  lemma InsertOk(base: Base, tx: Tx, c: Call, row: Row, stamps: Cursors)
    requires EverOk(base) && InsertsOk(base, tx) && RowHas(row, c) && row.publishedAt.None?
    requires c.id !in base.ever && c.id !in tx.inserts && HasKey(Visible(base.rows, tx), c.tenant, c.key) == {}
    requires forall u :: u in tx.stamps ==> u in stamps
    requires c.tenant in base.cursors || c.tenant in stamps
    ensures InsertsOk(base, tx.(inserts := tx.inserts[c.id := row], stamps := stamps, calls := tx.calls + {c}))
  {
    hide NoKeyInCommon, Unique, CallsHold, HasKey, Json.IsJson, Payload.IsStored, Payload.Stored;
    InsertKeys(base.rows - tx.deletes, tx.inserts, c, row);
    InsertCalls(base.ever, tx.inserts, tx.calls, c, row);
  }

  /** A call that finds a row: the call holds of what was ever committed, or of an own insert. */
  lemma FindOk(base: Base, tx: Tx, c: Call, stamps: Cursors)
    requires EverOk(base) && InsertsOk(base, tx) && Json.IsJson(c.payload)
    requires forall id :: id in base.rows ==> Payload.IsStored(base.rows[id].payload)
    requires var seen := Visible(base.rows, tx);
             forall id :: id in HasKey(seen, c.tenant, c.key) ==> SameRequest(seen[id], c.actor, c.task, c.payload)
    requires forall u :: u in tx.stamps ==> u in stamps
    ensures var existing := HasKey(Visible(base.rows, tx), c.tenant, c.key);
            InsertsOk(base, tx.(stamps := stamps, calls := tx.calls + set id | id in existing :: c.(id := id)))
  {
    hide Json.IsJson, Payload.IsStored, Payload.Stored, Payload.Same, Unique, NoKeyInCommon;
    var seen, all := Visible(base.rows, tx), base.ever + tx.inserts;
    forall id | id in HasKey(seen, c.tenant, c.key)
      ensures id in all && RowHas(all[id], c.(id := id))
    {
      assert Payload.IsStored(seen[id].payload);
      FoundRowHas(seen[id], all[id], c, id);
    }
    assert CallsHold(all, tx.calls);
  }

  lemma FoundRowHas(row: Row, ever: Row, c: Call, id: Uuid)
    requires KeyOf(row, c) && SameRequest(row, c.actor, c.task, c.payload) && Json.IsJson(c.payload) && Payload.IsStored(row.payload)
    requires SameRow(row, ever)
    ensures RowHas(ever, c.(id := id))
  {
    hide Payload.Same, Payload.Stored, Payload.IsStored;
    Payload.LastingSame(row.payload, c.payload);
  }

  lemma NewRowHas(row: Row, c: Call)
    requires Payload.IsPython(c.payload) && Payload.Validate(c.payload).Some?
    requires KeyOf(row, c) && row.task == c.task && row.actor == c.actor && row.payload == Payload.Stored(c.payload)
    ensures RowHas(row, c) && Json.IsJson(c.payload)
  {
    hide Payload.Same, Payload.Stored;
    Payload.ValidateIsSnapshot(c.payload);
    Payload.StoredIsStored(c.payload);
    Payload.SameReflexive(row.payload);
  }

  lemma EnqueueInsertsOk(base: Base, tx: Tx, c: Call, now: Time)
    requires EverOk(base) && InsertsOk(base, tx) && c.id !in base.ever && c.id !in tx.inserts
    requires forall id :: id in base.rows ==> Payload.IsStored(base.rows[id].payload)
    requires Payload.IsPython(c.payload) && Payload.Validate(c.payload).Some?
    ensures InsertsOk(base, EnqueueTx(base.rows, base.cursors, tx, c, now))
  {
    hide EverOk, InsertsOk, SameRequest, Json.IsJson, Payload.IsStored, Payload.Stored, Payload.Same, Payload.Validate, Payload.IsPython, Visible;
    var row := Row(c.tenant, c.actor, c.task, c.key, Payload.Stored(c.payload), now, None, 0);
    NewRowHas(row, c);
    var next := EnqueueTx(base.rows, base.cursors, tx, c, now);
    var seen := Visible(base.rows, tx);
    if HasKey(seen, c.tenant, c.key) == {} {
      InsertOk(base, tx, c, row, next.stamps);
    } else if forall id :: id in HasKey(seen, c.tenant, c.key) ==> SameRequest(seen[id], c.actor, c.task, c.payload) {
      FindOk(base, tx, c, next.stamps);
    } else {
      SameInsertsOk(base, tx, next);
    }
  }

  lemma EnqueueApart(rows: Rows, cursors: Cursors, tx: Tx, c: Call, now: Time, other: Tx)
    requires Apart(tx, other) && c.id !in other.inserts && forall i :: i in other.inserts ==> !KeyOf(other.inserts[i], c)
    ensures Apart(EnqueueTx(rows, cursors, tx, c, now), other)
  {
  }

  lemma EnqueueUpdates(rows: Rows, cursors: Cursors, tx: Tx, c: Call, now: Time)
    ensures var next := EnqueueTx(rows, cursors, tx, c, now);
            next == tx.(inserts := next.inserts, stamps := next.stamps, calls := next.calls)
  {
  }

  lemma EnqueueKeeps(tasks: Registry, d: Db, a: Action)
    requires Inv(tasks, d) && a.Enqueue? && Enabled(tasks, d, a)
    ensures Inv(tasks, Next(tasks, d, a))
  {
    hide UpdatesOk, InsertsOk, Apart, Once, EnqueueTx, Json.IsJson, Payload.IsStored, Payload.Stored, Payload.Validate, Payload.IsPython, LogHolds, CallsHold, Unique, EverOk;
    var tx := EnqueueTx(d.base.rows, d.base.cursors, d.txs[a.t], a.call, a.now);
    EnqueueInsertsOk(d.base, d.txs[a.t], a.call, a.now);
    EnqueueUpdates(d.base.rows, d.base.cursors, d.txs[a.t], a.call, a.now);
    SameUpdatesOk(d.base.rows, d.log, d.txs[a.t], tx);
    forall u | u in d.txs && u != a.t
      ensures Apart(tx, d.txs[u])
    {
      EnqueueApart(d.base.rows, d.base.cursors, d.txs[a.t], a.call, a.now, d.txs[u]);
    }
    QuietKeeps(tasks, d, a.t, tx);
  }

  // ---- the end of a transaction ---------------------------------------------------------------

  /** The committed table: the transaction's versions of the rows that it has not deleted, and its inserts. */
  lemma AppliedRows(base: Base, log: seq<Message>, tx: Tx)
    requires EverOk(base) && TxOk(base, log, tx)
    ensures var after := Applied(base.rows, tx);
            && after.Keys == (base.rows.Keys - tx.deletes) + tx.inserts.Keys
            && (forall id :: id in base.rows && id !in tx.deletes ==> after[id] == Look(base.rows, tx, id))
            && (forall id :: id in tx.inserts ==> after[id] == tx.inserts[id] && id !in base.ever)
  {
  }

  lemma CommitRows(base: Base, log: seq<Message>, tx: Tx)
    requires RowsOk(base.rows, base.cursors, log) && EverOk(base) && TxOk(base, log, tx)
    ensures RowsOk(Applied(base.rows, tx), base.cursors + tx.stamps, log)
  {
    hide Applied, Json.IsJson, Payload.IsStored, CallsHold, NoKeyInCommon, Unique, Copies;
    AppliedRows(base, log, tx);
    var after := Applied(base.rows, tx);
    forall id | id in after
      ensures after[id].tenant in base.cursors + tx.stamps && Payload.IsStored(after[id].payload)
      ensures after[id].publishedAt.Some? ==> Copies(log, id) > 0
    {
      if id in base.rows { assert RowOk(base.rows, log, tx, id); }
    }
  }

  lemma CommitUnique(base: Base, log: seq<Message>, tx: Tx)
    requires Unique(base.rows) && EverOk(base) && TxOk(base, log, tx)
    ensures Unique(Applied(base.rows, tx))
  {
    hide CallsHold, Applied;
    AppliedRows(base, log, tx);
    var after, rest := Applied(base.rows, tx), base.rows - tx.deletes;
    forall i | i in rest
      ensures i in after && SameRow(rest[i], after[i])
    {
      assert RowOk(base.rows, log, tx, i);
    }
    forall i, j | i in after && j in after && SameKey(after[i], after[j])
      ensures i == j
    {
      if i in rest && j in rest {
        assert SameKey(base.rows[i], base.rows[j]);
      } else if i !in rest && j !in rest {
        assert SameKey(tx.inserts[i], tx.inserts[j]);
      }
    }
  }

  lemma CommitEver(base: Base, log: seq<Message>, tx: Tx)
    requires EverOk(base) && TxOk(base, log, tx)
    ensures EverOk(CommittedBase(base, tx))
  {
    hide Applied, InsertsOk, LocksOk, RowOk;
    AppliedRows(base, log, tx);
    DeletedWereThere(base, log, tx);
    var after := CommittedBase(base, tx);
    forall id | id in after.rows
      ensures SameRow(after.ever[id], after.rows[id])
    {
      if id in base.rows { LookIsSame(base.rows, log, tx, id); }
    }
  }

  lemma DeletedWereThere(base: Base, log: seq<Message>, tx: Tx)
    requires TxOk(base, log, tx)
    ensures tx.deletes <= base.rows.Keys
  {
  }

  lemma LookIsSame(rows: Rows, log: seq<Message>, tx: Tx, id: Uuid)
    requires id in rows && RowOk(rows, log, tx, id)
    ensures SameRow(rows[id], Look(rows, tx, id))
  {
  }

  lemma CommitCalls(base: Base, tx: Tx)
    requires CallsHold(base.ever, base.calls) && InsertsOk(base, tx)
    ensures CallsHold(base.ever + tx.inserts, base.calls + tx.calls)
  {
    hide RowHas;
  }

  lemma CommitLog(tasks: Registry, base: Base, log: seq<Message>, tx: Tx)
    requires LogHolds(tasks, base.ever, log) && InsertsOk(base, tx)
    ensures LogHolds(tasks, base.ever + tx.inserts, log)
  {
    hide CarriesRow, CallsHold;
  }

  lemma CommitBase(tasks: Registry, base: Base, log: seq<Message>, tx: Tx)
    requires BaseOk(tasks, base, log) && TxOk(base, log, tx)
    ensures BaseOk(tasks, CommittedBase(base, tx), log)
  {
    hide RowsOk, Unique, EverOk, LogHolds, CallsHold, UpdatesOk, InsertsOk, Applied;
    CommitRows(base, log, tx);
    CommitUnique(base, log, tx);
    CommitEver(base, log, tx);
    CommitCalls(base, tx);
    CommitLog(tasks, base, log, tx);
  }

  /** A row that the other transaction does not hold is in order for it whatever has been committed. */
  lemma FreeRowOk(rows: Rows, log: seq<Message>, tx: Tx, id: Uuid)
    requires id in rows && id !in tx.locked && (rows[id].publishedAt.Some? ==> Copies(log, id) > 0)
    requires tx.updates.Keys + tx.records + tx.deletes + tx.scheduled <= tx.locked && tx.rearmed[id] == 0 && tx.sent[id] == 0
    ensures RowOk(rows, log, tx, id)
  {
  }

  lemma HeldRowOk(rows: Rows, after: Rows, log: seq<Message>, tx: Tx, id: Uuid)
    requires id in rows && id in after && rows[id] == after[id] && RowOk(rows, log, tx, id)
    ensures RowOk(after, log, tx, id)
  {
  }

  lemma CommitOtherUpdates(base: Base, log: seq<Message>, tx: Tx, other: Tx)
    requires RowsOk(base.rows, base.cursors, log) && EverOk(base)
    requires TxOk(base, log, tx) && UpdatesOk(base.rows, log, other) && Apart(tx, other)
    ensures UpdatesOk(Applied(base.rows, tx), log, other)
  {
    hide Applied, InsertsOk, RowOk, Copies, EverOk, Json.IsJson, Payload.IsStored, Payload.Stored;
    CommitRows(base, log, tx);
    HeldUnchanged(base, log, tx, other.locked);
    var after := Applied(base.rows, tx);
    forall id | id in after
      ensures RowOk(after, log, other, id)
    {
      if id in other.locked { HeldRowOk(base.rows, after, log, other, id); } else { FreeRowOk(after, log, other, id); }
    }
  }

  /** Rows that others hold are as they were after a commit. */
  lemma HeldUnchanged(base: Base, log: seq<Message>, tx: Tx, locked: set<Uuid>)
    requires EverOk(base) && TxOk(base, log, tx) && tx.locked !! locked && locked <= base.rows.Keys
    ensures var after := Applied(base.rows, tx);
            forall id :: id in locked ==> id in after && after[id] == base.rows[id]
  {
    hide InsertsOk, RowOk, Applied;
    AppliedRows(base, log, tx);
  }

  lemma CommitOtherKeys(base: Base, log: seq<Message>, tx: Tx, other: Tx)
    requires EverOk(base) && TxOk(base, log, tx) && NoKeyInCommon(base.rows - other.deletes, other.inserts)
    requires NoKeyInCommon(tx.inserts, other.inserts)
    ensures NoKeyInCommon(Applied(base.rows, tx) - other.deletes, other.inserts)
  {
    hide Applied, Json.IsJson, Payload.IsStored, CallsHold, Unique, RowOk;
    AppliedRows(base, log, tx);
    var after := Applied(base.rows, tx);
    forall i, j | i in after - other.deletes && j in other.inserts
      ensures !SameKey(after[i], other.inserts[j])
    {
      if i in base.rows {
        LookIsSame(base.rows, log, tx, i);
        assert i in base.rows - other.deletes;
      }
    }
  }

  lemma CommitOtherInserts(base: Base, log: seq<Message>, tx: Tx, other: Tx)
    requires EverOk(base) && TxOk(base, log, tx) && InsertsOk(base, other) && Apart(tx, other)
    ensures InsertsOk(CommittedBase(base, tx), other)
  {
    hide Applied, Json.IsJson, Payload.IsStored, RowHas, Unique, UpdatesOk, CallsHold, NoKeyInCommon, EverOk;
    assert InsertsOk(base, tx);
    CommitOtherKeys(base, log, tx, other);
    CommitOtherCalls(base.ever, tx.inserts, other);
  }

  lemma CommitOtherCalls(ever: Rows, inserts: Rows, other: Tx)
    requires CallsHold(ever + other.inserts, other.calls) && ever.Keys !! inserts.Keys
    requires inserts.Keys !! other.inserts.Keys
    ensures CallsHold((ever + inserts) + other.inserts, other.calls)
  {
    hide RowHas;
  }

  lemma CommitOther(tasks: Registry, base: Base, log: seq<Message>, tx: Tx, other: Tx)
    requires BaseOk(tasks, base, log) && TxOk(base, log, tx) && TxOk(base, log, other) && Apart(tx, other)
    ensures TxOk(CommittedBase(base, tx), log, other)
  {
    hide RowsOk, Unique, EverOk, LogHolds, CallsHold, UpdatesOk, InsertsOk, Applied, Apart;
    CommitOtherUpdates(base, log, tx, other);
    CommitOtherInserts(base, log, tx, other);
  }

  /** What a transaction has sent becomes what the committed row and its re-armings allow. */
  lemma CommitAllowed(base: Base, log: seq<Message>, tx: Tx, id: Uuid)
    requires EverOk(base) && TxOk(base, log, tx) && id in base.ever
    ensures Allowed(CommittedBase(base, tx), id) == Allowed(base, id) + tx.sent[id]
  {
    hide Applied, InsertsOk, Copies;
    assert InsertsOk(base, tx);
    AppliedRows(base, log, tx);
    if id in base.rows {
      assert RowOk(base.rows, log, tx, id);
      assert id in tx.inserts ==> id !in base.ever;
    } else {
      assert id !in tx.locked;
    }
  }

  lemma CommitOnce(base: Base, txs: map<TxId, Tx>, log: seq<Message>, t: TxId)
    requires Once(base, txs, log) && EverOk(base) && t in txs && TxOk(base, log, txs[t])
    requires forall m :: m in log ==> m.id in base.ever
    requires forall u, id :: u in txs && u != t && txs[t].sent[id] > 0 ==> txs[u].sent[id] == 0
    ensures Once(CommittedBase(base, txs[t]), Without(txs, t), log)
  {
    hide TxOk, Copies, Allowed, EverOk;
    var after, rest := CommittedBase(base, txs[t]), Without(txs, t);
    forall id | id in after.ever
      ensures OnceFor(after, rest, log, id)
    {
      if id in base.ever {
        CommitAllowed(base, log, txs[t], id);
        assert OnceFor(base, txs, log, id);
        CommitOnceFor(base, txs, log, t, id);
      } else {
        CopiesZero(log, id);
      }
    }
  }

  lemma CommitOnceFor(base: Base, txs: map<TxId, Tx>, log: seq<Message>, t: TxId, id: Uuid)
    requires OnceFor(base, txs, log, id) && t in txs
    requires Allowed(CommittedBase(base, txs[t]), id) == Allowed(base, id) + txs[t].sent[id]
    requires forall u :: u in txs && u != t && txs[t].sent[id] > 0 ==> txs[u].sent[id] == 0
    ensures OnceFor(CommittedBase(base, txs[t]), Without(txs, t), log, id)
  {
    hide Copies, Allowed, CommittedBase;
    var rest := Without(txs, t);
    if NoSend(rest, id) && txs[t].sent[id] == 0 {
      forall u | u in txs
        ensures txs[u].sent[id] == 0
      {
        if u != t { assert rest[u].sent[id] == 0; }
      }
      assert NoSend(txs, id);
    }
  }

  /** Dropping a transaction that has sent nothing. */
  lemma DropOnce(base: Base, txs: map<TxId, Tx>, log: seq<Message>, t: TxId)
    requires Once(base, txs, log) && t in txs && txs[t].sent == multiset{}
    ensures Once(base, Without(txs, t), log)
  {
    hide Copies, Allowed;
    var rest := Without(txs, t);
    forall id | id in base.ever
      ensures OnceFor(base, rest, log, id)
    {
      assert OnceFor(base, txs, log, id);
      if NoSend(rest, id) {
        forall u | u in txs
          ensures txs[u].sent[id] == 0
        {
          if u != t { assert rest[u].sent[id] == 0; }
        }
      }
    }
  }

  lemma SentAreHeld(tasks: Registry, d: Db, t: TxId)
    requires Inv(tasks, d) && t in d.txs
    ensures forall u, id :: u in d.txs && u != t && d.txs[t].sent[id] > 0 ==> d.txs[u].sent[id] == 0
  {
    hide BaseOk, InsertsOk, Once, RowOk;
    forall u, id | u in d.txs && u != t && d.txs[t].sent[id] > 0
      ensures d.txs[u].sent[id] == 0
    {
      assert TxOk(d.base, d.log, d.txs[t]) && TxOk(d.base, d.log, d.txs[u]) && Apart(d.txs[t], d.txs[u]);
    }
  }

  lemma CommitKeeps(tasks: Registry, d: Db, t: TxId)
    requires Inv(tasks, d) && t in d.txs
    ensures Inv(tasks, Next(tasks, d, Commit(t)))
  {
    hide TxOk, Apart, Once, CommittedBase, RowsOk, Unique, CallsHold, EverOk;
    CommitBase(tasks, d.base, d.log, d.txs[t]);
    forall u | u in d.txs && u != t
      ensures TxOk(CommittedBase(d.base, d.txs[t]), d.log, d.txs[u])
    {
      CommitOther(tasks, d.base, d.log, d.txs[t], d.txs[u]);
    }
    SentAreHeld(tasks, d, t);
    if d.clean { CommitOnce(d.base, d.txs, d.log, t); }
  }

  lemma AbortKeeps(tasks: Registry, d: Db, t: TxId)
    requires Inv(tasks, d) && t in d.txs
    ensures Inv(tasks, Next(tasks, d, Abort(t)))
  {
    hide BaseOk, TxOk, Apart, Once;
    if d.clean && d.txs[t].sent == multiset{} { DropOnce(d.base, d.txs, d.log, t); }
  }

  lemma NothingOk(tasks: Registry, base: Base, log: seq<Message>, now: Time)
    requires BaseOk(tasks, base, log)
    ensures TxOk(base, log, NOTHING.(now := now))
  {
    hide Copies, RowOk, Json.IsJson, Payload.IsStored, Payload.Stored;
    var tx := NOTHING.(now := now);
    forall id | id in base.rows
      ensures RowOk(base.rows, log, tx, id)
    {
      FreeRowOk(base.rows, log, tx, id);
    }
  }

  lemma MoreTransactions(base: Base, txs: map<TxId, Tx>, log: seq<Message>, t: TxId, tx: Tx)
    requires Once(base, txs, log) && t !in txs && tx.sent == multiset{}
    ensures Once(base, txs[t := tx], log)
  {
    hide Copies, Allowed;
    var after := txs[t := tx];
    forall id | id in base.ever
      ensures OnceFor(base, after, log, id)
    {
      assert OnceFor(base, txs, log, id);
      if NoSend(after, id) {
        forall u | u in txs
          ensures txs[u].sent[id] == 0
        {
          assert after[u].sent[id] == 0;
        }
      }
    }
  }

  lemma NothingApart(now: Time, other: Tx)
    ensures Apart(NOTHING.(now := now), other) && Apart(other, NOTHING.(now := now))
  {
  }

  lemma BeginKeeps(tasks: Registry, d: Db, t: TxId, now: Time)
    requires Inv(tasks, d) && t !in d.txs
    ensures Inv(tasks, Next(tasks, d, Begin(t, now)))
  {
    hide BaseOk, TxOk, Apart, Once;
    NothingOk(tasks, d.base, d.log, now);
    forall u | u in d.txs
      ensures Apart(NOTHING.(now := now), d.txs[u]) && Apart(d.txs[u], NOTHING.(now := now))
    {
      NothingApart(now, d.txs[u]);
    }
    if d.clean { MoreTransactions(d.base, d.txs, d.log, t, NOTHING.(now := now)); }
  }

  lemma NextKeeps(tasks: Registry, d: Db, a: Action)
    requires Inv(tasks, d) && Enabled(tasks, d, a)
    ensures Inv(tasks, Next(tasks, d, a))
  {
    hide Inv, Next;
    match a
    case Begin(t, now) => BeginKeeps(tasks, d, t, now);
    case LockTenant(t, tenant) => LockTenantKeeps(tasks, d, a);
    case LockRow(t, id) => LockRowKeeps(tasks, d, a);
    case Attempt(t, id, delivery, doneAt) => if delivery.Refused? { RefusedKeeps(tasks, d, a); } else { SendKeeps(tasks, d, a); }
    case Stamp(t, tenant, at) => StampKeeps(tasks, d, a);
    case Enqueue(t, c, now) => EnqueueKeeps(tasks, d, a);
    case Schedule(t, id, at, rearm) => ScheduleKeeps(tasks, d, a);
    case Delete(t, id) => DeleteKeeps(tasks, d, a);
    case Commit(t) => CommitKeeps(tasks, d, t);
    case Abort(t) => AbortKeeps(tasks, d, t);
  }

  lemma {:induction false} RunKeeps(tasks: Registry, run: seq<Db>, actions: seq<Action>, i: nat)
    requires IsRun(tasks, run, actions) && i <= |actions|
    ensures Inv(tasks, run[i])
  {
    if i == 0 {
      assert Initial(run[0]);
    } else {
      hide Enabled, Next, Inv;
      RunKeeps(tasks, run, actions, i - 1);
      NextKeeps(tasks, run[i - 1], actions[i - 1]);
    }
  }
}
