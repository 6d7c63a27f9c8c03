/**
 What runs of publishers, callers and modules guarantee: delivery at least once, as often as a row was armed
 when nothing fails, and idempotent calls.
 */
module Delivery {
  import opened Overlay
  import opened Outbox
  import opened Rounds
  import opened Publishers
  import opened PublisherInvariant
  import Json
  import Payload
  import Storage

  /** No two open transactions hold the same row. */
  lemma NoSharedRow(tasks: Registry, run: seq<Db>, actions: seq<Action>, i: nat, t: TxId, u: TxId)
    requires IsRun(tasks, run, actions) && i <= |actions| && t in run[i].txs && u in run[i].txs && t != u
    ensures run[i].txs[t].locked !! run[i].txs[u].locked
  {
    hide BaseOk, TxOk, Once;
    RunKeeps(tasks, run, actions, i);
    assert Apart(run[i].txs[t], run[i].txs[u]);
  }

  /** A row that a transaction has attempted is not due for it again, unless it has set the row's time itself. */
  lemma OncePerRound(tasks: Registry, run: seq<Db>, actions: seq<Action>, i: nat, t: TxId, id: Uuid)
    requires IsRun(tasks, run, actions) && i <= |actions| && t in run[i].txs
    requires id in run[i].txs[t].updates && id !in run[i].txs[t].scheduled
    ensures id in run[i].base.rows && run[i].txs[t].updates[id].attempts == run[i].base.rows[id].attempts + 1
    ensures id !in run[i].txs[t].records && !Enabled(tasks, run[i], LockRow(t, id))
  {
    hide BaseOk, InsertsOk, Once, AllApart;
    RunKeeps(tasks, run, actions, i);
    assert TxOk(run[i].base, run[i].log, run[i].txs[t]);
    assert RowOk(run[i].base.rows, run[i].log, run[i].txs[t], id);
  }

  /** A committed published row was handed to the broker, and every message there carries its own row. */
  lemma PublishedWasSent(tasks: Registry, run: seq<Db>, actions: seq<Action>, i: nat)
    requires IsRun(tasks, run, actions) && i <= |actions|
    ensures var base := run[i].base;
            && (forall id :: id in base.rows && base.rows[id].publishedAt.Some? ==> exists m :: m in run[i].log && m.id == id)
            && (forall m :: m in run[i].log ==> m.id in base.ever && CarriesRow(tasks, base.ever[m.id], m))
  {
    hide TxOk, AllApart, Once, CarriesRow, CallsHold;
    RunKeeps(tasks, run, actions, i);
    forall id | id in run[i].base.rows && run[i].base.rows[id].publishedAt.Some?
      ensures exists m :: m in run[i].log && m.id == id
    {
      CopiesZero(run[i].log, id);
    }
  }

  // ---- how often a row is sent ----------------------------------------------------------------

  /** Something was sent and then not committed, or a send failed although the message got through. */
  predicate Fails(d: Db, a: Action) {
    || (a.Abort? && a.t in d.txs && d.txs[a.t].sent != multiset{})
    || (a.Attempt? && a.delivery.Ambiguous?)
  }

  ghost predicate NothingFails(run: seq<Db>, actions: seq<Action>, i: nat)
    requires i <= |actions| < |run|
  {
    forall j :: 0 <= j < i ==> !Fails(run[j], actions[j])
  }

  lemma CleanStep(tasks: Registry, d: Db, a: Action)
    requires !Fails(d, a) && d.clean
    ensures Next(tasks, d, a).clean
  {
    hide Worked, Logged, CommittedBase;
  }

  lemma {:induction false} StaysClean(tasks: Registry, run: seq<Db>, actions: seq<Action>, i: nat)
    requires IsRun(tasks, run, actions) && i <= |actions| && NothingFails(run, actions, i)
    ensures run[i].clean
  {
    if i == 0 {
      assert Initial(run[0]);
    } else {
      hide Next, Enabled, Fails;
      StaysClean(tasks, run, actions, i - 1);
      CleanStep(tasks, run[i - 1], actions[i - 1]);
    }
  }

  /**
   When nothing fails a row is sent once, and once more for each time that it was re-armed: committed
   re-armings, and those of the transaction that holds the row at the moment.
   */
  lemma SentOncePerArming(tasks: Registry, run: seq<Db>, actions: seq<Action>, i: nat, id: Uuid)
    requires IsRun(tasks, run, actions) && i <= |actions| && NothingFails(run, actions, i)
    ensures var d := run[i];
            && ((forall t :: t in d.txs ==> id !in d.txs[t].locked) ==> Copies(d.log, id) <= 1 + d.base.rearmed[id])
            && (forall t :: t in d.txs && id in d.txs[t].locked ==> Copies(d.log, id) <= 1 + d.base.rearmed[id] + d.txs[t].rearmed[id])
  {
    hide Copies, CarriesRow, InsertsOk;
    RunKeeps(tasks, run, actions, i);
    StaysClean(tasks, run, actions, i);
    var d := run[i];
    if id in d.base.ever {
      assert OnceFor(d.base, d.txs, d.log, id);
      forall t | t in d.txs && id in d.txs[t].locked
        ensures Copies(d.log, id) <= 1 + d.base.rearmed[id] + d.txs[t].rearmed[id]
      {
        HolderAccounts(tasks, d, t, id);
      }
      if forall t :: t in d.txs ==> id !in d.txs[t].locked { NobodySends(tasks, d, id); }
    } else {
      CopiesZero(d.log, id);
      forall t | t in d.txs
        ensures id !in d.txs[t].locked
      {
        assert TxOk(d.base, d.log, d.txs[t]);
      }
    }
  }

  lemma NobodySends(tasks: Registry, d: Db, id: Uuid)
    requires Inv(tasks, d) && forall t :: t in d.txs ==> id !in d.txs[t].locked
    ensures NoSend(d.txs, id)
  {
    hide BaseOk, InsertsOk, RowOk, Once;
    forall t | t in d.txs
      ensures d.txs[t].sent[id] == 0
    {
      assert TxOk(d.base, d.log, d.txs[t]);
    }
  }

  lemma HolderAccounts(tasks: Registry, d: Db, t: TxId, id: Uuid)
    requires Inv(tasks, d) && t in d.txs && id in d.txs[t].locked && OnceFor(d.base, d.txs, d.log, id)
    ensures Copies(d.log, id) <= 1 + d.base.rearmed[id] + d.txs[t].rearmed[id]
  {
    hide BaseOk, InsertsOk, Once, Copies;
    assert TxOk(d.base, d.log, d.txs[t]);
    assert RowOk(d.base.rows, d.log, d.txs[t], id);
    if d.txs[t].sent[id] == 0 {
      OnlyHolderSends(tasks, d, t, id);
      assert NoSend(d.txs, id);
    }
  }

  lemma OnlyHolderSends(tasks: Registry, d: Db, t: TxId, id: Uuid)
    requires Inv(tasks, d) && t in d.txs && id in d.txs[t].locked
    ensures forall u :: u in d.txs && u != t ==> d.txs[u].sent[id] == 0
  {
    hide BaseOk, InsertsOk, RowOk, Once;
    forall u | u in d.txs
      ensures LocksOk(d.base.rows, d.txs[u])
    {
      assert TxOk(d.base, d.log, d.txs[u]);
    }
    OthersSentNothing(d, t, id);
  }

  /** The step re-arms the row. */
  predicate Rearms(a: Action, id: Uuid) {
    a.Schedule? && a.id == id && a.rearm
  }

  lemma NoRearmStep(tasks: Registry, d: Db, a: Action, id: Uuid)
    requires !Rearms(a, id) && d.base.rearmed[id] == 0 && forall t :: t in d.txs ==> d.txs[t].rearmed[id] == 0
    ensures var next := Next(tasks, d, a);
            next.base.rearmed[id] == 0 && forall t :: t in next.txs ==> next.txs[t].rearmed[id] == 0
  {
    hide Logged, Applied;
  }

  lemma {:induction false} NeverRearmed(tasks: Registry, run: seq<Db>, actions: seq<Action>, i: nat, id: Uuid)
    requires IsRun(tasks, run, actions) && i <= |actions| && forall j :: 0 <= j < i ==> !Rearms(actions[j], id)
    ensures run[i].base.rearmed[id] == 0 && forall t :: t in run[i].txs ==> run[i].txs[t].rearmed[id] == 0
  {
    if i == 0 {
      assert Initial(run[0]);
    } else {
      hide Next, Enabled;
      NeverRearmed(tasks, run, actions, i - 1, id);
      NoRearmStep(tasks, run[i - 1], actions[i - 1], id);
    }
  }

  /** A row that nobody re-arms is sent at most once when nothing fails. */
  lemma SentAtMostOnce(tasks: Registry, run: seq<Db>, actions: seq<Action>, i: nat, id: Uuid)
    requires IsRun(tasks, run, actions) && i <= |actions| && NothingFails(run, actions, i)
    requires forall j :: 0 <= j < i ==> !Rearms(actions[j], id)
    ensures Copies(run[i].log, id) <= 1
  {
    hide IsRun, Copies, NothingFails;
    SentOncePerArming(tasks, run, actions, i, id);
    NeverRearmed(tasks, run, actions, i, id);
  }

  // ---- each condition is needed ---------------------------------------------------------------

  /** A due row that nobody holds. */
  ghost predicate Ready(tasks: Registry, d: Db, t: TxId, id: Uuid, now: Time) {
    && t !in d.txs && id in d.base.rows && IsDue(d.base.rows[id], now) && Sendable(tasks, d.base.rows[id])
    && d.base.rows[id].tenant in d.base.cursors && RowFree(d, t, id) && TenantFree(d, t, d.base.rows[id].tenant)
  }

  /** The states of a round that locks the row's tenant and the row. */
  function Opened(tasks: Registry, d: Db, t: TxId, id: Uuid, now: Time): Db
    requires id in d.base.rows
  {
    Next(tasks, Next(tasks, Next(tasks, d, Begin(t, now)), LockTenant(t, d.base.rows[id].tenant)), LockRow(t, id))
  }

  ghost predicate CanOpen(tasks: Registry, d: Db, t: TxId, id: Uuid, now: Time)
    requires id in d.base.rows
  {
    var d1 := Next(tasks, d, Begin(t, now));
    var d2 := Next(tasks, d1, LockTenant(t, d.base.rows[id].tenant));
    && Enabled(tasks, d, Begin(t, now)) && Enabled(tasks, d1, LockTenant(t, d.base.rows[id].tenant))
    && Enabled(tasks, d2, LockRow(t, id))
  }

  lemma ReadyOpens(tasks: Registry, d: Db, t: TxId, id: Uuid, now: Time)
    requires Ready(tasks, d, t, id, now)
    ensures CanOpen(tasks, d, t, id, now)
    ensures var open := Opened(tasks, d, t, id, now);
            && open.base == d.base && open.log == d.log && t in open.txs
            && id in open.txs[t].records && id !in open.txs[t].updates && open.txs[t].now == now
  {
    hide Sendable, IsDue, MessageOf;
  }

  /** A round that holds a row sends it. */
  lemma HeldIsSent(tasks: Registry, d: Db, t: TxId, id: Uuid, delivery: Delivery, doneAt: Time)
    requires t in d.txs && id in d.base.rows && id in d.txs[t].records && id !in d.txs[t].updates
    requires Sendable(tasks, d.base.rows[id]) && !delivery.Refused? && doneAt >= d.txs[t].now
    ensures var attempt := Attempt(t, id, delivery, doneAt);
            var next := Next(tasks, d, attempt);
            && Enabled(tasks, d, attempt) && Copies(next.log, id) == Copies(d.log, id) + 1
            && next.base == d.base && next.txs == d.txs[t := AttemptTx(d.base.rows, d.txs[t], id, delivery, doneAt)]
  {
    hide Sendable, MessageOf, AttemptTx;
    SendableMessage(tasks, d.base.rows[id], id);
    CopiesNext(d.log, MessageOf(tasks, d.base.rows[id], id), id);
  }

  lemma SendableMessage(tasks: Registry, row: Row, id: Uuid)
    requires Sendable(tasks, row)
    ensures MessageOf(tasks, row, id).id == id
  {
    hide Sendable;
  }

  /** A due row that nobody holds can be locked and sent. */
  lemma ReadyIsSent(tasks: Registry, d: Db, t: TxId, id: Uuid, now: Time, doneAt: Time)
    requires Ready(tasks, d, t, id, now) && doneAt >= now
    ensures CanOpen(tasks, d, t, id, now)
    ensures var open := Opened(tasks, d, t, id, now);
            var attempt := Attempt(t, id, Accepted, doneAt);
            Enabled(tasks, open, attempt) && Copies(Next(tasks, open, attempt).log, id) == Copies(d.log, id) + 1
  {
    hide Next, Enabled, CanOpen, Opened, Sendable, Copies;
    ReadyOpens(tasks, d, t, id, now);
    HeldIsSent(tasks, Opened(tasks, d, t, id, now), t, id, Accepted, doneAt);
  }

  /** A plain round that holds a due row under its tenant. */
  ghost predicate Holds(tasks: Registry, d: Db, t: TxId, id: Uuid) {
    && t in d.txs && id in d.base.rows && id in d.txs[t].locked && id in d.txs[t].records && id !in d.txs[t].updates
    && d.base.rows[id].tenant in d.txs[t].tenants && Sendable(tasks, d.base.rows[id])
  }

  /** What a transaction held is free when it is gone. */
  lemma EndFrees(tasks: Registry, d: Db, t: TxId, id: Uuid, after: Db)
    requires Inv(tasks, d) && Holds(tasks, d, t, id) && after.txs == Without(d.txs, t)
    ensures t !in after.txs && RowFree(after, t, id) && TenantFree(after, t, d.base.rows[id].tenant)
    ensures d.base.rows[id].tenant in d.base.cursors && IsDue(d.base.rows[id], d.txs[t].now)
  {
    hide InsertsOk, Once, Sendable;
    assert TxOk(d.base, d.log, d.txs[t]);
    assert RowOk(d.base.rows, d.log, d.txs[t], id);
    forall u | u in d.txs && u != t
      ensures Apart(d.txs[t], d.txs[u])
    {
    }
  }

  /**
   With a crash between the send and the commit the row is sent again: the transaction that is gone left it
   unpublished and due.
   */
  lemma CrashSendsAgain(tasks: Registry, d: Db, t: TxId, id: Uuid, doneAt: Time)
    requires Inv(tasks, d) && Holds(tasks, d, t, id) && doneAt >= d.txs[t].now
    ensures var now := d.txs[t].now;
            var sent := Next(tasks, d, Attempt(t, id, Accepted, doneAt));
            var after := Next(tasks, sent, Abort(t));
            && Enabled(tasks, d, Attempt(t, id, Accepted, doneAt)) && Enabled(tasks, sent, Abort(t))
            && Ready(tasks, after, t, id, now) && CanOpen(tasks, after, t, id, now)
            && var open := Opened(tasks, after, t, id, now);
               && Enabled(tasks, open, Attempt(t, id, Accepted, doneAt))
               && Copies(Next(tasks, open, Attempt(t, id, Accepted, doneAt)).log, id) == Copies(d.log, id) + 2
  {
    hide Inv, CanOpen, Opened, Sendable, Copies, IsDue, AttemptTx, RowFree, TenantFree;
    HeldIsSent(tasks, d, t, id, Accepted, doneAt);
    var after := Next(tasks, Next(tasks, d, Attempt(t, id, Accepted, doneAt)), Abort(t));
    AbortLeaves(tasks, d, t, id, doneAt);
    EndFrees(tasks, d, t, id, after);
    ReadyIsSent(tasks, after, t, id, d.txs[t].now, doneAt);
  }

  lemma AbortLeaves(tasks: Registry, d: Db, t: TxId, id: Uuid, doneAt: Time)
    requires Holds(tasks, d, t, id) && doneAt >= d.txs[t].now
    ensures var sent := Next(tasks, d, Attempt(t, id, Accepted, doneAt));
            var after := Next(tasks, sent, Abort(t));
            Enabled(tasks, sent, Abort(t)) && after.base == d.base && after.txs == Without(d.txs, t) && after.log == sent.log
  {
    hide Sendable, Logged, AttemptTx;
  }

  /**
   When a send fails although the message got through, the row is due again after its delay, and sent again.
   */
  lemma AmbiguousSendsAgain(tasks: Registry, d: Db, t: TxId, id: Uuid, doneAt: Time, later: Time)
    requires Inv(tasks, d) && Holds(tasks, d, t, id) && doneAt >= d.txs[t].now
    requires later >= doneAt + Backoff(d.base.rows[id].attempts + 1)
    ensures var sent := Next(tasks, d, Attempt(t, id, Ambiguous, doneAt));
            var after := Next(tasks, sent, Commit(t));
            && Enabled(tasks, d, Attempt(t, id, Ambiguous, doneAt)) && Enabled(tasks, sent, Commit(t))
            && Ready(tasks, after, t, id, later) && CanOpen(tasks, after, t, id, later)
            && var open := Opened(tasks, after, t, id, later);
               && Enabled(tasks, open, Attempt(t, id, Accepted, later))
               && Copies(Next(tasks, open, Attempt(t, id, Accepted, later)).log, id) == Copies(d.log, id) + 2
  {
    hide Inv, CanOpen, Opened, Sendable, Copies, IsDue, AttemptTx, RowFree, TenantFree, CommittedBase, Backoff;
    HeldIsSent(tasks, d, t, id, Ambiguous, doneAt);
    var after := Next(tasks, Next(tasks, d, Attempt(t, id, Ambiguous, doneAt)), Commit(t));
    AmbiguousLeaves(tasks, d, t, id, doneAt);
    DelayedIsDue(tasks, d.base.rows[id], doneAt, later);
    EndFrees(tasks, d, t, id, after);
    ReadyIsSent(tasks, after, t, id, later, later);
  }

  lemma DelayedIsDue(tasks: Registry, row: Row, doneAt: Time, later: Time)
    requires row.publishedAt.None? && later >= doneAt + Backoff(row.attempts + 1)
    ensures IsDue(Recorded(row, false, doneAt), later)
    ensures Sendable(tasks, row) ==> Sendable(tasks, Recorded(row, false, doneAt))
  {
    hide Backoff;
  }

  lemma AmbiguousLeaves(tasks: Registry, d: Db, t: TxId, id: Uuid, doneAt: Time)
    requires Inv(tasks, d) && Holds(tasks, d, t, id) && doneAt >= d.txs[t].now
    ensures var sent := Next(tasks, d, Attempt(t, id, Ambiguous, doneAt));
            var after := Next(tasks, sent, Commit(t));
            && Enabled(tasks, sent, Commit(t)) && after.txs == Without(d.txs, t) && after.log == sent.log
            && id in after.base.rows && after.base.rows[id] == Recorded(d.base.rows[id], false, doneAt)
            && d.base.rows[id].publishedAt.None? && d.base.cursors.Keys <= after.base.cursors.Keys
  {
    hide Inv, Sendable, Logged, Recorded, Applied, Backoff;
    RecordIsPlain(tasks, d, t, id);
    NotInserted(tasks, d, t, id);
    AppliedRow(d.base.rows, AttemptTx(d.base.rows, d.txs[t], id, Ambiguous, doneAt), id);
  }

  lemma AppliedRow(rows: Rows, tx: Tx, id: Uuid)
    requires id in rows && id in tx.updates && id !in tx.deletes && id !in tx.inserts
    ensures id in Applied(rows, tx) && Applied(rows, tx)[id] == tx.updates[id]
  {
  }

  lemma RecordIsPlain(tasks: Registry, d: Db, t: TxId, id: Uuid)
    requires Inv(tasks, d) && Holds(tasks, d, t, id)
    ensures d.base.rows[id].publishedAt.None? && id !in d.txs[t].deletes
  {
    hide BaseOk, Once, AllApart, Sendable, InsertsOk;
    assert TxOk(d.base, d.log, d.txs[t]);
    assert RowOk(d.base.rows, d.log, d.txs[t], id);
  }

  lemma NotInserted(tasks: Registry, d: Db, t: TxId, id: Uuid)
    requires Inv(tasks, d) && t in d.txs && id in d.base.rows
    ensures id !in d.txs[t].inserts
  {
    hide Once, AllApart, UpdatesOk, CallsHold, NoKeyInCommon, LogHolds, RowsOk;
    assert TxOk(d.base, d.log, d.txs[t]);
  }

  /** A module that re-arms a published row makes it be sent again, although nothing has failed. */
  lemma RearmSendsAgain(tasks: Registry, d: Db, t: TxId, id: Uuid, at: Time)
    requires Inv(tasks, d) && t !in d.txs && id in d.base.rows && d.base.rows[id].publishedAt.Some?
    requires RowFree(d, t, id) && TenantFree(d, t, d.base.rows[id].tenant) && Sendable(tasks, d.base.rows[id])
    ensures var d1 := Next(tasks, d, Begin(t, at));
            var d2 := Next(tasks, d1, Schedule(t, id, at, true));
            var after := Next(tasks, d2, Commit(t));
            && Enabled(tasks, d, Begin(t, at)) && Enabled(tasks, d1, Schedule(t, id, at, true)) && Enabled(tasks, d2, Commit(t))
            && after.base.rearmed == d.base.rearmed + multiset{id}
            && Ready(tasks, after, t, id, at) && CanOpen(tasks, after, t, id, at)
            && var open := Opened(tasks, after, t, id, at);
               && Enabled(tasks, open, Attempt(t, id, Accepted, at))
               && Copies(Next(tasks, open, Attempt(t, id, Accepted, at)).log, id) == Copies(d.log, id) + 1
  {
    hide Inv, CanOpen, Opened, Sendable, Copies, CommittedBase, Next, Enabled;
    var after := Next(tasks, Next(tasks, Next(tasks, d, Begin(t, at)), Schedule(t, id, at, true)), Commit(t));
    RearmLeaves(tasks, d, t, id, at);
    HasCursor(tasks, d, id);
    RearmedIsDue(tasks, d.base.rows[id], at);
    ReadyIsSent(tasks, after, t, id, at, at);
  }

  lemma RearmedIsDue(tasks: Registry, row: Row, at: Time)
    ensures IsDue(Rescheduled(row, at, true), at)
    ensures Sendable(tasks, row) ==> Sendable(tasks, Rescheduled(row, at, true))
  {
  }

  lemma HasCursor(tasks: Registry, d: Db, id: Uuid)
    requires Inv(tasks, d) && id in d.base.rows
    ensures d.base.rows[id].tenant in d.base.cursors
  {
    hide Once, AllApart, TxOk, CallsHold, LogHolds, EverOk;
  }

  lemma RearmLeaves(tasks: Registry, d: Db, t: TxId, id: Uuid, at: Time)
    requires t !in d.txs && id in d.base.rows && d.base.rows[id].publishedAt.Some? && RowFree(d, t, id)
    ensures var d1 := Next(tasks, d, Begin(t, at));
            var d2 := Next(tasks, d1, Schedule(t, id, at, true));
            var after := Next(tasks, d2, Commit(t));
            && Enabled(tasks, d, Begin(t, at)) && Enabled(tasks, d1, Schedule(t, id, at, true)) && Enabled(tasks, d2, Commit(t))
            && after.txs == d.txs && after.log == d.log && after.base.cursors == d.base.cursors
            && after.base.rearmed == d.base.rearmed + multiset{id}
            && after.base.rows == d.base.rows[id := Rescheduled(d.base.rows[id], at, true)]
  {
    hide Applied, Rescheduled;
    ScheduledAlone(d.base.rows, id, at);
    ScheduleTxAlone(d.base.rows, id, at);
  }

  lemma ScheduleTxAlone(rows: Rows, id: Uuid, at: Time)
    requires id in rows && rows[id].publishedAt.Some?
    ensures var tx := ScheduleTx(rows, NOTHING.(now := at), id, at, true);
            && tx.rearmed == multiset{id} && tx.stamps == map[] && tx.inserts == map[] && tx.deletes == {} && tx.calls == {}
  {
  }

  lemma ScheduledAlone(rows: Rows, id: Uuid, at: Time)
    requires id in rows
    ensures Applied(rows, ScheduleTx(rows, NOTHING.(now := at), id, at, true)) == rows[id := Rescheduled(rows[id], at, true)]
  {
  }

  // ---- enqueueing over whole runs -------------------------------------------------------------

  lemma SameThrough(a: Json.Json, b: Json.Json, c: Json.Json)
    requires Json.IsJson(a) && Json.IsJson(b) && Json.IsJson(c) && Payload.Same(a, b) && Payload.Same(a, c)
    ensures Payload.Same(b, c)
  {
    Payload.SortedDumpsDecide(a, b);
    Payload.SortedDumpsDecide(a, c);
    Payload.SortedDumpsDecide(b, c);
  }

  lemma RowAgrees(row: Row, c: Call, e: Call)
    requires RowHas(row, c) && RowHas(row, e)
    ensures c.task == e.task && c.actor == e.actor && Payload.Same(Payload.Stored(c.payload), Payload.Stored(e.payload))
  {
    hide Payload.Same, Payload.Stored, Payload.Lasting;
    Payload.StoredIsStored(c.payload);
    Payload.StoredIsStored(e.payload);
    SameThrough(row.payload, Payload.Stored(c.payload), Payload.Stored(e.payload));
  }

  /**
   All calls with one tenant and key whose transactions committed returned one id and agree on task, actor
   and stored payload, unless one of their rows has been deleted since; calls that returned one id agree in any case.
   A row that is there has its tenant's cursor.
   */
  lemma CallsAgree(tasks: Registry, run: seq<Db>, actions: seq<Action>, i: nat, c: Call, e: Call)
    requires IsRun(tasks, run, actions) && i <= |actions| && c in run[i].base.calls && e in run[i].base.calls
    requires c.tenant == e.tenant && c.key == e.key
    ensures c.id == e.id || c.id in run[i].base.deleted || e.id in run[i].base.deleted
    ensures c.id == e.id ==>
              c.task == e.task && c.actor == e.actor && Payload.Same(Payload.Stored(c.payload), Payload.Stored(e.payload))
    ensures c.id !in run[i].base.deleted ==> c.id in run[i].base.rows && c.tenant in run[i].base.cursors
  {
    hide TxOk, AllApart, Once, LogHolds, SameRequest, Json.IsJson, Payload.IsStored, Payload.Same, Payload.Stored;
    RunKeeps(tasks, run, actions, i);
    var base := run[i].base;
    assert RowHas(base.ever[c.id], c) && RowHas(base.ever[e.id], e);
    if c.id == e.id {
      RowAgrees(base.ever[c.id], c, e);
    }
  }

  /** Calls with one tenant and key return one id exactly as long as none of their rows has been deleted. */
  lemma CallsAgreeUntilDeleted(tasks: Registry, run: seq<Db>, actions: seq<Action>, i: nat, c: Call, e: Call)
    requires IsRun(tasks, run, actions) && i <= |actions| && c in run[i].base.calls && e in run[i].base.calls
    requires c.tenant == e.tenant && c.key == e.key && e.id in run[i].base.rows
    ensures c.id == e.id <==> c.id !in run[i].base.deleted
  {
    hide TxOk, AllApart, Once, LogHolds, SameRequest, Json.IsJson, Payload.IsStored, Payload.Same, Payload.Stored;
    RunKeeps(tasks, run, actions, i);
    CallsAgree(tasks, run, actions, i, c, e);
  }

  /** While its row is there, an equal call succeeds again exactly if the payload lasts in its column. */
  lemma RepeatedCallMatches(tasks: Registry, run: seq<Db>, actions: seq<Action>, i: nat, c: Call)
    requires IsRun(tasks, run, actions) && i <= |actions| && c in run[i].base.calls && c.id in run[i].base.rows
    ensures SameRequest(run[i].base.rows[c.id], c.actor, c.task, c.payload) <==> Payload.Lasting(c.payload)
  {
    hide TxOk, AllApart, Once, LogHolds, Json.IsJson, Payload.IsStored, Payload.Same, Payload.Stored, Payload.Lasting;
    RunKeeps(tasks, run, actions, i);
    var base := run[i].base;
    assert RowHas(base.ever[c.id], c) && SameRow(base.ever[c.id], base.rows[c.id]);
    Payload.StoredMatches(base.rows[c.id].payload, c.payload);
  }

  /** Every row, so every row that is still to be published, is under a cursor that the scheduler reads. */
  lemma NoRowInvisible(tasks: Registry, run: seq<Db>, actions: seq<Action>, i: nat, id: Uuid, now: Time)
    requires IsRun(tasks, run, actions) && i <= |actions| && id in run[i].base.rows && IsDue(run[i].base.rows[id], now)
    ensures run[i].base.rows[id].tenant in Candidates(run[i].base.rows, run[i].base.cursors, now)
  {
    hide Inv;
    RunKeeps(tasks, run, actions, i);
    HasCursor(tasks, run[i], id);
  }

  lemma OnlyRow(rows: Rows, inserts: Rows, c: Call, id: Uuid)
    requires Unique(rows) && NoKeyInCommon(rows, inserts) && id in rows && id !in inserts && KeyOf(rows[id], c)
    ensures HasKey(rows + inserts, c.tenant, c.key) == {id} && (rows + inserts)[id] == rows[id]
  {
  }

  lemma EnqueueFinds(rows: Rows, cursors: Cursors, tx: Tx, c: Call, now: Time, id: Uuid)
    requires HasKey(Visible(rows, tx), c.tenant, c.key) == {id}
    ensures var next := EnqueueTx(rows, cursors, tx, c, now);
            && next.inserts == tx.inserts && next.updates == tx.updates && next.deletes == tx.deletes
            && next.calls == if SameRequest(Visible(rows, tx)[id], c.actor, c.task, c.payload) then tx.calls + {c.(id := id)} else tx.calls
  {
    hide SameRequest, Visible;
    var existing := HasKey(Visible(rows, tx), c.tenant, c.key);
    assert id in existing;
    assert (set j | j in existing :: c.(id := j)) == {c.(id := id)};
  }

  /** A call for a taken key adds and changes no row; it succeeds, with the id of the row, exactly when the row matches. */
  lemma TakenKeyChangesNoRow(tasks: Registry, d: Db, t: TxId, c: Call, now: Time, id: Uuid)
    requires t in d.txs && Inv(tasks, d) && Enabled(tasks, d, Enqueue(t, c, now))
    requires id in d.base.rows && id !in d.txs[t].deletes && KeyOf(d.base.rows[id], c)
    ensures var tx, after := d.txs[t], EnqueueTx(d.base.rows, d.base.cursors, d.txs[t], c, now);
            && Next(tasks, d, Enqueue(t, c, now)) == d.(txs := d.txs[t := after])
            && after.inserts == tx.inserts && after.updates == tx.updates && after.deletes == tx.deletes
            && (if SameRequest(d.base.rows[id], c.actor, c.task, c.payload) then after.calls == tx.calls + {c.(id := id)}
                else after.calls == tx.calls)
  {
    hide SameRequest, Payload.Validate, Payload.IsPython, RowHas, EnqueueTx, HasKey, UpdatesOk, NoKeyInCommon, CallsHold, LogHolds;
    assert TxOk(d.base, d.log, d.txs[t]);
    var rest := d.base.rows - d.txs[t].deletes;
    assert Unique(rest);
    NotInserted(tasks, d, t, id);
    OnlyRow(rest, d.txs[t].inserts, c, id);
    EnqueueFinds(d.base.rows, d.base.cursors, d.txs[t], c, now, id);
  }

  /**
   The row of a committed call can be sent exactly if its payload still fits when the column has written large floats
   out; a payload that lasts always does.
   */
  lemma AcceptedCanBeSent(tasks: Registry, run: seq<Db>, actions: seq<Action>, i: nat, c: Call)
    requires IsRun(tasks, run, actions) && i <= |actions| && c in run[i].base.calls && c.id in run[i].base.rows
    ensures Json.IsJson(Payload.Stored(c.payload))
    ensures Sendable(tasks, run[i].base.rows[c.id]) <==> |Json.Dumps(Payload.Stored(c.payload))| <= Payload.MAX_ENCODED
    ensures Payload.Lasting(c.payload) ==> Sendable(tasks, run[i].base.rows[c.id])
  {
    hide TxOk, AllApart, Once, LogHolds, Json.IsJson, Payload.Same, Payload.Stored, Payload.Lasting, Payload.Validate,
      Payload.IsPython, Json.Dumps;
    RunKeeps(tasks, run, actions, i);
    RunCallsAcceptable(tasks, run, actions, i);
    var base := run[i].base;
    assert RowHas(base.ever[c.id], c) && SameRow(base.ever[c.id], base.rows[c.id]);
    Storage.AcceptedAgain(c.payload);
    Storage.SameAccepted(base.rows[c.id].payload, Payload.Stored(c.payload));
  }

  /** And a row that cannot be sent never is: however often it is attempted, it stays unpublished. */
  lemma UnsendableStaysUnpublished(tasks: Registry, run: seq<Db>, actions: seq<Action>, i: nat, id: Uuid)
    requires IsRun(tasks, run, actions) && i <= |actions|
    requires id in run[i].base.rows && !Sendable(tasks, run[i].base.rows[id])
    ensures run[i].base.rows[id].publishedAt.None? && Copies(run[i].log, id) == 0
  {
    hide TxOk, AllApart, Once, Sendable, CallsHold, Unique;
    RunKeeps(tasks, run, actions, i);
    var base := run[i].base;
    CopiesZero(run[i].log, id);
    assert SameRow(base.ever[id], base.rows[id]);
    SameSendable(tasks, base.ever[id], base.rows[id]);
  }

  lemma SameSendable(tasks: Registry, a: Row, b: Row)
    requires SameRow(a, b)
    ensures Sendable(tasks, a) <==> Sendable(tasks, b)
  {
  }

  // ---- calls after a deletion -----------------------------------------------------------------

  /** Task, payload and key are such that the call gets as far as its insert. */
  predicate Acceptable(tasks: Registry, c: Call) {
    c.task in tasks && Payload.IsPython(c.payload) && Payload.Validate(c.payload).Some? && GoodKey(c.key)
  }

  ghost predicate CallsAcceptable(tasks: Registry, d: Db) {
    && (forall c :: c in d.base.calls ==> Acceptable(tasks, c))
    && (forall t :: t in d.txs ==> forall c :: c in d.txs[t].calls ==> Acceptable(tasks, c))
  }

  lemma EnqueuedAcceptable(tasks: Registry, rows: Rows, cursors: Cursors, tx: Tx, c: Call, now: Time)
    requires Acceptable(tasks, c) && forall e :: e in tx.calls ==> Acceptable(tasks, e)
    ensures forall e :: e in EnqueueTx(rows, cursors, tx, c, now).calls ==> Acceptable(tasks, e)
  {
    hide Payload.IsPython, Payload.Validate, GoodKey, HasKey, Visible, SameRequest, Payload.Stored;
  }

  lemma StepCallsAcceptable(tasks: Registry, d: Db, a: Action)
    requires CallsAcceptable(tasks, d) && Enabled(tasks, d, a)
    ensures CallsAcceptable(tasks, Next(tasks, d, a))
  {
    hide Acceptable, EnqueueTx, Applied, Logged, Payload.IsPython, Payload.Validate, GoodKey, Recorded;
    if a.Enqueue? {
      IsAcceptable(tasks, d, a);
      EnqueuedAcceptable(tasks, d.base.rows, d.base.cursors, d.txs[a.t], a.call, a.now);
    }
  }

  lemma IsAcceptable(tasks: Registry, d: Db, a: Action)
    requires a.Enqueue? && Enabled(tasks, d, a)
    ensures a.t in d.txs && Acceptable(tasks, a.call)
  {
    hide Payload.IsPython, Payload.Validate, GoodKey, InsertFree, NewId;
  }

  lemma {:induction false} RunCallsAcceptable(tasks: Registry, run: seq<Db>, actions: seq<Action>, i: nat)
    requires IsRun(tasks, run, actions) && i <= |actions|
    ensures CallsAcceptable(tasks, run[i])
  {
    if i == 0 {
      assert Initial(run[0]);
    } else {
      hide Next, Enabled, CallsAcceptable;
      RunCallsAcceptable(tasks, run, actions, i - 1);
      StepCallsAcceptable(tasks, run[i - 1], actions[i - 1]);
    }
  }

  /** A call for a key that no row has, in a transaction of its own, with nobody else at work. */
  lemma CallAlone(tasks: Registry, d: Db, t: TxId, c: Call, now: Time)
    requires d.txs == map[] && Acceptable(tasks, c) && c.id !in d.base.ever && HasKey(d.base.rows, c.tenant, c.key) == {}
    ensures var d1 := Next(tasks, d, Begin(t, now));
            var d2 := Next(tasks, d1, Enqueue(t, c, now));
            && Enabled(tasks, d, Begin(t, now)) && Enabled(tasks, d1, Enqueue(t, c, now)) && Enabled(tasks, d2, Commit(t))
            && Next(tasks, d2, Commit(t)).base.calls == d.base.calls + {c}
  {
    hide Payload.IsPython, Payload.Validate, GoodKey, HasKey, SameRequest, Payload.Stored, Applied;
    assert Visible(d.base.rows, NOTHING.(now := now)) == d.base.rows;
  }

  /** The deletion of an unpublished row, in a transaction of its own, with nobody else at work. */
  lemma DeleteAlone(tasks: Registry, d: Db, t: TxId, id: Uuid, now: Time)
    requires Inv(tasks, d) && d.txs == map[] && id in d.base.rows && d.base.rows[id].publishedAt.None?
    ensures var d1 := Next(tasks, d, Begin(t, now));
            var d2 := Next(tasks, d1, Delete(t, id));
            var after := Next(tasks, d2, Commit(t));
            && Enabled(tasks, d, Begin(t, now)) && Enabled(tasks, d1, Delete(t, id)) && Enabled(tasks, d2, Commit(t))
            && after.txs == map[] && after.base.calls == d.base.calls && after.base.ever == d.base.ever
            && after.base.deleted == d.base.deleted + {id} && after.base.rows == d.base.rows - {id}
  {
    hide Inv, Applied;
    AppliedDeletion(d.base.rows, Next(tasks, Next(tasks, d, Begin(t, now)), Delete(t, id)).txs[t], id);
    assert d.base.ever + map[] == d.base.ever;
  }

  lemma AppliedDeletion(rows: Rows, tx: Tx, id: Uuid)
    requires tx.updates == map[] && tx.inserts == map[] && tx.deletes == {id}
    ensures Applied(rows, tx) == rows - {id}
  {
  }

  lemma KeyGoes(rows: Rows, id: Uuid)
    requires Unique(rows) && id in rows
    ensures HasKey(rows - {id}, rows[id].tenant, rows[id].key) == {}
  {
  }

  /**
   Deletions do break the agreement: in every state that a run reaches and in which nobody is at work, an equal call
   whose row has been deleted gets a new row, so that both calls are committed with different ids.
   */
  lemma CallAfterDeletion(tasks: Registry, run: seq<Db>, actions: seq<Action>, i: nat, t: TxId, c: Call, now: Time, other: Uuid)
    requires IsRun(tasks, run, actions) && i <= |actions| && run[i].txs == map[] && c in run[i].base.calls
    requires c.id in run[i].base.deleted && HasKey(run[i].base.rows, c.tenant, c.key) == {} && other !in run[i].base.ever
    ensures var d1 := Next(tasks, run[i], Begin(t, now));
            var d2 := Next(tasks, d1, Enqueue(t, c.(id := other), now));
            var after := Next(tasks, d2, Commit(t));
            && Enabled(tasks, run[i], Begin(t, now)) && Enabled(tasks, d1, Enqueue(t, c.(id := other), now))
            && Enabled(tasks, d2, Commit(t))
            && {c, c.(id := other)} <= after.base.calls && c.id != other
  {
    hide Enabled, Next, HasKey, TxOk, AllApart, Once, LogHolds, RowHas, Acceptable;
    RunCallsAcceptable(tasks, run, actions, i);
    RunKeeps(tasks, run, actions, i);
    AcceptableAgain(tasks, c, other);
    CallAlone(tasks, run[i], t, c.(id := other), now);
    assert CallsHold(run[i].base.ever, run[i].base.calls);
  }

  lemma AcceptableAgain(tasks: Registry, c: Call, other: Uuid)
    ensures Acceptable(tasks, c) ==> Acceptable(tasks, c.(id := other))
  {
  }

  /** And every call can come to that as long as its row is unpublished: a module deletes the row. */
  lemma UnpublishedCanBeDeleted(tasks: Registry, run: seq<Db>, actions: seq<Action>, i: nat, t: TxId, c: Call, now: Time)
    requires IsRun(tasks, run, actions) && i <= |actions| && run[i].txs == map[] && c in run[i].base.calls
    requires c.id in run[i].base.rows && run[i].base.rows[c.id].publishedAt.None?
    ensures var d1 := Next(tasks, run[i], Begin(t, now));
            var d2 := Next(tasks, d1, Delete(t, c.id));
            var after := Next(tasks, d2, Commit(t));
            && Enabled(tasks, run[i], Begin(t, now)) && Enabled(tasks, d1, Delete(t, c.id)) && Enabled(tasks, d2, Commit(t))
            && after.txs == map[] && c in after.base.calls && c.id in after.base.deleted
            && HasKey(after.base.rows, c.tenant, c.key) == {}
  {
    hide Enabled, Next, HasKey, TxOk, AllApart, Once, LogHolds, SameRequest, Payload.IsStored, Json.IsJson;
    RunKeeps(tasks, run, actions, i);
    var base := run[i].base;
    DeleteAlone(tasks, run[i], t, c.id, now);
    assert RowHas(base.ever[c.id], c) && SameRow(base.ever[c.id], base.rows[c.id]);
    KeyGoes(base.rows, c.id);
  }

  // ---- nothing is lost ------------------------------------------------------------------------

  /** A published row changes in nothing but its time, unless it is re-armed. */
  predicate StillPublished(row: Row, later: Row) {
    later.(availableAt := 0) == row.(availableAt := 0)
  }

  ghost predicate KeptRow(base: Base, later: Base, id: Uuid)
    requires id in base.rows
  {
    && (id in later.deleted || (id in later.rows && SameRow(base.rows[id], later.rows[id])))
    && (base.rows[id].publishedAt.Some? && later.rearmed[id] == base.rearmed[id] ==>
          id in later.rows && id !in later.deleted && StillPublished(base.rows[id], later.rows[id]))
  }

  ghost predicate Kept(d: Db, later: Db) {
    && d.log <= later.log && d.base.calls <= later.base.calls && d.base.deleted <= later.base.deleted
    && (forall id :: d.base.rearmed[id] <= later.base.rearmed[id])
    && (forall id :: id in d.base.rows ==> KeptRow(d.base, later.base, id))
  }

  lemma CommitKeepsRows(base: Base, log: seq<Message>, tx: Tx, id: Uuid)
    requires EverOk(base) && TxOk(base, log, tx) && id in base.rows
    ensures KeptRow(base, CommittedBase(base, tx), id)
  {
    hide Applied, InsertsOk, Copies;
    AppliedRows(base, log, tx);
    assert RowOk(base.rows, log, tx, id);
  }

  lemma StepKeepsRows(tasks: Registry, d: Db, a: Action)
    requires Inv(tasks, d) && Enabled(tasks, d, a)
    ensures Kept(d, Next(tasks, d, a))
  {
    hide RowsOk, LogHolds, CallsHold, Unique, TxOk, Once, AllApart, Worked, Sendable, MessageOf, KeptRow, Applied, EverOk;
    forall id | id in d.base.rows
      ensures KeptRow(d.base, Next(tasks, d, a).base, id)
    {
      if a.Commit? { CommitKeepsRows(d.base, d.log, d.txs[a.t], id); } else { KeptReflexive(d.base, id); }
    }
  }

  lemma KeptReflexive(base: Base, id: Uuid)
    requires id in base.rows && EverOk(base)
    ensures KeptRow(base, base, id)
  {
  }

  lemma KeptOn(d: Db, middle: Db, later: Db)
    requires Kept(d, middle) && Kept(middle, later)
    ensures Kept(d, later)
  {
    forall id | id in d.base.rows
      ensures KeptRow(d.base, later.base, id)
    {
      assert KeptRow(d.base, middle.base, id);
      assert id in middle.base.rows ==> KeptRow(middle.base, later.base, id);
    }
  }

  lemma KeptNothingDone(tasks: Registry, d: Db)
    requires Inv(tasks, d)
    ensures Kept(d, d)
  {
    hide TxOk, Once, AllApart, RowsOk, LogHolds, CallsHold, Unique;
  }

  /**
   Over every run a committed row stays with what it carries until somebody deletes it, a published row changes
   only in its time and by being re-armed, and the broker's log only grows.
   */
  lemma {:induction false} NothingLost(tasks: Registry, run: seq<Db>, actions: seq<Action>, i: nat, j: nat)
    requires IsRun(tasks, run, actions) && i <= j <= |actions|
    ensures Kept(run[i], run[j])
    decreases j - i
  {
    hide Enabled, Next, Inv, Kept;
    if i < j {
      NothingLost(tasks, run, actions, i, j - 1);
      RunKeeps(tasks, run, actions, j - 1);
      StepKeepsRows(tasks, run[j - 1], actions[j - 1]);
      KeptOn(run[i], run[j - 1], run[j]);
    } else {
      RunKeeps(tasks, run, actions, i);
      KeptNothingDone(tasks, run[i]);
    }
  }
}
