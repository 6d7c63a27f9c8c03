/**
 Concurrent READ COMMITTED transactions over the preview and execution tables.

 A written row stays locked until its transaction ends. A child write locks its header FOR SHARE, which
 keeps other transactions from updating the header; a foreign-key check locks the referenced row FOR KEY
 SHARE, which keeps other transactions from deleting it.
 */
module BuildHistory {
  import opened Overlay
  import opened BuildTables

  type TxId = nat

  /** `removed` are the rows that the transaction has deleted, although it may have inserted their keys again. */
  datatype Tx = Tx(writes: map<Key, Option<Row>>, shares: set<Key>, keyShares: set<Key>, removed: set<Key>)

  const NOTHING := Tx(map[], {}, {}, {})

  /** `born` counts step insertions; it stamps the next inserted step. */
  datatype Db = Db(rows: Rows, txs: map<TxId, Tx>, born: nat)

  datatype Action =
    | Begin(t: TxId)
    | Insert(t: TxId, key: Key, row: Row)
    | Update(t: TxId, key: Key, row: Row)
    | Delete(t: TxId, key: Key)
    | Commit(t: TxId)
    | Abort(t: TxId)

  function Seen(rows: Rows, tx: Tx): Rows {
    Merge(rows, tx.writes)
  }

  /** No other transaction has written the row or locked it FOR SHARE. */
  ghost predicate Free(d: Db, t: TxId, k: Key) {
    forall u :: u in d.txs && u != t ==> k !in d.txs[u].writes && k !in d.txs[u].shares
  }

  /** No other transaction has written the header, so that it can be locked FOR SHARE. */
  ghost predicate Shareable(d: Db, t: TxId, k: Key) {
    forall u :: u in d.txs && u != t ==> k !in d.txs[u].writes
  }

  ghost predicate Referable(d: Db, t: TxId, k: Key)
    requires t in d.txs
  {
    k in Seen(d.rows, d.txs[t]) && forall u :: u in d.txs && u != t ==> k !in d.txs[u].removed
  }

  ghost predicate Unreferenced(d: Db, t: TxId, k: Key)
    requires t in d.txs
  {
    !Referenced(Seen(d.rows, d.txs[t]), k) && forall u :: u in d.txs && u != t ==> k !in d.txs[u].keyShares
  }

  ghost predicate CanWrite(d: Db, t: TxId, k: Key)
    requires t in d.txs
  {
    Free(d, t, k) && (k.ChildKey? ==> Shareable(d, t, HeaderKey(k)))
  }

  ghost predicate Enabled(d: Db, a: Action) {
    if a.Begin? then
      a.t !in d.txs
    else
      a.t in d.txs &&
      var tx := d.txs[a.t];
      var seen := Seen(d.rows, tx);
      match a {
        case Begin(_) => false
        case Insert(t, k, row) =>
          && Fits(k, row) && k !in seen && CanWrite(d, t, k)
          && InsertTrigger(seen, k, row)
          && (forall r :: r in References(k, row) ==> Referable(d, t, r))
          && (row.StepRow? ==> row.born == d.born)
        case Update(t, k, row) => Fits(k, row) && k in seen && CanWrite(d, t, k) && UpdateTrigger(seen, k, seen[k], row)
        case Delete(t, k) => k in seen && CanWrite(d, t, k) && DeleteTrigger(seen, k) && Unreferenced(d, t, k)
        case Commit(_) => true
        case Abort(_) => true
      }
  }

  function Written(tx: Tx, k: Key, row: Option<Row>): Tx {
    Tx(tx.writes[k := row],
       if k.ChildKey? then tx.shares + {HeaderKey(k)} else tx.shares,
       if row.Some? then tx.keyShares + References(k, row.value) else tx.keyShares,
       if row.None? then tx.removed + {k} else tx.removed)
  }

  function Next(d: Db, a: Action): Db {
    if a.Begin? then
      d.(txs := d.txs[a.t := NOTHING])
    else if a.t !in d.txs then
      d
    else
      match a
      case Insert(t, k, row) =>
        d.(txs := d.txs[t := Written(d.txs[t], k, Some(row))], born := if row.StepRow? then d.born + 1 else d.born)
      case Update(t, k, row) => d.(txs := d.txs[t := Written(d.txs[t], k, Some(row))])
      case Delete(t, k) => d.(txs := d.txs[t := Written(d.txs[t], k, None)])
      case Commit(t) => d.(rows := Seen(d.rows, d.txs[t]), txs := Without(d.txs, t))
      case _ => d.(txs := Without(d.txs, a.t))
  }

  ghost predicate Initial(d: Db) {
    d.rows == map[] && d.txs == map[]
  }

  ghost predicate IsRun(run: seq<Db>, actions: seq<Action>) {
    && |run| == |actions| + 1
    && Initial(run[0])
    && forall i :: 0 <= i < |actions| ==> Enabled(run[i], actions[i]) && run[i + 1] == Next(run[i], actions[i])
  }

  // ---- the invariant --------------------------------------------------------------------------

  /** From a committed header that has left BUILDING only FROZEN to OBSOLETE remains. */
  predicate HeaderKept(h: Header, next: Header) {
    h.status != BUILDING ==> next == h || (h.status == FROZEN && next == h.(status := OBSOLETE))
  }

  /** What an uncommitted write may be, against the committed rows. */
  ghost predicate WriteOk(rows: Rows, tx: Tx, k: Key)
    requires k in tx.writes
  {
    var w := tx.writes[k];
    && (w.Some? ==> Fits(k, w.value) && References(k, w.value) <= tx.keyShares)
    && match k {
         case PreviewKey(_, _) => w.Some? && (k in rows && rows[k].PreviewRow? ==> HeaderKept(rows[k].header, w.value.header))
         case ChildKey(_, _, _) => HeaderKey(k) in tx.shares
         case ReservationKey(_, _, _, _) => w.Some? && k !in rows
         case _ => w.Some? && k in rows && k !in tx.removed ==> SameIntent(rows[k], w.value)
       }
  }

  /** A deleted row had no references but from rows that the transaction has deleted, too. */
  ghost predicate RemovedOk(rows: Rows, tx: Tx) {
    && tx.removed <= tx.writes.Keys
    && (forall k :: k in tx.writes && tx.writes[k].None? ==> k in tx.removed)
    && (forall k, j :: k in tx.removed && j in rows && k in References(j, rows[j]) ==> j in tx.removed)
  }

  /** A transaction that has written children of a preview found its header BUILDING, and it still is. */
  ghost predicate SharesOk(rows: Rows, tx: Tx) {
    forall k :: k in tx.writes && k.ChildKey? ==> !Settled(rows, k.tenant, k.preview)
  }

  /** Parents are older than their children and in the same submission and unit. */
  ghost predicate Linked(seen: Rows) {
    forall k :: k in seen && seen[k].StepRow? && seen[k].intent.parent.Some? ==>
      var p := StepKey(k.tenant, seen[k].intent.parent.value);
      && ParentIs(seen, k.tenant, seen[k].intent.parent.value, seen[k].intent.submission, seen[k].intent.unit)
      && seen[p].born < seen[k].born
  }

  ghost predicate Stamped(seen: Rows, born: nat) {
    forall k :: k in seen && seen[k].StepRow? ==> seen[k].born < born
  }

  ghost predicate AllFit(seen: Rows) {
    forall k :: k in seen ==> Fits(k, seen[k])
  }

  ghost predicate RowsOk(seen: Rows, born: nat) {
    AllFit(seen) && ForeignKeys(seen) && Linked(seen) && Stamped(seen, born)
  }

  ghost predicate TxOk(rows: Rows, tx: Tx, born: nat) {
    && (forall k :: k in tx.writes ==> WriteOk(rows, tx, k))
    && SharesOk(rows, tx) && RemovedOk(rows, tx)
    && RowsOk(Seen(rows, tx), born)
  }

  ghost predicate Apart(x: Tx, y: Tx) {
    && x.writes.Keys !! y.writes.Keys
    && x.writes.Keys !! y.shares && y.writes.Keys !! x.shares
    && x.removed !! y.keyShares && y.removed !! x.keyShares
  }

  ghost predicate Inv(d: Db) {
    && RowsOk(d.rows, d.born)
    && (forall t :: t in d.txs ==> TxOk(d.rows, d.txs[t], d.born))
    && (forall t, u :: t in d.txs && u in d.txs && t != u ==> Apart(d.txs[t], d.txs[u]))
  }

  // ---- one transaction's own write ------------------------------------------------------------

  lemma SeenAt(rows: Rows, tx: Tx, k: Key, row: Option<Row>, j: Key)
    ensures Get(Seen(rows, Written(tx, k, row)), j) == if j == k then row else Get(Seen(rows, tx), j)
  {
    assert Get(Seen(rows, Written(tx, k, row)), j) == See(rows, Written(tx, k, row).writes, j);
    assert Get(Seen(rows, tx), j) == See(rows, tx.writes, j);
  }

  lemma SameLookups(table: Rows, other: Rows)
    requires forall j :: Get(table, j) == Get(other, j)
    ensures table == other
  {
    assert forall j :: j in table <==> Get(table, j).Some?;
    assert forall j :: j in other <==> Get(other, j).Some?;
  }

  lemma SeenWritten(rows: Rows, tx: Tx, k: Key, row: Option<Row>)
    ensures row.Some? ==> Seen(rows, Written(tx, k, row)) == Seen(rows, tx)[k := row.value]
    ensures row.None? ==> Seen(rows, Written(tx, k, row)) == Seen(rows, tx) - {k}
  {
    hide Seen, Written;
    var later := if row.Some? then Seen(rows, tx)[k := row.value] else Seen(rows, tx) - {k};
    forall j
      ensures Get(Seen(rows, Written(tx, k, row)), j) == Get(later, j)
    {
      SeenAt(rows, tx, k, row, j);
    }
    SameLookups(Seen(rows, Written(tx, k, row)), later);
  }

  lemma InsertRowsOk(seen: Rows, k: Key, row: Row, born: nat)
    requires RowsOk(seen, born) && k !in seen && Fits(k, row) && InsertTrigger(seen, k, row)
    requires References(k, row) <= seen.Keys && (row.StepRow? ==> row.born == born)
    ensures RowsOk(seen[k := row], if row.StepRow? then born + 1 else born)
  {
  }

  lemma UpdateRowsOk(seen: Rows, k: Key, row: Row, born: nat)
    requires RowsOk(seen, born) && k in seen && Fits(k, row) && UpdateTrigger(seen, k, seen[k], row)
    ensures RowsOk(seen[k := row], born)
  {
  }

  lemma DeleteRowsOk(seen: Rows, k: Key, born: nat)
    requires RowsOk(seen, born) && k in seen && !Referenced(seen, k)
    ensures RowsOk(seen - {k}, born)
  {
  }

  lemma RemovedKnown(d: Db, t: TxId)
    requires Inv(d) && t in d.txs
    ensures var tx := d.txs[t]; forall k :: k in tx.writes && tx.writes[k].None? ==> k in tx.removed
  {
  }

  lemma WriteKeepsWrites(d: Db, t: TxId, k: Key, row: Option<Row>)
    requires Inv(d) && t in d.txs
    requires var tx := d.txs[t]; var seen := Seen(d.rows, tx);
             || (row.Some? && Enabled(d, Insert(t, k, row.value)))
             || (row.Some? && Enabled(d, Update(t, k, row.value)))
             || (row.None? && Enabled(d, Delete(t, k)))
    ensures forall j :: j in Written(d.txs[t], k, row).writes ==> WriteOk(d.rows, Written(d.txs[t], k, row), j)
    ensures SharesOk(d.rows, Written(d.txs[t], k, row))
  {
    hide RowsOk, Apart, ScopeTrigger, Referable, Unreferenced, RemovedOk;
    RemovedKnown(d, t);
    var tx := d.txs[t];
    var seen := Seen(d.rows, tx);
    assert Get(seen, k) == See(d.rows, tx.writes, k);
    if k.ChildKey? {
      assert Get(seen, HeaderKey(k)) == See(d.rows, tx.writes, HeaderKey(k));
    }
    forall j | j in Written(tx, k, row).writes
      ensures WriteOk(d.rows, Written(tx, k, row), j)
    {
      if j != k { assert WriteOk(d.rows, tx, j); }
    }
  }

  // ---- two transactions side by side ----------------------------------------------------------

  /** The rows after `y` has committed, as `x` sees them. */
  function Both(rows: Rows, x: Tx, y: Tx): Rows {
    Seen(Seen(rows, y), x)
  }

  lemma BothLookup(rows: Rows, x: Tx, y: Tx, k: Key)
    requires Apart(x, y)
    ensures Get(Both(rows, x, y), k) == if k in y.writes then Get(Seen(rows, y), k) else Get(Seen(rows, x), k)
    ensures k in y.writes ==> Get(Seen(rows, x), k) == Get(rows, k) && Get(Seen(rows, y), k) == y.writes[k]
  {
  }

  lemma BothSwap(rows: Rows, x: Tx, y: Tx)
    requires Apart(x, y)
    ensures Both(rows, x, y) == Both(rows, y, x)
  {
  }

  /** A row that the other transaction has not written keeps its references and its parent. */
  lemma BothRow(rows: Rows, x: Tx, y: Tx, k: Key, born: nat)
    requires TxOk(rows, x, born) && TxOk(rows, y, born) && Apart(x, y)
    requires k in Both(rows, x, y) && k !in y.writes
    ensures k in Seen(rows, x) && Both(rows, x, y)[k] == Seen(rows, x)[k]
    ensures forall r :: r in References(k, Seen(rows, x)[k]) ==> r in Both(rows, x, y)
  {
    BothLookup(rows, x, y, k);
    assert Get(Seen(rows, x), k) == See(rows, x.writes, k);
    var row := Seen(rows, x)[k];
    forall r | r in References(k, row)
      ensures r in Both(rows, x, y)
    {
      assert r in Seen(rows, x);
      BothLookup(rows, x, y, r);
      if k in x.writes {
        assert r in x.keyShares;
      } else {
        assert Get(Seen(rows, y), k) == See(rows, y.writes, k);
        assert r in Seen(rows, y);
      }
    }
  }

  lemma BothLink(rows: Rows, x: Tx, y: Tx, k: Key, born: nat)
    requires TxOk(rows, x, born) && TxOk(rows, y, born) && Apart(x, y)
    requires k in Both(rows, x, y) && k !in y.writes
    requires Both(rows, x, y)[k].StepRow? && Both(rows, x, y)[k].intent.parent.Some?
    ensures var both := Both(rows, x, y); var i := both[k].intent;
            && ParentIs(both, k.tenant, i.parent.value, i.submission, i.unit)
            && both[StepKey(k.tenant, i.parent.value)].born < both[k].born
  {
    BothRow(rows, x, y, k, born);
    var p := StepKey(k.tenant, Seen(rows, x)[k].intent.parent.value);
    assert p in References(k, Seen(rows, x)[k]);
    TargetKept(rows, x, y, k, p, born);
    BothLookup(rows, x, y, p);
    if p in y.writes {
      assert WriteOk(rows, y, p);
    }
  }

  lemma BothRowsOk(rows: Rows, x: Tx, y: Tx, born: nat)
    requires TxOk(rows, x, born) && TxOk(rows, y, born) && Apart(x, y)
    ensures RowsOk(Both(rows, x, y), born)
  {
    var both := Both(rows, x, y);
    BothSwap(rows, x, y);
    forall k | k in both
      ensures Fits(k, both[k]) && References(k, both[k]) <= both.Keys && (both[k].StepRow? ==> both[k].born < born)
      ensures both[k].StepRow? && both[k].intent.parent.Some? ==>
                && ParentIs(both, k.tenant, both[k].intent.parent.value, both[k].intent.submission, both[k].intent.unit)
                && both[StepKey(k.tenant, both[k].intent.parent.value)].born < both[k].born
    {
      if k in y.writes {
        BothRow(rows, y, x, k, born);
        if both[k].StepRow? && both[k].intent.parent.Some? { BothLink(rows, y, x, k, born); }
      } else {
        BothRow(rows, x, y, k, born);
        if both[k].StepRow? && both[k].intent.parent.Some? { BothLink(rows, x, y, k, born); }
      }
    }
  }

  /** Another transaction's commit brings no reference to a row that this one has deleted. */
  lemma CommitKeepsRemoved(rows: Rows, x: Tx, done: Tx, born: nat)
    requires TxOk(rows, x, born) && TxOk(rows, done, born) && Apart(x, done)
    ensures RemovedOk(Seen(rows, done), x)
  {
    hide RowsOk, SharesOk;
    var after := Seen(rows, done);
    forall k, j | k in x.removed && j in after && k in References(j, after[j])
      ensures j in x.removed
    {
      assert Get(after, j) == See(rows, done.writes, j);
      assert j in done.writes ==> WriteOk(rows, done, j);
    }
  }

  lemma CommitKeepsWrite(rows: Rows, x: Tx, done: Tx, born: nat, k: Key)
    requires TxOk(rows, x, born) && TxOk(rows, done, born) && Apart(x, done) && k in x.writes
    ensures WriteOk(Seen(rows, done), x, k)
    ensures k.ChildKey? ==> !Settled(Seen(rows, done), k.tenant, k.preview)
  {
    hide RowsOk, RemovedOk, References;
    assert WriteOk(rows, x, k);
    assert Get(Seen(rows, done), k) == See(rows, done.writes, k);
    if k.ChildKey? {
      assert Get(Seen(rows, done), HeaderKey(k)) == See(rows, done.writes, HeaderKey(k));
    }
  }

  /** A commit leaves every other transaction's writes in order. */
  lemma CommitKeepsOther(rows: Rows, x: Tx, done: Tx, born: nat)
    requires TxOk(rows, x, born) && TxOk(rows, done, born) && Apart(x, done)
    ensures TxOk(Seen(rows, done), x, born)
  {
    hide RowsOk, RemovedOk, References, WriteOk, Settled, Seen;
    BothRowsOk(rows, x, done, born);
    CommitKeepsRemoved(rows, x, done, born);
    forall k | k in x.writes
      ensures WriteOk(Seen(rows, done), x, k)
      ensures k.ChildKey? ==> !Settled(Seen(rows, done), k.tenant, k.preview)
    {
      CommitKeepsWrite(rows, x, done, born, k);
    }
  }

  // ---- every action keeps the invariant -------------------------------------------------------

  /** A committed row that refers to one that the transaction may delete has been deleted by the transaction. */
  lemma UnreferencedRemoved(rows: Rows, tx: Tx, k: Key, j: Key, born: nat)
    requires TxOk(rows, tx, born) && AllFit(rows) && !Referenced(Seen(rows, tx), k)
    requires j in rows && k in References(j, rows[j])
    ensures j in tx.removed
  {
    hide RowsOk, SharesOk;
    assert Get(Seen(rows, tx), j) == See(rows, tx.writes, j);
    if j in tx.writes { assert WriteOk(rows, tx, j); }
  }

  lemma WriteKeepsRemoved(d: Db, t: TxId, k: Key, row: Option<Row>)
    requires Inv(d) && t in d.txs && (row.None? ==> Unreferenced(d, t, k))
    ensures RemovedOk(d.rows, Written(d.txs[t], k, row))
  {
    hide SharesOk, WriteOk, Linked, Stamped, ForeignKeys, Apart, Referenced;
    var tx := d.txs[t];
    assert TxOk(d.rows, tx, d.born);
    if row.None? {
      forall j | j in d.rows && k in References(j, d.rows[j])
        ensures j in tx.removed
      {
        UnreferencedRemoved(d.rows, tx, k, j, d.born);
      }
    }
  }

  lemma WriteKeepsRows(d: Db, a: Action)
    requires Inv(d) && Enabled(d, a) && (a.Insert? || a.Update? || a.Delete?)
    ensures RowsOk(Seen(d.rows, Next(d, a).txs[a.t]), Next(d, a).born)
  {
    hide WriteOk, SharesOk, RemovedOk, Apart;
    var tx := d.txs[a.t];
    var seen := Seen(d.rows, tx);
    SeenWritten(d.rows, tx, a.key, if a.Delete? then None else Some(a.row));
    assert TxOk(d.rows, tx, d.born);
    match a {
      case Insert(_, k, r) => InsertRowsOk(seen, k, r, d.born);
      case Update(_, k, r) => UpdateRowsOk(seen, k, r, d.born);
      case Delete(_, k) => DeleteRowsOk(seen, k, d.born);
    }
  }

  lemma WriteKeeps(d: Db, a: Action)
    requires Inv(d) && Enabled(d, a) && (a.Insert? || a.Update? || a.Delete?)
    ensures TxOk(d.rows, Next(d, a).txs[a.t], Next(d, a).born)
  {
    hide RowsOk, WriteOk, SharesOk, RemovedOk, Apart, ScopeTrigger, Inv, Seen;
    var row := if a.Delete? then None else Some(a.row);
    WriteKeepsWrites(d, a.t, a.key, row);
    WriteKeepsRemoved(d, a.t, a.key, row);
    WriteKeepsRows(d, a);
  }

  lemma WrittenApart(tx: Tx, other: Tx, k: Key, row: Option<Row>)
    requires Apart(tx, other) && k !in other.writes && k !in other.shares
    requires k.ChildKey? ==> HeaderKey(k) !in other.writes
    requires row.Some? ==> References(k, row.value) !! other.removed
    requires row.None? ==> k !in other.keyShares
    ensures Apart(Written(tx, k, row), other)
  {
  }

  lemma WriteKeepsApart(d: Db, a: Action, u: TxId)
    requires Inv(d) && Enabled(d, a) && (a.Insert? || a.Update? || a.Delete?)
    requires u in d.txs && u != a.t
    ensures Apart(Next(d, a).txs[a.t], d.txs[u])
  {
    var tx, other := d.txs[a.t], d.txs[u];
    match a {
      case Update(_, k, row) =>
        forall r | r in References(k, row)
          ensures r !in other.removed
        {
          UpdateKeepsReferences(Seen(d.rows, tx), k, row);
          assert Get(Seen(d.rows, tx), k) == See(d.rows, tx.writes, k);
          TargetKept(d.rows, tx, other, k, r, d.born);
        }
        WrittenApart(tx, other, k, Some(row));
      case Insert(t, k, row) =>
        assert forall r :: r in References(k, row) ==> Referable(d, t, r);
        WrittenApart(tx, other, k, Some(row));
      case Delete(_, k) =>
        WrittenApart(tx, other, k, None);
    }
  }

  lemma UpdateKeepsReferences(seen: Rows, k: Key, row: Row)
    requires k in seen && Fits(k, seen[k]) && Fits(k, row) && UpdateTrigger(seen, k, seen[k], row)
    ensures References(k, row) == References(k, seen[k])
  {
  }

  /** No other transaction has deleted what a visible row refers to. */
  lemma TargetKept(rows: Rows, tx: Tx, other: Tx, k: Key, r: Key, born: nat)
    requires TxOk(rows, tx, born) && TxOk(rows, other, born) && Apart(tx, other)
    requires k in Seen(rows, tx) && k !in other.writes && r in References(k, Seen(rows, tx)[k])
    ensures r !in other.removed
  {
  }

  lemma BornLater(rows: Rows, tx: Tx, born: nat)
    requires TxOk(rows, tx, born)
    ensures TxOk(rows, tx, born + 1)
  {
  }

  lemma CommitKeeps(d: Db, t: TxId)
    requires Inv(d) && t in d.txs
    ensures Inv(Next(d, Commit(t)))
  {
    hide WriteOk, SharesOk, RemovedOk, RowsOk, Seen;
    var after := Next(d, Commit(t));
    forall u | u in after.txs
      ensures TxOk(after.rows, after.txs[u], after.born)
    {
      CommitKeepsOther(d.rows, d.txs[u], d.txs[t], d.born);
    }
  }

  lemma SeenNothing(rows: Rows)
    ensures Seen(rows, NOTHING) == rows
  {
  }

  lemma NothingOk(rows: Rows, born: nat)
    requires RowsOk(rows, born)
    ensures TxOk(rows, NOTHING, born)
  {
  }

  lemma NothingApart(tx: Tx)
    ensures Apart(NOTHING, tx)
  {
  }

  lemma BeginKeeps(d: Db, t: TxId)
    requires Inv(d) && t !in d.txs
    ensures Inv(Next(d, Begin(t)))
  {
    NothingOk(d.rows, d.born);
    forall u | u in d.txs
      ensures Apart(NOTHING, d.txs[u])
    {
      NothingApart(d.txs[u]);
    }
    ReplaceKeeps(d, t, NOTHING, d.born);
  }

  lemma NextKeeps(d: Db, a: Action)
    requires Inv(d) && Enabled(d, a)
    ensures Inv(Next(d, a))
  {
    match a {
      case Commit(t) => CommitKeeps(d, t);
      case Begin(t) => BeginKeeps(d, t);
      case Abort(_) =>
      case _ =>
        var after := Next(d, a);
        WriteKeeps(d, a);
        forall u | u in d.txs && u != a.t
          ensures Apart(after.txs[a.t], d.txs[u]) && TxOk(d.rows, d.txs[u], after.born)
        {
          WriteKeepsApart(d, a, u);
          BornLater(d.rows, d.txs[u], d.born);
        }
        ReplaceKeeps(d, a.t, after.txs[a.t], after.born);
    }
  }

  lemma ReplaceKeeps(d: Db, t: TxId, tx: Tx, born: nat)
    requires Inv(d) && born >= d.born && TxOk(d.rows, tx, born)
    requires forall u :: u in d.txs && u != t ==> Apart(tx, d.txs[u]) && TxOk(d.rows, d.txs[u], born)
    ensures Inv(Db(d.rows, d.txs[t := tx], born))
  {
  }

  lemma {:induction false} RunKeeps(run: seq<Db>, actions: seq<Action>, i: nat)
    requires IsRun(run, actions) && i <= |actions|
    ensures Inv(run[i])
  {
    if i > 0 {
      RunKeeps(run, actions, i - 1);
      NextKeeps(run[i - 1], actions[i - 1]);
    }
  }
}
