/** What stays fixed once a preview has left BUILDING, and the execution graph that relies on it. */
module BuildFreeze {
  import opened Overlay
  import opened BuildTables
  import opened BuildHistory

  // ---- freeze ---------------------------------------------------------------------------------

  /** The preview is settled in both states, with the same rows except for FROZEN to OBSOLETE. */
  ghost predicate Frozen(rows: Rows, later: Rows, tenant: Uuid, preview: Uuid) {
    && Settled(rows, tenant, preview) && Settled(later, tenant, preview)
    && HeaderKept(rows[PreviewKey(tenant, preview)].header, later[PreviewKey(tenant, preview)].header)
    && forall place :: Get(later, ChildKey(tenant, preview, place)) == Get(rows, ChildKey(tenant, preview, place))
  }

  lemma WritesFreeze(rows: Rows, tx: Tx, tenant: Uuid, preview: Uuid, born: nat)
    requires TxOk(rows, tx, born) && AllFit(rows) && Settled(rows, tenant, preview)
    ensures Frozen(rows, Seen(rows, tx), tenant, preview)
  {
  }

  lemma FrozenReflexive(rows: Rows, tenant: Uuid, preview: Uuid)
    requires Settled(rows, tenant, preview)
    ensures Frozen(rows, rows, tenant, preview)
  {
  }

  lemma NextFreezes(d: Db, a: Action, tenant: Uuid, preview: Uuid)
    requires Inv(d) && Enabled(d, a) && Settled(d.rows, tenant, preview)
    ensures Frozen(d.rows, Next(d, a).rows, tenant, preview)
  {
    hide Frozen, Settled, TxOk, AllFit;
    if a.Commit? {
      WritesFreeze(d.rows, d.txs[a.t], tenant, preview, d.born);
    } else {
      FrozenReflexive(d.rows, tenant, preview);
    }
  }

  lemma FrozenTransitive(rows: Rows, mid: Rows, later: Rows, tenant: Uuid, preview: Uuid)
    requires Frozen(rows, mid, tenant, preview) && Frozen(mid, later, tenant, preview)
    ensures Frozen(rows, later, tenant, preview)
  {
  }

  /**
   Freeze under concurrency: once a committed header has left BUILDING, in every later state of every run
   its eight child tables hold the same rows, its other columns are the same, and its status has at most
   gone from FROZEN to OBSOLETE.
   */
  lemma {:induction false} FrozenForever(run: seq<Db>, actions: seq<Action>, i: nat, j: nat, tenant: Uuid, preview: Uuid)
    requires IsRun(run, actions) && i <= j <= |actions| && Settled(run[i].rows, tenant, preview)
    ensures Frozen(run[i].rows, run[j].rows, tenant, preview)
    decreases j - i
  {
    hide Settled, Next, Enabled, Inv;
    if i < j {
      FrozenForever(run, actions, i, j - 1, tenant, preview);
      RunKeeps(run, actions, j - 1);
      NextFreezes(run[j - 1], actions[j - 1], tenant, preview);
      FrozenTransitive(run[i].rows, run[j - 1].rows, run[j].rows, tenant, preview);
    }
  }

  // ---- agreement of the execution graph with the plan -----------------------------------------

  /** The row agrees with a plan that can no longer change. */
  ghost predicate Agrees(seen: Rows, k: Key, row: Row) {
    ScopeTrigger(seen, k, row) &&
    match row
    case SubmissionRow(s, _) => Settled(seen, k.tenant, s.preview)
    case ReservationRow(_, _, preview, _) => Settled(seen, k.tenant, preview)
    case StepRow(i, _, _, _) => Settled(seen, k.tenant, i.preview)
    case _ => true
  }

  ghost predicate AllAgree(seen: Rows) {
    forall k :: k in seen ==> Agrees(seen, k, seen[k])
  }

  /** The application stores a digest only together with leaving BUILDING. */
  predicate DigestSettles(row: Row) {
    row.PreviewRow? && row.header.digest.Some? ==> row.header.status != BUILDING
  }

  ghost predicate DigestsSettle(seen: Rows) {
    forall k :: k in seen ==> DigestSettles(seen[k])
  }

  ghost predicate Disciplined(actions: seq<Action>) {
    forall i :: 0 <= i < |actions| && (actions[i].Insert? || actions[i].Update?) ==> DigestSettles(actions[i].row)
  }

  /** Settled plans are the same in both views. */
  ghost predicate Preserves(seen: Rows, later: Rows) {
    forall tenant, preview :: Settled(seen, tenant, preview) ==> Frozen(seen, later, tenant, preview)
  }

  /** The submissions and steps that the row refers to say the same in both views. */
  ghost predicate SameTargets(seen: Rows, later: Rows, k: Key, row: Row) {
    forall r :: r in References(k, row) && r in seen && r in later && (r.SubmissionKey? || r.StepKey?) ==>
      SameIntent(seen[r], later[r])
  }

  lemma SubmissionStable(seen: Rows, later: Rows, tenant: Uuid, s: SubmissionIntent)
    requires Preserves(seen, later) && SubmissionScope(seen, tenant, s) && Settled(seen, tenant, s.preview)
    ensures SubmissionScope(later, tenant, s) && Settled(later, tenant, s.preview)
  {
  }

  lemma ReservationStable(seen: Rows, later: Rows, k: Key, row: Row)
    requires k.ReservationKey? && row.ReservationRow?
    requires Preserves(seen, later) && Agrees(seen, k, row) && References(k, row) <= later.Keys && SameTargets(seen, later, k, row)
    ensures Agrees(later, k, row)
  {
  }

  lemma StepStable(seen: Rows, later: Rows, k: Key, row: Row)
    requires row.StepRow? && Preserves(seen, later) && Agrees(seen, k, row) && References(k, row) <= later.Keys && SameTargets(seen, later, k, row)
    ensures Agrees(later, k, row)
  {
  }

  /** Agreement survives everything that later views may differ in. */
  lemma AgreesStable(seen: Rows, later: Rows, k: Key, row: Row)
    requires Preserves(seen, later) && Agrees(seen, k, row) && References(k, row) <= later.Keys && SameTargets(seen, later, k, row)
    ensures Agrees(later, k, row)
  {
    match row {
      case SubmissionRow(s, _) => SubmissionStable(seen, later, k.tenant, s);
      case ReservationRow(_, _, _, _) => ReservationStable(seen, later, k, row);
      case StepRow(_, _, _, _) => StepStable(seen, later, k, row);
      case _ =>
    }
  }

  // ---- one transaction's own write ------------------------------------------------------------

  lemma InsertPreserves(seen: Rows, k: Key, row: Row)
    requires AllFit(seen) && k !in seen && Fits(k, row) && InsertTrigger(seen, k, row)
    ensures Preserves(seen, seen[k := row])
  {
  }

  lemma UpdatePreserves(seen: Rows, k: Key, row: Row)
    requires AllFit(seen) && k in seen && Fits(k, row) && UpdateTrigger(seen, k, seen[k], row)
    ensures Preserves(seen, seen[k := row])
  {
  }

  lemma DeletePreserves(seen: Rows, k: Key)
    requires AllFit(seen) && k in seen && DeleteTrigger(seen, k)
    ensures Preserves(seen, seen - {k})
  {
  }

  /** The trigger's look-ups are about a settled plan as soon as digests settle. */
  lemma NewRowAgrees(seen: Rows, k: Key, row: Row)
    requires AllAgree(seen) && DigestsSettle(seen) && ScopeTrigger(seen, k, row)
    ensures Agrees(seen, k, row)
  {
  }

  lemma StoreAgrees(seen: Rows, k: Key, row: Row)
    requires AllAgree(seen) && DigestsSettle(seen) && DigestSettles(row) && ScopeTrigger(seen, k, row)
    requires Preserves(seen, seen[k := row]) && ForeignKeys(seen[k := row]) && AllFit(seen)
    requires k in seen && (k.SubmissionKey? || k.StepKey?) ==> SameIntent(seen[k], row)
    ensures AllAgree(seen[k := row]) && DigestsSettle(seen[k := row])
  {
    hide Agrees, Preserves, DigestSettles, ScopeTrigger;
    var later := seen[k := row];
    NewRowAgrees(seen, k, row);
    forall j | j in later
      ensures Agrees(later, j, later[j])
    {
      AgreesStable(seen, later, j, later[j]);
    }
  }

  lemma DeleteAgrees(seen: Rows, k: Key)
    requires AllAgree(seen) && DigestsSettle(seen)
    requires Preserves(seen, seen - {k}) && ForeignKeys(seen - {k}) && AllFit(seen)
    ensures AllAgree(seen - {k}) && DigestsSettle(seen - {k})
  {
    var later := seen - {k};
    forall j | j in later
      ensures Agrees(later, j, later[j])
    {
      AgreesStable(seen, later, j, later[j]);
    }
  }

  // ---- another transaction's commit -----------------------------------------------------------

  lemma BothPreserves(rows: Rows, x: Tx, y: Tx, born: nat)
    requires RowsOk(rows, born) && TxOk(rows, x, born) && TxOk(rows, y, born) && Apart(x, y)
    ensures Preserves(Seen(rows, x), Both(rows, x, y))
  {
    hide Settled, Frozen;
    var seen, both := Seen(rows, x), Both(rows, x, y);
    forall tenant, preview | Settled(seen, tenant, preview)
      ensures Frozen(seen, both, tenant, preview)
    {
      BothFrozen(rows, x, y, born, tenant, preview);
    }
  }

  /** What a row of one transaction refers to is not deleted by the other one, so that it says the same after its commit. */
  lemma BothTargets(rows: Rows, x: Tx, y: Tx, born: nat, k: Key)
    requires RowsOk(rows, born) && TxOk(rows, x, born) && TxOk(rows, y, born) && Apart(x, y)
    requires k in Seen(rows, x) && k !in y.writes
    ensures SameTargets(Seen(rows, x), Both(rows, x, y), k, Seen(rows, x)[k])
  {
    var seen, both := Seen(rows, x), Both(rows, x, y);
    forall r | r in References(k, seen[k]) && r in seen && r in both && (r.SubmissionKey? || r.StepKey?)
      ensures SameIntent(seen[r], both[r])
    {
      BothLookup(rows, x, y, r);
      TargetKept(rows, x, y, k, r, born);
      if r in y.writes { assert WriteOk(rows, y, r); }
    }
  }

  lemma BothFrozen(rows: Rows, x: Tx, y: Tx, born: nat, tenant: Uuid, preview: Uuid)
    requires RowsOk(rows, born) && TxOk(rows, x, born) && TxOk(rows, y, born) && Apart(x, y)
    requires Settled(Seen(rows, x), tenant, preview)
    ensures Frozen(Seen(rows, x), Both(rows, x, y), tenant, preview)
  {
    var p := PreviewKey(tenant, preview);
    BothLookup(rows, x, y, p);
    assert Get(Seen(rows, x), p) == See(rows, x.writes, p);
    if p in y.writes { assert WriteOk(rows, y, p); }
    forall place
      ensures var k := ChildKey(tenant, preview, place); Get(Both(rows, x, y), k) == Get(Seen(rows, x), k)
    {
      var k := ChildKey(tenant, preview, place);
      BothLookup(rows, x, y, k);
      assert k in y.writes ==> WriteOk(rows, y, k);
    }
  }

  lemma BothAgree(rows: Rows, x: Tx, y: Tx, born: nat)
    requires RowsOk(rows, born) && TxOk(rows, x, born) && TxOk(rows, y, born) && Apart(x, y)
    requires AllAgree(Seen(rows, x)) && AllAgree(Seen(rows, y))
    requires DigestsSettle(Seen(rows, x)) && DigestsSettle(Seen(rows, y))
    ensures AllAgree(Both(rows, x, y)) && DigestsSettle(Both(rows, x, y))
  {
    var both := Both(rows, x, y);
    BothRowsOk(rows, x, y, born);
    BothPreserves(rows, x, y, born);
    BothPreserves(rows, y, x, born);
    BothSwap(rows, x, y);
    forall k | k in both
      ensures Agrees(both, k, both[k]) && DigestSettles(both[k])
    {
      BothLookup(rows, x, y, k);
      if k in y.writes {
        BothTargets(rows, y, x, born, k);
        AgreesStable(Seen(rows, y), both, k, both[k]);
      } else {
        BothTargets(rows, x, y, born, k);
        AgreesStable(Seen(rows, x), both, k, both[k]);
      }
    }
  }

  // ---- every run ------------------------------------------------------------------------------

  ghost predicate AgreeInv(d: Db) {
    && AllAgree(d.rows) && DigestsSettle(d.rows)
    && forall t :: t in d.txs ==> AllAgree(Seen(d.rows, d.txs[t])) && DigestsSettle(Seen(d.rows, d.txs[t]))
  }

  lemma WriteAgrees(d: Db, a: Action)
    requires Inv(d) && AgreeInv(d) && Enabled(d, a) && (a.Insert? || a.Update? || a.Delete?)
    requires !a.Delete? ==> DigestSettles(a.row)
    ensures var seen := Seen(d.rows, Next(d, a).txs[a.t]); AllAgree(seen) && DigestsSettle(seen)
  {
    var tx := d.txs[a.t];
    var seen := Seen(d.rows, tx);
    SeenWritten(d.rows, tx, a.key, if a.Delete? then None else Some(a.row));
    NextKeeps(d, a);
    assert TxOk(d.rows, Next(d, a).txs[a.t], Next(d, a).born);
    match a {
      case Insert(_, k, row) => InsertPreserves(seen, k, row); StoreAgrees(seen, k, row);
      case Update(_, k, row) => UpdatePreserves(seen, k, row); StoreAgrees(seen, k, row);
      case Delete(_, k) => DeletePreserves(seen, k); DeleteAgrees(seen, k);
    }
  }

  lemma CommitAgrees(d: Db, t: TxId)
    requires Inv(d) && AgreeInv(d) && t in d.txs
    ensures AgreeInv(Next(d, Commit(t)))
  {
    var after := Next(d, Commit(t));
    forall u | u in after.txs
      ensures AllAgree(Seen(after.rows, after.txs[u])) && DigestsSettle(Seen(after.rows, after.txs[u]))
    {
      BothAgree(d.rows, d.txs[u], d.txs[t], d.born);
    }
  }

  lemma ReplaceAgrees(d: Db, t: TxId, tx: Tx, born: nat)
    requires AgreeInv(d) && AllAgree(Seen(d.rows, tx)) && DigestsSettle(Seen(d.rows, tx))
    ensures AgreeInv(Db(d.rows, d.txs[t := tx], born))
  {
  }

  lemma NextAgrees(d: Db, a: Action)
    requires Inv(d) && AgreeInv(d) && Enabled(d, a)
    requires a.Insert? || a.Update? ==> DigestSettles(a.row)
    ensures AgreeInv(Next(d, a))
  {
    match a {
      case Begin(t) =>
        SeenNothing(d.rows);
        ReplaceAgrees(d, t, NOTHING, d.born);
      case Abort(_) =>
      case Commit(t) => CommitAgrees(d, t);
      case _ =>
        WriteAgrees(d, a);
        ReplaceAgrees(d, a.t, Next(d, a).txs[a.t], Next(d, a).born);
    }
  }

  /**
   Step agreement persists: in every committed state of every disciplined run each step's group belongs
   to its unit, its planned ad to that group, its material to the unit's drama snapshot, its parent to
   the same submission and unit, each reservation names its submission's draft and its unit's drama and
   advertiser, and the previews behind them have left BUILDING.
   */
  lemma {:induction false} AgreementPersists(run: seq<Db>, actions: seq<Action>, i: nat)
    requires IsRun(run, actions) && Disciplined(actions) && i <= |actions|
    ensures AgreeInv(run[i])
    ensures forall k :: k in run[i].rows ==> Agrees(run[i].rows, k, run[i].rows[k])
  {
    if i > 0 {
      AgreementPersists(run, actions, i - 1);
      RunKeeps(run, actions, i - 1);
      NextAgrees(run[i - 1], actions[i - 1]);
    }
  }

  // ---- parent links ---------------------------------------------------------------------------

  /** A walk from a step to its parent, its parent's parent and so on. */
  ghost predicate IsAncestry(rows: Rows, path: seq<Key>) {
    && (forall i :: 0 <= i < |path| ==> path[i] in rows && rows[path[i]].StepRow?)
    && (forall i :: 0 <= i < |path| - 1 ==>
          rows[path[i]].intent.parent.Some? && path[i + 1] == StepKey(path[i].tenant, rows[path[i]].intent.parent.value))
  }

  /**
   Parent links form a forest: along a walk of parent links no step repeats, all steps have the first
   one's tenant, submission and unit, and the walk is bounded by the first step's stamp.
   */
  lemma {:induction false} AncestryIsChain(rows: Rows, path: seq<Key>, i: nat, j: nat)
    requires Linked(rows) && IsAncestry(rows, path) && i <= j < |path|
    ensures path[j].tenant == path[i].tenant
    ensures rows[path[j]].intent.submission == rows[path[i]].intent.submission
    ensures rows[path[j]].intent.unit == rows[path[i]].intent.unit
    ensures rows[path[j]].born + (j - i) <= rows[path[i]].born
    decreases j - i
  {
    if i < j {
      AncestryIsChain(rows, path, i, j - 1);
    }
  }

  lemma ParentsFormForest(run: seq<Db>, actions: seq<Action>, n: nat, path: seq<Key>)
    requires IsRun(run, actions) && n <= |actions| && IsAncestry(run[n].rows, path) && |path| > 0
    ensures forall i, j :: 0 <= i < j < |path| ==> path[i] != path[j]
    ensures forall j :: 0 <= j < |path| ==>
              && path[j].tenant == path[0].tenant
              && run[n].rows[path[j]].intent.submission == run[n].rows[path[0]].intent.submission
              && run[n].rows[path[j]].intent.unit == run[n].rows[path[0]].intent.unit
    ensures |path| <= run[n].rows[path[0]].born + 1
  {
    RunKeeps(run, actions, n);
    forall i, j | 0 <= i <= j < |path|
      ensures i < j ==> path[i] != path[j]
      ensures path[j].tenant == path[i].tenant
      ensures run[n].rows[path[j]].intent.submission == run[n].rows[path[i]].intent.submission
      ensures run[n].rows[path[j]].intent.unit == run[n].rows[path[i]].intent.unit
    {
      AncestryIsChain(run[n].rows, path, i, j);
    }
    AncestryIsChain(run[n].rows, path, 0, |path| - 1);
  }
}
