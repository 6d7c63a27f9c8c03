/**
 Draft revisions and the previews made from them, under concurrent READ COMMITTED transactions.

 `obsolete_draft_previews` runs inside the transaction that revises a draft and sees only committed
 previews and its own. What keeps a preview from being inserted behind its back is the row lock that
 preview generation takes on the draft (`SELECT ... FOR UPDATE`).
 */
module PreviewLife {
  import opened Overlay
  import opened BuildTables

  type TxId = nat

  datatype DraftKey = DraftKey(tenant: Uuid, id: Uuid)
  datatype DraftRow = DraftRow(revision: nat, detail: string)
  datatype HeaderKey = HeaderKey(tenant: Uuid, id: Uuid)

  type Drafts = map<DraftKey, DraftRow>
  type Headers = map<HeaderKey, Header>

  datatype Tx = Tx(drafts: Drafts, headers: Headers, held: set<DraftKey>)
  datatype Db = Db(drafts: Drafts, headers: Headers, txs: map<TxId, Tx>)

  datatype Action =
    | Begin(t: TxId)
    | HoldDraft(t: TxId, draft: DraftKey)
    | WriteDraft(t: TxId, draft: DraftKey, row: DraftRow)
    | InsertPreview(t: TxId, key: HeaderKey, header: Header)
    | UpdatePreview(t: TxId, key: HeaderKey, header: Header)
    | Commit(t: TxId)
    | Abort(t: TxId)

  predicate Live(h: Header) {
    h.status == BUILDING || h.status == FROZEN
  }

  function DraftOf(k: HeaderKey, h: Header): DraftKey {
    DraftKey(k.tenant, h.draft)
  }

  function SeenDrafts(d: Db, tx: Tx): Drafts { d.drafts + tx.drafts }

  function SeenHeaders(d: Db, tx: Tx): Headers { d.headers + tx.headers }

  // ---- the actions ----------------------------------------------------------------------------

  /** No other transaction has written the draft or holds its row lock. */
  ghost predicate DraftFree(d: Db, t: TxId, k: DraftKey) {
    forall u :: u in d.txs && u != t ==> k !in d.txs[u].drafts && k !in d.txs[u].held
  }

  ghost predicate HeaderFree(d: Db, t: TxId, k: HeaderKey) {
    forall u :: u in d.txs && u != t ==> k !in d.txs[u].headers
  }

  /** `uq_preview_revision`: no other preview of the draft, committed or in flight, is at this revision. */
  ghost predicate RevisionFree(headers: Headers, k: HeaderKey, h: Header) {
    forall j :: j in headers && j != k && DraftOf(j, headers[j]) == DraftOf(k, h) ==>
      headers[j].draftRevision != h.draftRevision
  }

  ghost predicate Unique(d: Db, t: TxId, k: HeaderKey, h: Header)
    requires t in d.txs
  {
    RevisionFree(SeenHeaders(d, d.txs[t]), k, h) &&
    forall u :: u in d.txs && u != t ==> RevisionFree(d.txs[u].headers, k, h)
  }

  /** The previews that revising the draft makes obsolete. */
  predicate Outdated(k: HeaderKey, h: Header, draft: DraftKey, revision: nat) {
    DraftOf(k, h) == draft && h.draftRevision != revision && Live(h)
  }

  function ObsoletedBy(headers: Headers, draft: DraftKey, revision: nat): Headers {
    map k | k in headers && Outdated(k, headers[k], draft, revision) :: headers[k].(status := OBSOLETE)
  }

  /** `draft_preview_revision`: a changed revision obsoletes what the transaction sees. */
  function ByTrigger(d: Db, tx: Tx, draft: DraftKey, row: DraftRow): Headers {
    if draft in SeenDrafts(d, tx) && SeenDrafts(d, tx)[draft].revision != row.revision
    then ObsoletedBy(SeenHeaders(d, tx), draft, row.revision) else map[]
  }

  ghost predicate Enabled(d: Db, a: Action) {
    if a.Begin? then a.t !in d.txs
    else
      a.t in d.txs && var tx := d.txs[a.t];
      match a {
        case Begin(_) => false
        case HoldDraft(t, k) => k in SeenDrafts(d, tx) && DraftFree(d, t, k)
        case WriteDraft(t, k, row) =>
          DraftFree(d, t, k) && forall p :: p in ByTrigger(d, tx, k, row) ==> HeaderFree(d, t, p)
        case InsertPreview(t, k, h) =>
          && k !in SeenHeaders(d, tx) && HeaderFree(d, t, k) && DraftOf(k, h) in SeenDrafts(d, tx) && Unique(d, t, k, h)
        case UpdatePreview(t, k, h) =>
          && k in SeenHeaders(d, tx) && HeaderFree(d, t, k) && HeaderTrigger(SeenHeaders(d, tx)[k], h)
          && DraftOf(k, h) in SeenDrafts(d, tx) && Unique(d, t, k, h)
        case Commit(_) => true
        case Abort(_) => true
      }
  }

  function Stepped(d: Db, tx: Tx, a: Action): Tx {
    match a
    case HoldDraft(_, k) => tx.(held := tx.held + {k})
    case WriteDraft(_, k, row) =>
      tx.(drafts := tx.drafts[k := row], headers := tx.headers + ByTrigger(d, tx, k, row))
    case InsertPreview(_, k, h) => tx.(headers := tx.headers[k := h])
    case UpdatePreview(_, k, h) => tx.(headers := tx.headers[k := h])
    case _ => tx
  }

  function Next(d: Db, a: Action): Db {
    if a.Begin? then d.(txs := d.txs[a.t := Tx(map[], map[], {})])
    else if a.t !in d.txs then d
    else if a.Commit? then
      Db(SeenDrafts(d, d.txs[a.t]), SeenHeaders(d, d.txs[a.t]), map u | u in d.txs && u != a.t :: d.txs[u])
    else if a.Abort? then d.(txs := map u | u in d.txs && u != a.t :: d.txs[u])
    else d.(txs := d.txs[a.t := Stepped(d, d.txs[a.t], a)])
  }

  ghost predicate IsRun(run: seq<Db>, actions: seq<Action>) {
    && |run| == |actions| + 1 && run[0] == Db(map[], map[], map[])
    && forall i :: 0 <= i < |actions| ==> Enabled(run[i], actions[i]) && run[i + 1] == Next(run[i], actions[i])
  }

  /**
   How the application writes previews: an insert happens under the draft's lock and at its current
   revision, and an update keeps the draft and the revision.
   */
  ghost predicate Follows(d: Db, a: Action) {
    a.t in d.txs ==>
      var tx := d.txs[a.t];
      match a {
        case InsertPreview(_, k, h) =>
          && DraftOf(k, h) in tx.held + tx.drafts.Keys
          && DraftOf(k, h) in SeenDrafts(d, tx) && SeenDrafts(d, tx)[DraftOf(k, h)].revision == h.draftRevision
        case UpdatePreview(_, k, h) =>
          k in SeenHeaders(d, tx) ==>
            h.draft == SeenHeaders(d, tx)[k].draft && h.draftRevision == SeenHeaders(d, tx)[k].draftRevision
        case _ => true
      }
  }

  // ---- the invariant --------------------------------------------------------------------------

  /** Every live preview is at its draft's revision. */
  ghost predicate Current(drafts: Drafts, headers: Headers) {
    forall k :: k in headers && Live(headers[k]) ==>
      DraftOf(k, headers[k]) in drafts && drafts[DraftOf(k, headers[k])].revision == headers[k].draftRevision
  }

  ghost predicate Distinct(headers: Headers) {
    forall k :: k in headers ==> RevisionFree(headers, k, headers[k])
  }

  /** A written live preview is either new, under a locked draft, or was live before at the same revision. */
  ghost predicate WriteOk(headers: Headers, tx: Tx, k: HeaderKey)
    requires k in tx.headers
  {
    if k in headers then
      && DraftOf(k, tx.headers[k]) == DraftOf(k, headers[k])
      && tx.headers[k].draftRevision == headers[k].draftRevision
      && (Live(tx.headers[k]) ==> Live(headers[k]))
    else DraftOf(k, tx.headers[k]) in tx.held + tx.drafts.Keys
  }

  ghost predicate TxOk(drafts: Drafts, headers: Headers, tx: Tx) {
    && Current(drafts + tx.drafts, headers + tx.headers)
    && Distinct(headers + tx.headers)
    && forall k :: k in tx.headers ==> WriteOk(headers, tx, k)
  }

  /** A draft that `y` has written is at the revision of every live preview that `x` has written. */
  ghost predicate Agree(x: Tx, y: Tx) {
    forall k :: k in x.headers && Live(x.headers[k]) && DraftOf(k, x.headers[k]) in y.drafts ==>
      y.drafts[DraftOf(k, x.headers[k])].revision == x.headers[k].draftRevision
  }

  ghost predicate Apart(x: Tx, y: Tx) {
    && x.drafts.Keys !! y.drafts.Keys && x.headers.Keys !! y.headers.Keys
    && x.held !! y.held && x.held !! y.drafts.Keys && y.held !! x.drafts.Keys
    && (forall k :: k in x.headers ==> RevisionFree(y.headers, k, x.headers[k]))
  }

  ghost predicate Inv(d: Db) {
    && Current(d.drafts, d.headers) && Distinct(d.headers)
    && (forall t :: t in d.txs ==> TxOk(d.drafts, d.headers, d.txs[t]))
    && (forall t, u :: t in d.txs && u in d.txs && t != u ==> Apart(d.txs[t], d.txs[u]) && Agree(d.txs[t], d.txs[u]))
  }

  // ---- one transaction's own step -------------------------------------------------------------

  lemma MergeUpdate<K, V>(table: map<K, V>, writes: map<K, V>, k: K, v: V)
    ensures table + writes[k := v] == (table + writes)[k := v]
  {
  }

  lemma MergeMerge<K, V>(table: map<K, V>, writes: map<K, V>, more: map<K, V>)
    ensures table + (writes + more) == table + writes + more
  {
  }

  /** After the trigger, what is still live of the draft is at its new revision. */
  lemma TriggerKeepsCurrent(d: Db, tx: Tx, draft: DraftKey, row: DraftRow)
    requires TxOk(d.drafts, d.headers, tx)
    ensures Current(SeenDrafts(d, tx)[draft := row], SeenHeaders(d, tx) + ByTrigger(d, tx, draft, row))
  {
    hide RevisionFree, Distinct;
    var seen, next := SeenHeaders(d, tx), SeenHeaders(d, tx) + ByTrigger(d, tx, draft, row);
    assert forall k :: k in next ==> k in seen;
    assert forall k :: k in next && Live(next[k]) ==> next[k] == seen[k];
  }

  lemma TriggerKeepsDistinct(d: Db, tx: Tx, draft: DraftKey, row: DraftRow)
    requires TxOk(d.drafts, d.headers, tx)
    ensures Distinct(SeenHeaders(d, tx) + ByTrigger(d, tx, draft, row))
  {
    hide Current;
    var seen, next := SeenHeaders(d, tx), SeenHeaders(d, tx) + ByTrigger(d, tx, draft, row);
    assert forall k :: k in next ==>
             k in seen && DraftOf(k, next[k]) == DraftOf(k, seen[k]) && next[k].draftRevision == seen[k].draftRevision;
    forall k | k in next
      ensures RevisionFree(next, k, next[k])
    {
      assert RevisionFree(seen, k, seen[k]);
    }
  }

  lemma TriggerKeepsWrites(d: Db, tx: Tx, draft: DraftKey, row: DraftRow)
    requires TxOk(d.drafts, d.headers, tx)
    ensures var after := Tx(tx.drafts[draft := row], tx.headers + ByTrigger(d, tx, draft, row), tx.held);
            forall k :: k in after.headers ==> WriteOk(d.headers, after, k)
  {
  }

  lemma WriteDraftKeeps(d: Db, tx: Tx, draft: DraftKey, row: DraftRow)
    requires TxOk(d.drafts, d.headers, tx)
    ensures TxOk(d.drafts, d.headers, Tx(tx.drafts[draft := row], tx.headers + ByTrigger(d, tx, draft, row), tx.held))
  {
    TriggerKeepsCurrent(d, tx, draft, row);
    TriggerKeepsDistinct(d, tx, draft, row);
    TriggerKeepsWrites(d, tx, draft, row);
    MergeUpdate(d.drafts, tx.drafts, draft, row);
    MergeMerge(d.headers, tx.headers, ByTrigger(d, tx, draft, row));
  }

  lemma StoreKeepsDistinct(headers: Headers, k: HeaderKey, h: Header)
    requires Distinct(headers) && RevisionFree(headers, k, h)
    ensures Distinct(headers[k := h])
  {
  }

  lemma StoreKeepsCurrent(drafts: Drafts, headers: Headers, k: HeaderKey, h: Header)
    requires Current(drafts, headers)
    requires Live(h) ==> DraftOf(k, h) in drafts && drafts[DraftOf(k, h)].revision == h.draftRevision
    ensures Current(drafts, headers[k := h])
  {
  }

  lemma StoreKeepsWrites(headers: Headers, tx: Tx, after: Tx, k: HeaderKey, h: Header)
    requires after == tx.(headers := tx.headers[k := h])
    requires forall j :: j in tx.headers ==> WriteOk(headers, tx, j)
    requires WriteOk(headers, after, k)
    ensures forall j :: j in after.headers ==> WriteOk(headers, after, j)
  {
  }

  lemma WritePreviewKeeps(d: Db, a: Action)
    requires Inv(d) && (a.InsertPreview? || a.UpdatePreview?) && Enabled(d, a) && Follows(d, a)
    ensures TxOk(d.drafts, d.headers, Stepped(d, d.txs[a.t], a))
  {
    var tx := d.txs[a.t];
    var seen := SeenHeaders(d, tx);
    if a.key in tx.headers { assert WriteOk(d.headers, tx, a.key); }
    StoreKeepsWrites(d.headers, tx, Stepped(d, tx, a), a.key, a.header);
    StoreKeepsDistinct(seen, a.key, a.header);
    StoreKeepsCurrent(SeenDrafts(d, tx), seen, a.key, a.header);
    MergeUpdate(d.headers, tx.headers, a.key, a.header);
  }

  lemma StepKeepsTx(d: Db, a: Action)
    requires Inv(d) && Enabled(d, a) && Follows(d, a) && !a.Begin? && !a.Commit? && !a.Abort?
    ensures TxOk(d.drafts, d.headers, Stepped(d, d.txs[a.t], a))
  {
    match a {
      case HoldDraft(_, _) =>
      case WriteDraft(t, draft, row) => WriteDraftKeeps(d, d.txs[t], draft, row);
      case _ => WritePreviewKeeps(d, a);
    }
  }

  lemma DraftApart(x: Tx, y: Tx, k: DraftKey, row: DraftRow)
    requires Apart(x, y) && Apart(y, x) && k !in y.drafts && k !in y.held
    ensures Apart(x.(held := x.held + {k}), y) && Apart(y, x.(held := x.held + {k}))
    ensures Apart(x.(drafts := x.drafts[k := row]), y) && Apart(y, x.(drafts := x.drafts[k := row]))
  {
  }

  lemma HeadersApart(x: Tx, y: Tx, more: Headers)
    requires Apart(x, y) && Apart(y, x) && more.Keys !! y.headers.Keys
    requires forall k :: k in more ==> RevisionFree(y.headers, k, more[k])
    ensures Apart(x.(headers := x.headers + more), y) && Apart(y, x.(headers := x.headers + more))
  {
  }

  lemma TriggerRevisionFree(d: Db, a: Action, u: TxId)
    requires Inv(d) && Enabled(d, a) && a.WriteDraft? && u in d.txs && u != a.t
    ensures forall k :: k in ByTrigger(d, d.txs[a.t], a.draft, a.row) ==>
              RevisionFree(d.txs[u].headers, k, ByTrigger(d, d.txs[a.t], a.draft, a.row)[k])
  {
  }

  lemma WriteDraftApart(d: Db, a: Action, u: TxId)
    requires Inv(d) && Enabled(d, a) && a.WriteDraft? && u in d.txs && u != a.t
    ensures Apart(Stepped(d, d.txs[a.t], a), d.txs[u]) && Apart(d.txs[u], Stepped(d, d.txs[a.t], a))
  {
    hide Apart, RevisionFree, TxOk, Current, Distinct, Agree, ByTrigger, Live;
    var tx, other := d.txs[a.t], d.txs[u];
    TriggerRevisionFree(d, a, u);
    DraftApart(tx, other, a.draft, a.row);
    HeadersApart(tx.(drafts := tx.drafts[a.draft := a.row]), other, ByTrigger(d, tx, a.draft, a.row));
  }

  lemma PreviewApart(d: Db, t: TxId, k: HeaderKey, h: Header, u: TxId)
    requires Inv(d) && t in d.txs && HeaderFree(d, t, k) && Unique(d, t, k, h) && u in d.txs && u != t
    ensures var tx := d.txs[t].(headers := d.txs[t].headers[k := h]); Apart(tx, d.txs[u]) && Apart(d.txs[u], tx)
  {
    hide Apart, RevisionFree, TxOk, Current, Distinct, Agree, Live;
    HeadersApart(d.txs[t], d.txs[u], map[k := h]);
    assert d.txs[t].headers + map[k := h] == d.txs[t].headers[k := h];
  }

  lemma StepKeepsApart(d: Db, a: Action, u: TxId)
    requires Inv(d) && Enabled(d, a) && Follows(d, a) && !a.Begin? && !a.Commit? && !a.Abort? && u in d.txs && u != a.t
    ensures Apart(Stepped(d, d.txs[a.t], a), d.txs[u]) && Apart(d.txs[u], Stepped(d, d.txs[a.t], a))
  {
    hide Apart, RevisionFree, TxOk, Current, Distinct, Agree, ByTrigger, HeaderTrigger, Live, HeaderFree, Unique, Follows;
    match a {
      case HoldDraft(t, k) => DraftApart(d.txs[t], d.txs[u], k, DraftRow(0, ""));
      case WriteDraft(_, _, _) => WriteDraftApart(d, a, u);
      case InsertPreview(t, k, h) => PreviewApart(d, t, k, h, u);
      case UpdatePreview(t, k, h) => PreviewApart(d, t, k, h, u);
      case _ =>
    }
  }

  /** Writing a live preview cannot disagree with a draft that another transaction has revised. */
  lemma PreviewAgrees(d: Db, a: Action, u: TxId)
    requires Inv(d) && Enabled(d, a) && Follows(d, a) && u in d.txs && u != a.t
    requires a.InsertPreview? || a.UpdatePreview?
    ensures Agree(Stepped(d, d.txs[a.t], a), d.txs[u]) && Agree(d.txs[u], Stepped(d, d.txs[a.t], a))
  {
    hide RevisionFree, Distinct, Unique;
    var tx, other := d.txs[a.t], d.txs[u];
    assert Agree(tx, other) && Agree(other, tx) && Apart(tx, other);
    if a.UpdatePreview? && a.key !in tx.headers {
      assert SeenHeaders(d, other)[a.key] == d.headers[a.key];
    }
  }

  /** Revising a draft waits for every live preview that another transaction has written for it. */
  lemma DraftAgrees(d: Db, a: Action, u: TxId)
    requires Inv(d) && Enabled(d, a) && a.WriteDraft? && u in d.txs && u != a.t
    ensures Agree(Stepped(d, d.txs[a.t], a), d.txs[u]) && Agree(d.txs[u], Stepped(d, d.txs[a.t], a))
  {
    var tx, other := d.txs[a.t], d.txs[u];
    var after := Stepped(d, tx, a);
    assert Agree(tx, other) && Agree(other, tx) && Apart(tx, other) && Apart(other, tx);
    forall k | k in other.headers && Live(other.headers[k]) && DraftOf(k, other.headers[k]) == a.draft
      ensures a.row.revision == other.headers[k].draftRevision
    {
      assert WriteOk(d.headers, other, k);
      assert k in d.headers && k !in tx.headers;
      assert SeenHeaders(d, tx)[k] == d.headers[k];
      assert SeenDrafts(d, tx)[a.draft].revision == d.headers[k].draftRevision;
      if a.row.revision != d.headers[k].draftRevision {
        assert false;
      }
    }
  }

  // ---- another transaction's commit -----------------------------------------------------------

  lemma CommitKeepsCurrent(d: Db, x: Tx, y: Tx)
    requires TxOk(d.drafts, d.headers, x) && TxOk(d.drafts, d.headers, y) && Apart(x, y) && Apart(y, x) && Agree(x, y) && Agree(y, x)
    ensures Current(SeenDrafts(d, y) + x.drafts, SeenHeaders(d, y) + x.headers)
  {
    hide RevisionFree, Distinct;
    var drafts, headers := SeenDrafts(d, y) + x.drafts, SeenHeaders(d, y) + x.headers;
    forall k | k in headers && Live(headers[k])
      ensures DraftOf(k, headers[k]) in drafts && drafts[DraftOf(k, headers[k])].revision == headers[k].draftRevision
    {
      if k in x.headers || k !in y.headers {
        assert headers[k] == SeenHeaders(d, x)[k];
      }
      if k !in x.headers {
        assert headers[k] == SeenHeaders(d, y)[k];
      }
    }
  }

  lemma CommitKeepsDistinct(d: Db, x: Tx, y: Tx)
    requires TxOk(d.drafts, d.headers, x) && TxOk(d.drafts, d.headers, y) && Apart(x, y) && Apart(y, x)
    ensures Distinct(SeenHeaders(d, y) + x.headers)
  {
    hide TxOk, Apart;
    var headers := SeenHeaders(d, y) + x.headers;
    forall j, k | j in headers && k in headers && j != k && DraftOf(j, headers[j]) == DraftOf(k, headers[k])
      ensures headers[j].draftRevision != headers[k].draftRevision
    {
      DistinctPair(d, x, y, j, k);
    }
  }

  lemma DistinctPair(d: Db, x: Tx, y: Tx, j: HeaderKey, k: HeaderKey)
    requires TxOk(d.drafts, d.headers, x) && TxOk(d.drafts, d.headers, y) && Apart(x, y) && Apart(y, x)
    requires var headers := SeenHeaders(d, y) + x.headers;
             j in headers && k in headers && j != k && DraftOf(j, headers[j]) == DraftOf(k, headers[k])
    ensures var headers := SeenHeaders(d, y) + x.headers; headers[j].draftRevision != headers[k].draftRevision
  {
    var headers := SeenHeaders(d, y) + x.headers;
    if j !in y.headers && k !in y.headers {
      assert RevisionFree(SeenHeaders(d, x), k, SeenHeaders(d, x)[k]);
    } else if j !in x.headers && k !in x.headers {
      assert RevisionFree(SeenHeaders(d, y), k, SeenHeaders(d, y)[k]);
    } else if k in x.headers {
      assert RevisionFree(y.headers, k, x.headers[k]);
    } else {
      assert RevisionFree(x.headers, k, y.headers[k]);
    }
  }

  lemma CommitKeepsWrites(d: Db, x: Tx, y: Tx, after: Db)
    requires TxOk(d.drafts, d.headers, x) && Apart(x, y) && after.headers == SeenHeaders(d, y)
    ensures forall k :: k in x.headers ==> WriteOk(after.headers, x, k)
  {
  }

  lemma CommitKeeps(d: Db, t: TxId)
    requires Inv(d) && t in d.txs
    ensures Inv(Next(d, Commit(t)))
  {
    var after := Next(d, Commit(t));
    forall u | u in after.txs
      ensures TxOk(after.drafts, after.headers, after.txs[u])
    {
      CommitKeepsCurrent(d, d.txs[u], d.txs[t]);
      CommitKeepsDistinct(d, d.txs[u], d.txs[t]);
      CommitKeepsWrites(d, d.txs[u], d.txs[t], after);
    }
  }

  // ---- every run ------------------------------------------------------------------------------

  lemma ReplaceKeeps(d: Db, t: TxId, tx: Tx)
    requires Inv(d) && TxOk(d.drafts, d.headers, tx)
    requires forall u :: u in d.txs && u != t ==>
               Apart(tx, d.txs[u]) && Apart(d.txs[u], tx) && Agree(tx, d.txs[u]) && Agree(d.txs[u], tx)
    ensures Inv(d.(txs := d.txs[t := tx]))
  {
  }

  lemma StepKeeps(d: Db, a: Action)
    requires Inv(d) && Enabled(d, a) && Follows(d, a) && !a.Begin? && !a.Commit? && !a.Abort?
    ensures Inv(Next(d, a))
  {
    var stepped := Stepped(d, d.txs[a.t], a);
    StepKeepsTx(d, a);
    forall u | u in d.txs && u != a.t
      ensures Apart(stepped, d.txs[u]) && Apart(d.txs[u], stepped) && Agree(stepped, d.txs[u]) && Agree(d.txs[u], stepped)
    {
      StepKeepsApart(d, a, u);
      assert Agree(d.txs[a.t], d.txs[u]) && Agree(d.txs[u], d.txs[a.t]);
      if a.WriteDraft? { DraftAgrees(d, a, u); }
      else if !a.HoldDraft? { PreviewAgrees(d, a, u); }
    }
    ReplaceKeeps(d, a.t, stepped);
  }

  lemma NothingApart(tx: Tx, other: Tx)
    requires tx == Tx(map[], map[], {})
    ensures Apart(tx, other) && Apart(other, tx) && Agree(tx, other) && Agree(other, tx)
  {
  }

  lemma BeginKeeps(d: Db, t: TxId)
    requires Inv(d) && t !in d.txs
    ensures Inv(Next(d, Begin(t)))
  {
    hide Current, Distinct, RevisionFree, Live;
    var tx := Tx(map[], map[], {});
    assert d.drafts + tx.drafts == d.drafts && d.headers + tx.headers == d.headers;
    assert TxOk(d.drafts, d.headers, tx);
    forall u | u in d.txs
      ensures Apart(tx, d.txs[u]) && Apart(d.txs[u], tx) && Agree(tx, d.txs[u]) && Agree(d.txs[u], tx)
    {
      NothingApart(tx, d.txs[u]);
    }
    ReplaceKeeps(d, t, tx);
  }

  lemma NextKeeps(d: Db, a: Action)
    requires Inv(d) && Enabled(d, a) && Follows(d, a)
    ensures Inv(Next(d, a))
  {
    match a {
      case Begin(t) => BeginKeeps(d, t);
      case Commit(t) => CommitKeeps(d, t);
      case Abort(_) =>
      case _ => StepKeeps(d, a);
    }
  }

  lemma {:induction false} RunKeeps(run: seq<Db>, actions: seq<Action>, i: nat)
    requires IsRun(run, actions) && i <= |actions|
    requires forall j :: 0 <= j < |actions| ==> Follows(run[j], actions[j])
    ensures Inv(run[i])
  {
    if i > 0 {
      RunKeeps(run, actions, i - 1);
      NextKeeps(run[i - 1], actions[i - 1]);
    }
  }

  /**
   Live previews are unique: in every committed state each BUILDING or FROZEN preview is at its draft's
   revision, so a draft never has two of them.
   */
  lemma LivePreviewUnique(run: seq<Db>, actions: seq<Action>, i: nat)
    requires IsRun(run, actions) && i <= |actions|
    requires forall j :: 0 <= j < |actions| ==> Follows(run[j], actions[j])
    ensures Current(run[i].drafts, run[i].headers)
    ensures forall j, k ::
              (&& j in run[i].headers && k in run[i].headers && Live(run[i].headers[j]) && Live(run[i].headers[k])
               && DraftOf(j, run[i].headers[j]) == DraftOf(k, run[i].headers[k])) ==> j == k
  {
    RunKeeps(run, actions, i);
    var headers := run[i].headers;
    forall j, k | j in headers && k in headers && Live(headers[j]) && Live(headers[k])
                  && DraftOf(j, headers[j]) == DraftOf(k, headers[k])
      ensures j == k
    {
      assert RevisionFree(headers, k, headers[k]);
    }
  }

  // ---- without the draft's lock ---------------------------------------------------------------

  /**
   Transaction `x` is alone and has inserted the live preview `k` of a committed draft whose row it neither holds nor
   has written. Otherwise all is as it should be, in the committed tables and in its view.
   */
  ghost predicate Unlocked(d: Db, x: TxId, k: HeaderKey) {
    && d.txs.Keys == {x} && Current(d.drafts, d.headers)
    && var tx := d.txs[x];
       && Current(SeenDrafts(d, tx), SeenHeaders(d, tx)) && Distinct(SeenHeaders(d, tx))
       && (forall j :: j in tx.headers && j in d.headers ==> WriteOk(d.headers, tx, j))
       && k in tx.headers && k !in d.headers && Live(tx.headers[k])
       && DraftOf(k, tx.headers[k]) in d.drafts && DraftOf(k, tx.headers[k]) !in tx.held + tx.drafts.Keys
  }

  function Revised(row: DraftRow): DraftRow {
    row.(revision := row.revision + 1)
  }

  /** The committed tables have no live preview of that draft: it would be at the revision that the new one has. */
  lemma NothingToObsolete(d: Db, x: TxId, k: HeaderKey, row: DraftRow)
    requires Unlocked(d, x, k)
    ensures ByTrigger(d, Tx(map[], map[], {}), DraftOf(k, d.txs[x].headers[k]), row) == map[]
  {
    var tx := d.txs[x];
    var draft := DraftOf(k, tx.headers[k]);
    var seen := SeenHeaders(d, tx);
    assert seen[k] == tx.headers[k] && SeenDrafts(d, tx)[draft] == d.drafts[draft];
    forall j | j in d.headers && DraftOf(j, d.headers[j]) == draft
      ensures !Live(d.headers[j])
    {
      assert DraftOf(j, seen[j]) == draft && seen[j].draftRevision == d.headers[j].draftRevision;
      assert RevisionFree(seen, k, seen[k]);
    }
  }

  /** What `u` does to the draft is committed before `x` commits. */
  lemma RevisedFirst(d: Db, x: TxId, u: TxId, k: HeaderKey)
    requires Unlocked(d, x, k) && u != x
    ensures var draft := DraftOf(k, d.txs[x].headers[k]);
            var d1 := Next(d, Begin(u));
            var d2 := Next(d1, WriteDraft(u, draft, Revised(d.drafts[draft])));
            && Enabled(d, Begin(u)) && Enabled(d1, WriteDraft(u, draft, Revised(d.drafts[draft]))) && Enabled(d2, Commit(u))
            && Next(d2, Commit(u)) == Db(d.drafts[draft := Revised(d.drafts[draft])], d.headers, d.txs)
  {
    hide Current, Distinct, WriteOk, ByTrigger, Live;
    var draft := DraftOf(k, d.txs[x].headers[k]);
    var row := Revised(d.drafts[draft]);
    var nothing := Tx(map[], map[], {});
    NothingToObsolete(d, x, k, row);
    var d1 := Next(d, Begin(u));
    assert d1.txs[u] == nothing && ByTrigger(d1, nothing, draft, row) == map[] by { SameTrigger(d, d1, nothing, draft, row); }
    var d2 := Next(d1, WriteDraft(u, draft, row));
    assert d2.txs[u] == Tx(map[draft := row], map[], {});
    assert d.drafts + map[draft := row] == d.drafts[draft := row] && d.headers + map[] == d.headers;
    assert (map v | v in d2.txs && v != u :: d2.txs[v]) == d.txs;
  }

  lemma SameTrigger(d: Db, later: Db, tx: Tx, draft: DraftKey, row: DraftRow)
    requires later.drafts == d.drafts && later.headers == d.headers
    ensures ByTrigger(later, tx, draft, row) == ByTrigger(d, tx, draft, row)
  {
  }

  /**
   The draft's lock is needed, always: wherever a transaction has inserted a live preview without it, another one
   can revise the draft, whose trigger does not see the preview, and both can commit. All four steps follow the
   application's rules, and they end with a live preview at an old revision.
   */
  lemma UnlockedInsertBreaksCurrent(d: Db, x: TxId, u: TxId, k: HeaderKey)
    requires Unlocked(d, x, k) && u != x
    ensures var draft := DraftOf(k, d.txs[x].headers[k]);
            var revise := WriteDraft(u, draft, Revised(d.drafts[draft]));
            var d1 := Next(d, Begin(u)); var d2 := Next(d1, revise); var d3 := Next(d2, Commit(u));
            && Enabled(d, Begin(u)) && Enabled(d1, revise) && Enabled(d2, Commit(u)) && Enabled(d3, Commit(x))
            && Follows(d, Begin(u)) && Follows(d1, revise) && Follows(d2, Commit(u)) && Follows(d3, Commit(x))
            && var last := Next(d3, Commit(x));
               && k in last.headers && Live(last.headers[k]) && !Current(last.drafts, last.headers)
  {
    hide Distinct, WriteOk, ByTrigger;
    var tx := d.txs[x];
    var draft := DraftOf(k, tx.headers[k]);
    RevisedFirst(d, x, u, k);
    var d3 := Db(d.drafts[draft := Revised(d.drafts[draft])], d.headers, d.txs);
    var last := Next(d3, Commit(x));
    assert last.drafts[draft] == Revised(d.drafts[draft]) && last.headers[k] == tx.headers[k];
    assert SeenDrafts(d, tx)[draft] == d.drafts[draft] && SeenHeaders(d, tx)[k] == tx.headers[k];
  }

  /** And nothing but the lock keeps such an insert from happening: any draft without a preview at its revision will do. */
  lemma UnlockedInsertIsAccepted(d: Db, x: TxId, k: HeaderKey, h: Header)
    requires Inv(d) && d.txs == map[] && k !in d.headers && Live(h) && DraftOf(k, h) in d.drafts
    requires h.draftRevision == d.drafts[DraftOf(k, h)].revision && RevisionFree(d.headers, k, h)
    ensures var d1 := Next(d, Begin(x));
            && Enabled(d, Begin(x)) && Enabled(d1, InsertPreview(x, k, h)) && !Follows(d1, InsertPreview(x, k, h))
            && Unlocked(Next(d1, InsertPreview(x, k, h)), x, k)
  {
    var d1 := Next(d, Begin(x));
    assert d1.txs == map[x := Tx(map[], map[], {})] && SeenHeaders(d, d1.txs[x]) == d.headers && SeenDrafts(d, d1.txs[x]) == d.drafts;
    var d2 := Next(d1, InsertPreview(x, k, h));
    assert d2.txs[x] == Tx(map[], map[k := h], {});
    assert SeenHeaders(d2, d2.txs[x]) == d.headers[k := h] && SeenDrafts(d2, d2.txs[x]) == d.drafts;
    assert forall j :: j in d.headers ==> RevisionFree(d.headers, j, d.headers[j]);
  }
}
