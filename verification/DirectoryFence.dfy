/**
 The revision fence under concurrent READ COMMITTED transactions.

 A run is a sequence of actions of any number of transactions. Each transaction sees the committed tables
 overlaid with its own writes. A written row stays locked until its transaction ends; so does an advisory
 lock, and so does a revision row that the UPSERT has touched. A statement writes rows one at a time,
 then fires its trigger against the tables visible at that moment, then performs the UPSERTs one scope at
 a time: other transactions may act between any two of these actions.
 */
module DirectoryFence {
  import opened Overlay
  import opened DirectoryTables

  type TxId = nat

  /** The advisory-lock hash is arbitrary: collisions only make transactions wait for each other. */
  datatype Config = Config(lockOf: AccountKey -> int, parents: Parents)

  datatype Kind = Insert | Update | Delete

  /**
   `before` is the overlay when the statement began, `rows` the keys that it has written so far, and the
   two sets are its transition tables.
   */
  datatype Phase =
    | Idle
    | GrantStatement(kind: Kind, grantsBefore: map<GrantKey, Option<GrantRow>>, grantKeys: set<GrantKey>,
                     oldGrants: set<GrantTuple>, newGrants: set<GrantTuple>)
    | AccountStatement(accountsBefore: Accounts, accountKeys: set<AccountKey>,
                       oldAccounts: set<AccountTuple>, newAccounts: set<AccountTuple>)
    | Touching(todo: set<Scope>)

  datatype Tx = Tx(grants: map<GrantKey, Option<GrantRow>>, accounts: Accounts, revisions: Revisions,
                   locks: set<int>, phase: Phase)

  datatype Tables = Tables(grants: Grants, accounts: Accounts, revisions: Revisions)

  datatype Db = Db(tables: Tables, txs: map<TxId, Tx>)

  datatype Action =
    | Begin(t: TxId)
    | TakeLock(t: TxId, lock: int)
    | BeginGrants(t: TxId, kind: Kind)
    | WriteGrant(t: TxId, from: Option<GrantKey>, into: Option<GrantWrite>)
    | BeginAccounts(t: TxId)
    | WriteAccount(t: TxId, account: AccountKey, row: AccountRow)
    | FireTrigger(t: TxId)
    | Upsert(t: TxId, scope: Scope)
    | FinishStatement(t: TxId)
    | Commit(t: TxId)
    | Abort(t: TxId)

  // ---- what a transaction sees and what is locked ---------------------------------------------

  function SeeGrant(tables: Tables, tx: Tx, k: GrantKey): Option<GrantRow> {
    See(tables.grants, tx.grants, k)
  }

  function SeeAccount(tables: Tables, tx: Tx, a: AccountKey): Option<AccountRow> {
    if a in tx.accounts then Some(tx.accounts[a]) else Get(tables.accounts, a)
  }

  function SeeRevision(tables: Tables, tx: Tx, s: Scope): nat {
    if s in tx.revisions then tx.revisions[s] else Revision(tables.revisions, s)
  }

  ghost predicate GrantFree(d: Db, t: TxId, k: GrantKey) {
    forall u :: u in d.txs && u != t ==> k !in d.txs[u].grants
  }

  ghost predicate AccountFree(d: Db, t: TxId, a: AccountKey) {
    forall u :: u in d.txs && u != t ==> a !in d.txs[u].accounts
  }

  ghost predicate RevisionFree(d: Db, t: TxId, s: Scope) {
    forall u :: u in d.txs && u != t ==> s !in d.txs[u].revisions
  }

  ghost predicate LockFree(d: Db, t: TxId, lock: int) {
    forall u :: u in d.txs && u != t ==> lock !in d.txs[u].locks
  }

  function GrantTuples(k: GrantKey, row: Option<GrantRow>): set<GrantTuple> {
    if row.Some? then {GrantTuple(k, row.value.facts)} else {}
  }

  // ---- the actions ----------------------------------------------------------------------------

  /** A statement never updates a row version that it has itself written. */
  predicate Rewritten(phase: Phase, k: GrantKey)
    requires phase.GrantStatement?
  {
    exists f :: f in phase.newGrants && f.key == k
  }

  /** An existing row that the statement removes from its key: visible, unlocked, not its own version. */
  ghost predicate CanRemove(d: Db, t: TxId, k: GrantKey)
    requires t in d.txs && d.txs[t].phase.GrantStatement?
  {
    SeeGrant(d.tables, d.txs[t], k).Some? && GrantFree(d, t, k) && !Rewritten(d.txs[t].phase, k)
  }

  /** A new row that the statement stores: its references exist and the account's lock is held. */
  ghost predicate CanStore(cfg: Config, d: Db, t: TxId, k: GrantKey)
    requires t in d.txs
  {
    && SeeGrant(d.tables, d.txs[t], k).None? && GrantFree(d, t, k)
    && cfg.parents.Has(ScopeOf(k)) && AccountOf(k) in d.tables.accounts
    && cfg.lockOf(AccountOf(k)) in d.txs[t].locks
  }

  ghost predicate CanWriteGrant(cfg: Config, d: Db, t: TxId, from: Option<GrantKey>, into: Option<GrantWrite>)
    requires t in d.txs
  {
    && d.txs[t].phase.GrantStatement?
    && match d.txs[t].phase.kind {
         case Insert => from.None? && into.Some? && CanStore(cfg, d, t, into.value.key)
         case Delete => from.Some? && into.None? && CanRemove(d, t, from.value)
         case Update => from.Some? && into.Some? && CanRemove(d, t, from.value) &&
                        (into.value.key != from.value ==>
                           CanStore(cfg, d, t, into.value.key) && cfg.lockOf(AccountOf(from.value)) in d.txs[t].locks)
       }
  }

  /** The statement takes the row away from `k` and records its old version. */
  function Removed(tables: Tables, tx: Tx, k: GrantKey): Tx
    requires tx.phase.GrantStatement?
  {
    var p := tx.phase;
    tx.(grants := tx.grants[k := None],
        phase := p.(grantKeys := p.grantKeys + {k},
                    oldGrants := p.oldGrants + GrantTuples(k, SeeGrant(tables, tx, k))))
  }

  /** The statement stores a row and records it as a new version. */
  function Stored(tx: Tx, w: GrantWrite): Tx
    requires tx.phase.GrantStatement?
  {
    var p := tx.phase;
    tx.(grants := tx.grants[w.key := Some(w.row)],
        phase := p.(grantKeys := p.grantKeys + {w.key},
                    newGrants := p.newGrants + {GrantTuple(w.key, w.row.facts)}))
  }

  function WrittenGrant(tables: Tables, tx: Tx, from: Option<GrantKey>, into: Option<GrantWrite>): Tx
    requires tx.phase.GrantStatement?
  {
    var removed := if from.Some? then Removed(tables, tx, from.value) else tx;
    if into.Some? then Stored(removed, into.value) else removed
  }

  ghost predicate CanWriteAccount(cfg: Config, d: Db, t: TxId, a: AccountKey, row: AccountRow)
    requires t in d.txs
  {
    && d.txs[t].phase.AccountStatement?
    && a in d.tables.accounts && AccountFree(d, t, a) && a !in d.txs[t].phase.accountKeys
    && (row.facts != SeeAccount(d.tables, d.txs[t], a).value.facts ==> cfg.lockOf(a) in d.txs[t].locks)
  }

  function WrittenAccount(tables: Tables, tx: Tx, a: AccountKey, row: AccountRow): Tx
    requires tx.phase.AccountStatement? && a in tables.accounts
  {
    tx.(accounts := tx.accounts[a := row],
        phase := tx.phase.(
          accountKeys := tx.phase.accountKeys + {a},
          oldAccounts := tx.phase.oldAccounts + {AccountTuple(a, SeeAccount(tables, tx, a).value.facts)},
          newAccounts := tx.phase.newAccounts + {AccountTuple(a, row.facts)}))
  }

  /** The scopes the AFTER trigger selects, from the tables visible when it runs. */
  function TriggerScopes(cfg: Config, tables: Tables, tx: Tx): set<Scope>
    requires tx.phase.GrantStatement? || tx.phase.AccountStatement?
  {
    Joined(
      match tx.phase
        case GrantStatement(Insert, _, _, _, newRows) => GrantScopes(newRows)
        case GrantStatement(Delete, _, _, oldRows, _) => GrantScopes(oldRows)
        case GrantStatement(Update, _, _, oldRows, newRows) => GrantScopes(Changed(oldRows, newRows))
        case AccountStatement(_, _, oldRows, newRows) =>
          AccountScopes(Merge(tables.grants, tx.grants), Changed(oldRows, newRows))
      ,
      cfg.parents)
  }

  function Fired(cfg: Config, tables: Tables, tx: Tx): Tx
    requires tx.phase.GrantStatement? || tx.phase.AccountStatement?
  {
    tx.(phase := Touching(TriggerScopes(cfg, tables, tx)))
  }

  function Upserted(tables: Tables, tx: Tx, s: Scope): Tx
    requires tx.phase.Touching?
  {
    tx.(revisions := tx.revisions[s := SeeRevision(tables, tx, s) + 1], phase := Touching(tx.phase.todo - {s}))
  }

  ghost predicate Enabled(cfg: Config, d: Db, a: Action) {
    if a.Begin? then
      a.t !in d.txs
    else
      a.t in d.txs &&
      var phase := d.txs[a.t].phase;
      match a {
        case Begin(_) => false
        case TakeLock(t, lock) => LockFree(d, t, lock)
        case BeginGrants(_, _) => phase.Idle?
        case WriteGrant(t, from, into) => CanWriteGrant(cfg, d, t, from, into)
        case BeginAccounts(_) => phase.Idle?
        case WriteAccount(t, account, row) => CanWriteAccount(cfg, d, t, account, row)
        case FireTrigger(_) => phase.GrantStatement? || phase.AccountStatement?
        case Upsert(t, s) => phase.Touching? && s in phase.todo && RevisionFree(d, t, s)
        case FinishStatement(_) => phase == Touching({})
        case Commit(_) => phase.Idle?
        case Abort(_) => true
      }
  }

  function Committed(tables: Tables, tx: Tx): Tables {
    Tables(Merge(tables.grants, tx.grants), tables.accounts + tx.accounts, tables.revisions + tx.revisions)
  }

  /** The transaction after one of its own actions other than beginning and ending. */
  function Stepped(cfg: Config, tables: Tables, tx: Tx, a: Action): Tx {
    match a
    case TakeLock(_, lock) => tx.(locks := tx.locks + {lock})
    case BeginGrants(_, kind) => tx.(phase := GrantStatement(kind, tx.grants, {}, {}, {}))
    case WriteGrant(_, from, into) => if tx.phase.GrantStatement? then WrittenGrant(tables, tx, from, into) else tx
    case BeginAccounts(_) => tx.(phase := AccountStatement(tx.accounts, {}, {}, {}))
    case WriteAccount(_, account, row) =>
      if tx.phase.AccountStatement? && account in tables.accounts then WrittenAccount(tables, tx, account, row) else tx
    case FireTrigger(_) => if tx.phase.GrantStatement? || tx.phase.AccountStatement? then Fired(cfg, tables, tx) else tx
    case Upsert(_, s) => if tx.phase.Touching? then Upserted(tables, tx, s) else tx
    case FinishStatement(_) => tx.(phase := Idle)
    case _ => tx
  }

  function Next(cfg: Config, d: Db, a: Action): Db {
    if a.Begin? then
      d.(txs := d.txs[a.t := Tx(map[], map[], map[], {}, Idle)])
    else if a.t !in d.txs then
      d
    else if a.Commit? then
      Db(Committed(d.tables, d.txs[a.t]), Without(d.txs, a.t))
    else if a.Abort? then
      d.(txs := Without(d.txs, a.t))
    else
      d.(txs := d.txs[a.t := Stepped(cfg, d.tables, d.txs[a.t], a)])
  }

  ghost predicate Initial(cfg: Config, d: Db) {
    d.txs == map[] && Referenced(d.tables.grants, d.tables.accounts, cfg.parents)
  }

  /** `run` is a history of the system: a first state and every state after an enabled action. */
  ghost predicate IsRun(cfg: Config, run: seq<Db>, actions: seq<Action>) {
    && |run| == |actions| + 1
    && Initial(cfg, run[0])
    && forall i :: 0 <= i < |actions| ==> Enabled(cfg, run[i], actions[i]) && run[i + 1] == Next(cfg, run[i], actions[i])
  }

  // ---- the invariant --------------------------------------------------------------------------

  function Facts(row: Option<GrantRow>): Option<GrantFacts> {
    if row.Some? then Some(row.value.facts) else None
  }

  /** Scopes whose revision this transaction has raised or is about to raise. */
  function Covered(tx: Tx): set<Scope> {
    tx.revisions.Keys + (if tx.phase.Touching? then tx.phase.todo else {})
  }

  /** The writes of completed statements, whose triggers have fired. */
  function SettledGrants(tx: Tx): map<GrantKey, Option<GrantRow>> {
    if tx.phase.GrantStatement? then tx.phase.grantsBefore else tx.grants
  }

  function SettledAccounts(tx: Tx): Accounts {
    if tx.phase.AccountStatement? then tx.phase.accountsBefore else tx.accounts
  }

  ghost predicate GrantsCovered(tables: Tables, writes: map<GrantKey, Option<GrantRow>>, covered: set<Scope>) {
    forall k :: k in writes && Facts(writes[k]) != Facts(Get(tables.grants, k)) ==> ScopeOf(k) in covered
  }

  ghost predicate AccountsCovered(tables: Tables, writes: Accounts, covered: set<Scope>) {
    forall k :: k in tables.grants && Altered(tables.accounts, writes, AccountOf(k)) ==> ScopeOf(k) in covered
  }

  /** The overlay gives this account other facts than the committed table. */
  predicate Altered(accounts: Accounts, writes: Accounts, a: AccountKey) {
    a in writes && a in accounts && writes[a].facts != accounts[a].facts
  }

  /** The account as it was when the statement began. */
  function Earlier(tables: Tables, before: Accounts, a: AccountKey): Option<AccountRow> {
    if a in before then Some(before[a]) else Get(tables.accounts, a)
  }

  /** The transition tables of a grant statement say what it did to each row since it began. */
  ghost predicate GrantBook(tables: Tables, tx: Tx)
    requires tx.phase.GrantStatement?
  {
    var p := tx.phase;
    && p.grantsBefore.Keys + p.grantKeys == tx.grants.Keys
    && (forall k :: k in tx.grants && k !in p.grantKeys ==> k in p.grantsBefore && tx.grants[k] == p.grantsBefore[k])
    && (forall f :: f in p.oldGrants <==>
          f.key in p.grantKeys && Facts(See(tables.grants, p.grantsBefore, f.key)) == Some(f.facts))
    && (forall f :: f in p.newGrants <==> f.key in p.grantKeys && Facts(tx.grants[f.key]) == Some(f.facts))
    && (p.kind.Insert? ==> p.oldGrants == {})
    && (p.kind.Delete? ==> p.newGrants == {})
  }

  ghost predicate AccountBook(tables: Tables, tx: Tx)
    requires tx.phase.AccountStatement?
  {
    var p := tx.phase;
    && p.accountsBefore.Keys + p.accountKeys == tx.accounts.Keys <= tables.accounts.Keys
    && (forall a :: a in tx.accounts && a !in p.accountKeys ==> a in p.accountsBefore && tx.accounts[a] == p.accountsBefore[a])
    && (forall f :: f in p.oldAccounts <==>
          f.key in p.accountKeys && Earlier(tables, p.accountsBefore, f.key).value.facts == f.facts)
    && (forall f :: f in p.newAccounts <==> f.key in p.accountKeys && tx.accounts[f.key].facts == f.facts)
  }

  /** The advisory locks that the BEFORE triggers must have left with the transaction. */
  ghost predicate Locked(cfg: Config, tables: Tables, tx: Tx) {
    && (forall k :: k in tx.grants && k !in tables.grants && tx.grants[k].Some? ==> cfg.lockOf(AccountOf(k)) in tx.locks)
    && (forall a :: Altered(tables.accounts, tx.accounts, a) ==> cfg.lockOf(a) in tx.locks)
    && (forall a :: Altered(tables.accounts, SettledAccounts(tx), a) ==> cfg.lockOf(a) in tx.locks)
  }

  ghost predicate RowsReferenced(cfg: Config, tables: Tables, writes: map<GrantKey, Option<GrantRow>>) {
    forall k :: k in writes && writes[k].Some? ==> cfg.parents.Has(ScopeOf(k)) && AccountOf(k) in tables.accounts
  }

  ghost predicate TxInv(cfg: Config, tables: Tables, tx: Tx) {
    && tx.accounts.Keys <= tables.accounts.Keys
    && (forall s :: s in tx.revisions ==> tx.revisions[s] > Revision(tables.revisions, s))
    && RowsReferenced(cfg, tables, tx.grants) && RowsReferenced(cfg, tables, SettledGrants(tx))
    && Locked(cfg, tables, tx)
    && GrantsCovered(tables, SettledGrants(tx), Covered(tx))
    && AccountsCovered(tables, SettledAccounts(tx), Covered(tx))
    && (tx.phase.GrantStatement? ==> GrantBook(tables, tx))
    && (tx.phase.AccountStatement? ==> AccountBook(tables, tx))
  }

  /** Two open transactions never hold the same row or advisory lock. */
  ghost predicate Apart(x: Tx, y: Tx) {
    x.grants.Keys !! y.grants.Keys && x.accounts.Keys !! y.accounts.Keys &&
    x.revisions.Keys !! y.revisions.Keys && x.locks !! y.locks
  }

  ghost predicate Inv(cfg: Config, d: Db) {
    && Referenced(d.tables.grants, d.tables.accounts, cfg.parents)
    && (forall t :: t in d.txs ==> TxInv(cfg, d.tables, d.txs[t]))
    && (forall t, u :: t in d.txs && u in d.txs && t != u ==> Apart(d.txs[t], d.txs[u]))
  }

  // ---- every action keeps the invariant -------------------------------------------------------

  lemma RemovedBook(tables: Tables, tx: Tx, k: GrantKey)
    requires tx.phase.GrantStatement? && !tx.phase.kind.Insert? && GrantBook(tables, tx)
    requires SeeGrant(tables, tx, k).Some? && !Rewritten(tx.phase, k)
    ensures GrantBook(tables, Removed(tables, tx, k))
  {
  }

  lemma StoredBook(tables: Tables, tx: Tx, w: GrantWrite)
    requires tx.phase.GrantStatement? && !tx.phase.kind.Delete? && GrantBook(tables, tx)
    requires SeeGrant(tables, tx, w.key).None?
    ensures GrantBook(tables, Stored(tx, w))
  {
  }

  lemma RemovedKeeps(cfg: Config, tables: Tables, tx: Tx, k: GrantKey)
    requires TxInv(cfg, tables, tx) && tx.phase.GrantStatement? && !tx.phase.kind.Insert?
    requires SeeGrant(tables, tx, k).Some? && !Rewritten(tx.phase, k)
    ensures TxInv(cfg, tables, Removed(tables, tx, k))
  {
    RemovedBook(tables, tx, k);
  }

  lemma StoredKeeps(cfg: Config, tables: Tables, tx: Tx, w: GrantWrite)
    requires TxInv(cfg, tables, tx) && tx.phase.GrantStatement? && !tx.phase.kind.Delete?
    requires SeeGrant(tables, tx, w.key).None?
    requires cfg.parents.Has(ScopeOf(w.key)) && AccountOf(w.key) in tables.accounts
    requires w.key in tables.grants || cfg.lockOf(AccountOf(w.key)) in tx.locks
    ensures TxInv(cfg, tables, Stored(tx, w))
  {
    StoredBook(tables, tx, w);
  }

  lemma WriteGrantKeeps(cfg: Config, d: Db, a: Action)
    requires Inv(cfg, d) && a.WriteGrant? && Enabled(cfg, d, a)
    ensures TxInv(cfg, d.tables, WrittenGrant(d.tables, d.txs[a.t], a.from, a.into))
  {
    var tx := d.txs[a.t];
    var removed := tx;
    if a.from.Some? {
      RemovedKeeps(cfg, d.tables, tx, a.from.value);
      removed := Removed(d.tables, tx, a.from.value);
    }
    if a.into.Some? {
      if a.from == Some(a.into.value.key) && a.into.value.key !in d.tables.grants {
        assert a.into.value.key in tx.grants;
      }
      StoredKeeps(cfg, d.tables, removed, a.into.value);
    }
  }

  lemma WriteAccountKeeps(cfg: Config, d: Db, a: Action)
    requires Inv(cfg, d) && a.WriteAccount? && Enabled(cfg, d, a)
    ensures TxInv(cfg, d.tables, WrittenAccount(d.tables, d.txs[a.t], a.account, a.row))
  {
    var tx := d.txs[a.t];
    var after := WrittenAccount(d.tables, tx, a.account, a.row);
    WriteAccountBook(d.tables, tx, a.account, a.row);
    assert forall b :: Altered(d.tables.accounts, after.accounts, b) ==>
             Altered(d.tables.accounts, tx.accounts, b) || b == a.account;
  }

  lemma WriteAccountBook(tables: Tables, tx: Tx, a: AccountKey, row: AccountRow)
    requires tx.phase.AccountStatement? && AccountBook(tables, tx)
    requires a in tables.accounts && a !in tx.phase.accountKeys
    ensures AccountBook(tables, WrittenAccount(tables, tx, a, row))
  {
  }

  /** Firing a grant trigger covers every row that the statement left different. */
  lemma FireGrantsKeeps(cfg: Config, tables: Tables, tx: Tx)
    requires TxInv(cfg, tables, tx) && tx.phase.GrantStatement? && Referenced(tables.grants, tables.accounts, cfg.parents)
    ensures TxInv(cfg, tables, Fired(cfg, tables, tx))
  {
    var after := Fired(cfg, tables, tx);
    forall k | k in tx.grants && Facts(tx.grants[k]) != Facts(Get(tables.grants, k))
      ensures ScopeOf(k) in Covered(after)
    {
      FireCoversRow(cfg, tables, tx, k);
    }
  }

  lemma FireCoversRow(cfg: Config, tables: Tables, tx: Tx, k: GrantKey)
    requires TxInv(cfg, tables, tx) && tx.phase.GrantStatement? && Referenced(tables.grants, tables.accounts, cfg.parents)
    requires k in tx.grants && Facts(tx.grants[k]) != Facts(Get(tables.grants, k))
    ensures ScopeOf(k) in tx.revisions.Keys + TriggerScopes(cfg, tables, tx)
  {
    var p := tx.phase;
    var was := Facts(See(tables.grants, p.grantsBefore, k));
    var now := Facts(tx.grants[k]);
    if was == now {
      assert k in p.grantsBefore;
    } else {
      assert k in p.grantKeys;
      var f := GrantTuple(k, if now.Some? then now.value else was.value);
      assert f in Changed(p.oldGrants, p.newGrants);
      assert ScopeOf(f.key) in GrantScopes(Changed(p.oldGrants, p.newGrants));
      assert ScopeOf(k) in GrantScopes(p.newGrants) || ScopeOf(k) in GrantScopes(p.oldGrants);
      assert cfg.parents.Has(ScopeOf(k));
    }
  }

  /** Firing the account trigger covers every committed grant of every account it changed. */
  lemma FireAccountsKeeps(cfg: Config, tables: Tables, tx: Tx)
    requires TxInv(cfg, tables, tx) && tx.phase.AccountStatement? && Referenced(tables.grants, tables.accounts, cfg.parents)
    ensures TxInv(cfg, tables, Fired(cfg, tables, tx))
  {
    var after := Fired(cfg, tables, tx);
    forall k | k in tables.grants && Altered(tables.accounts, tx.accounts, AccountOf(k))
      ensures ScopeOf(k) in Covered(after)
    {
      FireCoversGrant(cfg, tables, tx, k);
    }
    assert GrantsCovered(tables, tx.grants, Covered(after));
  }

  lemma FireCoversGrant(cfg: Config, tables: Tables, tx: Tx, k: GrantKey)
    requires TxInv(cfg, tables, tx) && tx.phase.AccountStatement? && Referenced(tables.grants, tables.accounts, cfg.parents)
    requires k in tables.grants && Altered(tables.accounts, tx.accounts, AccountOf(k))
    ensures ScopeOf(k) in tx.revisions.Keys + TriggerScopes(cfg, tables, tx)
  {
    var a, p := AccountOf(k), tx.phase;
    var was := Earlier(tables, p.accountsBefore, a).value.facts;
    if was == tx.accounts[a].facts {
      assert Altered(tables.accounts, p.accountsBefore, a);
    } else {
      var f := AccountTuple(a, tx.accounts[a].facts);
      assert f in Changed(p.oldAccounts, p.newAccounts);
      var seen := Merge(tables.grants, tx.grants);
      assert Get(seen, k) == See(tables.grants, tx.grants, k);
      if k in seen {
        assert ScopeOf(k) in AccountScopes(seen, Changed(p.oldAccounts, p.newAccounts));
      } else {
        assert k in tx.grants && tx.grants[k].None?;
      }
    }
  }

  lemma UpsertKeeps(cfg: Config, tables: Tables, tx: Tx, s: Scope)
    requires TxInv(cfg, tables, tx) && tx.phase.Touching? && s in tx.phase.todo
    ensures TxInv(cfg, tables, Upserted(tables, tx, s))
  {
    var after := Upserted(tables, tx, s);
    assert Covered(after) == Covered(tx);
  }

  /** Beginning or finishing a statement and taking an advisory lock. */
  lemma PhaseKeeps(cfg: Config, tables: Tables, tx: Tx, a: Action)
    requires TxInv(cfg, tables, tx)
    requires a.TakeLock? || ((a.BeginGrants? || a.BeginAccounts?) && tx.phase.Idle?) ||
             (a.FinishStatement? && tx.phase == Touching({}))
    ensures TxInv(cfg, tables, Stepped(cfg, tables, tx, a))
  {
    var after := Stepped(cfg, tables, tx, a);
    assert Covered(after) == Covered(tx);
    assert SettledGrants(after) == SettledGrants(tx) && SettledAccounts(after) == SettledAccounts(tx);
  }

  lemma StepKeepsTx(cfg: Config, d: Db, a: Action)
    requires Inv(cfg, d) && Enabled(cfg, d, a) && !a.Begin? && !a.Commit? && !a.Abort?
    ensures TxInv(cfg, d.tables, Stepped(cfg, d.tables, d.txs[a.t], a))
  {
    var tx := d.txs[a.t];
    match a {
      case WriteGrant(_, _, _) => WriteGrantKeeps(cfg, d, a);
      case WriteAccount(_, _, _) => WriteAccountKeeps(cfg, d, a);
      case FireTrigger(t) =>
        if tx.phase.GrantStatement? { FireGrantsKeeps(cfg, d.tables, tx); } else { FireAccountsKeeps(cfg, d.tables, tx); }
      case Upsert(_, s) => UpsertKeeps(cfg, d.tables, tx, s);
      case _ => PhaseKeeps(cfg, d.tables, tx, a);
    }
  }

  /** What an action newly locks was free. */
  lemma StepKeepsApart(cfg: Config, d: Db, a: Action, u: TxId)
    requires Enabled(cfg, d, a) && !a.Begin? && !a.Commit? && !a.Abort?
    requires u in d.txs && u != a.t && Apart(d.txs[a.t], d.txs[u])
    ensures Apart(Stepped(cfg, d.tables, d.txs[a.t], a), d.txs[u])
  {
    var tx, other := d.txs[a.t], d.txs[u];
    var after := Stepped(cfg, d.tables, tx, a);
    match a {
      case WriteGrant(_, from, into) =>
        assert from.Some? ==> from.value !in other.grants;
        assert into.Some? ==> into.value.key !in other.grants;
        assert after.grants.Keys <= tx.grants.Keys + (if from.Some? then {from.value} else {}) +
                                    (if into.Some? then {into.value.key} else {});
      case WriteAccount(_, account, _) =>
        assert account !in other.accounts;
      case Upsert(_, s) =>
        assert s !in other.revisions;
      case TakeLock(_, lock) =>
        assert lock !in other.locks;
      case _ =>
    }
  }

  /** Another transaction's commit cannot add a grant to an account that this one has altered. */
  lemma CommitKeepsAccounts(cfg: Config, tables: Tables, tx: Tx, done: Tx)
    requires TxInv(cfg, tables, tx) && TxInv(cfg, tables, done) && Apart(tx, done)
    ensures AccountsCovered(Committed(tables, done), SettledAccounts(tx), Covered(tx))
  {
    var after := Committed(tables, done);
    forall k | k in after.grants && Altered(after.accounts, SettledAccounts(tx), AccountOf(k))
      ensures ScopeOf(k) in Covered(tx)
    {
      SettledIsWritten(cfg, tables, tx, AccountOf(k));
      assert Get(after.grants, k) == See(tables.grants, done.grants, k);
      assert Altered(tables.accounts, SettledAccounts(tx), AccountOf(k));
      assert k !in tables.grants ==> cfg.lockOf(AccountOf(k)) in done.locks;
    }
  }

  /** An altered account was locked when it was altered, and the transaction still holds the lock. */
  lemma SettledIsWritten(cfg: Config, tables: Tables, tx: Tx, a: AccountKey)
    requires TxInv(cfg, tables, tx)
    ensures a in SettledAccounts(tx) ==> a in tx.accounts
    ensures Altered(tables.accounts, SettledAccounts(tx), a) ==> cfg.lockOf(a) in tx.locks
  {
  }

  /** Rows that a transaction has written do not change under it when another one commits. */
  lemma CommitKeepsOwn(tables: Tables, tx: Tx, done: Tx)
    requires Apart(tx, done)
    ensures forall k :: k in tx.grants ==> Get(Committed(tables, done).grants, k) == Get(tables.grants, k)
    ensures forall a :: a in tx.accounts ==> Get(Committed(tables, done).accounts, a) == Get(tables.accounts, a)
    ensures forall s :: s in tx.revisions ==>
              Revision(Committed(tables, done).revisions, s) == Revision(tables.revisions, s)
  {
  }

  lemma CommitKeepsBooks(tables: Tables, after: Tables, tx: Tx)
    requires forall k :: k in tx.grants ==> Get(after.grants, k) == Get(tables.grants, k)
    requires forall a :: a in tx.accounts ==> Get(after.accounts, a) == Get(tables.accounts, a)
    requires tx.accounts.Keys <= after.accounts.Keys
    ensures tx.phase.GrantStatement? && GrantBook(tables, tx) ==> GrantBook(after, tx)
    ensures tx.phase.AccountStatement? && AccountBook(tables, tx) ==> AccountBook(after, tx)
  {
  }

  lemma CommitKeepsOther(cfg: Config, tables: Tables, tx: Tx, done: Tx)
    requires TxInv(cfg, tables, tx) && TxInv(cfg, tables, done) && Apart(tx, done)
    ensures TxInv(cfg, Committed(tables, done), tx)
  {
    var after := Committed(tables, done);
    CommitKeepsOwn(tables, tx, done);
    CommitKeepsBooks(tables, after, tx);
    CommitKeepsAccounts(cfg, tables, tx, done);
    CommitKeepsLocks(cfg, tables, after, tx);
    CommitKeepsGrants(tables, after, tx);
  }

  lemma CommitKeepsLocks(cfg: Config, tables: Tables, after: Tables, tx: Tx)
    requires Locked(cfg, tables, tx)
    requires forall k :: k in tx.grants ==> Get(after.grants, k) == Get(tables.grants, k)
    requires forall a :: a in tx.accounts ==> Get(after.accounts, a) == Get(tables.accounts, a)
    requires SettledAccounts(tx).Keys <= tx.accounts.Keys
    ensures Locked(cfg, after, tx)
  {
  }

  lemma CommitKeepsGrants(tables: Tables, after: Tables, tx: Tx)
    requires GrantsCovered(tables, SettledGrants(tx), Covered(tx))
    requires SettledGrants(tx).Keys <= tx.grants.Keys
    requires forall k :: k in tx.grants ==> Get(after.grants, k) == Get(tables.grants, k)
    ensures GrantsCovered(after, SettledGrants(tx), Covered(tx))
  {
  }

  lemma CommitKeeps(cfg: Config, d: Db, t: TxId)
    requires Inv(cfg, d) && Enabled(cfg, d, Commit(t))
    ensures Inv(cfg, Next(cfg, d, Commit(t)))
  {
    var after := Next(cfg, d, Commit(t));
    forall u | u in after.txs
      ensures TxInv(cfg, after.tables, after.txs[u])
    {
      CommitKeepsOther(cfg, d.tables, d.txs[u], d.txs[t]);
    }
    assert forall k :: Get(after.tables.grants, k) == SeeGrant(d.tables, d.txs[t], k);
  }

  lemma BeginKeeps(cfg: Config, d: Db, t: TxId)
    requires Inv(cfg, d) && t !in d.txs
    ensures Inv(cfg, Next(cfg, d, Begin(t)))
  {
    ReplaceKeeps(cfg, d, t, Tx(map[], map[], map[], {}, Idle));
  }

  lemma StepKeeps(cfg: Config, d: Db, a: Action)
    requires Inv(cfg, d) && Enabled(cfg, d, a) && !a.Begin? && !a.Commit? && !a.Abort?
    ensures Inv(cfg, Next(cfg, d, a))
  {
    var stepped := Stepped(cfg, d.tables, d.txs[a.t], a);
    StepKeepsTx(cfg, d, a);
    forall u | u in d.txs && u != a.t
      ensures Apart(stepped, d.txs[u])
    {
      StepKeepsApart(cfg, d, a, u);
    }
    ReplaceKeeps(cfg, d, a.t, stepped);
  }

  lemma NextKeeps(cfg: Config, d: Db, a: Action)
    requires Inv(cfg, d) && Enabled(cfg, d, a)
    ensures Inv(cfg, Next(cfg, d, a))
  {
    match a {
      case Begin(t) => BeginKeeps(cfg, d, t);
      case Commit(t) => CommitKeeps(cfg, d, t);
      case Abort(_) =>
      case _ => StepKeeps(cfg, d, a);
    }
  }

  lemma ReplaceKeeps(cfg: Config, d: Db, t: TxId, tx: Tx)
    requires Inv(cfg, d) && TxInv(cfg, d.tables, tx)
    requires forall u :: u in d.txs && u != t ==> Apart(tx, d.txs[u])
    ensures Inv(cfg, d.(txs := d.txs[t := tx]))
  {
  }

  /**
   Under concurrency a grant trigger still selects exactly the scopes whose fenced view, as the
   transaction sees it, the statement changed: a net no-op or a capability-only write selects none.
   */
  lemma GrantTriggerExact(cfg: Config, tables: Tables, tx: Tx, s: Scope)
    requires TxInv(cfg, tables, tx) && tx.phase.GrantStatement? && Referenced(tables.grants, tables.accounts, cfg.parents)
    ensures s in TriggerScopes(cfg, tables, tx) <==>
            View(Merge(tables.grants, tx.phase.grantsBefore), tables.accounts, s) !=
            View(Merge(tables.grants, tx.grants), tables.accounts, s)
  {
    var p := tx.phase;
    var before, now := Merge(tables.grants, p.grantsBefore), Merge(tables.grants, tx.grants);
    var changed := Changed(p.oldGrants, p.newGrants);
    forall f
      ensures f in changed <==> Holds(before, f) != Holds(now, f)
    {
      TupleChanged(tables, tx, f);
    }
    GrantChangeExact(before, now, tables.accounts, changed, s);
    assert GrantScopes(changed) == TriggerScopes(cfg, tables, tx) by {
      forall f | f in changed
        ensures cfg.parents.Has(ScopeOf(f.key))
      {
        TupleReferenced(cfg, tables, tx, f);
      }
      assert p.kind.Insert? ==> changed == p.newGrants;
      assert p.kind.Delete? ==> changed == p.oldGrants;
    }
  }

  lemma TupleChanged(tables: Tables, tx: Tx, f: GrantTuple)
    requires tx.phase.GrantStatement? && GrantBook(tables, tx)
    ensures f in Changed(tx.phase.oldGrants, tx.phase.newGrants) <==>
            Holds(Merge(tables.grants, tx.phase.grantsBefore), f) != Holds(Merge(tables.grants, tx.grants), f)
  {
  }

  lemma TupleReferenced(cfg: Config, tables: Tables, tx: Tx, f: GrantTuple)
    requires TxInv(cfg, tables, tx) && tx.phase.GrantStatement? && Referenced(tables.grants, tables.accounts, cfg.parents)
    requires f in Changed(tx.phase.oldGrants, tx.phase.newGrants)
    ensures cfg.parents.Has(ScopeOf(f.key))
  {
  }

  /** What the account statement has done so far, as one update. */
  function AccountUpdate(tx: Tx): Accounts
    requires tx.phase.AccountStatement?
  {
    map a | a in tx.phase.accountKeys && a in tx.accounts :: tx.accounts[a]
  }

  lemma BookIsUpdate(tables: Tables, tx: Tx)
    requires tx.phase.AccountStatement? && AccountBook(tables, tx)
    ensures var before, update := tables.accounts + tx.phase.accountsBefore, AccountUpdate(tx);
            && update.Keys <= before.Keys && before + update == tables.accounts + tx.accounts
            && OldAccounts(before, update) == tx.phase.oldAccounts && NewAccounts(update) == tx.phase.newAccounts
  {
    var p, before, update := tx.phase, tables.accounts + tx.phase.accountsBefore, AccountUpdate(tx);
    forall a
      ensures Get(before + update, a) == Get(tables.accounts + tx.accounts, a)
    {
      if a in tx.accounts && a !in p.accountKeys { assert tx.accounts[a] == p.accountsBefore[a]; }
    }
    assert forall a :: a in before + update <==> Get(before + update, a).Some?;
    assert forall a :: a in tables.accounts + tx.accounts <==> Get(tables.accounts + tx.accounts, a).Some?;
    forall a | a in p.accountKeys
      ensures a in update && update[a] == tx.accounts[a] && before[a] == Earlier(tables, p.accountsBefore, a).value
    {
    }
    assert forall f :: f in OldAccounts(before, update) <==> f in p.oldAccounts;
    assert forall f :: f in NewAccounts(update) <==> f in p.newAccounts;
  }

  lemma SeenReferenced(cfg: Config, tables: Tables, tx: Tx, k: GrantKey)
    requires TxInv(cfg, tables, tx) && Referenced(tables.grants, tables.accounts, cfg.parents)
    requires k in Merge(tables.grants, tx.grants)
    ensures cfg.parents.Has(ScopeOf(k)) && AccountOf(k) in tables.accounts
  {
  }

  /**
   The account trigger, too, selects exactly the scopes whose fenced view, over the grants that the transaction
   sees when the trigger fires, the statement changed: an update of the display name alone selects none.
   */
  lemma AccountTriggerExact(cfg: Config, tables: Tables, tx: Tx, s: Scope)
    requires TxInv(cfg, tables, tx) && tx.phase.AccountStatement? && Referenced(tables.grants, tables.accounts, cfg.parents)
    ensures var grants := Merge(tables.grants, tx.grants);
            s in TriggerScopes(cfg, tables, tx) <==>
            View(grants, tables.accounts + tx.phase.accountsBefore, s) != View(grants, tables.accounts + tx.accounts, s)
  {
    hide TxInv, Referenced, View, Merge, AccountBook;
    var grants, before := Merge(tables.grants, tx.grants), tables.accounts + tx.phase.accountsBefore;
    BookOf(cfg, tables, tx);
    BookIsUpdate(tables, tx);
    forall k | k in grants
      ensures cfg.parents.Has(ScopeOf(k)) && AccountOf(k) in before
    {
      SeenReferenced(cfg, tables, tx, k);
    }
    AccountUpdateExact(grants, before, AccountUpdate(tx), s);
  }

  lemma BookOf(cfg: Config, tables: Tables, tx: Tx)
    requires TxInv(cfg, tables, tx) && tx.phase.AccountStatement?
    ensures AccountBook(tables, tx)
  {
  }

  // ---- safety ---------------------------------------------------------------------------------

  /** The view depends on nothing else than the facts of the scope's grants and of their accounts. */
  ghost predicate SameFacts(tables: Tables, after: Tables, k: GrantKey) {
    && Facts(Get(after.grants, k)) == Facts(Get(tables.grants, k))
    && (k in tables.grants ==>
          && Get(after.accounts, AccountOf(k)).Some? && Get(tables.accounts, AccountOf(k)).Some?
          && after.accounts[AccountOf(k)].facts == tables.accounts[AccountOf(k)].facts)
  }

  lemma SameFactsSameView(tables: Tables, after: Tables, s: Scope)
    requires forall k :: ScopeOf(k) == s ==> SameFacts(tables, after, k)
    ensures View(after.grants, after.accounts, s) == View(tables.grants, tables.accounts, s)
  {
    var v, w := View(tables.grants, tables.accounts, s), View(after.grants, after.accounts, s);
    assert forall k :: ScopeOf(k) == s ==> (k in after.grants <==> k in tables.grants);
    assert v.grants == w.grants;
    assert v.accounts == w.accounts;
  }

  /** Outside of the scopes that it has raised, a transaction leaves the fenced view as it is. */
  lemma UntouchedSame(cfg: Config, tables: Tables, tx: Tx, s: Scope)
    requires TxInv(cfg, tables, tx) && tx.phase.Idle? && Referenced(tables.grants, tables.accounts, cfg.parents)
    requires s !in tx.revisions
    ensures View(Committed(tables, tx).grants, Committed(tables, tx).accounts, s) ==
            View(tables.grants, tables.accounts, s)
  {
    hide View;
    var after := Committed(tables, tx);
    forall k | ScopeOf(k) == s
      ensures SameFacts(tables, after, k)
    {
      assert Get(after.grants, k) == See(tables.grants, tx.grants, k);
      assert k in tables.grants ==> !Altered(tables.accounts, tx.accounts, AccountOf(k));
    }
    SameFactsSameView(tables, after, s);
  }

  /** A commit that changes a scope's fenced view raises the scope's revision. */
  lemma CommitFences(cfg: Config, d: Db, t: TxId, s: Scope)
    requires Inv(cfg, d) && Enabled(cfg, d, Commit(t))
    ensures var after := Next(cfg, d, Commit(t));
            || View(after.tables.grants, after.tables.accounts, s) == View(d.tables.grants, d.tables.accounts, s)
            || Revision(after.tables.revisions, s) > Revision(d.tables.revisions, s)
  {
    if s !in d.txs[t].revisions {
      UntouchedSame(cfg, d.tables, d.txs[t], s);
    }
  }

  /** No action lowers a committed revision, and only a commit changes committed tables. */
  lemma NextFences(cfg: Config, d: Db, a: Action, s: Scope)
    requires Inv(cfg, d) && Enabled(cfg, d, a)
    ensures var after := Next(cfg, d, a);
            && Revision(after.tables.revisions, s) >= Revision(d.tables.revisions, s)
            && (Revision(after.tables.revisions, s) == Revision(d.tables.revisions, s) ==>
                View(after.tables.grants, after.tables.accounts, s) == View(d.tables.grants, d.tables.accounts, s))
  {
    if a.Commit? {
      CommitFences(cfg, d, a.t, s);
    }
  }

  lemma {:induction false} RunKeeps(cfg: Config, run: seq<Db>, actions: seq<Action>, i: nat)
    requires IsRun(cfg, run, actions) && i <= |actions|
    ensures Inv(cfg, run[i])
  {
    if i > 0 {
      RunKeeps(cfg, run, actions, i - 1);
      NextKeeps(cfg, run[i - 1], actions[i - 1]);
    }
  }

  /**
   Fence safety: in every interleaving, two committed states of a run with the same revision for a scope
   have the same fenced view of that scope.
   */
  lemma {:induction false} SameRevisionSameView(cfg: Config, run: seq<Db>, actions: seq<Action>, i: nat, j: nat, s: Scope)
    requires IsRun(cfg, run, actions) && i <= j <= |actions|
    ensures Revision(run[i].tables.revisions, s) <= Revision(run[j].tables.revisions, s)
    ensures Revision(run[i].tables.revisions, s) == Revision(run[j].tables.revisions, s) ==>
            View(run[i].tables.grants, run[i].tables.accounts, s) == View(run[j].tables.grants, run[j].tables.accounts, s)
    decreases j - i
  {
    hide View, Next, Enabled, Inv;
    if i < j {
      SameRevisionSameView(cfg, run, actions, i, j - 1, s);
      RunKeeps(cfg, run, actions, j - 1);
      NextFences(cfg, run[j - 1], actions[j - 1], s);
    }
  }
}
