/**
 The directory tables of revision 0007 and what one statement does to them.

 A scope is one (tenant, business centre, connection). Its fenced view is the set of grant facts in the
 scope together with the facts of the accounts that those grants name. Columns outside the compared
 tuples (capability publication, the account's display name) are carried by the rows but not by the view.
 */
module DirectoryTables {
  import opened Overlay

  type Uuid = nat

  datatype Scope = Scope(tenant: Uuid, bc: string, connection: Uuid)

  datatype GrantKey = GrantKey(tenant: Uuid, bc: string, connection: Uuid, advertiser: string)
  datatype GrantFacts = GrantFacts(inBc: bool, authorized: bool, active: bool, lastSeenRun: Option<Uuid>)
  datatype GrantRow = GrantRow(facts: GrantFacts, canUpload: bool, canBuild: bool, permissionState: string)

  datatype AccountKey = AccountKey(tenant: Uuid, advertiser: string)
  datatype AccountFacts = AccountFacts(currency: string, timezone: string, remoteStatus: string, ownershipConflict: bool)
  datatype AccountRow = AccountRow(facts: AccountFacts, name: string)

  type Grants = map<GrantKey, GrantRow>
  type Accounts = map<AccountKey, AccountRow>
  type Revisions = map<Scope, nat>

  /** The compared tuples: key columns and fact columns together. */
  datatype GrantTuple = GrantTuple(key: GrantKey, facts: GrantFacts)
  datatype AccountTuple = AccountTuple(key: AccountKey, facts: AccountFacts)

  datatype ScopeView = ScopeView(grants: set<GrantTuple>, accounts: set<AccountTuple>)

  function ScopeOf(k: GrantKey): Scope {
    Scope(k.tenant, k.bc, k.connection)
  }

  function AccountOf(k: GrantKey): AccountKey {
    AccountKey(k.tenant, k.advertiser)
  }

  function View(grants: Grants, accounts: Accounts, s: Scope): ScopeView {
    ScopeView(
      set k | k in grants && ScopeOf(k) == s :: GrantTuple(k, grants[k].facts),
      set k | k in grants && ScopeOf(k) == s && AccountOf(k) in accounts ::
        AccountTuple(AccountOf(k), accounts[AccountOf(k)].facts)
    )
  }

  /** A scope without a revision row counts as revision 0: its first UPSERT stores 1. */
  function Revision(revisions: Revisions, s: Scope): nat {
    if s in revisions then revisions[s] else 0
  }

  /** The rows of `tenant_bc` and `tiktok_connection` that the trigger joins with. */
  datatype Parents = Parents(bcs: set<(Uuid, string)>, connections: set<(Uuid, Uuid)>) {
    predicate Has(s: Scope) {
      (s.tenant, s.bc) in bcs && (s.tenant, s.connection) in connections
    }
  }

  /** (new EXCEPT old) UNION (old EXCEPT new). */
  function Changed<T>(oldRows: set<T>, newRows: set<T>): set<T> {
    (newRows - oldRows) + (oldRows - newRows)
  }

  function GrantScopes(rows: set<GrantTuple>): set<Scope> {
    set f | f in rows :: ScopeOf(f.key)
  }

  /** Scopes of every visible grant that names a changed account. */
  function AccountScopes(grants: Grants, changed: set<AccountTuple>): set<Scope> {
    set k, f | k in grants && f in changed && f.key == AccountOf(k) :: ScopeOf(k)
  }

  function Joined(scopes: set<Scope>, parents: Parents): set<Scope> {
    set s | s in scopes && parents.Has(s)
  }

  /** Every grant's parents and account exist: the foreign keys of `bc_account_access`. */
  ghost predicate Referenced(grants: Grants, accounts: Accounts, parents: Parents) {
    forall k :: k in grants ==> parents.Has(ScopeOf(k)) && AccountOf(k) in accounts
  }

  // ---- one UPDATE of grants -------------------------------------------------------------------

  /** An UPDATE statement: for each updated row, its old key and the complete new row. */
  datatype GrantWrite = GrantWrite(key: GrantKey, row: GrantRow)
  type GrantUpdate = map<GrantKey, GrantWrite>

  function OldGrants(grants: Grants, update: GrantUpdate): set<GrantTuple> {
    set k | k in update && k in grants :: GrantTuple(k, grants[k].facts)
  }

  function NewGrants(update: GrantUpdate): set<GrantTuple> {
    set k | k in update :: GrantTuple(update[k].key, update[k].row.facts)
  }

  /** The keys under which the updated rows in `keys` end. */
  function Targets(update: GrantUpdate, keys: set<GrantKey>): set<GrantKey> {
    set k | k in keys && k in update :: update[k].key
  }

  /** The statement keeps the primary key: updated rows exist and no two rows end under one key. */
  ghost predicate KeepsPrimaryKey(grants: Grants, update: GrantUpdate) {
    && update.Keys <= grants.Keys
    && Targets(update, update.Keys) !! grants.Keys - update.Keys
    && (forall j, k :: j in update && k in update && j != k ==> update[j].key != update[k].key)
  }

  ghost predicate IsUpdated(grants: Grants, update: GrantUpdate, after: Grants) {
    && (forall k :: k in grants && k !in update ==> k in after && after[k] == grants[k])
    && (forall k :: k in update ==> Get(after, update[k].key) == Some(update[k].row))
    && after.Keys == (grants.Keys - update.Keys) + Targets(update, update.Keys)
  }

  /** `moved` holds exactly the new rows of the updated keys in `done`. */
  ghost predicate AreMoved(update: GrantUpdate, done: set<GrantKey>, moved: Grants) {
    && moved.Keys == Targets(update, done)
    && (forall k :: k in done && k in update ==> moved[update[k].key] == update[k].row)
  }

  lemma MoveOne(grants: Grants, update: GrantUpdate, done: set<GrantKey>, moved: Grants, k: GrantKey)
    requires KeepsPrimaryKey(grants, update) && AreMoved(update, done, moved)
    requires done <= update.Keys && k in update && k !in done
    ensures AreMoved(update, done + {k}, moved[update[k].key := update[k].row])
  {
  }

  lemma MovedIsUpdated(grants: Grants, update: GrantUpdate, moved: Grants)
    requires KeepsPrimaryKey(grants, update) && AreMoved(update, update.Keys, moved)
    ensures IsUpdated(grants, update, grants - update.Keys + moved)
  {
  }

  predicate Holds(grants: Grants, f: GrantTuple) {
    f.key in grants && grants[f.key].facts == f.facts
  }

  /** The transition tables' difference is exactly the difference of the whole table. */
  lemma UpdateDifference(grants: Grants, update: GrantUpdate, after: Grants, f: GrantTuple)
    requires KeepsPrimaryKey(grants, update) && IsUpdated(grants, update, after)
    ensures f in Changed(OldGrants(grants, update), NewGrants(update)) <==> Holds(grants, f) != Holds(after, f)
  {
  }

  /**
   Exact change detection for grants: scopes named by the changed tuples are those whose fenced view
   changed, no more and no fewer, whatever other columns the statement wrote.
   */
  lemma GrantChangeExact(grants: Grants, after: Grants, accounts: Accounts, changed: set<GrantTuple>, s: Scope)
    requires forall f :: f in changed <==> Holds(grants, f) != Holds(after, f)
    ensures s in GrantScopes(changed) <==> View(grants, accounts, s) != View(after, accounts, s)
  {
    var v, w := View(grants, accounts, s), View(after, accounts, s);
    assert forall f :: f in v.grants <==> Holds(grants, f) && ScopeOf(f.key) == s;
    assert forall f :: f in w.grants <==> Holds(after, f) && ScopeOf(f.key) == s;
    if s in GrantScopes(changed) {
      var f :| f in changed && ScopeOf(f.key) == s;
      assert (f in v.grants) != (f in w.grants);
    } else {
      assert v.grants == w.grants;
      SameGrantsSameAccounts(grants, after, accounts, s);
    }
  }

  /** The account half of a view is a function of its grant half. */
  lemma SameGrantsSameAccounts(grants: Grants, after: Grants, accounts: Accounts, s: Scope)
    requires View(grants, accounts, s).grants == View(after, accounts, s).grants
    ensures View(grants, accounts, s) == View(after, accounts, s)
  {
    var v, w := View(grants, accounts, s), View(after, accounts, s);
    forall k | ScopeOf(k) == s
      ensures k in grants <==> k in after
    {
      if k in grants { assert GrantTuple(k, grants[k].facts) in v.grants; }
      if k in after { assert GrantTuple(k, after[k].facts) in w.grants; }
    }
    assert v.accounts == w.accounts;
  }

  // ---- one UPDATE of accounts -----------------------------------------------------------------

  function OldAccounts(accounts: Accounts, update: Accounts): set<AccountTuple> {
    set a | a in update && a in accounts :: AccountTuple(a, accounts[a].facts)
  }

  function NewAccounts(update: Accounts): set<AccountTuple> {
    set a | a in update :: AccountTuple(a, update[a].facts)
  }

  /** Exact change detection for account metadata. */
  lemma AccountUpdateExact(grants: Grants, accounts: Accounts, update: Accounts, s: Scope)
    requires update.Keys <= accounts.Keys
    requires forall k :: k in grants ==> AccountOf(k) in accounts
    ensures s in AccountScopes(grants, Changed(OldAccounts(accounts, update), NewAccounts(update))) <==>
            View(grants, accounts, s) != View(grants, accounts + update, s)
  {
    var after := accounts + update;
    var changed := Changed(OldAccounts(accounts, update), NewAccounts(update));
    var v, w := View(grants, accounts, s), View(grants, after, s);
    assert v.grants == w.grants;
    if s in AccountScopes(grants, changed) {
      var k, f :| k in grants && f in changed && f.key == AccountOf(k) && ScopeOf(k) == s;
      var a := f.key;
      assert accounts[a].facts != after[a].facts;
      assert AccountTuple(a, after[a].facts) in w.accounts;
      assert AccountTuple(a, after[a].facts) !in v.accounts;
    } else {
      forall k | k in grants && ScopeOf(k) == s
        ensures accounts[AccountOf(k)].facts == after[AccountOf(k)].facts
      {
        var a := AccountOf(k);
        assert a in update ==> (AccountTuple(a, update[a].facts) in changed <==> accounts[a].facts != update[a].facts);
      }
      assert v.accounts == w.accounts;
    }
  }

  // ---- the tables, written in place -----------------------------------------------------------

  /** The three tables with their statement triggers, outside of any concurrency. */
  class Directory {
    var grants: Grants
    var accounts: Accounts
    var revision: Revisions
    const parents: Parents

    ghost predicate Valid()
      reads this
    {
      Referenced(grants, accounts, parents)
    }

    /** This scope's revision rose by one if its fenced view changed and by zero otherwise. */
    twostate predicate Fenced(s: Scope)
      reads this
    {
      Revision(revision, s) == Revision(old(revision), s) +
        (if View(grants, accounts, s) != View(old(grants), old(accounts), s) then 1 else 0)
    }

    constructor (grants: Grants, accounts: Accounts, revision: Revisions, parents: Parents)
      requires Referenced(grants, accounts, parents)
      ensures Valid()
      ensures this.grants == grants && this.accounts == accounts && this.revision == revision
      ensures this.parents == parents
    {
      this.grants, this.accounts, this.revision, this.parents := grants, accounts, revision, parents;
    }

    /** The UPSERT that every trigger ends with, one touched scope at a time, in any order. */
    method Touch(scopes: set<Scope>)
      modifies this`revision
      ensures forall s :: Revision(revision, s) ==
                          Revision(old(revision), s) + (if s in scopes && parents.Has(s) then 1 else 0)
    {
      var todo := Joined(scopes, parents);
      while todo != {}
        invariant todo <= Joined(scopes, parents)
        invariant forall s :: Revision(revision, s) == Revision(old(revision), s) +
                    (if s in Joined(scopes, parents) && s !in todo then 1 else 0)
        decreases todo
      {
        var s :| s in todo;
        revision := revision[s := Revision(revision, s) + 1];
        todo := todo - {s};
      }
    }

    /** Takes the updated rows out and puts their new versions in, one by one. */
    method RewriteRows(update: GrantUpdate)
      requires KeepsPrimaryKey(grants, update)
      modifies this`grants
      ensures IsUpdated(old(grants), update, grants)
    {
      var moved: Grants := map[];
      var todo := update.Keys;
      while todo != {}
        invariant todo <= update.Keys && grants == old(grants)
        invariant AreMoved(update, update.Keys - todo, moved)
        decreases todo
      {
        var k :| k in todo;
        MoveOne(grants, update, update.Keys - todo, moved, k);
        assert update.Keys - todo + {k} == update.Keys - (todo - {k});
        moved, todo := moved[update[k].key := update[k].row], todo - {k};
      }
      MovedIsUpdated(grants, update, moved);
      grants := grants - update.Keys + moved;
    }

    method UpdateGrants(update: GrantUpdate)
      requires Valid() && KeepsPrimaryKey(grants, update)
      requires forall k :: k in update ==> parents.Has(ScopeOf(update[k].key)) && AccountOf(update[k].key) in accounts
      modifies this`grants, this`revision
      ensures Valid()
      ensures IsUpdated(old(grants), update, grants)
      ensures forall s :: Fenced(s)
    {
      var changed := Changed(OldGrants(grants, update), NewGrants(update));
      RewriteRows(update);
      Touch(GrantScopes(changed));
      forall f
        ensures f in changed <==> Holds(old(grants), f) != Holds(grants, f)
      {
        UpdateDifference(old(grants), update, grants, f);
      }
      ProveFenced(changed);
    }

    method InsertGrants(rows: Grants)
      requires Valid() && rows.Keys !! grants.Keys && Referenced(rows, accounts, parents)
      modifies this`grants, this`revision
      ensures Valid() && grants == old(grants) + rows
      ensures forall s :: Fenced(s)
    {
      var newRows := set k | k in rows :: GrantTuple(k, rows[k].facts);
      grants := grants + rows;
      Touch(GrantScopes(newRows));
      ProveFenced(newRows);
    }

    method DeleteGrants(keys: set<GrantKey>)
      requires Valid() && keys <= grants.Keys
      modifies this`grants, this`revision
      ensures Valid() && grants == old(grants) - keys
      ensures forall s :: Fenced(s)
    {
      var oldRows := set k | k in keys :: GrantTuple(k, grants[k].facts);
      grants := grants - keys;
      Touch(GrantScopes(oldRows));
      ProveFenced(oldRows);
    }

    twostate lemma ProveFenced(changed: set<GrantTuple>)
      requires old(Valid()) && Valid() && accounts == old(accounts)
      requires forall f :: f in changed <==> Holds(old(grants), f) != Holds(grants, f)
      requires forall s :: Revision(revision, s) == Revision(old(revision), s) +
                 (if s in GrantScopes(changed) && parents.Has(s) then 1 else 0)
      ensures forall s :: Fenced(s)
    {
      forall s
        ensures Fenced(s)
      {
        GrantChangeExact(old(grants), grants, accounts, changed, s);
        if s in GrantScopes(changed) {
          var f :| f in changed && ScopeOf(f.key) == s;
          assert parents.Has(ScopeOf(f.key));
        }
      }
    }

    method UpdateAccounts(update: Accounts)
      requires Valid() && update.Keys <= accounts.Keys
      modifies this`accounts, this`revision
      ensures Valid() && accounts == old(accounts) + update
      ensures forall s :: Fenced(s)
    {
      ghost var before := accounts;
      var changed := Changed(OldAccounts(accounts, update), NewAccounts(update));
      accounts := accounts + update;
      Touch(AccountScopes(grants, changed));
      forall s
        ensures Fenced(s)
      {
        AccountUpdateExact(grants, before, update, s);
      }
    }
  }
}
