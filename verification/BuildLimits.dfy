/** Where the triggers alone do not carry the execution graph: a digest on a preview that is still BUILDING. */
module BuildLimits {
  import opened Overlay
  import opened BuildTables
  import opened BuildHistory
  import opened BuildFreeze

  // ---- a digest on a preview that is still BUILDING -------------------------------------------

  /** The database accepts the actions one after the other. */
  ghost predicate Allowed(d: Db, actions: seq<Action>)
    decreases |actions|
  {
    actions == [] || (Enabled(d, actions[0]) && Allowed(Next(d, actions[0]), actions[1..]))
  }

  ghost function After(d: Db, actions: seq<Action>): Db
    decreases |actions|
  {
    if actions == [] then d else After(Next(d, actions[0]), actions[1..])
  }

  /** From here on the application keeps the discipline on digests; is the agreement certain? */
  ghost predicate AlwaysAgrees(d: Db) {
    forall actions :: Allowed(d, actions) && Disciplined(actions) ==> AllAgree(After(d, actions).rows)
  }

  lemma {:induction false} AgreementGoesOn(d: Db, actions: seq<Action>)
    requires Inv(d) && AgreeInv(d) && Allowed(d, actions) && Disciplined(actions)
    ensures AgreeInv(After(d, actions))
    decreases |actions|
  {
    hide Inv, AgreeInv, Enabled, Next, DigestSettles;
    if actions != [] {
      NextKeeps(d, actions[0]);
      NextAgrees(d, actions[0]);
      AgreementGoesOn(Next(d, actions[0]), actions[1..]);
    }
  }

  lemma {:induction false} AllowedNext(d: Db, actions: seq<Action>, a: Action)
    requires Allowed(d, actions) && Enabled(After(d, actions), a)
    ensures Allowed(d, actions + [a]) && After(d, actions + [a]) == Next(After(d, actions), a)
    decreases |actions|
  {
    hide Enabled, Next;
    if actions == [] {
      assert (actions + [a])[1..] == [];
    } else {
      assert (actions + [a])[1..] == actions[1..] + [a];
      AllowedNext(Next(d, actions[0]), actions[1..], a);
    }
  }

  /** One open transaction, which sees `seen`. */
  ghost predicate Alone(d: Db, seen: Rows, born: nat) {
    d.txs.Keys == {0} && Seen(d.rows, d.txs[0]) == seen && d.born == born
  }

  /** The triggers accept the write on that view. */
  ghost predicate Accepted(seen: Rows, a: Action, born: nat) {
    match a
    case Insert(t, k, row) =>
      t == 0 && Fits(k, row) && k !in seen && InsertTrigger(seen, k, row) && References(k, row) <= seen.Keys &&
      (row.StepRow? ==> row.born == born)
    case Update(t, k, row) => t == 0 && Fits(k, row) && k in seen && UpdateTrigger(seen, k, seen[k], row)
    case _ => false
  }

  lemma AloneWrites(d: Db, seen: Rows, a: Action, born: nat)
    requires Alone(d, seen, born) && Accepted(seen, a, born)
    ensures Enabled(d, a)
    ensures Alone(Next(d, a), seen[a.key := a.row], if a.Insert? && a.row.StepRow? then born + 1 else born)
  {
    hide InsertTrigger, UpdateTrigger, References;
    SeenWritten(d.rows, d.txs[0], a.key, Some(a.row));
  }

  /** Disciplined actions that lead from `d` to one transaction that sees `seen`. */
  ghost predicate Leads(d: Db, actions: seq<Action>, seen: Rows, born: nat) {
    Allowed(d, actions) && Disciplined(actions) && Alone(After(d, actions), seen, born)
  }

  lemma Write(d: Db, actions: seq<Action>, seen: Rows, born: nat, a: Action)
    requires Leads(d, actions, seen, born) && Accepted(seen, a, born) && DigestSettles(a.row)
    ensures Leads(d, actions + [a], seen[a.key := a.row], if a.Insert? && a.row.StepRow? then born + 1 else born)
  {
    hide Alone, Accepted, Allowed, DigestSettles, Enabled, Next;
    AloneWrites(After(d, actions), seen, a, born);
    AllowedNext(d, actions, a);
  }

  /** A preview and new ids for rows beside it: two units, a group, a submission and a step. */
  datatype Scene = Scene(tenant: Uuid, preview: Uuid, unit: Uuid, other: Uuid, group: Uuid, submission: Uuid, step: Uuid) {
    function P(): Key { PreviewKey(tenant, preview) }
    function U(): Key { ChildKey(tenant, preview, Unit(unit)) }
    function O(): Key { ChildKey(tenant, preview, Unit(other)) }
    function G(): Key { ChildKey(tenant, preview, Group(group)) }
    function S(): Key { SubmissionKey(tenant, submission) }
    function X(): Key { StepKey(tenant, step) }

    /** The preview is BUILDING and yet has a digest; the ids are new. */
    ghost predicate Early(rows: Rows) {
      && P() in rows && rows[P()].PreviewRow? && rows[P()].header.status == BUILDING && rows[P()].header.digest.Some?
      && {U(), O(), G(), S(), X()} !! rows.Keys && unit != other
    }

    function Submitted(h: Header): Row {
      SubmissionRow(SubmissionIntent(h.bc, preview, h.draft, 0, submission), "")
    }

    function Step(h: Header, born: nat): Row {
      StepRow(StepIntent(submission, preview, h.bc, unit, "ADGROUP", "key", Some(group), None, None, None), None, "", born)
    }

    /** With two units and a group of the first one. */
    function Planned(rows: Rows, h: Header): Rows {
      rows[U() := UnitRow(h.bc, unit, "", "")][O() := UnitRow(h.bc, other, "", "")][G() := GroupRow(unit, "")]
    }

    /** And with a submission and a step for that group. */
    function Executed(rows: Rows, h: Header, born: nat): Rows {
      Planned(rows, h)[S() := Submitted(h)][X() := Step(h, born)]
    }

    /** The group has gone to the other unit, and the preview is frozen. */
    function Broken(rows: Rows, h: Header, born: nat): Rows {
      Executed(rows, h, born)[G() := GroupRow(other, "")][P() := PreviewRow(h.(status := FROZEN))]
    }
  }

  lemma Plan(d: Db, c: Scene, h: Header) returns (actions: seq<Action>)
    requires d.txs == map[] && c.Early(d.rows) && h == d.rows[c.P()].header
    ensures Leads(d, actions, c.Planned(d.rows, h), d.born)
  {
    hide Leads, Disciplined, Allowed, After, Enabled, Next, Alone;
    Start(d);
    actions := [Begin(0)];
    var seen, unit, other := d.rows, UnitRow(h.bc, c.unit, "", ""), UnitRow(h.bc, c.other, "", "");
    Write(d, actions, seen, d.born, Insert(0, c.U(), unit));
    actions, seen := actions + [Insert(0, c.U(), unit)], seen[c.U() := unit];
    Write(d, actions, seen, d.born, Insert(0, c.O(), other));
    actions, seen := actions + [Insert(0, c.O(), other)], seen[c.O() := other];
    Write(d, actions, seen, d.born, Insert(0, c.G(), GroupRow(c.unit, "")));
    actions := actions + [Insert(0, c.G(), GroupRow(c.unit, ""))];
  }

  lemma Start(d: Db)
    requires d.txs == map[]
    ensures Leads(d, [Begin(0)], d.rows, d.born)
  {
    SeenNothing(d.rows);
    assert [Begin(0)][1..] == [];
  }

  lemma SubmissionAccepted(rows: Rows, c: Scene, h: Header, born: nat)
    requires c.Early(rows) && h == rows[c.P()].header
    ensures Accepted(c.Planned(rows, h), Insert(0, c.S(), c.Submitted(h)), born)
  {
  }

  lemma StepAccepted(rows: Rows, c: Scene, h: Header, born: nat)
    requires c.Early(rows) && h == rows[c.P()].header
    ensures Accepted(c.Planned(rows, h)[c.S() := c.Submitted(h)], Insert(0, c.X(), c.Step(h, born)), born)
  {
  }

  lemma ChangesAccepted(rows: Rows, c: Scene, h: Header, born: nat)
    requires c.Early(rows) && h == rows[c.P()].header
    ensures var seen := c.Executed(rows, h, born);
            && Accepted(seen, Update(0, c.G(), GroupRow(c.other, "")), born + 1)
            && Accepted(seen[c.G() := GroupRow(c.other, "")], Update(0, c.P(), PreviewRow(h.(status := FROZEN))), born + 1)
  {
  }

  lemma Break(d: Db, c: Scene, h: Header) returns (actions: seq<Action>)
    requires d.txs == map[] && c.Early(d.rows) && h == d.rows[c.P()].header
    ensures Leads(d, actions, c.Broken(d.rows, h, d.born), d.born + 1)
  {
    hide Leads, Disciplined, Allowed, After, Enabled, Next, Alone, Accepted;
    actions := Plan(d, c, h);
    var seen, submitted, step := c.Planned(d.rows, h), Insert(0, c.S(), c.Submitted(h)), Insert(0, c.X(), c.Step(h, d.born));
    SubmissionAccepted(d.rows, c, h, d.born);
    Write(d, actions, seen, d.born, submitted);
    actions, seen := actions + [submitted], seen[c.S() := c.Submitted(h)];
    StepAccepted(d.rows, c, h, d.born);
    Write(d, actions, seen, d.born, step);
    actions, seen := actions + [step], seen[c.X() := c.Step(h, d.born)];
    ChangesAccepted(d.rows, c, h, d.born);
    var moved, frozen := Update(0, c.G(), GroupRow(c.other, "")), Update(0, c.P(), PreviewRow(h.(status := FROZEN)));
    Write(d, actions, seen, d.born + 1, moved);
    actions, seen := actions + [moved], seen[c.G() := GroupRow(c.other, "")];
    Write(d, actions, seen, d.born + 1, frozen);
    actions := actions + [frozen];
  }

  /** The plan is settled and a step's group belongs to another unit than the step. */
  lemma BrokenDisagrees(rows: Rows, c: Scene, h: Header, born: nat)
    requires c.Early(rows) && h == rows[c.P()].header
    ensures var broken := c.Broken(rows, h, born);
            && Settled(broken, c.tenant, c.preview) && c.X() in broken && broken[c.X()] == c.Step(h, born)
            && !GroupIs(broken, c.tenant, c.preview, c.group, c.unit) && !AllAgree(broken)
  {
    var broken := c.Broken(rows, h, born);
    assert !Agrees(broken, c.X(), broken[c.X()]);
  }

  /**
   From every state in which a BUILDING preview has a digest, one transaction that itself keeps the discipline
   ends with a settled preview and a step whose group belongs to another unit; freezing has made that permanent.
   */
  lemma EarlyDigestBreaksAgreement(d: Db, c: Scene) returns (actions: seq<Action>)
    requires d.txs == map[] && c.Early(d.rows)
    ensures Allowed(d, actions) && Disciplined(actions)
    ensures var rows := After(d, actions).rows;
            && Settled(rows, c.tenant, c.preview)
            && c.X() in rows && rows[c.X()] == c.Step(d.rows[c.P()].header, d.born)
            && !GroupIs(rows, c.tenant, c.preview, c.group, c.unit) && !AllAgree(rows)
  {
    hide Allowed, After, Settled, AllAgree, GroupIs;
    var h := d.rows[c.P()].header;
    actions := Break(d, c, h);
    BrokenDisagrees(d.rows, c, h, d.born);
    AllowedNext(d, actions, Commit(0));
    actions := actions + [Commit(0)];
  }

  /** And such states are reached: the triggers accept a new BUILDING preview that has a digest. */
  lemma EarlyDigestIsAccepted(d: Db, k: Key, h: Header) returns (actions: seq<Action>)
    requires d.txs == map[] && k.PreviewKey? && k !in d.rows && h.status == BUILDING && h.digest.Some?
    ensures Allowed(d, actions) && After(d, actions) == Db(d.rows[k := PreviewRow(h)], map[], d.born)
  {
    hide Allowed, After;
    Start(d);
    actions := [Begin(0)];
    var row := PreviewRow(h);
    AloneWrites(After(d, actions), d.rows, Insert(0, k, row), d.born);
    AllowedNext(d, actions, Insert(0, k, row));
    actions := actions + [Insert(0, k, row)];
    AllowedNext(d, actions, Commit(0));
    actions := actions + [Commit(0)];
  }

  // ---- new ids exist --------------------------------------------------------------------------

  function IdOf(k: Key): nat {
    match k
    case ChildKey(_, _, Unit(id)) => id
    case ChildKey(_, _, Group(id)) => id
    case SubmissionKey(_, id) => id
    case StepKey(_, id) => id
    case _ => 0
  }

  lemma {:induction false} NewId(keys: set<Key>) returns (n: nat)
    ensures forall k :: k in keys ==> IdOf(k) < n
  {
    if keys == {} {
      n := 0;
    } else {
      var k :| k in keys;
      n := NewId(keys - {k});
      n := if IdOf(k) < n then n else IdOf(k) + 1;
    }
  }

  /**
   The discipline on digests is needed and no more is needed: in a state without open transactions whose
   execution graph agrees with its plans, the graph agrees after every disciplined continuation exactly if no
   BUILDING preview has a digest.
   */
  lemma AgreesIffDigestsSettle(d: Db)
    requires Inv(d) && d.txs == map[] && AllAgree(d.rows)
    ensures AlwaysAgrees(d) <==> DigestsSettle(d.rows)
  {
    hide Allowed, After, Inv, AllAgree, Disciplined;
    if DigestsSettle(d.rows) {
      forall actions | Allowed(d, actions) && Disciplined(actions)
        ensures AllAgree(After(d, actions).rows)
      {
        AgreementGoesOn(d, actions);
      }
    } else {
      var k := EarlyDigest(d);
      var n := NewId(d.rows.Keys);
      var actions := EarlyDigestBreaksAgreement(d, Scene(k.tenant, k.id, n, n + 1, n, n, n));
    }
  }

  lemma EarlyDigest(d: Db) returns (k: Key)
    requires Inv(d) && !DigestsSettle(d.rows)
    ensures k.PreviewKey? && k in d.rows && d.rows[k].PreviewRow?
    ensures d.rows[k].header.status == BUILDING && d.rows[k].header.digest.Some?
  {
    k :| k in d.rows && !DigestSettles(d.rows[k]);
  }
}
