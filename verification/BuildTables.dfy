/**
 Rows of the frozen preview (0005d) and of the execution graph built on it (0006), with the row triggers
 as predicates on what the writing transaction sees.
 */
module BuildTables {
  import opened Overlay

  type Uuid = nat

  datatype Status = BUILDING | FROZEN | OBSOLETE | FAILED

  /** `content` stands for the header columns that no rule below looks at. */
  datatype Header = Header(status: Status, draft: Uuid, draftRevision: nat, bc: string, digest: Option<string>,
                           content: string)

  /** Where a child row stands inside its preview: one constructor for each of the eight child tables. */
  datatype Place =
    | Input(kind: string, lineNo: nat)
    | Drama(drama: Uuid)
    | DramaGroup(drama: Uuid, groupNo: nat)
    | Material(drama: Uuid, groupNo: nat, position: nat)
    | Copy(drama: Uuid, groupNo: nat, creativeNo: nat)
    | Unit(id: Uuid)
    | Group(id: Uuid)
    | Ad(id: Uuid)

  datatype Key =
    | PreviewKey(tenant: Uuid, id: Uuid)
    | ChildKey(tenant: Uuid, preview: Uuid, place: Place)
    | SubmissionKey(tenant: Uuid, id: Uuid)
    | ReservationKey(tenant: Uuid, draft: Uuid, drama: Uuid, advertiser: string)
    | StepKey(tenant: Uuid, id: Uuid)

  datatype SubmissionIntent = SubmissionIntent(bc: string, preview: Uuid, draft: Uuid, actor: Uuid, ordinal: nat)

  datatype StepIntent = StepIntent(submission: Uuid, preview: Uuid, bc: string, unit: Uuid, kind: string, stepKey: string,
                                   group: Option<Uuid>, plannedAd: Option<Uuid>, material: Option<Uuid>,
                                   parent: Option<Uuid>)

  /** `born` is a history variable: the number of step insertions before this one. */
  datatype Row =
    | PreviewRow(header: Header)
    | UnitRow(bc: string, drama: Uuid, advertiser: string, detail: string)
    | GroupRow(unit: Uuid, detail: string)
    | AdRow(group: Uuid, detail: string)
    | MaterialRow(material: Uuid)
    | DetailRow(detail: string)
    | SubmissionRow(submitted: SubmissionIntent, progress: string)
    | ReservationRow(bc: string, submission: Uuid, preview: Uuid, reserved: Uuid)
    | StepRow(intent: StepIntent, request: Option<string>, progress: string, born: nat)

  type Rows = map<Key, Row>

  predicate Fits(k: Key, row: Row) {
    match k
    case PreviewKey(_, _) => row.PreviewRow?
    case SubmissionKey(_, _) => row.SubmissionRow?
    case ReservationKey(_, _, _, _) => row.ReservationRow?
    case StepKey(_, _) => row.StepRow?
    case ChildKey(_, _, place) =>
      match place
      case Unit(_) => row.UnitRow?
      case Group(_) => row.GroupRow?
      case Ad(_) => row.AdRow?
      case Material(_, _, _) => row.MaterialRow?
      case _ => row.DetailRow?
  }

  function HeaderKey(k: Key): Key
    requires k.ChildKey?
  {
    PreviewKey(k.tenant, k.preview)
  }

  /** Foreign keys whose target can be deleted at all. */
  function References(k: Key, row: Row): set<Key> {
    match row
    case SubmissionRow(s, _) => {PreviewKey(k.tenant, s.preview)}
    case ReservationRow(_, submission, _, _) => {SubmissionKey(k.tenant, submission)}
    case StepRow(i, _, _, _) =>
      {SubmissionKey(k.tenant, i.submission)} + (if i.parent.Some? then {StepKey(k.tenant, i.parent.value)} else {})
    case _ => {}
  }

  // ---- what the triggers look up --------------------------------------------------------------

  predicate HeaderIs(seen: Rows, tenant: Uuid, preview: Uuid, building: bool) {
    var k := PreviewKey(tenant, preview);
    k in seen && seen[k].PreviewRow? && (seen[k].header.status == BUILDING) == building
  }

  /** The header is there and has left BUILDING. */
  predicate Settled(seen: Rows, tenant: Uuid, preview: Uuid) {
    HeaderIs(seen, tenant, preview, false)
  }

  /** `check_preview_header_write`, for an UPDATE. */
  predicate HeaderTrigger(h: Header, next: Header) {
    h.status == BUILDING || (h.status == FROZEN && next == h.(status := OBSOLETE))
  }

  /** The submission's preview belongs to its draft and business centre and has a digest. */
  predicate SubmissionScope(seen: Rows, tenant: Uuid, s: SubmissionIntent) {
    var p := PreviewKey(tenant, s.preview);
    && p in seen && seen[p].PreviewRow?
    && seen[p].header.draft == s.draft && seen[p].header.bc == s.bc && seen[p].header.digest.Some?
  }

  predicate UnitIs(seen: Rows, tenant: Uuid, preview: Uuid, unit: Uuid, bc: string) {
    var u := ChildKey(tenant, preview, Unit(unit));
    u in seen && seen[u].UnitRow? && seen[u].bc == bc
  }

  predicate SubmissionIs(seen: Rows, tenant: Uuid, submission: Uuid, preview: Uuid, bc: string) {
    var s := SubmissionKey(tenant, submission);
    s in seen && seen[s].SubmissionRow? && seen[s].submitted.preview == preview && seen[s].submitted.bc == bc
  }

  /** The reservation names its submission's draft and its unit's drama and advertiser. */
  predicate ReservationScope(seen: Rows, k: Key, row: Row)
    requires k.ReservationKey? && row.ReservationRow?
  {
    && UnitIs(seen, k.tenant, row.preview, row.reserved, row.bc)
    && SubmissionIs(seen, k.tenant, row.submission, row.preview, row.bc)
    && seen[SubmissionKey(k.tenant, row.submission)].submitted.draft == k.draft
    && var u := seen[ChildKey(k.tenant, row.preview, Unit(row.reserved))];
       u.drama == k.drama && u.advertiser == k.advertiser
  }

  predicate GroupIs(seen: Rows, tenant: Uuid, preview: Uuid, group: Uuid, unit: Uuid) {
    var g := ChildKey(tenant, preview, Group(group));
    g in seen && seen[g].GroupRow? && seen[g].unit == unit
  }

  predicate AdIs(seen: Rows, tenant: Uuid, preview: Uuid, ad: Uuid, group: Option<Uuid>) {
    var a := ChildKey(tenant, preview, Ad(ad));
    a in seen && seen[a].AdRow? && Some(seen[a].group) == group
  }

  ghost predicate MaterialIs(seen: Rows, tenant: Uuid, preview: Uuid, drama: Uuid, material: Uuid) {
    exists groupNo, position ::
      var m := ChildKey(tenant, preview, Material(drama, groupNo, position));
      m in seen && seen[m] == MaterialRow(material)
  }

  predicate ParentIs(seen: Rows, tenant: Uuid, parent: Uuid, submission: Uuid, unit: Uuid) {
    var p := StepKey(tenant, parent);
    p in seen && seen[p].StepRow? && seen[p].intent.submission == submission && seen[p].intent.unit == unit
  }

  /** Group in the unit, planned ad in that group, material in the unit's drama snapshot, parent in scope. */
  ghost predicate StepScope(seen: Rows, tenant: Uuid, i: StepIntent) {
    && UnitIs(seen, tenant, i.preview, i.unit, i.bc)
    && SubmissionIs(seen, tenant, i.submission, i.preview, i.bc)
    && (i.group.Some? ==> GroupIs(seen, tenant, i.preview, i.group.value, i.unit))
    && (i.plannedAd.Some? ==> AdIs(seen, tenant, i.preview, i.plannedAd.value, i.group))
    && (i.material.Some? ==>
          MaterialIs(seen, tenant, i.preview, seen[ChildKey(tenant, i.preview, Unit(i.unit))].drama, i.material.value))
    && (i.parent.Some? ==> ParentIs(seen, tenant, i.parent.value, i.submission, i.unit))
  }

  // ---- the row triggers -----------------------------------------------------------------------

  ghost predicate ScopeTrigger(seen: Rows, k: Key, row: Row) {
    match row
    case SubmissionRow(s, _) => SubmissionScope(seen, k.tenant, s)
    case ReservationRow(_, _, _, _) => k.ReservationKey? && ReservationScope(seen, k, row)
    case StepRow(i, _, _, _) => StepScope(seen, k.tenant, i)
    case _ => true
  }

  ghost predicate InsertTrigger(seen: Rows, k: Key, row: Row) {
    (k.ChildKey? ==> HeaderIs(seen, k.tenant, k.preview, true)) && ScopeTrigger(seen, k, row)
  }

  /** Columns that no UPDATE may change once the row is there. */
  predicate SameIntent(row: Row, next: Row) {
    match (row, next)
    case (SubmissionRow(s, _), SubmissionRow(s', _)) => s == s'
    case (StepRow(i, _, _, b), StepRow(i', _, _, b')) => i == i' && b == b'
    case _ => false
  }

  ghost predicate UpdateTrigger(seen: Rows, k: Key, row: Row, next: Row) {
    && (k.ChildKey? ==> HeaderIs(seen, k.tenant, k.preview, true))
    && (k.PreviewKey? && row.PreviewRow? && next.PreviewRow? ==> HeaderTrigger(row.header, next.header))
    && !k.ReservationKey?
    && (k.SubmissionKey? || k.StepKey? ==> SameIntent(row, next))
    && (row.StepRow? && next.StepRow? && row.request.Some? ==> next.request == row.request)
    && ScopeTrigger(seen, k, next)
  }

  predicate DeleteTrigger(seen: Rows, k: Key) {
    match k
    case ChildKey(tenant, preview, _) => HeaderIs(seen, tenant, preview, true)
    case PreviewKey(_, _) => false
    case ReservationKey(_, _, _, _) => false
    case _ => true
  }

  /** Every foreign key points at a row. */
  ghost predicate ForeignKeys(seen: Rows) {
    forall k :: k in seen ==> References(k, seen[k]) <= seen.Keys
  }

  ghost predicate Referenced(seen: Rows, target: Key) {
    exists k :: k in seen && target in References(k, seen[k])
  }
}
