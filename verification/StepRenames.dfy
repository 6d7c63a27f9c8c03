/**
 `id` is not among the immutable columns of `execution_step`: what one UPDATE of step ids does to the parent
 links, and for which executions that is safe.
 */
module StepRenames {
  import opened Overlay
  import opened BuildTables
  import opened BuildHistory

  // ---- one UPDATE of step ids -----------------------------------------------------------------

  datatype Link = Link(submission: Uuid, unit: Uuid, parent: Option<Uuid>)

  type Links = map<Uuid, Link>

  predicate SameScope(a: Link, b: Link) {
    a.submission == b.submission && a.unit == b.unit
  }

  /** One row of the UPDATE: the key is free, and the trigger finds the parent in the row's submission and unit. */
  function RenameRow(steps: Links, id: Uuid, to: Uuid): Option<Links> {
    if id !in steps || (to != id && to in steps) then None
    else
      var link := steps[id];
      if link.parent.Some? && !(link.parent.value in steps && SameScope(steps[link.parent.value], link)) then None
      else Some((steps - {id})[to := link])
  }

  /** The rows are renamed in turn, each trigger seeing the rows before it; keys are checked at the end. */
  function RenameRows(steps: Links, moves: seq<(Uuid, Uuid)>): Option<Links>
    decreases |moves|
  {
    if moves == [] then Some(steps)
    else
      var next := RenameRow(steps, moves[0].0, moves[0].1);
      if next.None? then None else RenameRows(next.value, moves[1..])
  }

  /** The foreign key on (submission, parent step). */
  predicate KeysHold(steps: Links) {
    forall id :: id in steps && steps[id].parent.Some? ==>
      steps[id].parent.value in steps && steps[steps[id].parent.value].submission == steps[id].submission
  }

  function RenameStatement(steps: Links, moves: seq<(Uuid, Uuid)>): Option<Links> {
    var next := RenameRows(steps, moves);
    if next.Some? && KeysHold(next.value) then next else None
  }

  /** Some numbering puts every parent below its children. */
  ghost predicate Forest(steps: Links) {
    KeysHold(steps) && exists rank: map<Uuid, int> :: Ranked(steps, rank)
  }

  ghost predicate Ranked(steps: Links, rank: map<Uuid, int>) {
    forall id :: id in steps && steps[id].parent.Some? ==>
      id in rank && steps[id].parent.value in rank && rank[steps[id].parent.value] < rank[id]
  }

  /** Targets are new ids, each used once: no id that the statement frees is taken again. */
  predicate Fresh(steps: set<Uuid>, moves: seq<(Uuid, Uuid)>) {
    && (forall i :: 0 <= i < |moves| ==> moves[i].1 !in steps)
    && (forall i, j :: 0 <= i < j < |moves| ==> moves[i].1 != moves[j].1)
  }

  /** No step has it as its parent. */
  predicate Childless(steps: Links, id: Uuid) {
    forall c :: c in steps ==> steps[c].parent != Some(id)
  }

  predicate Leaves(steps: Links, moves: seq<(Uuid, Uuid)>) {
    forall i :: 0 <= i < |moves| ==> Childless(steps, moves[i].0)
  }

  lemma RenameLeaf(steps: Links, rank: map<Uuid, int>, id: Uuid, to: Uuid) returns (moved: map<Uuid, int>)
    requires KeysHold(steps) && Ranked(steps, rank) && RenameRow(steps, id, to).Some? && Childless(steps, id)
    ensures var next := RenameRow(steps, id, to).value;
            KeysHold(next) && Ranked(next, moved) && forall p :: Childless(steps, p) ==> Childless(next, p)
  {
    moved := if id in rank then rank[to := rank[id]] else rank;
  }

  lemma {:induction false} RenameLeaves(steps: Links, rank: map<Uuid, int>, moves: seq<(Uuid, Uuid)>)
    requires KeysHold(steps) && Ranked(steps, rank) && RenameRows(steps, moves).Some? && Leaves(steps, moves)
    ensures var next := RenameRows(steps, moves).value;
            KeysHold(next) && exists moved :: Ranked(next, moved)
    decreases |moves|
  {
    hide KeysHold, Ranked, Childless;
    if moves != [] {
      var moved := RenameLeaf(steps, rank, moves[0].0, moves[0].1);
      RenameLeaves(RenameRow(steps, moves[0].0, moves[0].1).value, moved, moves[1..]);
    }
  }

  /** A statement that renames only steps without children keeps the forest, and the foreign keys accept it. */
  lemma RenamingLeavesKeepsForest(steps: Links, moves: seq<(Uuid, Uuid)>)
    requires Forest(steps) && RenameRows(steps, moves).Some? && Leaves(steps, moves)
    ensures RenameStatement(steps, moves) == RenameRows(steps, moves) && Forest(RenameRows(steps, moves).value)
  {
    var rank: map<Uuid, int> :| Ranked(steps, rank);
    RenameLeaves(steps, rank, moves);
  }

  lemma {:induction false} ParentStays(steps: Links, moves: seq<(Uuid, Uuid)>, p: Uuid)
    requires RenameRows(steps, moves).Some? && !Childless(steps, p)
    ensures !Childless(RenameRows(steps, moves).value, p)
    decreases |moves|
  {
    if moves != [] {
      var next := RenameRow(steps, moves[0].0, moves[0].1).value;
      var c :| c in steps && steps[c].parent == Some(p);
      assert next[if c == moves[0].0 then moves[0].1 else c].parent == Some(p);
      ParentStays(next, moves[1..], p);
    }
  }

  lemma {:induction false} MovedAway(steps: Links, moves: seq<(Uuid, Uuid)>, p: Uuid)
    requires RenameRows(steps, moves).Some? && forall i :: 0 <= i < |moves| ==> moves[i].1 != p
    requires p in steps ==> exists i :: 0 <= i < |moves| && moves[i].0 == p
    ensures p !in RenameRows(steps, moves).value
    decreases |moves|
  {
    if moves != [] {
      var next := RenameRow(steps, moves[0].0, moves[0].1).value;
      if p in next {
        var i :| 0 <= i < |moves| && moves[i].0 == p;
        assert moves[1..][i - 1].0 == p;
      }
      MovedAway(next, moves[1..], p);
    }
  }

  /** With fresh targets the foreign keys accept the statement only if it renames steps without children. */
  lemma FreshMovesLeaves(steps: Links, moves: seq<(Uuid, Uuid)>)
    requires KeysHold(steps) && RenameStatement(steps, moves).Some? && Fresh(steps.Keys, moves)
    ensures Leaves(steps, moves)
  {
    forall i | 0 <= i < |moves|
      ensures Childless(steps, moves[i].0)
    {
      var p := moves[i].0;
      if !Childless(steps, p) {
        ParentStays(steps, moves, p);
        MovedAway(steps, moves, p);
      }
    }
  }

  /** So a statement that renames steps to fresh ids keeps the forest, if the foreign keys accept it at all. */
  lemma RenamingToFreshKeepsForest(steps: Links, moves: seq<(Uuid, Uuid)>)
    requires Forest(steps) && RenameStatement(steps, moves).Some? && Fresh(steps.Keys, moves)
    ensures Leaves(steps, moves) && Forest(RenameStatement(steps, moves).value)
  {
    FreshMovesLeaves(steps, moves);
    RenamingLeavesKeepsForest(steps, moves);
  }

  /** Parents are in the submission and unit of their children, as the trigger demands. */
  predicate Scoped(steps: Links) {
    forall id :: id in steps && steps[id].parent.Some? ==>
      steps[id].parent.value in steps && SameScope(steps[steps[id].parent.value], steps[id])
  }

  /**
   Otherwise it need not: wherever a step without children has a grandparent, one accepted statement frees the
   grandparent's id and gives it to the grandchild, which closes a cycle with the step between them.
   */
  lemma RenamingTwoBreaksForest(steps: Links, p: Uuid, c: Uuid, leaf: Uuid, free: Uuid)
    requires Forest(steps) && Scoped(steps) && leaf in steps && c in steps && free !in steps
    requires steps[leaf].parent == Some(c) && steps[c].parent == Some(p) && Childless(steps, leaf)
    ensures var next := RenameStatement(steps, [(p, free), (leaf, p)]);
            && next.Some? && {c, p} <= next.value.Keys && next.value[c].parent == Some(p) && next.value[p].parent == Some(c)
            && !Forest(next.value)
  {
    var moves: seq<(Uuid, Uuid)> := [(p, free), (leaf, p)];
    var rank: map<Uuid, int> :| Ranked(steps, rank);
    assert p != c && leaf != p && leaf != c;
    var mid: Links := (steps - {p})[free := steps[p]];
    assert RenameRow(steps, p, free) == Some(mid);
    var next: Links := (mid - {leaf})[p := mid[leaf]];
    assert RenameRow(mid, leaf, p) == Some(next);
    assert moves[1..] == [(leaf, p)] && moves[1..][1..] == [];
    assert RenameRows(mid, moves[1..]) == Some(next);
    assert RenameRows(steps, moves) == Some(next);
    forall id | id in next && next[id].parent.Some?
      ensures next[id].parent.value in next
    {
      var was := if id == free then p else if id == p then leaf else id;
      assert next[id] == steps[was] && steps[was].parent != Some(leaf);
    }
    assert KeysHold(next);
    forall numbers: map<Uuid, int>
      ensures !Ranked(next, numbers)
    {
      assert c in next && p in next;
    }
  }

  lemma RenameFour(steps: Links, moves: seq<(Uuid, Uuid)>, s1: Links, s2: Links, s3: Links, s4: Links)
    requires |moves| == 4 && RenameRow(steps, moves[0].0, moves[0].1) == Some(s1)
    requires RenameRow(s1, moves[1].0, moves[1].1) == Some(s2)
    requires RenameRow(s2, moves[2].0, moves[2].1) == Some(s3)
    requires RenameRow(s3, moves[3].0, moves[3].1) == Some(s4)
    ensures RenameRows(steps, moves) == Some(s4)
  {
    hide RenameRow;
    assert moves[1..][1..] == moves[2..] && moves[2..][1..] == moves[3..] && moves[3..][1..] == [];
    assert RenameRows(s3, moves[3..]) == Some(s4);
    assert RenameRows(s2, moves[2..]) == Some(s4);
    assert RenameRows(s1, moves[1..]) == Some(s4);
  }

  /** Each of the steps `c` and `e` hangs without children on a root of its own, all four in one scope. */
  predicate Twins(steps: Links, p: Uuid, c: Uuid, q: Uuid, e: Uuid) {
    && {p, c, q, e} <= steps.Keys && p != q
    && steps[p].parent == None && steps[q].parent == None && steps[c].parent == Some(p) && steps[e].parent == Some(q)
    && Childless(steps, c) && Childless(steps, e)
    && SameScope(steps[p], steps[c]) && SameScope(steps[q], steps[e]) && SameScope(steps[c], steps[e])
  }

  /** Children that take the ids of each other's parents: `c` becomes `q`, and `e` becomes `p`. */
  function Crosswise(p: Uuid, c: Uuid, q: Uuid, e: Uuid, f: Uuid, g: Uuid): seq<(Uuid, Uuid)> {
    [(q, f), (c, q), (p, g), (e, p)]
  }

  function Crossed(steps: Links, p: Uuid, c: Uuid, q: Uuid, e: Uuid, f: Uuid, g: Uuid): Links
    requires Twins(steps, p, c, q, e)
  {
    (steps - {p, c, q, e})[f := steps[q]][g := steps[p]][q := steps[c]][p := steps[e]]
  }

  lemma CrosswiseRows(steps: Links, p: Uuid, c: Uuid, q: Uuid, e: Uuid, f: Uuid, g: Uuid)
    requires Twins(steps, p, c, q, e) && f !in steps && g !in steps && f != g
    ensures RenameRows(steps, Crosswise(p, c, q, e, f, g)) == Some(Crossed(steps, p, c, q, e, f, g))
  {
    var s1: Links := (steps - {q})[f := steps[q]];
    var s2: Links := (s1 - {c})[q := s1[c]];
    var s3: Links := (s2 - {p})[g := s2[p]];
    var s4: Links := (s3 - {e})[p := s3[e]];
    assert RenameRow(steps, q, f) == Some(s1);
    assert RenameRow(s1, c, q) == Some(s2);
    assert RenameRow(s2, p, g) == Some(s3);
    assert RenameRow(s3, e, p) == Some(s4);
    RenameFour(steps, Crosswise(p, c, q, e, f, g), s1, s2, s3, s4);
    assert s4 == Crossed(steps, p, c, q, e, f, g);
  }

  /**
   Without any grandparent two trees of one scope are enough: four renames that the trigger accepts one by one,
   each of another row, put either child under the other one.
   */
  lemma RenamingCrosswiseBreaksForest(steps: Links, p: Uuid, c: Uuid, q: Uuid, e: Uuid, f: Uuid, g: Uuid)
    requires KeysHold(steps) && Twins(steps, p, c, q, e) && f !in steps && g !in steps && f != g
    ensures var next := RenameStatement(steps, Crosswise(p, c, q, e, f, g));
            && next.Some? && {p, q} <= next.value.Keys && next.value[q].parent == Some(p) && next.value[p].parent == Some(q)
            && !Forest(next.value)
  {
    var next := Crossed(steps, p, c, q, e, f, g);
    CrosswiseRows(steps, p, c, q, e, f, g);
    forall id | id in next && next[id].parent.Some?
      ensures next[id].parent.value in next && next[next[id].parent.value].submission == next[id].submission
    {
      CrossedParent(steps, p, c, q, e, f, g, id);
    }
    forall numbers: map<Uuid, int>
      ensures !Ranked(next, numbers)
    {
      assert p in next && q in next;
    }
  }

  lemma CrossedParent(steps: Links, p: Uuid, c: Uuid, q: Uuid, e: Uuid, f: Uuid, g: Uuid, id: Uuid)
    requires KeysHold(steps) && Twins(steps, p, c, q, e) && f !in steps && g !in steps && f != g
    requires var next := Crossed(steps, p, c, q, e, f, g); id in next && next[id].parent.Some?
    ensures var next := Crossed(steps, p, c, q, e, f, g);
            next[id].parent.value in next && next[next[id].parent.value].submission == next[id].submission
  {
    var next := Crossed(steps, p, c, q, e, f, g);
    var was := if id == q then c else if id == p then e else id;
    assert next[id] == steps[was] && steps[was].parent != Some(c) && steps[was].parent != Some(e);
  }

  // ---- which executions are safe --------------------------------------------------------------

  /** No two steps of one submission and unit have different parents. */
  predicate OneParent(steps: Links) {
    forall a, b :: a in steps && b in steps && SameScope(steps[a], steps[b]) && steps[a].parent.Some? && steps[b].parent.Some? ==>
      steps[a].parent == steps[b].parent
  }

  /** A numbering that puts every parent that is there below its children. */
  ghost predicate Rooted(steps: Links, rank: map<Uuid, int>) {
    && steps.Keys <= rank.Keys
    && forall id :: id in steps && steps[id].parent.Some? && steps[id].parent.value in steps ==>
         rank[steps[id].parent.value] < rank[id]
  }

  lemma {:induction false} Below(ids: set<Uuid>, rank: map<Uuid, int>) returns (low: int)
    requires ids <= rank.Keys
    ensures forall id :: id in ids ==> low < rank[id]
  {
    if ids == {} {
      low := 0;
    } else {
      var id :| id in ids;
      low := Below(ids - {id}, rank);
      low := if low < rank[id] then low else rank[id] - 1;
    }
  }

  lemma StillOneParent(steps: Links, id: Uuid, to: Uuid)
    requires OneParent(steps) && RenameRow(steps, id, to).Some?
    ensures OneParent(RenameRow(steps, id, to).value)
  {
    var next := RenameRow(steps, id, to).value;
    assert forall a :: a in next ==> (if a == to then id else a) in steps && next[a] == steps[if a == to then id else a];
  }

  /** The parent of a renamed step has no parent itself, so that it can go below everything else. */
  lemma RenameKeepsRooted(steps: Links, rank: map<Uuid, int>, id: Uuid, to: Uuid) returns (moved: map<Uuid, int>)
    requires OneParent(steps) && Rooted(steps, rank) && RenameRow(steps, id, to).Some?
    ensures Rooted(RenameRow(steps, id, to).value, moved)
  {
    var next := RenameRow(steps, id, to).value;
    var low := Below(steps.Keys, rank);
    if to == id {
      moved := rank;
    } else if steps[id].parent.None? {
      moved := rank[to := low];
    } else {
      var v := steps[id].parent.value;
      assert steps[v].parent.None?;
      moved := rank[v := low - 1][to := low];
    }
  }

  lemma {:induction false} RenamesKeepRooted(steps: Links, rank: map<Uuid, int>, moves: seq<(Uuid, Uuid)>)
    requires OneParent(steps) && Rooted(steps, rank) && RenameRows(steps, moves).Some?
    ensures exists moved :: Rooted(RenameRows(steps, moves).value, moved)
    decreases |moves|
  {
    hide Rooted, OneParent, RenameRow;
    if moves != [] {
      var moved := RenameKeepsRooted(steps, rank, moves[0].0, moves[0].1);
      StillOneParent(steps, moves[0].0, moves[0].1);
      RenamesKeepRooted(RenameRow(steps, moves[0].0, moves[0].1).value, moved, moves[1..]);
    }
  }

  /** With one parent for each submission and unit every accepted statement keeps the forest, whatever it renames. */
  lemma OneParentKeepsForest(steps: Links, moves: seq<(Uuid, Uuid)>)
    requires Forest(steps) && OneParent(steps) && RenameStatement(steps, moves).Some?
    ensures Forest(RenameStatement(steps, moves).value)
  {
    var rank: map<Uuid, int> :| Ranked(steps, rank);
    var all := map id | id in steps :: if id in rank then rank[id] else 0;
    assert Rooted(steps, all);
    RenamesKeepRooted(steps, all, moves);
    var next := RenameStatement(steps, moves).value;
    assert KeysHold(next);
    var moved: map<Uuid, int> :| Rooted(next, moved);
    assert Ranked(next, moved);
    assert Forest(next);
  }

  /** Every row that the statement renames is another one. */
  predicate EachOnce(steps: Links, moves: seq<(Uuid, Uuid)>) {
    && (forall i :: 0 <= i < |moves| ==> moves[i].0 in steps)
    && (forall i, j :: 0 <= i < j < |moves| ==> moves[i].0 != moves[j].0)
  }

  ghost predicate RenamingIsSafe(steps: Links) {
    forall moves :: EachOnce(steps, moves) && RenameStatement(steps, moves).Some? ==> Forest(RenameStatement(steps, moves).value)
  }

  lemma {:induction false} NewUuid(ids: set<Uuid>) returns (n: Uuid)
    ensures forall id :: id in ids ==> id < n
  {
    if ids == {} {
      n := 0;
    } else {
      var id :| id in ids;
      var m := NewUuid(ids - {id});
      n := if id < m then m else id + 1;
      assert forall j :: j in ids ==> j == id || j in ids - {id};
    }
  }

  predicate HasGrandparent(steps: Links, id: Uuid) {
    && id in steps && steps[id].parent.Some? && steps[id].parent.value in steps
    && steps[steps[id].parent.value].parent.Some?
  }

  lemma {:induction false} Highest(ids: set<Uuid>, rank: map<Uuid, int>) returns (top: Uuid)
    requires ids != {} && ids <= rank.Keys
    ensures top in ids && forall id :: id in ids ==> rank[id] <= rank[top]
  {
    top :| top in ids;
    if ids != {top} {
      var other := Highest(ids - {top}, rank);
      if rank[other] > rank[top] { top := other; }
    }
  }

  /** The highest step that has a grandparent has no children. */
  lemma GrandchildWithoutChildren(steps: Links, id: Uuid) returns (leaf: Uuid)
    requires Forest(steps) && HasGrandparent(steps, id)
    ensures HasGrandparent(steps, leaf) && Childless(steps, leaf)
  {
    var rank: map<Uuid, int> :| Ranked(steps, rank);
    var grandchildren := set j | j in steps && HasGrandparent(steps, j);
    assert id in grandchildren;
    leaf := Highest(grandchildren, rank);
    forall c | c in steps
      ensures steps[c].parent != Some(leaf)
    {
      if steps[c].parent == Some(leaf) { assert HasGrandparent(steps, c); }
    }
  }

  lemma GrandchildIsUnsafe(steps: Links, id: Uuid)
    requires Forest(steps) && Scoped(steps) && HasGrandparent(steps, id)
    ensures !RenamingIsSafe(steps)
  {
    hide Forest, RenameStatement, Childless;
    var leaf := GrandchildWithoutChildren(steps, id);
    var c := steps[leaf].parent.value;
    var p := steps[c].parent.value;
    var n := NewUuid(steps.Keys);
    GrandparentDiffers(steps, leaf);
    RenamingTwoBreaksForest(steps, p, c, leaf, n);
    assert EachOnce(steps, [(p, n), (leaf, p)]);
  }

  lemma GrandparentDiffers(steps: Links, leaf: Uuid)
    requires Forest(steps) && HasGrandparent(steps, leaf)
    ensures var p := steps[steps[leaf].parent.value].parent.value; p in steps && p != leaf
  {
    var rank: map<Uuid, int> :| Ranked(steps, rank);
  }

  lemma TwoParentsAreUnsafe(steps: Links, c: Uuid, e: Uuid)
    requires Forest(steps) && Scoped(steps) && c in steps && e in steps && SameScope(steps[c], steps[e])
    requires steps[c].parent.Some? && steps[e].parent.Some? && steps[c].parent != steps[e].parent
    requires forall id :: !HasGrandparent(steps, id)
    ensures !RenamingIsSafe(steps)
  {
    hide Forest, RenameStatement;
    var p, q := steps[c].parent.value, steps[e].parent.value;
    var n := NewUuid(steps.Keys);
    forall x | x in steps
      ensures steps[x].parent != Some(c) && steps[x].parent != Some(e)
    {
      assert !HasGrandparent(steps, x);
    }
    assert !HasGrandparent(steps, c) && !HasGrandparent(steps, e);
    assert Twins(steps, p, c, q, e);
    RenamingCrosswiseBreaksForest(steps, p, c, q, e, n, n + 1);
    assert EachOnce(steps, Crosswise(p, c, q, e, n, n + 1));
  }

  /**
   Renaming steps is safe for exactly those executions in which no submission and unit has two steps with
   different parents: then every accepted UPDATE of ids keeps the forest, and otherwise one closes a cycle.
   */
  lemma SafeIffOneParent(steps: Links)
    requires Forest(steps) && Scoped(steps)
    ensures RenamingIsSafe(steps) <==> OneParent(steps)
  {
    hide Forest, Scoped, RenameStatement;
    if OneParent(steps) {
      forall moves | EachOnce(steps, moves) && RenameStatement(steps, moves).Some?
        ensures Forest(RenameStatement(steps, moves).value)
      {
        OneParentKeepsForest(steps, moves);
      }
    } else if id :| HasGrandparent(steps, id) {
      GrandchildIsUnsafe(steps, id);
    } else {
      var c, e :| c in steps && e in steps && SameScope(steps[c], steps[e]) && steps[c].parent.Some? && steps[e].parent.Some? &&
                  steps[c].parent != steps[e].parent;
      TwoParentsAreUnsafe(steps, c, e);
    }
  }

  /** The steps of a tenant. */
  function LinksOf(rows: Rows, tenant: Uuid): Links {
    map k | k in rows && k.StepKey? && k.tenant == tenant && rows[k].StepRow? ::
      k.id := Link(rows[k].intent.submission, rows[k].intent.unit, rows[k].intent.parent)
  }

  /** In every state that the other steps of the model reach, the steps of a tenant are such an execution. */
  lemma LinkedIsForest(rows: Rows, tenant: Uuid)
    requires Linked(rows)
    ensures Forest(LinksOf(rows, tenant)) && Scoped(LinksOf(rows, tenant))
  {
    var steps := LinksOf(rows, tenant);
    var rank := map id | id in steps :: rows[StepKey(tenant, id)].born;
    assert Ranked(steps, rank);
  }

  lemma ReachedSafeIffOneParent(run: seq<Db>, actions: seq<Action>, i: nat, tenant: Uuid)
    requires IsRun(run, actions) && i <= |actions|
    ensures RenamingIsSafe(LinksOf(run[i].rows, tenant)) <==> OneParent(LinksOf(run[i].rows, tenant))
  {
    hide RenamingIsSafe, OneParent, Forest, Scoped, Linked, LinksOf;
    RunKeeps(run, actions, i);
    LinkedIsForest(run[i].rows, tenant);
    SafeIffOneParent(LinksOf(run[i].rows, tenant));
  }

  const CHAIN: Links := map[1 := Link(20, 1, None), 2 := Link(20, 1, Some(1)), 5 := Link(20, 1, Some(2))]

  lemma ChainIsForest()
    ensures Forest(CHAIN)
  {
    assert Ranked(CHAIN, map[1 := 0, 2 := 1, 5 := 2]);
  }

  lemma ChainHasLeaf()
    ensures Scoped(CHAIN) && Childless(CHAIN, 5)
  {
  }

  /** For instance 1 becomes 3, and 5 takes its place under its own parent 2. */
  lemma ChainBreaks()
    ensures Forest(CHAIN)
    ensures var next := RenameStatement(CHAIN, [(1, 3), (5, 1)]); next.Some? && !Forest(next.value)
  {
    hide Forest, Scoped, Childless, RenameStatement;
    ChainIsForest();
    ChainHasLeaf();
    RenamingTwoBreaksForest(CHAIN, 1, 2, 5, 3);
  }

  const PAIRS: Links :=
    map[1 := Link(20, 1, None), 2 := Link(20, 1, Some(1)), 3 := Link(20, 1, None), 4 := Link(20, 1, Some(3))]

  lemma PairsAreForest()
    ensures Forest(PAIRS) && Twins(PAIRS, 1, 2, 3, 4)
  {
    assert Ranked(PAIRS, map[1 := 0, 2 := 1, 3 := 0, 4 := 1]);
  }

  /** And with two trees 3 and 1 become 5 and 6, and 2 and 4 take their places. */
  lemma PairsBreak()
    ensures Forest(PAIRS)
    ensures var next := RenameStatement(PAIRS, [(3, 5), (2, 3), (1, 6), (4, 1)]); next.Some? && !Forest(next.value)
  {
    hide Scoped, Childless, Twins, RenameStatement, Ranked;
    PairsAreForest();
    RenamingCrosswiseBreaksForest(PAIRS, 1, 2, 3, 4, 5, 6);
  }
}
