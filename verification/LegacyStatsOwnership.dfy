/** Ownership of reports over every run of operations on any number of
    collections and detached containers. */
module LegacyStatsOwnership {
  import opened Common
  import opened LegacyStats

  /** A collection owns its reports and deletes them in the end; a container that
      was detached from one is a plain list of pointers. */
  datatype Holder = Collection(name: nat) | Container(name: nat)

  /** All lists of reports, the addresses deleted, those that were lost with a
      container, and the next address to be handed out. */
  datatype World = World(holders: map<Holder, seq<Report>>, deleted: set<nat>, leaked: set<nat>, next: nat)

  datatype Op =
    | Create(h: nat)
    | InsertNew(h: nat, id: Id)
    | FindOrAddNew(h: nat, id: Id)
    | ReplaceOrAddNew(h: nat, id: Id)
    | Detach(h: nat, c: nat)
    | Merge(h: nat, c: nat)
    | Destroy(h: nat)
    | Discard(c: nat)

  /** The operation names lists that are there or new, as the case may be. */
  predicate Named(w: World, op: Op) {
    match op
    case Create(h) => Collection(h) !in w.holders
    case Detach(h, c) => Collection(h) in w.holders && Container(c) !in w.holders
    case Merge(h, c) => Collection(h) in w.holders && Container(c) in w.holders
    case Discard(c) => Container(c) in w.holders
    case _ => Collection(op.h) in w.holders
  }

  /** And every comparison of ids that it makes is a valid one; a new id must not
      be found already. */
  predicate Enabled(w: World, op: Op) {
    && Named(w, op)
    && match op
       case InsertNew(h, id) => Located(w.holders[Collection(h)], id) == Some(|w.holders[Collection(h)]|)
       case FindOrAddNew(h, id) => Located(w.holders[Collection(h)], id).Some?
       case ReplaceOrAddNew(h, id) => Located(w.holders[Collection(h)], id).Some?
       case Merge(h, c) => MergeLocated(w.holders[Collection(h)], w.holders[Container(c)]).Some?
       case _ => true
  }

  /** A new report with this id takes place k. */
  function Place(w: World, h: Holder, k: nat, id: Id): World
    requires h in w.holders && k <= |w.holders[h]|
  {
    w.(holders := w.holders[h := Placed(w.holders[h], k, Report(w.next, id))],
       deleted := w.deleted + Replaced(w.holders[h], k), next := w.next + 1)
  }

  function Step(w: World, op: Op): World
    requires Enabled(w, op)
  {
    match op
    case Create(h) => w.(holders := w.holders[Collection(h) := []])
    case InsertNew(h, id) => Place(w, Collection(h), |w.holders[Collection(h)]|, id)
    case FindOrAddNew(h, id) =>
      var k := Located(w.holders[Collection(h)], id).value;
      if k < |w.holders[Collection(h)]| then w else Place(w, Collection(h), k, id)
    case ReplaceOrAddNew(h, id) =>
      var list, k := w.holders[Collection(h)], Located(w.holders[Collection(h)], id).value;
      Place(w, Collection(h), k, if k < |list| then list[k].id else id)
    case Detach(h, c) => w.(holders := w.holders[Container(c) := w.holders[Collection(h)]][Collection(h) := []])
    case Merge(h, c) =>
      var m := MergeLocated(w.holders[Collection(h)], w.holders[Container(c)]).value;
      w.(holders := (w.holders - {Container(c)})[Collection(h) := m.list], deleted := w.deleted + m.displaced)
    case Destroy(h) =>
      w.(holders := w.holders - {Collection(h)}, deleted := w.deleted + Ptrs(w.holders[Collection(h)]))
    case Discard(c) =>
      w.(holders := w.holders - {Container(c)}, leaked := w.leaked + Ptrs(w.holders[Container(c)]))
  }

  // -------------------------------------------------------------------- ownership

  predicate HoldsAt(w: World, h: Holder, i: int, p: nat) {
    h in w.holders && 0 <= i < |w.holders[h]| && w.holders[h][i].ptr == p
  }

  /** Every allocated address is in exactly one place of exactly one list, or it
      is deleted, or it is leaked, and never two of these. */
  ghost predicate Conserved(w: World) {
    && (forall h, i, p: nat :: HoldsAt(w, h, i, p) ==> p < w.next && p !in w.deleted && p !in w.leaked)
    && (forall h, i, g, j, p: nat :: HoldsAt(w, h, i, p) && HoldsAt(w, g, j, p) ==> h == g && i == j)
    && (forall p: nat :: p < w.next && p !in w.deleted && p !in w.leaked ==> exists h, i :: HoldsAt(w, h, i, p))
    && (forall p | p in w.deleted :: p < w.next)
    && (forall p | p in w.leaked :: p < w.next)
    && w.deleted !! w.leaked
  }

  lemma PlaceConserved(w: World, h: Holder, k: nat, id: Id)
    requires h in w.holders && k <= |w.holders[h]| && Conserved(w)
    ensures Conserved(Place(w, h, k, id))
  {
    var list, w' := w.holders[h], Place(w, h, k, id);
    assert k < |list| ==> HoldsAt(w, h, k, list[k].ptr);
    assert forall g, i, p: nat :: HoldsAt(w', g, i, p) <==>
             if g == h && i == k then p == w.next else HoldsAt(w, g, i, p);
    forall p: nat | p < w'.next && p !in w'.deleted && p !in w'.leaked ensures exists g, i :: HoldsAt(w', g, i, p) {
      if p == w.next {
        assert HoldsAt(w', h, k, p);
      } else {
        var g, i :| HoldsAt(w, g, i, p);
        assert HoldsAt(w', g, i, p);
      }
    }
  }

  /** The first incoming report moves to place k, deleting the one it displaces. */
  function MoveHead(w: World, h: Holder, c: Holder, k: nat): World
    requires h in w.holders && c in w.holders && h != c && w.holders[c] != [] && k <= |w.holders[h]|
  {
    var list, incoming := w.holders[h], w.holders[c];
    w.(holders := w.holders[c := incoming[1..]][h := Placed(list, k, incoming[0])],
       deleted := w.deleted + Replaced(list, k))
  }

  /** Where a report was before the move: the new one at place k of h came from
      the front of c, and the rest of c moved up. */
  function Origin(h: Holder, k: int, c: Holder, g: Holder, i: int): (Holder, int) {
    if g == h && i == k then (c, 0) else if g == c then (c, i + 1) else (g, i)
  }

  lemma MoveHeadConserved(w: World, h: Holder, c: Holder, k: nat)
    requires h in w.holders && c in w.holders && h != c && w.holders[c] != [] && k <= |w.holders[h]|
    requires Conserved(w)
    ensures Conserved(MoveHead(w, h, c, k))
  {
    var list, incoming := w.holders[h], w.holders[c];
    var r, w' := incoming[0], MoveHead(w, h, c, k);
    assert HoldsAt(w, c, 0, r.ptr);
    assert k < |list| ==> HoldsAt(w, h, k, list[k].ptr);
    forall g, i, p: nat | HoldsAt(w', g, i, p)
      ensures var o := Origin(h, k, c, g, i); HoldsAt(w, o.0, o.1, p) && o != (h, k)
    {
    }
    forall g, i, g', i', p: nat | HoldsAt(w', g, i, p) && HoldsAt(w', g', i', p) ensures g == g' && i == i' {
      assert Origin(h, k, c, g, i) == Origin(h, k, c, g', i');
    }
    forall g, i, p: nat | HoldsAt(w', g, i, p) ensures p < w'.next && p !in w'.deleted && p !in w'.leaked {
      var o := Origin(h, k, c, g, i);
      assert HoldsAt(w, o.0, o.1, p);
    }
    forall p: nat | p < w'.next && p !in w'.deleted && p !in w'.leaked ensures exists g, i :: HoldsAt(w', g, i, p) {
      var g, i :| HoldsAt(w, g, i, p);
      if g == c && i == 0 {
        assert HoldsAt(w', h, k, p);
      } else if g == c {
        assert HoldsAt(w', c, i - 1, p);
      } else {
        assert HoldsAt(w', g, i, p);
      }
    }
  }

  lemma {:induction false} MergeConserved(w: World, h: nat, c: nat)
    requires Enabled(w, Merge(h, c)) && Conserved(w)
    ensures Conserved(Step(w, Merge(h, c)))
    decreases |w.holders[Container(c)]|
  {
    var list, incoming, w' := w.holders[Collection(h)], w.holders[Container(c)], Step(w, Merge(h, c));
    if incoming == [] {
      assert forall g, i, p: nat :: HoldsAt(w', g, i, p) <==> HoldsAt(w, g, i, p);
      assert w'.deleted == w.deleted;
    } else {
      var k := Located(list, incoming[0].id).value;
      var m := MoveHead(w, Collection(h), Container(c), k);
      MoveHeadConserved(w, Collection(h), Container(c), k);
      MergeConserved(m, h, c);
      assert Step(m, Merge(h, c)).holders == w'.holders;
      assert Step(m, Merge(h, c)).deleted == w'.deleted;
    }
  }

  lemma DetachConserved(w: World, h: nat, c: nat)
    requires Enabled(w, Detach(h, c)) && Conserved(w)
    ensures Conserved(Step(w, Detach(h, c)))
  {
    var w' := Step(w, Detach(h, c));
    assert forall g, i, p: nat :: HoldsAt(w', g, i, p) <==>
             if g == Container(c) then HoldsAt(w, Collection(h), i, p)
             else g != Collection(h) && HoldsAt(w, g, i, p);
    forall p: nat | p < w'.next && p !in w'.deleted && p !in w'.leaked ensures exists g, i :: HoldsAt(w', g, i, p) {
      var g, i :| HoldsAt(w, g, i, p);
      assert HoldsAt(w', if g == Collection(h) then Container(c) else g, i, p);
    }
  }

  /** A list goes away: its reports are deleted, or they are leaked. */
  lemma RemovalConserved(w: World, h: Holder, w': World)
    requires Conserved(w) && h in w.holders && w'.holders == w.holders - {h} && w'.next == w.next
    requires || (w'.deleted == w.deleted + Ptrs(w.holders[h]) && w'.leaked == w.leaked)
             || (w'.leaked == w.leaked + Ptrs(w.holders[h]) && w'.deleted == w.deleted)
    ensures Conserved(w')
  {
    var list := w.holders[h];
    assert forall g, i, p: nat :: HoldsAt(w', g, i, p) <==> g != h && HoldsAt(w, g, i, p);
    assert forall i | 0 <= i < |list| :: list[i] in list;
    forall p | p in Ptrs(list) ensures exists i :: HoldsAt(w, h, i, p) {
      var r :| r in list && r.ptr == p;
      var i :| 0 <= i < |list| && list[i] == r;
      assert HoldsAt(w, h, i, p);
    }
    forall p: nat | p < w'.next && p !in w'.deleted && p !in w'.leaked ensures exists g, i :: HoldsAt(w', g, i, p) {
      var g, i :| HoldsAt(w, g, i, p);
      assert HoldsAt(w', g, i, p);
    }
  }

  lemma StepConserved(w: World, op: Op)
    requires Enabled(w, op) && Conserved(w)
    ensures Conserved(Step(w, op))
  {
    match op
    case Create(h) =>
      var w' := Step(w, op);
      assert forall g, i, p: nat :: HoldsAt(w', g, i, p) <==> HoldsAt(w, g, i, p);
    case InsertNew(h, id) => PlaceConserved(w, Collection(h), |w.holders[Collection(h)]|, id);
    case FindOrAddNew(h, id) =>
      var k := Located(w.holders[Collection(h)], id).value;
      PlaceConserved(w, Collection(h), k, id);
    case ReplaceOrAddNew(h, id) =>
      var list, k := w.holders[Collection(h)], Located(w.holders[Collection(h)], id).value;
      PlaceConserved(w, Collection(h), k, if k < |list| then list[k].id else id);
    case Detach(h, c) => DetachConserved(w, h, c);
    case Merge(h, c) => MergeConserved(w, h, c);
    case Destroy(h) => RemovalConserved(w, Collection(h), Step(w, op));
    case Discard(c) => RemovalConserved(w, Container(c), Step(w, op));
  }

  const EMPTY := World(map[], {}, {}, 0)

  ghost predicate IsRun(worlds: seq<World>, ops: seq<Op>) {
    && |worlds| == |ops| + 1
    && worlds[0] == EMPTY
    && forall i | 0 <= i < |ops| :: Enabled(worlds[i], ops[i]) && worlds[i + 1] == Step(worlds[i], ops[i])
  }

  /** In every state of every run, whatever the ids, each report has exactly one
      owner, has been deleted, or has been leaked; and nothing deleted or leaked
      comes back. */
  lemma {:induction false} RunConserves(worlds: seq<World>, ops: seq<Op>, n: nat)
    requires IsRun(worlds, ops) && n <= |ops|
    ensures Conserved(worlds[n])
    ensures n != 0 ==> && worlds[n - 1].deleted <= worlds[n].deleted && worlds[n - 1].leaked <= worlds[n].leaked
                       && worlds[n - 1].next <= worlds[n].next
  {
    if n != 0 {
      RunConserves(worlds, ops, n - 1);
      assert worlds[(n - 1) + 1] == Step(worlds[n - 1], ops[n - 1]);
      StepConserved(worlds[n - 1], ops[n - 1]);
    }
  }

  /** This operation drops a container that still holds reports. */
  predicate Leaks(w: World, op: Op) {
    op.Discard? && Container(op.c) in w.holders && w.holders[Container(op.c)] != []
  }

  lemma StepLeaks(w: World, op: Op)
    requires Enabled(w, op)
    ensures Step(w, op).leaked == {} <==> w.leaked == {} && !Leaks(w, op)
  {
    if Leaks(w, op) {
      var list := w.holders[Container(op.c)];
      assert list[0] in list;
      assert list[0].ptr in Ptrs(list);
    }
  }

  lemma {:induction false} LeaksExactly(worlds: seq<World>, ops: seq<Op>, n: nat)
    requires IsRun(worlds, ops) && n <= |ops|
    ensures worlds[n].leaked == {} <==> forall i | 0 <= i < n :: !Leaks(worlds[i], ops[i])
  {
    if n != 0 {
      LeaksExactly(worlds, ops, n - 1);
      assert worlds[(n - 1) + 1] == Step(worlds[n - 1], ops[n - 1]);
      StepLeaks(worlds[n - 1], ops[n - 1]);
    }
  }

  /** Once all lists are gone, every report has been deleted if and only if no
      container was dropped with reports in it. */
  lemma AllDeletedExactly(worlds: seq<World>, ops: seq<Op>)
    requires IsRun(worlds, ops) && worlds[|ops|].holders == map[]
    ensures (forall p: nat :: p < worlds[|ops|].next ==> p in worlds[|ops|].deleted) <==>
            (forall i | 0 <= i < |ops| :: !Leaks(worlds[i], ops[i]))
  {
    var w := worlds[|ops|];
    RunConserves(worlds, ops, |ops|);
    LeaksExactly(worlds, ops, |ops|);
    assert forall h, i, p: nat :: !HoldsAt(w, h, i, p);
    if w.leaked == {} {
      assert forall p: nat | p < w.next :: p in w.deleted;
    } else {
      var p :| p in w.leaked;
      assert p < w.next && p !in w.deleted;
    }
  }

  function Chain(worlds: seq<World>, op: Op): seq<World>
    requires worlds != [] && Enabled(worlds[|worlds| - 1], op)
  {
    worlds + [Step(worlds[|worlds| - 1], op)]
  }

  lemma OneReport(id: Id) returns (worlds: seq<World>, ops: seq<Op>)
    ensures ops == [Create(0), InsertNew(0, id)] && IsRun(worlds, ops)
    ensures worlds[2] == World(map[Collection(0) := [Report(0, id)]], {}, {}, 1)
  {
    ops := [Create(0), InsertNew(0, id)];
    worlds := Chain([EMPTY], ops[0]);
    worlds := Chain(worlds, ops[1]);
    assert worlds[2].holders[Collection(0)] == [Report(0, id)];
  }

  /** A run that leaks: a report is inserted and detached, and the container is
      dropped after the collection. */
  lemma DroppedContainerLeaks(id: Id) returns (worlds: seq<World>, ops: seq<Op>)
    ensures IsRun(worlds, ops) && worlds[|ops|].holders == map[]
    ensures worlds[|ops|].next == 1 && 0 !in worlds[|ops|].deleted
  {
    worlds, ops := OneReport(id);
    ops := ops + [Detach(0, 1), Destroy(0), Discard(1)];
    worlds := Chain(worlds, Detach(0, 1));
    worlds := Chain(worlds, Destroy(0));
    assert worlds[4].holders.Keys == {Container(1)} && worlds[4].deleted == {};
    worlds := Chain(worlds, Discard(1));
  }

  // ------------------------------------------------------------------- refinement

  /** All ids are among these, and no list has one twice. */
  ghost predicate Tidy(w: World, ids: set<Id>) {
    forall h | h in w.holders :: DistinctIds(w.holders[h]) && IdsOf(w.holders[h]) <= ids
  }

  predicate IdAmong(op: Op, ids: set<Id>) {
    op.InsertNew? || op.FindOrAddNew? || op.ReplaceOrAddNew? ==> op.id in ids
  }

  /** What a map asks for: the lists are there, and a new id is absent. */
  predicate Asked(w: World, op: Op) {
    Named(w, op) && (op.InsertNew? ==> op.id !in AsMap(w.holders[Collection(op.h)]))
  }

  /** Among comparable ids nothing more is needed to carry out an operation. */
  lemma ComparableEnabled(w: World, op: Op, ids: set<Id>)
    requires Comparable(ids) && Tidy(w, ids) && IdAmong(op, ids)
    ensures Enabled(w, op) <==> Asked(w, op)
  {
    if Named(w, op) {
      if op.InsertNew? || op.FindOrAddNew? || op.ReplaceOrAddNew? {
        LocatedIsIndex(w.holders[Collection(op.h)], op.id);
        FindIsLookup(w.holders[Collection(op.h)], op.id);
      } else if op.Merge? {
        MergeLocatedIsMerge(w.holders[Collection(op.h)], w.holders[Container(op.c)], ids);
      }
    }
  }

  /** What the operation does to the map that a collection stands for. */
  ghost predicate Refines(w: World, op: Op)
    requires Enabled(w, op)
  {
    var w' := Step(w, op);
    match op
    case Create(h) => AsMap(w'.holders[Collection(h)]) == map[]
    case InsertNew(h, id) =>
      var before := AsMap(w.holders[Collection(h)]);
      id !in before && AsMap(w'.holders[Collection(h)]) == before[id := Report(w.next, id)]
    case FindOrAddNew(h, id) =>
      var before := AsMap(w.holders[Collection(h)]);
      AsMap(w'.holders[Collection(h)]) == if id in before then before else before[id := Report(w.next, id)]
    case ReplaceOrAddNew(h, id) =>
      AsMap(w'.holders[Collection(h)]) == AsMap(w.holders[Collection(h)])[id := Report(w.next, id)]
    case Detach(h, c) =>
      && AsMap(w'.holders[Collection(h)]) == map[]
      && AsMap(w'.holders[Container(c)]) == AsMap(w.holders[Collection(h)])
    case Merge(h, c) =>
      && Container(c) !in w'.holders
      && AsMap(w'.holders[Collection(h)]) == AsMap(w.holders[Collection(h)]) + AsMap(w.holders[Container(c)])
    case Destroy(h) => Collection(h) !in w'.holders
    case Discard(c) => Container(c) !in w'.holders
  }

  /** The lists that an operation is about. */
  function Subjects(op: Op): set<Holder> {
    match op
    case Detach(h, c) => {Collection(h), Container(c)}
    case Merge(h, c) => {Collection(h), Container(c)}
    case Discard(c) => {Container(c)}
    case _ => {Collection(op.h)}
  }

  lemma PlaceRefines(w: World, h: Holder, id: Id, ids: set<Id>)
    requires Comparable(ids) && Tidy(w, ids) && id in ids && h in w.holders
    ensures var list, r := w.holders[h], Report(w.next, id);
            && Located(list, id) == Some(IndexOf(list, id))
            && (id in AsMap(list) <==> IndexOf(list, id) < |list|)
            && Place(w, h, IndexOf(list, id), id).holders[h] == MergeOne(list, r)
            && AsMap(MergeOne(list, r)) == AsMap(list)[id := r]
            && DistinctIds(MergeOne(list, r)) && IdsOf(MergeOne(list, r)) <= ids
  {
    var list, r := w.holders[h], Report(w.next, id);
    LocatedIsIndex(list, id);
    FindIsLookup(list, id);
    MergeOneIsUpdate(list, r);
    MergeOneDistinct(list, r);
    MergeIds(list, r, ids);
  }

  lemma MergeRefines(w: World, h: nat, c: nat, ids: set<Id>)
    requires Comparable(ids) && Tidy(w, ids) && Enabled(w, Merge(h, c))
    ensures Refines(w, Merge(h, c)) && Tidy(Step(w, Merge(h, c)), ids)
  {
    var list, incoming := w.holders[Collection(h)], w.holders[Container(c)];
    MergeLocatedIsMerge(list, incoming, ids);
    MergeIsOverride(list, incoming);
    MergeAllIds(list, incoming, ids);
  }

  lemma {:induction false} MergeAllIds(list: seq<Report>, incoming: seq<Report>, ids: set<Id>)
    requires Comparable(ids) && IdsOf(list) <= ids && IdsOf(incoming) <= ids
    ensures IdsOf(MergeAll(list, incoming)) <= ids
    decreases |incoming|
  {
    if incoming != [] {
      assert incoming[0] in incoming;
      assert incoming[0].id in IdsOf(incoming);
      assert IdsOf(incoming[1..]) <= IdsOf(incoming);
      MergeIds(list, incoming[0], ids);
      MergeAllIds(MergeOne(list, incoming[0]), incoming[1..], ids);
    }
  }

  /** Among comparable ids every operation acts on maps, and leaves all lists that it is not about alone. */
  lemma StepRefinesMap(w: World, op: Op, ids: set<Id>)
    requires Comparable(ids) && Tidy(w, ids) && IdAmong(op, ids) && Enabled(w, op)
    ensures Refines(w, op) && Tidy(Step(w, op), ids)
    ensures forall g | g in w.holders && g !in Subjects(op) ::
              g in Step(w, op).holders && Step(w, op).holders[g] == w.holders[g]
  {
    match op
    case InsertNew(h, id) => PlaceRefines(w, Collection(h), id, ids);
    case FindOrAddNew(h, id) => PlaceRefines(w, Collection(h), id, ids);
    case ReplaceOrAddNew(h, id) => PlaceRefines(w, Collection(h), id, ids);
    case Merge(h, c) => MergeRefines(w, h, c, ids);
    case _ =>
  }

  /** So a run that uses such ids is, step by step, a run on maps. */
  lemma {:induction false} RunRefinesMap(worlds: seq<World>, ops: seq<Op>, ids: set<Id>, n: nat)
    requires IsRun(worlds, ops) && n <= |ops| && Comparable(ids) && AllAmong(ops, ids)
    ensures Tidy(worlds[n], ids)
    ensures n < |ops| ==> Refines(worlds[n], ops[n])
  {
    if n != 0 {
      RunRefinesMap(worlds, ops, ids, n - 1);
      assert worlds[(n - 1) + 1] == Step(worlds[n - 1], ops[n - 1]);
      StepRefinesMap(worlds[n - 1], ops[n - 1], ids);
    }
    if n < |ops| {
      StepRefinesMap(worlds[n], ops[n], ids);
    }
  }

  /** Collections of reports with these ids act as maps: after every run, an
      operation that a map admits can be carried out and does what it does to a
      map. */
  ghost predicate ActAsMaps(ids: set<Id>) {
    forall worlds, ops, op | IsRun(worlds, ops) && AllAmong(ops, ids) && IdAmong(op, ids) && Asked(worlds[|ops|], op) ::
      Enabled(worlds[|ops|], op) && Refines(worlds[|ops|], op)
  }

  predicate AllAmong(ops: seq<Op>, ids: set<Id>) { forall op | op in ops :: IdAmong(op, ids) }

  /** They do exactly when the ids are comparable. */
  lemma MapsExactly(ids: set<Id>)
    ensures ActAsMaps(ids) <==> Comparable(ids)
  {
    if Comparable(ids) {
      forall worlds, ops, op | IsRun(worlds, ops) && AllAmong(ops, ids) && IdAmong(op, ids) && Asked(worlds[|ops|], op)
        ensures Enabled(worlds[|ops|], op) && Refines(worlds[|ops|], op)
      {
        RunRefinesMap(worlds, ops, ids, |ops|);
        ComparableEnabled(worlds[|ops|], op, ids);
        StepRefinesMap(worlds[|ops|], op, ids);
      }
    } else {
      var a, b :| a in ids && b in ids && a.Equals(b) != Some(a == b);
      var worlds, ops := IncomparablePair(a, b);
      assert AllAmong(ops, ids) && IdAmong(FindOrAddNew(0, b), ids);
    }
  }

  /** With one report in a collection, looking for an id that it does not compare
      to as equality would have it is an invalid cast, or finds what it should
      not. */
  lemma IncomparablePair(a: Id, b: Id) returns (worlds: seq<World>, ops: seq<Op>)
    requires a.Equals(b) != Some(a == b)
    ensures ops == [Create(0), InsertNew(0, a)] && IsRun(worlds, ops)
    ensures worlds[2].next == 1 && Asked(worlds[2], FindOrAddNew(0, b))
    ensures Enabled(worlds[2], FindOrAddNew(0, b)) <==> a.Equals(b).Some?
    ensures Enabled(worlds[2], FindOrAddNew(0, b)) ==>
              Step(worlds[2], FindOrAddNew(0, b)) == worlds[2] && !Refines(worlds[2], FindOrAddNew(0, b))
  {
    worlds, ops := OneReport(a);
    var list := worlds[2].holders[Collection(0)];
    assert list[1..] == [];
    EqualsMeansEqual(a, b);
    FindIsLookup(list, b);
  }

  /** For one, the bandwidth estimation id equals every id of its type, so that
      another one is taken for found. */
  lemma OtherClassIsFound(text: string) returns (worlds: seq<World>, ops: seq<Op>)
    ensures IsRun(worlds, ops) && |ops| == 3 && ops[2] == FindOrAddNew(0, TypedId(Bwe, text))
    ensures worlds[3].next == 1 && !Refines(worlds[2], ops[2])
  {
    worlds, ops := IncomparablePair(BandwidthEstimationId, TypedId(Bwe, text));
    worlds := Chain(worlds, FindOrAddNew(0, TypedId(Bwe, text)));
    ops := ops + [FindOrAddNew(0, TypedId(Bwe, text))];
  }

  /** But two classes of one type may be used together, if their texts differ. */
  lemma ClassesMix(s: string, t: string, d: Direction)
    ensures Comparable({TypedId(Ssrc, s), IdWithDirection(Ssrc, t, d)}) <==> s != t
  {
    ComparableExactly({TypedId(Ssrc, s), IdWithDirection(Ssrc, t, d)});
  }
}
