/** Legacy statistics: report ids with their comparison, and the collection of
    owned reports that is documented as a map from id to report. */
module LegacyStats {
  import opened Common

  datatype StatsType =
    | Session | Transport | Component | CandidatePair | Bwe | Ssrc | RemoteSsrc | Track
    | IceLocalCandidate | IceRemoteCandidate | Certificate | DataChannel

  datatype Direction = Send | Receive

  /** One constructor per id class. */
  datatype Id =
    | BandwidthEstimationId
    | TypedId(typ: StatsType, text: string)
    | TypedIntId(typ: StatsType, number: int)
    | IdWithDirection(typ: StatsType, text: string, direction: Direction)
    | CandidateId(local: bool, text: string)
    | ComponentId(content: string, component: int)
    | CandidatePairId(content: string, component: int, index: int)
  {
    function Type(): StatsType {
      match this
      case BandwidthEstimationId => Bwe
      case TypedId(t, _) => t
      case TypedIntId(t, _) => t
      case IdWithDirection(t, _, _) => t
      case CandidateId(isLocal, _) => if isLocal then IceLocalCandidate else IceRemoteCandidate
      case ComponentId(_, _) => Component
      case CandidatePairId(_, _, _) => CandidatePair
    }

    /** Ids of the class TypedId or of a class derived from it. */
    predicate HasText() { TypedId? || IdWithDirection? || CandidateId? }

    /** The comparison of this id's class: the other id must have the same type,
        and is then cast to this class. None: the cast is not a valid one. */
    function Equals(other: Id): Option<bool> {
      if other.Type() != Type() then Some(false)
      else match this
        case BandwidthEstimationId => Some(true)
        case TypedIntId(_, n) => if other.TypedIntId? then Some(other.number == n) else None
        case ComponentId(s, n) =>
          if other.ComponentId? then Some(other.component == n && other.content == s) else None
        case CandidatePairId(s, n, i) =>
          if other.CandidatePairId? then Some(other.component == n && other.content == s && other.index == i) else None
        case IdWithDirection(_, s, d) =>
          if !other.HasText() then None
          else if other.text != s then Some(false)
          else if other.IdWithDirection? then Some(other.direction == d)
          else None
        case _ => if other.HasText() then Some(other.text == text) else None
    }

    predicate SameClass(other: Id) {
      || (BandwidthEstimationId? && other.BandwidthEstimationId?)
      || (TypedId? && other.TypedId?)
      || (TypedIntId? && other.TypedIntId?)
      || (IdWithDirection? && other.IdWithDirection?)
      || (CandidateId? && other.CandidateId?)
      || (ComponentId? && other.ComponentId?)
      || (CandidatePairId? && other.CandidatePairId?)
    }
  }

  /** The comparison is defined and means equality exactly where the types
      differ, the classes agree, or the two texts already differ. */
  lemma EqualsMeansEqual(a: Id, b: Id)
    ensures a.Equals(b) == Some(a == b) <==>
            a.Type() != b.Type() || a.SameClass(b) || (a.HasText() && b.HasText() && a.text != b.text)
  {
  }

  /** It takes another id for this one exactly where both are of one type and
      this is the bandwidth estimation id, or both have the same text and this
      one's class does not look further; and it is undefined exactly where the
      types agree and the cast to this class is not a valid one. */
  lemma EqualsElsewhere(a: Id, b: Id)
    ensures a.Equals(b) == Some(true) && a != b <==>
            && a.Type() == b.Type() && !a.SameClass(b)
            && (a.BandwidthEstimationId? ||
                ((a.TypedId? || a.CandidateId?) && (b.TypedId? || b.CandidateId? || b.IdWithDirection?) && a.text == b.text))
    ensures a.Equals(b) == None <==>
            && a.Type() == b.Type() && !a.SameClass(b) && !a.BandwidthEstimationId?
            && !((a.TypedId? || a.CandidateId?) && (b.TypedId? || b.CandidateId? || b.IdWithDirection?))
            && !(a.IdWithDirection? && (b.TypedId? || b.CandidateId?) && a.text != b.text)
  {
  }

  /** The classes with a type of their own. */
  lemma FixedTypes(s: string, n: int, i: int)
    ensures TypedId(Bwe, s).Equals(BandwidthEstimationId) == None
    ensures TypedId(IceLocalCandidate, s).Equals(CandidateId(true, s)) == Some(true)
    ensures TypedId(IceRemoteCandidate, s).Equals(CandidateId(false, s)) == Some(true)
    ensures TypedId(Component, s).Equals(ComponentId(s, n)) == None
    ensures TypedId(CandidatePair, s).Equals(CandidatePairId(s, n, i)) == None
  {
  }

  /** Otherwise it need not even be symmetric. */
  lemma EqualsNotSymmetric(s: string, d: Direction)
    ensures TypedId(Ssrc, s).Equals(IdWithDirection(Ssrc, s, d)) == Some(true)
    ensures IdWithDirection(Ssrc, s, d).Equals(TypedId(Ssrc, s)) == None
  {
  }

  /** Among these ids every comparison is a valid one, and means equality. */
  ghost predicate Comparable(ids: set<Id>) {
    forall a, b | a in ids && b in ids :: a.Equals(b) == Some(a == b)
  }

  /** That is: ids of one type are of one class, or else have texts that differ. */
  lemma ComparableExactly(ids: set<Id>)
    ensures Comparable(ids) <==>
            forall a, b | a in ids && b in ids ::
              a.Type() != b.Type() || a.SameClass(b) || (a.HasText() && b.HasText() && a.text != b.text)
  {
    forall a, b | a in ids && b in ids
      ensures a.Equals(b) == Some(a == b) <==>
              a.Type() != b.Type() || a.SameClass(b) || (a.HasText() && b.HasText() && a.text != b.text)
    {
      EqualsMeansEqual(a, b);
    }
  }

  // ------------------------------------------------------------------- lists

  /** A report in memory: its address and its id, which never changes. */
  datatype Report = Report(ptr: nat, id: Id)

  ghost predicate DistinctIds(list: seq<Report>) {
    forall i, j | 0 <= i < j < |list| :: list[i].id != list[j].id
  }

  ghost function IdsOf(list: seq<Report>): set<Id> { set r | r in list :: r.id }

  /** The position of the first report with this id, or the length. */
  function IndexOf(list: seq<Report>, id: Id): (k: nat)
    ensures k <= |list|
    ensures k < |list| ==> list[k].id == id
    ensures forall j | 0 <= j < k :: list[j].id != id
  {
    if list == [] || list[0].id == id then 0 else 1 + IndexOf(list[1..], id)
  }

  /** The report that a search for this id finds. */
  function Find(list: seq<Report>, id: Id): Option<Report> {
    var k := IndexOf(list, id);
    if k < |list| then Some(list[k]) else None
  }

  /** The map from id to report that the list stands for. */
  function AsMap(list: seq<Report>): map<Id, Report> {
    if list == [] then map[] else AsMap(list[1..])[list[0].id := list[0]]
  }

  lemma {:induction false} FindIsLookup(list: seq<Report>, id: Id)
    ensures Find(list, id) == if id in AsMap(list) then Some(AsMap(list)[id]) else None
  {
    if list != [] { FindIsLookup(list[1..], id); }
  }

  /** The list after an incoming report has taken its place: the place of the
      report it replaces, or the end. */
  function MergeOne(list: seq<Report>, r: Report): seq<Report> {
    var i := IndexOf(list, r.id);
    if i < |list| then list[i := r] else list + [r]
  }

  lemma FindAfterMergeOne(list: seq<Report>, r: Report, id: Id)
    ensures Find(MergeOne(list, r), id) == if id == r.id then Some(r) else Find(list, id)
  {
    var list', k, i := MergeOne(list, r), IndexOf(list, r.id), IndexOf(list, id);
    if id == r.id {
      IndexIs(list', id, k);
    } else if i < |list| {
      IndexIs(list', id, i);
    } else {
      NotFound(list', id);
    }
  }

  lemma IndexIs(list: seq<Report>, id: Id, i: nat)
    requires i < |list| && list[i].id == id && forall j | 0 <= j < i :: list[j].id != id
    ensures IndexOf(list, id) == i
  {
  }

  lemma NotFound(list: seq<Report>, id: Id)
    requires forall j | 0 <= j < |list| :: list[j].id != id
    ensures IndexOf(list, id) == |list|
  {
  }

  lemma MergeOneIsUpdate(list: seq<Report>, r: Report)
    ensures AsMap(MergeOne(list, r)) == AsMap(list)[r.id := r]
  {
    forall id
      ensures id in AsMap(MergeOne(list, r)) <==> id in AsMap(list)[r.id := r]
      ensures id in AsMap(MergeOne(list, r)) ==> AsMap(MergeOne(list, r))[id] == AsMap(list)[r.id := r][id]
    {
      FindIsLookup(list, id);
      FindIsLookup(MergeOne(list, r), id);
      FindAfterMergeOne(list, r, id);
    }
  }

  lemma MergeOneDistinct(list: seq<Report>, r: Report)
    requires DistinctIds(list)
    ensures DistinctIds(MergeOne(list, r))
  {
  }

  function MergeAll(list: seq<Report>, incoming: seq<Report>): seq<Report>
    decreases |incoming|
  {
    if incoming == [] then list else MergeAll(MergeOne(list, incoming[0]), incoming[1..])
  }

  /** The addresses of the reports that merging has to delete. */
  function Displaced(list: seq<Report>, incoming: seq<Report>): set<nat>
    decreases |incoming|
  {
    if incoming == [] then {}
    else
      var displaced := Find(list, incoming[0].id);
      (if displaced.Some? then {displaced.value.ptr} else {}) + Displaced(MergeOne(list, incoming[0]), incoming[1..])
  }

  lemma DistinctTail(list: seq<Report>)
    requires list != [] && DistinctIds(list)
    ensures DistinctIds(list[1..]) && list[0].id !in AsMap(list[1..])
  {
    FindIsLookup(list[1..], list[0].id);
    assert forall j | 0 <= j < |list[1..]| :: list[1..][j] == list[j + 1];
  }

  /** Merging is map override by the incoming side, and keeps ids distinct. */
  lemma {:induction false} MergeIsOverride(list: seq<Report>, incoming: seq<Report>)
    requires DistinctIds(list) && DistinctIds(incoming)
    ensures DistinctIds(MergeAll(list, incoming))
    ensures AsMap(MergeAll(list, incoming)) == AsMap(list) + AsMap(incoming)
    decreases |incoming|
  {
    if incoming != [] {
      var r, tail := incoming[0], incoming[1..];
      MergeOneIsUpdate(list, r);
      MergeOneDistinct(list, r);
      DistinctTail(incoming);
      MergeIsOverride(MergeOne(list, r), tail);
      assert AsMap(list)[r.id := r] + AsMap(tail) == AsMap(list) + AsMap(tail)[r.id := r];
    }
  }

  lemma {:induction false} MergeAppends(list: seq<Report>, incoming: seq<Report>)
    requires DistinctIds(list + incoming)
    ensures MergeAll(list, incoming) == list + incoming
    ensures Displaced(list, incoming) == {}
    decreases |incoming|
  {
    if incoming == [] {
      assert list + incoming == list;
    } else {
      var r := incoming[0];
      assert (list + incoming)[|list|] == r;
      assert forall j | 0 <= j < |list| :: (list + incoming)[j] == list[j];
      assert MergeOne(list, r) == list + [r];
      assert list + [r] + incoming[1..] == list + incoming;
      MergeAppends(list + [r], incoming[1..]);
    }
  }

  /** Merging a detached list back into the emptied collection restores it. */
  lemma MergeIntoEmpty(incoming: seq<Report>)
    requires DistinctIds(incoming)
    ensures MergeAll([], incoming) == incoming
    ensures Displaced([], incoming) == {}
  {
    assert [] + incoming == incoming;
    MergeAppends([], incoming);
  }

  // ---------------------------------------------- lists, as the code searches them

  /** Where a search for this id ends, with the comparison of each report's own
      id: at the first match, or at the end. None: a comparison on the way is not
      a valid one. */
  function Located(list: seq<Report>, id: Id): (k: Option<nat>)
    ensures k.Some? ==>
              && k.value <= |list|
              && (k.value < |list| ==> list[k.value].id.Equals(id) == Some(true))
              && forall j | 0 <= j < k.value :: list[j].id.Equals(id) == Some(false)
  {
    if list == [] then Some(0)
    else
      var same := list[0].id.Equals(id);
      if same.None? then None
      else if same.value then Some(0)
      else
        var rest := Located(list[1..], id);
        if rest.None? then None else Some(1 + rest.value)
  }

  /** Among such ids the search is defined and goes by equality. */
  lemma {:induction false} LocatedIsIndex(list: seq<Report>, id: Id)
    requires Comparable(IdsOf(list) + {id})
    ensures Located(list, id) == Some(IndexOf(list, id))
  {
    if list != [] {
      assert list[0] in list;
      assert list[0].id in IdsOf(list) + {id} && id in IdsOf(list) + {id};
      assert IdsOf(list[1..]) <= IdsOf(list);
      LocatedIsIndex(list[1..], id);
    }
  }

  lemma LocatedWhereComparable(list: seq<Report>, id: Id)
    ensures Comparable(IdsOf(list) + {id}) ==> Located(list, id) == Some(IndexOf(list, id))
  {
    if Comparable(IdsOf(list) + {id}) { LocatedIsIndex(list, id); }
  }

  /** One comparison of a search that has come as far as place k. */
  lemma LocatedFrom(list: seq<Report>, id: Id, k: nat)
    requires k < |list|
    ensures Located(list[k..], id) ==
            var same := list[k].id.Equals(id);
            if same.None? then None
            else if same.value then Some(0)
            else
              var rest := Located(list[k + 1..], id);
              if rest.None? then None else Some(1 + rest.value)
  {
    assert list[k..][1..] == list[k + 1..];
  }

  function Placed(list: seq<Report>, k: nat, r: Report): seq<Report>
    requires k <= |list|
  {
    if k < |list| then list[k := r] else list + [r]
  }

  /** The address of the report that stood at this place. */
  function Replaced(list: seq<Report>, k: nat): set<nat> { if k < |list| then {list[k].ptr} else {} }

  datatype Merged = Merged(list: seq<Report>, displaced: set<nat>)

  function MergeLocated(list: seq<Report>, incoming: seq<Report>): Option<Merged>
    decreases |incoming|
  {
    if incoming == [] then Some(Merged(list, {}))
    else
      var k := Located(list, incoming[0].id);
      if k.None? then None
      else
        var rest := MergeLocated(Placed(list, k.value, incoming[0]), incoming[1..]);
        if rest.None? then None
        else Some(Merged(rest.value.list, Replaced(list, k.value) + rest.value.displaced))
  }

  lemma {:induction false} MergeLocatedIsMerge(list: seq<Report>, incoming: seq<Report>, ids: set<Id>)
    requires IdsOf(list) <= ids && IdsOf(incoming) <= ids && Comparable(ids)
    ensures MergeLocated(list, incoming) == Some(Merged(MergeAll(list, incoming), Displaced(list, incoming)))
    decreases |incoming|
  {
    if incoming != [] {
      var r, tail := incoming[0], incoming[1..];
      assert r in incoming;
      assert r.id in IdsOf(incoming);
      assert IdsOf(tail) <= IdsOf(incoming);
      MergeIds(list, r, ids);
      LocatedIsIndex(list, r.id);
      MergeLocatedIsMerge(MergeOne(list, r), tail, ids);
    }
  }

  /** One round of a merge that has come as far as place i. */
  lemma MergeFrom(list: seq<Report>, container: seq<Report>, i: nat)
    requires i < |container| && MergeLocated(list, container[i..]).Some?
    ensures var k := Located(list, container[i].id);
            && k.Some? && MergeLocated(Placed(list, k.value, container[i]), container[i + 1..]).Some?
            && var m := MergeLocated(list, container[i..]).value;
               var rest := MergeLocated(Placed(list, k.value, container[i]), container[i + 1..]).value;
               m.list == rest.list && m.displaced == Replaced(list, k.value) + rest.displaced
  {
    assert container[i..][0] == container[i] && container[i..][1..] == container[i + 1..];
  }

  lemma MergeIds(list: seq<Report>, r: Report, ids: set<Id>)
    requires IdsOf(list) <= ids && r.id in ids && Comparable(ids)
    ensures Comparable(IdsOf(list) + {r.id}) && IdsOf(MergeOne(list, r)) <= ids
  {
  }

  function Ptrs(list: seq<Report>): set<nat> { set r | r in list :: r.ptr }

  // -------------------------------------------------------------- collection

  /** Where reports are created and deleted. */
  class ReportHeap {
    var next: nat
    var deleted: set<nat>

    constructor ()
      ensures next == 0 && deleted == {}
    {
      next, deleted := 0, {};
    }

    method New(id: Id) returns (r: Report)
      modifies this
      ensures r == Report(old(next), id) && next == old(next) + 1 && deleted == old(deleted)
    {
      r := Report(next, id);
      next := next + 1;
    }

    method Delete(r: Report)
      modifies this
      ensures deleted == old(deleted) + {r.ptr} && next == old(next)
    {
      deleted := deleted + {r.ptr};
    }
  }

  class StatsCollection {
    const heap: ReportHeap
    var list: seq<Report>

    constructor (heap: ReportHeap)
      ensures this.heap == heap && list == []
    {
      this.heap := heap;
      list := [];
    }

    /** Deletes what is still in the list. */
    method Destroy()
      modifies this, heap
      ensures list == [] && heap.deleted == old(heap.deleted) + Ptrs(old(list)) && heap.next == old(heap.next)
    {
      for i := 0 to |list|
        invariant list == old(list) && heap.next == old(heap.next)
        invariant heap.deleted == old(heap.deleted) + Ptrs(list[..i])
      {
        assert list[..i + 1] == list[..i] + [list[i]];
        heap.Delete(list[i]);
      }
      assert list[..|list|] == list;
      list := [];
    }

    /** The search that every operation makes, with the ids' own comparison. */
    method Search(id: Id) returns (k: nat)
      requires Located(list, id).Some?
      ensures Located(list, id) == Some(k)
      ensures Comparable(IdsOf(list) + {id}) ==> k == IndexOf(list, id)
    {
      k := 0;
      while k < |list|
        invariant k <= |list|
        invariant Located(list[k..], id).Some? && Located(list, id).value == k + Located(list[k..], id).value
      {
        LocatedFrom(list, id, k);
        if list[k].id.Equals(id) == Some(true) {
          break;
        }
        k := k + 1;
      }
      LocatedWhereComparable(list, id);
    }

    method FindReport(id: Id) returns (r: Option<Report>)
      requires Located(list, id).Some?
      ensures var k := Located(list, id).value; r == if k < |list| then Some(list[k]) else None
      ensures Comparable(IdsOf(list) + {id}) ==> r == if id in AsMap(list) then Some(AsMap(list)[id]) else None
    {
      var k := Search(id);
      FindIsLookup(list, id);
      if k == |list| {
        return None;
      }
      r := Some(list[k]);
    }

    method InsertNew(id: Id) returns (r: Report)
      requires Located(list, id) == Some(|list|)
      modifies this`list, heap
      ensures r == Report(old(heap.next), id) && heap.next == old(heap.next) + 1 && heap.deleted == old(heap.deleted)
      ensures list == old(list) + [r]
      ensures Comparable(IdsOf(old(list)) + {id}) ==> id !in AsMap(old(list)) && list == MergeOne(old(list), r)
    {
      FindIsLookup(list, id);
      LocatedWhereComparable(list, id);
      r := heap.New(id);
      list := list + [r];
    }

    method FindOrAddNew(id: Id) returns (r: Report)
      requires Located(list, id).Some?
      modifies this`list, heap
      ensures heap.deleted == old(heap.deleted)
      ensures var was, k := old(list), Located(old(list), id).value;
              if k < |was| then r == was[k] && list == was && heap.next == old(heap.next)
              else r == Report(old(heap.next), id) && heap.next == old(heap.next) + 1 && list == was + [r]
      ensures Comparable(IdsOf(old(list)) + {id}) ==>
                if id in AsMap(old(list)) then r == AsMap(old(list))[id] && list == old(list)
                else r == Report(old(heap.next), id) && list == MergeOne(old(list), r)
    {
      var found := FindReport(id);
      if found.Some? {
        r := found.value;
      } else {
        r := InsertNew(id);
      }
    }

    /** The new report reuses the id object of the one it replaces. */
    method ReplaceOrAddNew(id: Id) returns (r: Report)
      requires Located(list, id).Some?
      modifies this`list, heap
      ensures var was, k := old(list), Located(old(list), id).value;
              && r == Report(old(heap.next), if k < |was| then was[k].id else id)
              && list == Placed(was, k, r)
              && heap.deleted == old(heap.deleted) + Replaced(was, k)
      ensures heap.next == old(heap.next) + 1
      ensures Comparable(IdsOf(old(list)) + {id}) ==> r.id == id && list == MergeOne(old(list), r)
    {
      var k := Search(id);
      if k != |list| {
        r := heap.New(list[k].id);
        heap.Delete(list[k]);
        list := list[k := r];
      } else {
        r := InsertNew(id);
      }
    }

    method DetachCollection() returns (container: seq<Report>)
      modifies this`list
      ensures container == old(list) && list == []
    {
      container := list;
      list := [];
    }

    /** One round of the merge: replaces and deletes, or appends. */
    method MergeReport(report: Report)
      requires Located(list, report.id).Some?
      modifies this`list, heap
      ensures list == Placed(old(list), Located(old(list), report.id).value, report) && heap.next == old(heap.next)
      ensures heap.deleted == old(heap.deleted) + Replaced(old(list), Located(old(list), report.id).value)
    {
      var k := Search(report.id);
      if k == |list| {
        list := list + [report];
      } else {
        heap.Delete(list[k]);
        list := list[k := report];
      }
    }

    method MergeCollection(container: seq<Report>)
      requires MergeLocated(list, container).Some?
      modifies this`list, heap
      ensures var m := MergeLocated(old(list), container).value;
              list == m.list && heap.deleted == old(heap.deleted) + m.displaced && heap.next == old(heap.next)
      ensures Comparable(IdsOf(old(list)) + IdsOf(container)) ==>
                && list == MergeAll(old(list), container)
                && heap.deleted == old(heap.deleted) + Displaced(old(list), container)
    {
      ghost var m := MergeLocated(list, container).value;
      if Comparable(IdsOf(list) + IdsOf(container)) {
        MergeLocatedIsMerge(list, container, IdsOf(list) + IdsOf(container));
      }
      for i := 0 to |container|
        invariant heap.next == old(heap.next)
        invariant MergeLocated(list, container[i..]).Some? && MergeLocated(list, container[i..]).value.list == m.list
        invariant heap.deleted + MergeLocated(list, container[i..]).value.displaced == old(heap.deleted) + m.displaced
      {
        MergeFrom(list, container, i);
        ghost var deleted, now := heap.deleted, Replaced(list, Located(list, container[i].id).value);
        MergeReport(container[i]);
        ghost var later := MergeLocated(list, container[i + 1..]).value.displaced;
        assert deleted + now + later == deleted + (now + later);
      }
    }
  }
}
