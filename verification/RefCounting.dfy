/** Intrusive reference counting: counted objects, the handles that count them,
    and the ledger that every run of handle operations keeps. */
module RefCounting {
  import opened Common

  // ------------------------------------------------------------ counted objects

  type Ptr = Option<nat>

  /** The counts of all objects ever created, by address, and the destroyed ones. */
  datatype Heap = Heap(count: map<nat, int>, destroyed: set<nat>)

  predicate Live(hp: Heap, o: nat) { o in hp.count && o !in hp.destroyed }

  function AddRef(hp: Heap, o: nat): Heap
    requires Live(hp, o)
  {
    hp.(count := hp.count[o := hp.count[o] + 1])
  }

  /** Dropping the last reference destroys the object. */
  function Release(hp: Heap, o: nat): Heap
    requires Live(hp, o)
  {
    var n := hp.count[o] - 1;
    Heap(hp.count[o := n], if n == 0 then hp.destroyed + {o} else hp.destroyed)
  }

  predicate Usable(hp: Heap, p: Ptr) { p.Some? ==> Live(hp, p.value) }

  function AddRefIf(hp: Heap, p: Ptr): Heap
    requires Usable(hp, p)
  {
    if p.Some? then AddRef(hp, p.value) else hp
  }

  function ReleaseIf(hp: Heap, p: Ptr): Heap
    requires Usable(hp, p)
  {
    if p.Some? then Release(hp, p.value) else hp
  }

  datatype ReleaseStatus = DroppedLastRef | OtherRefsRemained

  class RefCountedHeap {
    var count: map<nat, int>
    var destroyed: set<nat>

    function View(): Heap
      reads this
    {
      Heap(count, destroyed)
    }

    constructor ()
      ensures View() == Heap(map[], {})
    {
      count, destroyed := map[], {};
    }

    /** A new object starts with a count of zero, awaiting its first handle. */
    method New(o: nat)
      requires o !in count
      modifies this
      ensures View() == old(View()).(count := old(count)[o := 0])
    {
      count := count[o := 0];
    }

    method IncRef(o: nat)
      requires Live(View(), o)
      modifies this
      ensures View() == AddRef(old(View()), o)
    {
      count := count[o := count[o] + 1];
    }

    method DecRef(o: nat) returns (status: ReleaseStatus)
      requires Live(View(), o)
      modifies this
      ensures View() == Release(old(View()), o)
      ensures status.DroppedLastRef? <==> o in destroyed
    {
      var remaining := count[o] - 1;
      count := count[o := remaining];
      if remaining == 0 {
        destroyed := destroyed + {o};
        return DroppedLastRef;
      }
      status := OtherRefsRemained;
    }
  }

  // -------------------------------------------------------------------- handles

  class ScopedRefPtr {
    const heap: RefCountedHeap
    var ptr: Ptr

    constructor Null(heap: RefCountedHeap)
      ensures this.heap == heap && ptr == None
    {
      this.heap := heap;
      ptr := None;
    }

    constructor FromRaw(heap: RefCountedHeap, p: Ptr)
      requires Usable(heap.View(), p)
      modifies heap
      ensures this.heap == heap && ptr == p && heap.View() == AddRefIf(old(heap.View()), p)
    {
      this.heap := heap;
      ptr := p;
      new;
      if ptr.Some? {
        heap.IncRef(ptr.value);
      }
    }

    constructor Copy(r: ScopedRefPtr)
      requires Usable(r.heap.View(), r.ptr)
      modifies r.heap
      ensures heap == r.heap && ptr == r.ptr && heap.View() == AddRefIf(old(r.heap.View()), r.ptr)
    {
      heap := r.heap;
      ptr := r.ptr;
      new;
      if ptr.Some? {
        heap.IncRef(ptr.value);
      }
    }

    constructor Move(r: ScopedRefPtr)
      modifies r
      ensures heap == r.heap && ptr == old(r.ptr) && r.ptr == None
    {
      heap := r.heap;
      var p := r.release();
      ptr := p;
    }

    /** The destructor. */
    method Destroy()
      requires Usable(heap.View(), ptr)
      modifies heap
      ensures heap.View() == ReleaseIf(old(heap.View()), ptr)
    {
      if ptr.Some? {
        var _ := heap.DecRef(ptr.value);
      }
    }

    method release() returns (p: Ptr)
      modifies this
      ensures p == old(ptr) && ptr == None
    {
      p := ptr;
      ptr := None;
    }

    /** References the new object before the old one is released, so that
        assigning a handle's own object does not destroy it on the way. */
    method AssignRaw(p: Ptr)
      requires Usable(heap.View(), p) && Usable(heap.View(), ptr)
      modifies this, heap
      ensures ptr == p && heap.View() == Reassigned(old(heap.View()), old(ptr), p)
    {
      if p.Some? {
        heap.IncRef(p.value);
      }
      if ptr.Some? {
        var _ := heap.DecRef(ptr.value);
      }
      ptr := p;
    }

    /** `r` may be this handle. */
    method AssignCopy(r: ScopedRefPtr)
      requires r.heap == heap && Usable(heap.View(), r.ptr) && Usable(heap.View(), ptr)
      modifies this, heap
      ensures ptr == old(r.ptr) && heap.View() == Reassigned(old(heap.View()), old(ptr), old(r.ptr))
    {
      AssignRaw(r.ptr);
    }

    /** Moves into a temporary, swaps, and lets the temporary go; `r` may be
        this handle, which then keeps what it had. */
    method AssignMove(r: ScopedRefPtr)
      requires r.heap == heap && Usable(heap.View(), ptr)
      modifies this, r, heap
      ensures ptr == old(r.ptr) && (r != this ==> r.ptr == None)
      ensures heap.View() == if r == this then old(heap.View()) else ReleaseIf(old(heap.View()), old(ptr))
    {
      var temp := new ScopedRefPtr.Move(r);
      temp.Swap(this);
      temp.Destroy();
    }

    /** Exchanges the handle's pointer with a caller's raw one, counting nothing. */
    method SwapRaw(p: Ptr) returns (q: Ptr)
      modifies this
      ensures ptr == p && q == old(ptr)
    {
      q := ptr;
      ptr := p;
    }

    method Swap(r: ScopedRefPtr)
      modifies this, r
      ensures ptr == old(r.ptr) && r.ptr == old(ptr)
    {
      var p := ptr;
      ptr := r.ptr;
      r.ptr := p;
    }
  }

  function Reassigned(hp: Heap, from: Ptr, to: Ptr): Heap
    requires Usable(hp, from) && Usable(hp, to)
  {
    ReleaseIf(AddRefIf(hp, to), from)
  }

  // --------------------------------------------------------------------- ledger

  /** All objects and handles of a program; `owed` are the references that its
      callers have taken out of handles and must give back, and `unused` are the
      objects that nothing has ever referred to. */
  datatype World = World(heap: Heap, handles: map<nat, Ptr>, owed: multiset<nat>, unused: set<nat>)

  ghost function HandlesTo(handles: map<nat, Ptr>, o: nat): set<nat> {
    set h | h in handles && handles[h] == Some(o)
  }

  ghost function Refs(w: World, o: nat): nat { |HandlesTo(w.handles, o)| + w.owed[o] }

  /** A live object counts exactly its handles and the references owed, and an
      object is destroyed exactly when it was in use and that sum is zero. */
  ghost predicate Ledger(w: World) {
    && (forall o | o in w.heap.count && o !in w.heap.destroyed :: w.heap.count[o] == Refs(w, o))
    && (forall o :: o in w.heap.destroyed <==> o in w.heap.count && o !in w.unused && Refs(w, o) == 0)
    && (forall o | o in w.unused :: o in w.heap.count && Refs(w, o) == 0)
    && (forall h | h in w.handles :: w.handles[h].Some? ==> w.handles[h].value in w.heap.count)
    && (forall o | o in w.owed :: o in w.heap.count)
  }

  datatype Op =
    | New(o: nat)
    | Null(h: nat)
    | FromRaw(h: nat, p: Ptr)
    | Copy(h: nat, r: nat)
    | Move(h: nat, r: nat)
    | Destroy(h: nat)
    | TakeOut(h: nat)
    | GiveBack(o: nat)
    | AssignRaw(h: nat, p: Ptr)
    | AssignCopy(h: nat, r: nat)
    | AssignMove(h: nat, r: nat)
    | Swap(h: nat, r: nat)
    | SwapRaw(h: nat, p: Ptr)

  /** What the language and the contract of raw pointers demand of a caller: raw
      pointers are to live objects, and only owed references are given back or
      put into a handle uncounted. */
  ghost predicate Enabled(w: World, op: Op) {
    match op
    case New(o) => o !in w.heap.count
    case Null(h) => h !in w.handles
    case FromRaw(h, p) => h !in w.handles && Usable(w.heap, p)
    case Copy(h, r) => h !in w.handles && r in w.handles
    case Move(h, r) => h !in w.handles && r in w.handles
    case Destroy(h) => h in w.handles
    case TakeOut(h) => h in w.handles
    case GiveBack(o) => o in w.owed
    case AssignRaw(h, p) => h in w.handles && Usable(w.heap, p)
    case AssignCopy(h, r) => h in w.handles && r in w.handles
    case AssignMove(h, r) => h in w.handles && r in w.handles
    case Swap(h, r) => h in w.handles && r in w.handles
    case SwapRaw(h, p) => h in w.handles && (p.Some? ==> p.value in w.owed)
  }

  function Owe(owed: multiset<nat>, p: Ptr): multiset<nat> {
    if p.Some? then owed + multiset{p.value} else owed
  }

  function Settle(owed: multiset<nat>, p: Ptr): multiset<nat> {
    if p.Some? then owed - multiset{p.value} else owed
  }

  function Used(unused: set<nat>, p: Ptr): set<nat> {
    if p.Some? then unused - {p.value} else unused
  }

  /** Every object that a handle or an owed reference names is live; this is
      what makes the calls in Step safe. */
  lemma ReferencedIsLive(w: World, o: nat)
    requires Ledger(w) && (Some(o) in w.handles.Values || o in w.owed)
    ensures Live(w.heap, o) && 1 <= w.heap.count[o]
  {
    if Some(o) in w.handles.Values {
      var h :| h in w.handles && w.handles[h] == Some(o);
      assert h in HandlesTo(w.handles, o);
    }
    assert Refs(w, o) != 0;
  }

  lemma HandleUsable(w: World, h: nat)
    requires Ledger(w) && h in w.handles
    ensures Usable(w.heap, w.handles[h])
  {
    if w.handles[h].Some? {
      assert w.handles[h] in w.handles.Values;
      ReferencedIsLive(w, w.handles[h].value);
    }
  }

  /** Every handle and every owed reference names a live object. */
  ghost predicate Referable(w: World) {
    && (forall h | h in w.handles :: Usable(w.heap, w.handles[h]))
    && (forall o | o in w.owed :: Live(w.heap, o))
  }

  lemma LedgerReferable(w: World)
    requires Ledger(w)
    ensures Referable(w)
  {
    forall h | h in w.handles ensures Usable(w.heap, w.handles[h]) { HandleUsable(w, h); }
    forall o | o in w.owed ensures Live(w.heap, o) { ReferencedIsLive(w, o); }
  }

  function Assigned(w: World, h: nat, p: Ptr): World
    requires h in w.handles && Usable(w.heap, w.handles[h]) && Usable(w.heap, p)
  {
    w.(heap := Reassigned(w.heap, w.handles[h], p), handles := w.handles[h := p])
  }

  function Released(w: World, p: Ptr): World
    requires Usable(w.heap, p)
  {
    w.(heap := ReleaseIf(w.heap, p))
  }

  ghost function Act(w: World, op: Op): World
    requires Referable(w) && Enabled(w, op)
  {
    match op
    case New(o) => w.(heap := w.heap.(count := w.heap.count[o := 0]), unused := w.unused + {o})
    case Null(h) => w.(handles := w.handles[h := None])
    case FromRaw(h, p) =>
      w.(heap := AddRefIf(w.heap, p), handles := w.handles[h := p], unused := Used(w.unused, p))
    case Copy(h, r) =>
      w.(heap := AddRefIf(w.heap, w.handles[r]), handles := w.handles[h := w.handles[r]])
    case Move(h, r) => w.(handles := w.handles[h := w.handles[r]][r := None])
    case Destroy(h) => Released(w, w.handles[h]).(handles := w.handles - {h})
    case TakeOut(h) => w.(handles := w.handles[h := None], owed := Owe(w.owed, w.handles[h]))
    case GiveBack(o) => Released(w, Some(o)).(owed := w.owed - multiset{o})
    case AssignRaw(h, p) => Assigned(w, h, p).(unused := Used(w.unused, p))
    case AssignCopy(h, r) => Assigned(w, h, w.handles[r])
    case AssignMove(h, r) =>
      if h == r then w
      else Released(w, w.handles[h]).(handles := w.handles[h := w.handles[r]][r := None])
    case Swap(h, r) => w.(handles := w.handles[h := w.handles[r]][r := w.handles[h]])
    case SwapRaw(h, p) =>
      w.(handles := w.handles[h := p], owed := Owe(Settle(w.owed, p), w.handles[h]))
  }

  ghost function Step(w: World, op: Op): World
    requires Ledger(w) && Enabled(w, op)
  {
    LedgerReferable(w);
    Act(w, op)
  }

  // Four moves that keep the ledger; every operation is made of them. While a
  // reference is on its way between two places, it is owed.

  function Acquire(w: World, p: Ptr): World
    requires Usable(w.heap, p)
  {
    World(AddRefIf(w.heap, p), w.handles, Owe(w.owed, p), Used(w.unused, p))
  }

  function Drop(w: World, p: Ptr): World
    requires Usable(w.heap, p)
  {
    w.(heap := ReleaseIf(w.heap, p), owed := Settle(w.owed, p))
  }

  function Take(w: World, h: nat): World
    requires h in w.handles
  {
    w.(handles := w.handles[h := None], owed := Owe(w.owed, w.handles[h]))
  }

  function Store(w: World, h: nat, p: Ptr): World {
    w.(handles := w.handles[h := p], owed := Settle(w.owed, p))
  }

  lemma AcquireKeeps(w: World, p: Ptr)
    requires Ledger(w) && Usable(w.heap, p)
    ensures Ledger(Acquire(w, p))
  {
  }

  lemma DropKeeps(w: World, p: Ptr)
    requires Ledger(w) && (p.Some? ==> p.value in w.owed)
    ensures Usable(w.heap, p) && Ledger(Drop(w, p))
  {
  }

  function One(b: bool): nat { if b then 1 else 0 }

  lemma Toggle(s: set<nat>, h: nat, member: bool)
    ensures |s - {h} + if member then {h} else {}| == |s| - One(h in s) + One(member)
  {
  }

  lemma SetHandle(handles: map<nat, Ptr>, h: nat, p: Ptr, o: nat)
    ensures |HandlesTo(handles[h := p], o)| ==
            |HandlesTo(handles, o)| - One(h in HandlesTo(handles, o)) + One(p == Some(o))
  {
    assert HandlesTo(handles[h := p], o) == HandlesTo(handles, o) - {h} + if p == Some(o) then {h} else {};
    Toggle(HandlesTo(handles, o), h, p == Some(o));
  }

  lemma TakeKeeps(w: World, h: nat)
    requires Ledger(w) && h in w.handles
    ensures Ledger(Take(w, h))
  {
    forall o ensures Refs(Take(w, h), o) == Refs(w, o) {
      SetHandle(w.handles, h, None, o);
    }
  }

  lemma StoreKeeps(w: World, h: nat, p: Ptr)
    requires Ledger(w) && (h in w.handles ==> w.handles[h] == None) && (p.Some? ==> p.value in w.owed)
    ensures Ledger(Store(w, h, p))
  {
    forall o ensures Refs(Store(w, h, p), o) == Refs(w, o) {
      SetHandle(w.handles, h, p, o);
    }
  }

  lemma ForgetKeeps(w: World, h: nat)
    requires Ledger(w) && h in w.handles && w.handles[h] == None
    ensures Ledger(w.(handles := w.handles - {h}))
  {
    forall o ensures HandlesTo(w.handles - {h}, o) == HandlesTo(w.handles, o) {
    }
  }

  lemma NewKeeps(w: World, o: nat)
    requires Ledger(w) && Enabled(w, New(o))
    ensures Ledger(Step(w, New(o)))
  {
  }

  lemma SettleOwed(owed: multiset<nat>, p: Ptr)
    ensures Settle(Owe(owed, p), p) == owed
  {
  }

  lemma AssignIs(w: World, h: nat, p: Ptr)
    requires h in w.handles && Usable(w.heap, p) && Usable(w.heap, w.handles[h])
    ensures Usable(AddRefIf(w.heap, p), w.handles[h])
    ensures Store(Drop(Take(Acquire(w, p), h), w.handles[h]), h, p) ==
            World(Reassigned(w.heap, w.handles[h], p), w.handles[h := p], w.owed, Used(w.unused, p))
  {
    SettleOwed(Owe(w.owed, p), w.handles[h]);
    SettleOwed(w.owed, p);
    assert w.handles[h := None][h := p] == w.handles[h := p];
  }

  /** AddRef first, then take the old pointer out and release it, then store. */
  lemma AssignKeeps(w: World, h: nat, p: Ptr)
    requires Ledger(w) && h in w.handles && Usable(w.heap, p)
    ensures Usable(w.heap, w.handles[h])
    ensures Ledger(World(Reassigned(w.heap, w.handles[h], p), w.handles[h := p], w.owed, Used(w.unused, p)))
  {
    HandleUsable(w, h);
    AssignIs(w, h, p);
    var a := Acquire(w, p);
    AcquireKeeps(w, p);
    var b := Take(a, h);
    TakeKeeps(a, h);
    DropKeeps(b, w.handles[h]);
    StoreKeeps(Drop(b, w.handles[h]), h, p);
  }

  lemma CopyKeeps(w: World, h: nat, p: Ptr)
    requires Ledger(w) && h !in w.handles && Usable(w.heap, p)
    ensures Ledger(World(AddRefIf(w.heap, p), w.handles[h := p], w.owed, Used(w.unused, p)))
  {
    AcquireKeeps(w, p);
    StoreKeeps(Acquire(w, p), h, p);
    SettleOwed(w.owed, p);
  }

  lemma DestroyIs(w: World, h: nat)
    requires h in w.handles && Usable(w.heap, w.handles[h])
    ensures var d := Drop(Take(w, h), w.handles[h]);
            d.(handles := d.handles - {h}) == w.(heap := ReleaseIf(w.heap, w.handles[h]), handles := w.handles - {h})
  {
    SettleOwed(w.owed, w.handles[h]);
    assert w.handles[h := None] - {h} == w.handles - {h};
  }

  lemma DestroyKeeps(w: World, h: nat)
    requires Ledger(w) && h in w.handles
    ensures Ledger(Step(w, Destroy(h)))
  {
    HandleUsable(w, h);
    DestroyIs(w, h);
    TakeKeeps(w, h);
    DropKeeps(Take(w, h), w.handles[h]);
    ForgetKeeps(Drop(Take(w, h), w.handles[h]), h);
  }

  lemma MoveIs(w: World, h: nat, r: nat)
    requires r in w.handles && h != r
    ensures Store(Take(w, r), h, w.handles[r]) == w.(handles := w.handles[h := w.handles[r]][r := None])
  {
    var p := w.handles[r];
    assert w.handles[r := None][h := p] == w.handles[h := p][r := None];
    SettleOwed(w.owed, p);
  }

  lemma MoveKeeps(w: World, h: nat, r: nat)
    requires Ledger(w) && r in w.handles && h != r
    requires h in w.handles ==> w.handles[h] == None
    ensures Ledger(w.(handles := w.handles[h := w.handles[r]][r := None]))
  {
    MoveIs(w, h, r);
    TakeKeeps(w, r);
    StoreKeeps(Take(w, r), h, w.handles[r]);
  }

  lemma AssignMoveIs(w: World, h: nat, r: nat)
    requires h in w.handles && r in w.handles && h != r && Usable(w.heap, w.handles[h])
    ensures var t := Take(w, h);
            var m := t.(handles := t.handles[h := t.handles[r]][r := None]);
            Drop(m, w.handles[h]) ==
            w.(heap := ReleaseIf(w.heap, w.handles[h]), handles := w.handles[h := w.handles[r]][r := None])
  {
    SettleOwed(w.owed, w.handles[h]);
    assert w.handles[h := None][h := w.handles[r]][r := None] == w.handles[h := w.handles[r]][r := None];
  }

  lemma AssignMoveKeeps(w: World, h: nat, r: nat)
    requires Ledger(w) && Enabled(w, AssignMove(h, r)) && h != r
    ensures Ledger(Step(w, AssignMove(h, r)))
  {
    HandleUsable(w, h);
    AssignMoveIs(w, h, r);
    TakeKeeps(w, h);
    var t := Take(w, h);
    MoveKeeps(t, h, r);
    DropKeeps(t.(handles := t.handles[h := t.handles[r]][r := None]), w.handles[h]);
  }

  lemma SwapIs(w: World, h: nat, r: nat)
    requires h in w.handles && r in w.handles && h != r
    ensures var t := Take(w, h);
            var m := t.(handles := t.handles[h := t.handles[r]][r := None]);
            Store(m, r, w.handles[h]) == w.(handles := w.handles[h := w.handles[r]][r := w.handles[h]])
  {
    var p, q := w.handles[h], w.handles[r];
    SettleOwed(w.owed, p);
    assert w.handles[h := None][h := q][r := None][r := p] == w.handles[h := q][r := p];
  }

  lemma SwapKeeps(w: World, h: nat, r: nat)
    requires Ledger(w) && h in w.handles && r in w.handles
    ensures Ledger(w.(handles := w.handles[h := w.handles[r]][r := w.handles[h]]))
  {
    if h == r {
      assert w.handles[h := w.handles[r]][r := w.handles[h]] == w.handles;
    } else {
      SwapIs(w, h, r);
      TakeKeeps(w, h);
      var t := Take(w, h);
      MoveKeeps(t, h, r);
      StoreKeeps(t.(handles := t.handles[h := t.handles[r]][r := None]), r, w.handles[h]);
    }
  }

  lemma SwapRawIs(w: World, h: nat, p: Ptr)
    requires h in w.handles && (p.Some? ==> p.value in w.owed)
    ensures Store(Take(w, h), h, p) ==
            w.(handles := w.handles[h := p], owed := Owe(Settle(w.owed, p), w.handles[h]))
  {
    assert Settle(Owe(w.owed, w.handles[h]), p) == Owe(Settle(w.owed, p), w.handles[h]);
    assert w.handles[h := None][h := p] == w.handles[h := p];
  }

  lemma SwapRawKeeps(w: World, h: nat, p: Ptr)
    requires Ledger(w) && Enabled(w, SwapRaw(h, p))
    ensures Ledger(Step(w, SwapRaw(h, p)))
  {
    SwapRawIs(w, h, p);
    TakeKeeps(w, h);
    StoreKeeps(Take(w, h), h, p);
  }

  /** No operation revives a destroyed object or forgets one. */
  lemma StepKeepsDestroyed(w: World, op: Op)
    requires Ledger(w) && Enabled(w, op)
    ensures w.heap.count.Keys <= Step(w, op).heap.count.Keys
    ensures w.heap.destroyed <= Step(w, op).heap.destroyed
  {
  }

  /** Every operation keeps the ledger. */
  lemma StepKeeps(w: World, op: Op)
    requires Ledger(w) && Enabled(w, op)
    ensures Ledger(Step(w, op))
  {
    match op
    case New(o) => NewKeeps(w, o);
    case Null(h) => StoreKeeps(w, h, None);
    case FromRaw(h, p) => CopyKeeps(w, h, p);
    case Copy(h, r) =>
      HandleUsable(w, r);
      NotUnused(w, w.handles[r]);
      CopyKeeps(w, h, w.handles[r]);
    case Move(h, r) => MoveKeeps(w, h, r);
    case Destroy(h) => DestroyKeeps(w, h);
    case TakeOut(h) => TakeKeeps(w, h);
    case GiveBack(o) => DropKeeps(w, Some(o));
    case AssignRaw(h, p) => AssignKeeps(w, h, p);
    case AssignCopy(h, r) =>
      HandleUsable(w, r);
      NotUnused(w, w.handles[r]);
      AssignKeeps(w, h, w.handles[r]);
    case AssignMove(h, r) => if h != r { AssignMoveKeeps(w, h, r); }
    case Swap(h, r) => SwapKeeps(w, h, r);
    case SwapRaw(h, p) => SwapRawKeeps(w, h, p);
  }

  lemma NotUnused(w: World, p: Ptr)
    requires Ledger(w) && p in w.handles.Values
    ensures Used(w.unused, p) == w.unused
  {
    if p.Some? {
      ReferencedIsLive(w, p.value);
    }
  }

  const EMPTY := World(Heap(map[], {}), map[], multiset{}, {})

  /** Each world follows from the one before. A step is defined where the ledger
      holds, which by the theorem below is in every world of the run. */
  ghost predicate IsRun(worlds: seq<World>, ops: seq<Op>) {
    && |worlds| == |ops| + 1
    && worlds[0] == EMPTY
    && forall i | 0 <= i < |ops| :: Leads(worlds[i], ops[i], worlds[i + 1])
  }

  ghost predicate Leads(w: World, op: Op, w': World) {
    Ledger(w) ==> Enabled(w, op) && w' == Step(w, op)
  }

  /** In every state of every run the ledger holds; and when all handles are gone
      and nothing is owed, every object that was ever used is destroyed. */
  lemma {:induction false} RunKeepsLedger(worlds: seq<World>, ops: seq<Op>, n: nat)
    requires IsRun(worlds, ops) && n <= |ops|
    ensures Ledger(worlds[n])
    ensures worlds[n].handles == map[] && worlds[n].owed == multiset{} ==>
              worlds[n].heap.destroyed == worlds[n].heap.count.Keys - worlds[n].unused
    ensures n != 0 ==> worlds[n - 1].heap.destroyed <= worlds[n].heap.destroyed
  {
    if n != 0 {
      RunKeepsLedger(worlds, ops, n - 1);
      assert Leads(worlds[n - 1], ops[n - 1], worlds[(n - 1) + 1]);
      StepKeeps(worlds[n - 1], ops[n - 1]);
      StepKeepsDestroyed(worlds[n - 1], ops[n - 1]);
    }
    if worlds[n].handles == map[] {
      assert forall o :: HandlesTo(worlds[n].handles, o) == {};
    }
  }

  /** What the handles of an operation name after it: a new, assigned or swapped
      one what it was given, and one that was moved or taken from nothing. */
  lemma ActNames(w: World, op: Op)
    requires Referable(w) && Enabled(w, op)
    ensures var before, after := w.handles, Act(w, op).handles;
            match op
            case New(_) => true
            case GiveBack(_) => true
            case Null(h) => h in after && after[h] == None
            case FromRaw(h, p) => h in after && after[h] == p
            case AssignRaw(h, p) => h in after && after[h] == p
            case SwapRaw(h, p) => h in after && after[h] == p
            case Copy(h, r) => h in after && after[h] == before[r]
            case AssignCopy(h, r) => h in after && after[h] == before[r]
            case Move(h, r) => h in after && r in after && after[h] == before[r] && after[r] == None
            case AssignMove(h, r) => h in after && r in after && after[h] == before[r] && (h != r ==> after[r] == None)
            case Swap(h, r) => h in after && r in after && after[h] == before[r] && after[r] == before[h]
            case TakeOut(h) => h in after && after[h] == None
            case Destroy(h) => h !in after
  {
  }

  predicate About(op: Op, g: nat) {
    match op
    case New(_) => false
    case GiveBack(_) => false
    case Move(h, r) => g == h || g == r
    case AssignMove(h, r) => g == h || g == r
    case Swap(h, r) => g == h || g == r
    case _ => g == op.h
  }

  /** All other handles name what they named before. */
  lemma ActNamesOthers(w: World, op: Op, g: nat)
    requires Referable(w) && Enabled(w, op) && !About(op, g)
    ensures g in Act(w, op).handles <==> g in w.handles
    ensures g in w.handles ==> Act(w, op).handles[g] == w.handles[g]
  {
  }

  /** A reference is owed from when a handle is taken out or a raw pointer is
      swapped out until it is given back or swapped in; only New creates an
      object. */
  lemma ActOwes(w: World, op: Op)
    requires Referable(w) && Enabled(w, op)
    ensures match op
            case TakeOut(h) => Act(w, op).owed == Owe(w.owed, w.handles[h])
            case GiveBack(o) => Act(w, op).owed == w.owed - multiset{o}
            case SwapRaw(h, p) => Act(w, op).owed == Owe(Settle(w.owed, p), w.handles[h])
            case _ => Act(w, op).owed == w.owed
    ensures Act(w, op).heap.count.Keys == w.heap.count.Keys + if op.New? then {op.o} else {}
  {
  }

  /** Moving, swapping and taking out count nothing. */
  lemma MovesCountNothing(w: World, op: Op)
    requires Ledger(w) && Enabled(w, op)
    requires op.Move? || op.Swap? || op.TakeOut? || op.SwapRaw? || (op.AssignMove? && (op.h == op.r || w.handles[op.h] == None))
    ensures Step(w, op).heap == w.heap
  {
  }

  // ---------------------------------------------------- while a destructor runs

  /** Whatever handle the code of a destructor uses, it names a live object. */
  ghost predicate HandlesUsable(w: World) {
    forall g | g in w.handles :: Usable(w.heap, w.handles[g])
  }

  lemma LedgerUsable(w: World)
    requires Ledger(w)
    ensures HandlesUsable(w)
  {
    forall g | g in w.handles ensures Usable(w.heap, w.handles[g]) { HandleUsable(w, g); }
  }

  /** Assigning a raw pointer or a copy, at the moment when the old object is
      released: the new one has been counted, and the handle still names the old
      one. Its destructor runs now, if this was the last reference. */
  ghost function DuringAssign(w: World, h: nat, p: Ptr): World
    requires Ledger(w) && Enabled(w, AssignRaw(h, p))
  {
    HandleUsable(w, h);
    w.(heap := Reassigned(w.heap, w.handles[h], p), owed := Owe(w.owed, p), unused := Used(w.unused, p))
  }

  /** The handles can all be used then exactly unless the handle holds the last
      reference to an object other than the new one - which is exactly when the
      destructor runs. */
  lemma AssignDangles(w: World, h: nat, p: Ptr)
    requires Ledger(w) && Enabled(w, AssignRaw(h, p))
    ensures var q := w.handles[h];
            && (HandlesUsable(DuringAssign(w, h, p)) <==> q == None || q == p || Refs(w, q.value) != 1)
            && (HandlesUsable(DuringAssign(w, h, p)) <==> DuringAssign(w, h, p).heap.destroyed == w.heap.destroyed)
  {
    LedgerUsable(w);
    var q := w.handles[h];
    if q.Some? {
      assert q in w.handles.Values;
      ReferencedIsLive(w, q.value);
    }
  }

  /** A run that comes to this: one object, one handle, which is assigned null. */
  lemma SoleHandleDangles() returns (worlds: seq<World>, ops: seq<Op>)
    ensures ops == [New(0), FromRaw(0, Some(0))] && IsRun(worlds, ops) && Ledger(worlds[2])
    ensures Enabled(worlds[2], AssignRaw(0, None))
    ensures !Usable(DuringAssign(worlds[2], 0, None).heap, DuringAssign(worlds[2], 0, None).handles[0])
  {
    ops := [New(0), FromRaw(0, Some(0))];
    var w, w' := OneHandle();
    worlds := [EMPTY, w, w'];
    assert Leads(worlds[0], ops[0], worlds[1]) && Leads(worlds[1], ops[1], worlds[2]);
    assert IsRun(worlds, ops);
    NullDangles(w');
  }

  lemma NullDangles(w: World)
    requires Ledger(w) && w == World(Heap(map[0 := 1], {}), map[0 := Some(0)], multiset{}, {})
    ensures Enabled(w, AssignRaw(0, None))
    ensures !Usable(DuringAssign(w, 0, None).heap, DuringAssign(w, 0, None).handles[0])
  {
  }

  lemma OneHandle() returns (w: World, w': World)
    ensures Leads(EMPTY, New(0), w) && Leads(w, FromRaw(0, Some(0)), w') && Ledger(w')
    ensures w' == World(Heap(map[0 := 1], {}), map[0 := Some(0)], multiset{}, {})
  {
    w := OneObject();
    w' := Step(w, FromRaw(0, Some(0)));
    StepKeeps(w, FromRaw(0, Some(0)));
  }

  lemma OneObject() returns (w: World)
    ensures Ledger(EMPTY) && w == Step(EMPTY, New(0)) && w == World(Heap(map[0 := 0], {}), map[], multiset{}, {0})
    ensures Ledger(w)
  {
    w := Step(EMPTY, New(0));
    StepKeeps(EMPTY, New(0));
  }

  /** A move assignment step by step: into a temporary handle, which is swapped
      with the handle and destroyed. */
  ghost function MoveSwapDestroy(w: World, h: nat, r: nat, temp: nat): World
    requires Ledger(w) && Enabled(w, AssignMove(h, r)) && temp !in w.handles
  {
    var moved := Step(w, Move(temp, r));
    StepKeeps(w, Move(temp, r));
    var swapped := Step(moved, Swap(temp, h));
    StepKeeps(moved, Swap(temp, h));
    Step(swapped, Destroy(temp))
  }

  /** When the old object's destructor runs, only the temporary still named it:
      the program's handles are those of the completed assignment, the ledger
      holds, and so does whatever the destructor does with them. */
  lemma MoveDoesNotDangle(w: World, h: nat, r: nat, temp: nat)
    requires Ledger(w) && Enabled(w, AssignMove(h, r)) && temp !in w.handles
    ensures MoveSwapDestroy(w, h, r, temp) == Step(w, AssignMove(h, r))
    ensures HandlesUsable(MoveSwapDestroy(w, h, r, temp)) && Ledger(MoveSwapDestroy(w, h, r, temp))
  {
    MoveSwapDestroyIs(w, h, r, temp);
    StepKeeps(w, AssignMove(h, r));
    LedgerUsable(Step(w, AssignMove(h, r)));
  }

  lemma MoveSwapDestroyIs(w: World, h: nat, r: nat, temp: nat)
    requires Ledger(w) && Enabled(w, AssignMove(h, r)) && temp !in w.handles
    ensures MoveSwapDestroy(w, h, r, temp) == Step(w, AssignMove(h, r))
  {
    var p, q := w.handles[h], w.handles[r];
    if h == r {
      assert w.handles[temp := p][h := None][temp := None][h := p] - {temp} == w.handles;
    } else {
      assert w.handles[temp := q][r := None][temp := p][h := q] - {temp} == w.handles[h := q][r := None];
    }
  }
}
