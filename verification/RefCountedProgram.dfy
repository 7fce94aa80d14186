/** A program's handles as objects: each operation of the handle class, carried
    out on them, acts as the ledger theorems say, and so keeps the ledger. */
module RefCountedProgram {
  import opened Common
  import opened RefCounting

  class Program {
    const heap: RefCountedHeap
    var handles: map<nat, ScopedRefPtr>
    ghost var owed: multiset<nat>
    ghost var unused: set<nat>

    /** Handles are distinct objects on one heap. */
    ghost predicate Distinct()
      reads this, handles.Values
    {
      && (forall h | h in handles :: handles[h].heap == heap)
      && (forall h, g | h in handles && g in handles :: handles[h] == handles[g] ==> h == g)
    }

    ghost function View(): World
      reads this, heap, handles.Values
    {
      World(heap.View(), map h | h in handles :: handles[h].ptr, owed, unused)
    }

    constructor ()
      ensures Distinct() && View() == EMPTY && Ledger(View())
    {
      heap := new RefCountedHeap();
      handles, owed, unused := map[], multiset{}, {};
      new;
      assert View() == EMPTY;
      assert Ledger(EMPTY);
    }

    method NewObject(o: nat)
      requires Distinct() && Referable(View()) && Enabled(View(), New(o))
      modifies this, heap
      ensures Distinct() && View() == Act(old(View()), New(o))
    {
      ghost var before := View();
      heap.New(o);
      unused := unused + {o};
      assert View() == Act(before, New(o));
    }

    method NullHandle(h: nat)
      requires Distinct() && Referable(View()) && Enabled(View(), Null(h))
      modifies this
      ensures Distinct() && View() == Act(old(View()), Null(h))
    {
      ghost var before := View();
      var p := new ScopedRefPtr.Null(heap);
      handles := handles[h := p];
      assert View() == Act(before, Null(h));
    }

    method HandleFromRaw(h: nat, p: Ptr)
      requires Distinct() && Referable(View()) && Enabled(View(), FromRaw(h, p))
      modifies this, heap
      ensures Distinct() && View() == Act(old(View()), FromRaw(h, p))
    {
      ghost var before := View();
      var q := new ScopedRefPtr.FromRaw(heap, p);
      handles := handles[h := q];
      unused := Used(unused, p);
      assert View() == Act(before, FromRaw(h, p));
    }

    method CopyHandle(h: nat, r: nat)
      requires Distinct() && Referable(View()) && Enabled(View(), Copy(h, r))
      modifies this, heap
      ensures Distinct() && View() == Act(old(View()), Copy(h, r))
    {
      ghost var before := View();
      var q := new ScopedRefPtr.Copy(handles[r]);
      handles := handles[h := q];
      assert View() == Act(before, Copy(h, r));
    }

    method MoveHandle(h: nat, r: nat)
      requires Distinct() && Referable(View()) && Enabled(View(), Move(h, r))
      modifies this, handles.Values
      ensures Distinct() && View() == Act(old(View()), Move(h, r))
    {
      ghost var before := View();
      var q := new ScopedRefPtr.Move(handles[r]);
      handles := handles[h := q];
      assert View().handles == before.handles[h := before.handles[r]][r := None];
    }

    method DestroyHandle(h: nat)
      requires Distinct() && Referable(View()) && Enabled(View(), Destroy(h))
      modifies this, heap
      ensures Distinct() && View() == Act(old(View()), Destroy(h))
    {
      ghost var before := View();
      handles[h].Destroy();
      handles := handles - {h};
      assert View() == Act(before, Destroy(h));
    }

    method TakeOutOf(h: nat) returns (p: Ptr)
      requires Distinct() && Referable(View()) && Enabled(View(), TakeOut(h))
      modifies this, handles.Values
      ensures Distinct() && View() == Act(old(View()), TakeOut(h)) && p == old(View()).handles[h]
    {
      ghost var before := View();
      p := handles[h].release();
      owed := Owe(owed, p);
      assert View() == Act(before, TakeOut(h));
    }

    method GiveBackOwed(o: nat)
      requires Distinct() && Referable(View()) && Enabled(View(), GiveBack(o))
      modifies this, heap
      ensures Distinct() && View() == Act(old(View()), GiveBack(o))
    {
      ghost var before := View();
      var _ := heap.DecRef(o);
      owed := owed - multiset{o};
      assert View() == Act(before, GiveBack(o));
    }

    method AssignRawTo(h: nat, p: Ptr)
      requires Distinct() && Referable(View()) && Enabled(View(), AssignRaw(h, p))
      modifies this, heap, handles.Values
      ensures Distinct() && View() == Act(old(View()), AssignRaw(h, p))
    {
      ghost var before := View();
      handles[h].AssignRaw(p);
      unused := Used(unused, p);
      assert View() == Act(before, AssignRaw(h, p));
    }

    method AssignCopyTo(h: nat, r: nat)
      requires Distinct() && Referable(View()) && Enabled(View(), AssignCopy(h, r))
      modifies this, heap, handles.Values
      ensures Distinct() && View() == Act(old(View()), AssignCopy(h, r))
    {
      ghost var before := View();
      handles[h].AssignCopy(handles[r]);
      assert View() == Act(before, AssignCopy(h, r));
    }

    method AssignMoveTo(h: nat, r: nat)
      requires Distinct() && Referable(View()) && Enabled(View(), AssignMove(h, r))
      modifies this, heap, handles.Values
      ensures Distinct() && View() == Act(old(View()), AssignMove(h, r))
    {
      ghost var before := View();
      handles[h].AssignMove(handles[r]);
      assert h != r ==> View().handles == before.handles[h := before.handles[r]][r := None];
      assert h == r ==> View().handles == before.handles;
    }

    method SwapHandles(h: nat, r: nat)
      requires Distinct() && Referable(View()) && Enabled(View(), Swap(h, r))
      modifies this, handles.Values
      ensures Distinct() && View() == Act(old(View()), Swap(h, r))
    {
      ghost var before := View();
      handles[h].Swap(handles[r]);
      assert View() == Act(before, Swap(h, r));
    }

    method SwapRawWith(h: nat, p: Ptr) returns (q: Ptr)
      requires Distinct() && Referable(View()) && Enabled(View(), SwapRaw(h, p))
      modifies this, handles.Values
      ensures Distinct() && View() == Act(old(View()), SwapRaw(h, p)) && q == old(View()).handles[h]
    {
      ghost var after := Act(View(), SwapRaw(h, p));
      assert after.handles == View().handles[h := p] && after.heap == View().heap && after.unused == unused;
      owed := after.owed;
      q := handles[h].SwapRaw(p);
      assert View().handles == after.handles;
    }
  }
}
