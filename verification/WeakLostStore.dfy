/**
  What becomes of a store, or of a destroy, that finds the object in its variable being
  deallocated: for any two objects, any weak variable and any hash functions, the deallocator
  later writes nil over the stored object, or to the destroyed location.
*/
module WeakLostStore {
  import opened Options
  import opened SideTable
  import opened WeakProtocol
  import opened WeakInvariant
  import opened WeakAtomic
  import opened WeakExact
  import opened WeakRuns
  import RefHeap

  // ---------------------------------------------------------------- the states of the runs

  function Shared(table: Table, slots: map<Loc, Obj>, loc: Loc): Mem {
    Mem(table, slots, {loc}, map[], map[])
  }

  /** Two threads; the first one has a reference to `o`, the second one to `p`. */
  function Begun(o: Obj, p: Obj, loc: Loc): State {
    State(Shared(map[], map[], loc), Ledger(map[o := Live, p := Live], multiset{o, p}, multiset{}), [Empty, Empty])
  }

  function Holding(o: Obj, p: Obj, loc: Loc): State {
    State(Shared(map[o := Entry(1, false, [loc])], map[loc := o], loc), Begun(o, p, loc).ledger, [Empty, Empty])
  }

  /** The first thread deallocates `o`, in one of two ways on. */
  function WhileDying(table: Table, slots: map<Loc, Obj>, o: Obj, p: Obj, loc: Loc, locs: seq<Loc>): State {
    State(Shared(table[o := Entry(1, true, [])], slots, loc),
          Ledger(map[o := Dying, p := Live], multiset{p}, multiset{}),
          [Push(Frame(Zero(o, locs), false), Empty), Empty])
  }

  /** The last reference to `o` has been released, and `loc` has been extracted. */
  function Extracting(o: Obj, p: Obj, loc: Loc): State {
    WhileDying(map[], map[loc := o], o, p, loc, [loc])
  }

  /** The second thread has stored `p`, and its call has returned. */
  function Stored(o: Obj, p: Obj, loc: Loc): State {
    WhileDying(map[p := Entry(1, false, [loc])], map[loc := p], o, p, loc, [loc])
  }

  /** The second thread has destroyed the variable instead, and its call has returned. */
  function Destroyed(o: Obj, p: Obj, loc: Loc): State {
    WhileDying(map[], map[], o, p, loc, [loc])
  }

  /** The deallocator has zeroed what it had extracted. */
  function Lost(o: Obj, p: Obj, loc: Loc): State {
    WhileDying(map[p := Entry(1, false, [loc])], map[], o, p, loc, [])
  }

  function AtRest(o: Obj, p: Obj, loc: Loc): State {
    State(Shared(map[p := Entry(1, false, [loc])], map[], loc),
          Ledger(map[o := Freed, p := Live], multiset{p}, multiset{o}), [Empty, Empty])
  }

  /** The state after thread `i` has stored in `loc` without interference. */
  function AfterStore(c: Config, s: State, i: Tid, loc: Loc, new_: Option<Obj>): State
    requires i < |s.threads|
  {
    var owned := s.ledger.owned - Bag(new_);
    Put(s, i, Solo(c, i, At(s.mem, s.ledger.(owned := owned), StoreStart(loc, new_, new_.Some?), s.threads[i]),
                   StoreSteps(s.mem, loc, new_)))
  }

  /** In closed form, when no lock is held. */
  lemma StoreResult(c: Config, s: State, i: Tid, loc: Loc, new_: Option<Obj>)
    requires i < |s.threads| && s.threads[i].Empty? && s.mem.stripes == map[] && s.mem.shards == map[]
    requires new_.Some? ==> new_.value in s.ledger.owned
    ensures var h := RefHeap.StoreWeak(HeapOf(s.mem), loc, new_).0;
            AfterStore(c, s, i, loc, new_) == State(WithHeap(s.mem, h), s.ledger, s.threads)
  {
    var l := s.ledger.(owned := s.ledger.owned - Bag(new_));
    StoreAlone(c, i, s.mem, l, loc, new_, new_.Some?, s.threads[i]);
    assert l.(owned := l.owned + Bag(new_)) == s.ledger;
    assert s.threads[i := s.threads[i]] == s.threads;
  }

  lemma StoreLeads(c: Config, s: State, i: Tid, loc: Loc, new_: Option<Obj>)
    requires i < |s.threads| && s.threads[i].Empty? && loc in s.mem.inited
    requires new_.Some? ==> new_.value in s.ledger.owned
    ensures Leads(c, s, AfterStore(c, s, i, loc, new_))
  {
    var pc := StoreStart(loc, new_, new_.Some?);
    var l := s.ledger.(owned := s.ledger.owned - Bag(new_));
    LeadsCall(c, s, i, pc, StoreSteps(s.mem, loc, new_),
              Solo(c, i, At(s.mem, l, pc, s.threads[i]), StoreSteps(s.mem, loc, new_)));
  }

  /** A store of an object that has no entry yet. */
  lemma StoreOfNew(h: RefHeap.Heap, loc: Loc, p: Obj)
    requires p !in h.table
    ensures RefHeap.StoreWeak(h, loc, Some(p)).0
            == RefHeap.Heap(RefHeap.Detach(h, loc)[p := Entry(1, false, [loc])], h.slots[loc := p], h.deallocs)
  {
    assert [] + [loc] == [loc];
  }

  // ---------------------------------------------------------------- the beginning

  lemma Allocations(c: Config, o: Obj, p: Obj, loc: Loc)
    requires o != p
    ensures Leads(c, Initial(2), Begun(o, p, loc).(mem := Initial(2).mem))
  {
    var s0 := Initial(2);
    assert s0.threads == [Empty, Empty];
    var s1 := State(s0.mem, Ledger(map[o := Live], multiset{o}, multiset{}), [Empty, Empty]);
    assert Apply(c, s0, Action(0, Alloc(o))) == s1;
    LeadsOneStep(c, s0, Action(0, Alloc(o)));
    SecondAllocation(c, s1, o, p, loc);
    LeadsOn(c, s0, s1, Begun(o, p, loc).(mem := s0.mem));
  }

  lemma SecondAllocation(c: Config, s: State, o: Obj, p: Obj, loc: Loc)
    requires o != p && s == State(Initial(2).mem, Ledger(map[o := Live], multiset{o}, multiset{}), [Empty, Empty])
    ensures Leads(c, s, Begun(o, p, loc).(mem := Initial(2).mem))
  {
    assert Apply(c, s, Action(1, Alloc(p))) == Begun(o, p, loc).(mem := Initial(2).mem);
    LeadsOneStep(c, s, Action(1, Alloc(p)));
  }

  lemma Beginning(c: Config, o: Obj, p: Obj, loc: Loc)
    requires o != p
    ensures Leads(c, Initial(2), Begun(o, p, loc))
  {
    var s := Begun(o, p, loc).(mem := Initial(2).mem);
    Allocations(c, o, p, loc);
    assert Apply(c, s, Action(0, InitSlot(loc))) == Begun(o, p, loc);
    LeadsOneStep(c, s, Action(0, InitSlot(loc)));
    LeadsOn(c, Initial(2), s, Begun(o, p, loc));
  }

  lemma FirstStore(c: Config, o: Obj, p: Obj, loc: Loc)
    ensures Leads(c, Begun(o, p, loc), Holding(o, p, loc))
  {
    var s := Begun(o, p, loc);
    StoreResult(c, s, 0, loc, Some(o));
    StoreOfNew(HeapOf(s.mem), loc, o);
    StoreLeads(c, s, 0, loc, Some(o));
    assert AfterStore(c, s, 0, loc, Some(o)) == Holding(o, p, loc);
  }

  lemma LastRelease(c: Config, o: Obj, p: Obj, loc: Loc)
    requires o != p
    ensures Leads(c, Holding(o, p, loc), Extracting(o, p, loc))
  {
    var s := Holding(o, p, loc);
    assert s.ledger.owned - Bag(Carries(Release(o, true))) == multiset{p};
    ReleaseBegins(c, s.mem, s.ledger.(owned := multiset{p}), o, p, loc);
    LeadsCall(c, s, 0, Release(o, true), 2, ViewOf(Extracting(o, p, loc), 0));
    assert Put(s, 0, ViewOf(Extracting(o, p, loc), 0)) == Extracting(o, p, loc);
  }

  lemma ReleaseBegins(c: Config, m: Mem, l: Ledger, o: Obj, p: Obj, loc: Loc)
    requires o != p && m == Holding(o, p, loc).mem && l == Begun(o, p, loc).ledger.(owned := multiset{p})
    ensures Solo(c, 0, At(m, l, Release(o, true), Empty), 2) == ViewOf(Extracting(o, p, loc), 0)
  {
    SectionAlone(c, 0, m, l, Release(o, true), Empty);
    assert l.life[o := Dying] == map[o := Dying, p := Live];
  }

  lemma ToExtracting(c: Config, o: Obj, p: Obj, loc: Loc)
    requires o != p
    ensures Leads(c, Initial(2), Extracting(o, p, loc))
  {
    Beginning(c, o, p, loc);
    FirstStore(c, o, p, loc);
    LastRelease(c, o, p, loc);
    LeadsOn(c, Initial(2), Begun(o, p, loc), Holding(o, p, loc));
    LeadsOn(c, Initial(2), Holding(o, p, loc), Extracting(o, p, loc));
  }

  // ---------------------------------------------------------------- a store is lost

  lemma NothingToUnregister(t: Table, o: Obj, loc: Loc)
    requires o in t ==> t[o].locs == []
    ensures Unregister(t, o, loc) == t
  {
  }

  lemma SecondStore(c: Config, o: Obj, p: Obj, loc: Loc)
    requires o != p
    ensures Leads(c, Extracting(o, p, loc), Stored(o, p, loc))
  {
    var s := Extracting(o, p, loc);
    StoreResult(c, s, 1, loc, Some(p));
    StoreOfNew(HeapOf(s.mem), loc, p);
    NothingToUnregister(s.mem.table, o, loc);
    StoreLeads(c, s, 1, loc, Some(p));
    assert AfterStore(c, s, 1, loc, Some(p)) == Stored(o, p, loc);
  }

  lemma Zeroing(c: Config, o: Obj, p: Obj, loc: Loc)
    requires o != p
    ensures Leads(c, Stored(o, p, loc), Lost(o, p, loc))
  {
    var s := Stored(o, p, loc);
    ZeroAlone(c, 0, s.mem, s.ledger, o, [loc], Empty);
    assert RefHeap.Zeroed(s.mem.slots, [loc]) == map[];
    LeadsAlone(c, s, 0, 2);
    assert Put(s, 0, Solo(c, 0, ViewOf(s, 0), 2)) == Lost(o, p, loc);
  }

  /** What is left of the deallocation, as a view of the first thread. */
  lemma EndingAlone(c: Config, o: Obj, p: Obj, loc: Loc)
    requires o != p
    ensures Solo(c, 0, ViewOf(Lost(o, p, loc), 0), 4) == ViewOf(AtRest(o, p, loc), 0)
  {
    var m, l := Lost(o, p, loc).mem, Lost(o, p, loc).ledger;
    EndAlone(c, 0, m, l, o, Empty);
    assert m.table - {o} == map[p := Entry(1, false, [loc])];
    assert l.life[o := Freed] == map[o := Freed, p := Live];
  }

  lemma Ending(c: Config, o: Obj, p: Obj, loc: Loc)
    requires o != p
    ensures Leads(c, Lost(o, p, loc), AtRest(o, p, loc))
  {
    var v := ViewOf(AtRest(o, p, loc), 0);
    EndingAlone(c, o, p, loc);
    LeadsAs(c, Lost(o, p, loc), 0, 4, v);
    assert Put(Lost(o, p, loc), 0, v) == AtRest(o, p, loc);
  }

  /** A completed store of a live object is undone by the deallocator of the object that was in
      the variable before.  The live object's entry goes on listing the variable: a destroy
      changes nothing, and at rest the destroyed location is still listed. */
  lemma StoreIsLost(c: Config, o: Obj, p: Obj, loc: Loc)
    requires o != p
    ensures Leads(c, Initial(2), Stored(o, p, loc)) && Leads(c, Stored(o, p, loc), Lost(o, p, loc))
    ensures Leads(c, Lost(o, p, loc), AtRest(o, p, loc))
    ensures var s := Stored(o, p, loc);
            s.threads[1].Empty? && LifeOf(s.ledger, p) == Live && p in s.ledger.owned
            && Names(s.mem, loc, p) && Listed(s.mem, p, loc)
    ensures var s := Lost(o, p, loc);
            LifeOf(s.ledger, p) == Live && p in s.ledger.owned && loc !in s.mem.slots && Listed(s.mem, p, loc)
            && !Converse(c, s)
    ensures AfterStore(c, Lost(o, p, loc), 1, loc, None) == Lost(o, p, loc)
    ensures var s := AtRest(o, p, loc);
            s.threads == [Empty, Empty] && LifeOf(s.ledger, p) == Live && Listed(s.mem, p, loc)
            && AfterStore(c, s, 1, loc, None) == s
  {
    ToExtracting(c, o, p, loc);
    SecondStore(c, o, p, loc);
    LeadsOn(c, Initial(2), Extracting(o, p, loc), Stored(o, p, loc));
    Zeroing(c, o, p, loc);
    Ending(c, o, p, loc);
    NilChangesNothing(c, Lost(o, p, loc), loc);
    NilChangesNothing(c, AtRest(o, p, loc), loc);
    assert Listed(Lost(o, p, loc).mem, p, loc);
  }

  lemma NilChangesNothing(c: Config, s: State, loc: Loc)
    requires |s.threads| == 2 && s.threads[1].Empty? && s.mem.stripes == map[] && s.mem.shards == map[]
    requires loc !in s.mem.slots
    ensures AfterStore(c, s, 1, loc, None) == s
  {
    StoreResult(c, s, 1, loc, None);
    assert s.mem.slots - {loc} == s.mem.slots;
  }

  // ---------------------------------------------------------------- a destroyed location is written

  /** A destroy that has returned leaves its location on the list of the deallocator, which
      writes it two steps later.  If the location is initialised again before and stored to, that
      store is lost as above, although it found nothing in the variable. */
  lemma DestroyIsNotTheEnd(c: Config, o: Obj, p: Obj, loc: Loc)
    requires o != p
    ensures Leads(c, Initial(2), Destroyed(o, p, loc))
    ensures AfterStore(c, Extracting(o, p, loc), 1, loc, None) == Destroyed(o, p, loc)
    ensures var s := Destroyed(o, p, loc);
            && s.threads[1].Empty? && loc !in s.mem.slots && WillZero(s.threads[0], o, loc)
            && Enabled(c, s, Action(0, TakeStripe))
            && var s1 := Apply(c, s, Action(0, TakeStripe));
               Enabled(c, s1, Action(0, Run)) && Writes(ViewOf(s1, 0), Run) == Some(loc)
    ensures Leads(c, Destroyed(o, p, loc), Stored(o, p, loc))
  {
    ToExtracting(c, o, p, loc);
    Destroying(c, o, p, loc);
    LeadsOn(c, Initial(2), Extracting(o, p, loc), Destroyed(o, p, loc));
    ZeroedAfterDestroy(c, o, p, loc);
    Reuse(c, o, p, loc);
  }

  lemma Destroying(c: Config, o: Obj, p: Obj, loc: Loc)
    requires o != p
    ensures AfterStore(c, Extracting(o, p, loc), 1, loc, None) == Destroyed(o, p, loc)
    ensures Leads(c, Extracting(o, p, loc), Destroyed(o, p, loc))
  {
    var s := Extracting(o, p, loc);
    StoreResult(c, s, 1, loc, None);
    NothingToUnregister(s.mem.table, o, loc);
    assert s.mem.slots - {loc} == map[];
    StoreLeads(c, s, 1, loc, None);
  }

  lemma ZeroedAfterDestroy(c: Config, o: Obj, p: Obj, loc: Loc)
    ensures var s := Destroyed(o, p, loc);
            && Enabled(c, s, Action(0, TakeStripe))
            && var s1 := Apply(c, s, Action(0, TakeStripe));
               Enabled(c, s1, Action(0, Run)) && Writes(ViewOf(s1, 0), Run) == Some(loc)
  {
  }

  lemma Reuse(c: Config, o: Obj, p: Obj, loc: Loc)
    requires o != p
    ensures Leads(c, Destroyed(o, p, loc), Stored(o, p, loc))
  {
    var s := Destroyed(o, p, loc);
    InitAgain(c, o, p, loc);
    StoreResult(c, s, 1, loc, Some(p));
    StoreOfNew(HeapOf(s.mem), loc, p);
    StoreLeads(c, s, 1, loc, Some(p));
    assert AfterStore(c, s, 1, loc, Some(p)) == Stored(o, p, loc);
    LeadsOn(c, s, s, Stored(o, p, loc));
  }

  lemma InitAgain(c: Config, o: Obj, p: Obj, loc: Loc)
    ensures Leads(c, Destroyed(o, p, loc), Destroyed(o, p, loc))
    ensures var s, a := Destroyed(o, p, loc), Action(1, InitSlot(loc)); Enabled(c, s, a) && Apply(c, s, a) == s
  {
    var s := Destroyed(o, p, loc);
    var a := Action(1, InitSlot(loc));
    assert s.mem.slots - {loc} == s.mem.slots && s.mem.inited + {loc} == s.mem.inited;
    assert s.threads[1 := s.threads[1]] == s.threads;
    LeadsOneStep(c, s, a);
  }
}
