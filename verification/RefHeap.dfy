/**
  Retain, release and the weak-reference operations when each runs without interference: the
  runtime as one thread sees it.  Here registration is exact: a weak variable holds an object
  if and only if the object lists the variable, and then exactly once.

  A call of `-dealloc` is recorded in `deallocs`; what its body does is the business of the
  concurrent protocol.
*/
module RefHeap {
  import opened Options
  import opened Sequences
  import opened SideTable

  /** The side table, the weak variables (one that is absent holds nil) and the `-dealloc`
      calls made so far, in order. */
  datatype Heap = Heap(table: Table, slots: map<Loc, Obj>, deallocs: seq<Obj>)

  // ---------------------------------------------------------------- the operations as functions

  function Retain(h: Heap, o: Option<Obj>): (Heap, Option<Obj>) {
    if o.None? then (h, None)
    else (h.(table := Retained(h.table, o.value)), if Accepts(h.table, o.value) then o else None)
  }

  /** The weak variables in `locs` set to nil. */
  function Zeroed(slots: map<Loc, Obj>, locs: seq<Loc>): map<Loc, Obj> {
    slots - set l | l in locs
  }

  function Release(h: Heap, o: Option<Obj>): Heap {
    if o.None? then h
    else if IsLast(h.table, o.value) then
      Heap(Released(h.table, o.value) - {o.value}, Zeroed(h.slots, Extracted(h.table, o.value)), h.deallocs + [o.value])
    else h.(table := Released(h.table, o.value))
  }

  function Detach(h: Heap, loc: Loc): Table {
    if loc in h.slots then Unregister(h.table, h.slots[loc], loc) else h.table
  }

  function StoreWeak(h: Heap, loc: Loc, o: Option<Obj>): (Heap, Option<Obj>) {
    var t := Detach(h, loc);
    if o.None? then (h.(table := t, slots := h.slots - {loc}), None)
    else if Accepts(t, o.value) then (h.(table := Register(t, o.value, loc), slots := h.slots[loc := o.value]), o)
    else (h.(table := Register(t, o.value, loc), slots := h.slots - {loc}), None)
  }

  function InitWeak(h: Heap, loc: Loc, o: Option<Obj>): (Heap, Option<Obj>) {
    var h1 := h.(slots := h.slots - {loc});
    if o.None? then (h1, None) else StoreWeak(h1, loc, o)
  }

  function SlotOf(h: Heap, loc: Loc): Option<Obj> {
    if loc in h.slots then Some(h.slots[loc]) else None
  }

  function LoadWeakRetained(h: Heap, loc: Loc): (Heap, Option<Obj>) {
    Retain(h, SlotOf(h, loc))
  }

  function DestroyWeak(h: Heap, loc: Loc): Heap {
    h.(table := Detach(h, loc), slots := h.slots - {loc})
  }

  // ---------------------------------------------------------------- exact registration

  predicate Lists(h: Heap, o: Obj, loc: Loc) {
    o in h.table && loc in h.table[o].locs
  }

  predicate EntryOk(e: Entry) {
    !e.dying && e.count >= 1 && NoRepeats(e.locs)
  }

  ghost predicate Exact(h: Heap) {
    && (forall o :: o in h.table ==> EntryOk(h.table[o]))
    && (forall o: Obj, loc: Loc :: Lists(h, o, loc) <==> SlotOf(h, loc) == Some(o))
  }

  lemma {:induction false} WithoutKeepsDistinct(locs: seq<Loc>, loc: Loc)
    requires NoRepeats(locs)
    ensures NoRepeats(Without(locs, loc))
  {
    if locs != [] {
      WithoutKeepsDistinct(locs[1..], loc);
      forall i, j | 0 <= i < j < |Without(locs, loc)|
        ensures Without(locs, loc)[i] != Without(locs, loc)[j]
      {
        if locs[0] != loc && i == 0 {
          assert Without(locs, loc)[j] in Without(locs[1..], loc);
        }
      }
    }
  }

  /** A retain of an object that is not dying succeeds, raises its count by one and does
      nothing else. */
  lemma RetainKeepsExact(h: Heap, o: Obj)
    requires Exact(h)
    ensures var (h', r) := Retain(h, Some(o));
            && Exact(h') && r == Some(o) && h'.slots == h.slots && h'.deallocs == h.deallocs
            && forall p: Obj :: Count(h'.table, p) == Count(h.table, p) + if p == o then 1 else 0
  {
    var h' := Retain(h, Some(o)).0;
    assert forall p: Obj, loc: Loc :: Lists(h', p, loc) <==> Lists(h, p, loc);
  }

  /** A release that is not the last lowers the count by one and does nothing else. */
  lemma ReleaseKeepsExact(h: Heap, o: Obj)
    requires Exact(h) && Count(h.table, o) > 1
    ensures var h' := Release(h, Some(o));
            && Exact(h') && h'.slots == h.slots && h'.deallocs == h.deallocs
            && forall p: Obj :: Count(h'.table, p) == Count(h.table, p) - if p == o then 1 else 0
  {
    var h' := Release(h, Some(o));
    assert forall p: Obj, loc: Loc :: Lists(h', p, loc) <==> Lists(h, p, loc);
  }

  /** The last release sets exactly the weak variables of the object to nil, calls `-dealloc`
      once and forgets the object. */
  lemma LastReleaseClears(h: Heap, o: Obj)
    requires Exact(h) && Count(h.table, o) <= 1
    ensures var h' := Release(h, Some(o));
            && Exact(h') && o !in h'.table && h'.deallocs == h.deallocs + [o]
            && (forall loc: Loc :: SlotOf(h', loc) == if SlotOf(h, loc) == Some(o) then None else SlotOf(h, loc))
            && forall p: Obj :: p != o ==> Count(h'.table, p) == Count(h.table, p)
  {
    var h' := Release(h, Some(o));
    forall loc: Loc
      ensures SlotOf(h', loc) == if SlotOf(h, loc) == Some(o) then None else SlotOf(h, loc)
    {
      assert Lists(h, o, loc) <==> SlotOf(h, loc) == Some(o);
    }
    forall p: Obj, loc: Loc
      ensures Lists(h', p, loc) <==> SlotOf(h', loc) == Some(p)
    {
      assert Lists(h, p, loc) <==> SlotOf(h, loc) == Some(p);
    }
  }

  lemma DetachClears(h: Heap, loc: Loc)
    requires Exact(h)
    ensures var h' := DestroyWeak(h, loc);
            && Exact(h') && loc !in h'.slots
            && forall p: Obj :: Count(h'.table, p) == Count(h.table, p)
  {
    var h' := DestroyWeak(h, loc);
    if loc in h.slots {
      assert Lists(h, h.slots[loc], loc);
      WithoutKeepsDistinct(h.table[h.slots[loc]].locs, loc);
    }
    forall p: Obj, l: Loc
      ensures Lists(h', p, l) <==> SlotOf(h', l) == Some(p)
    {
      assert Lists(h, p, l) <==> SlotOf(h, l) == Some(p);
    }
  }

  /** A weak store changes its own variable and nothing else that a client can see. */
  lemma StoreKeepsExact(h: Heap, loc: Loc, o: Option<Obj>)
    requires Exact(h)
    ensures var (h', r) := StoreWeak(h, loc, o);
            && Exact(h') && r == o && h'.deallocs == h.deallocs
            && (forall l: Loc :: SlotOf(h', l) == if l == loc then o else SlotOf(h, l))
            && forall p: Obj :: Count(h'.table, p) == Count(h.table, p)
  {
    DetachClears(h, loc);
    var d := DestroyWeak(h, loc);
    var h' := StoreWeak(h, loc, o).0;
    if o.Some? {
      assert forall p: Obj :: !Lists(d, p, loc);
      assert h'.table == Register(d.table, o.value, loc);
      assert !Lists(d, o.value, loc);
      assert EntryOk(h'.table[o.value]);
      forall p: Obj, l: Loc
        ensures Lists(h', p, l) <==> SlotOf(h', l) == Some(p)
      {
        assert Lists(d, p, l) <==> SlotOf(d, l) == Some(p);
      }
    }
  }

  /** Destroying a weak variable is storing nil in it. */
  lemma DestroyIsStoreNil(h: Heap, loc: Loc)
    ensures StoreWeak(h, loc, None) == (DestroyWeak(h, loc), None)
  {
  }

  /** Initialising a weak variable writes nil without looking at what it held, so registration
      stays exact if and only if it held nothing. */
  lemma InitNeedsFreshLocation(h: Heap, loc: Loc, o: Option<Obj>)
    requires Exact(h)
    ensures Exact(InitWeak(h, loc, o).0) <==> loc !in h.slots
    ensures loc !in h.slots ==> InitWeak(h, loc, o) == StoreWeak(h, loc, o)
  {
    var h' := InitWeak(h, loc, o).0;
    if loc !in h.slots {
      assert h.slots - {loc} == h.slots;
      StoreKeepsExact(h, loc, o);
    } else {
      var p := h.slots[loc];
      assert Lists(h, p, loc);
      if o == Some(p) {
        var locs := h.table[p].locs;
        var k :| 0 <= k < |locs| && locs[k] == loc;
        assert h'.table[p].locs == locs + [loc];
        assert h'.table[p].locs[k] == h'.table[p].locs[|locs|];
      } else {
        assert Lists(h', p, loc);
      }
    }
  }

  /** A load hands out the object in the variable, if any, with its count raised. */
  lemma LoadReturnsContents(h: Heap, loc: Loc)
    requires Exact(h)
    ensures var (h', r) := LoadWeakRetained(h, loc);
            && Exact(h') && r == SlotOf(h, loc) && h'.slots == h.slots && h'.deallocs == h.deallocs
            && forall p: Obj :: Count(h'.table, p) == Count(h.table, p) + if r == Some(p) then 1 else 0
  {
    if loc in h.slots {
      RetainKeepsExact(h, h.slots[loc]);
    }
  }

  /** Over a variable that holds something, an initialisation sets it all the same and leaves every
      other variable and all counts: what is wrong afterwards is the registration only. */
  lemma InitSetsItsSlot(h: Heap, loc: Loc, o: Option<Obj>)
    requires Exact(h)
    ensures var (h', r) := InitWeak(h, loc, o);
            && r == o && h'.deallocs == h.deallocs
            && (forall l: Loc :: SlotOf(h', l) == if l == loc then o else SlotOf(h, l))
            && forall p: Obj :: Count(h'.table, p) == Count(h.table, p)
  {
    assert o.Some? && o.value in h.table ==> EntryOk(h.table[o.value]);
  }

  /** Nil is retained and released without effect. */
  lemma NilIsIgnored(h: Heap)
    ensures Retain(h, None) == (h, None) && Release(h, None) == h
  {
  }

  /** An object that is dying is not retained, ignores releases and is not stored: the variable ends
      up holding nil, as after a destroy. */
  lemma DyingIsRefused(h: Heap, o: Obj, loc: Loc)
    requires o in h.table && h.table[o].dying
    ensures Retain(h, Some(o)) == (h, None) && Release(h, Some(o)) == h
    ensures StoreWeak(h, loc, Some(o)) == (DestroyWeak(h, loc), None)
    ensures InitWeak(h, loc, Some(o)) == (h.(slots := h.slots - {loc}), None)
  {
    assert h.table[o := h.table[o]] == h.table;
    var t := Detach(h, loc);
    assert t[o].dying && t[o := t[o]] == t;
    assert h.slots - {loc} - {loc} == h.slots - {loc};
  }

  /** A load that finds a dying object hands out nothing and leaves everything. */
  lemma DyingIsNotLoaded(h: Heap, loc: Loc)
    requires loc in h.slots && h.slots[loc] in h.table && h.table[h.slots[loc]].dying
    ensures LoadWeakRetained(h, loc) == (h, None)
  {
    var o := h.slots[loc];
    assert h.table[o := h.table[o]] == h.table;
  }

  // ---------------------------------------------------------------- runs

  datatype Call =
    | CallRetain(o: Option<Obj>)
    | CallRelease(o: Option<Obj>)
    | CallInit(loc: Loc, o: Option<Obj>)
    | CallStore(loc: Loc, o: Option<Obj>)
    | CallLoad(loc: Loc)
    | CallDestroy(loc: Loc)

  function Perform(h: Heap, call: Call): Heap {
    match call
    case CallRetain(o) => Retain(h, o).0
    case CallRelease(o) => Release(h, o)
    case CallInit(loc, o) => InitWeak(h, loc, o).0
    case CallStore(loc, o) => StoreWeak(h, loc, o).0
    case CallLoad(loc) => LoadWeakRetained(h, loc).0
    case CallDestroy(loc) => DestroyWeak(h, loc)
  }

  function PerformAll(h: Heap, calls: seq<Call>): Heap
    decreases |calls|
  {
    if calls == [] then h else PerformAll(Perform(h, calls[0]), calls[1..])
  }

  /** Variables are initialised only while they hold nothing. */
  predicate InitsAreFresh(h: Heap, calls: seq<Call>)
    decreases |calls|
  {
    calls == [] ||
    ((calls[0].CallInit? ==> calls[0].loc !in h.slots) && InitsAreFresh(Perform(h, calls[0]), calls[1..]))
  }

  lemma PerformKeepsExact(h: Heap, call: Call)
    requires Exact(h) && (call.CallInit? ==> call.loc !in h.slots)
    ensures Exact(Perform(h, call))
  {
    match call
    case CallRetain(o) => if o.Some? { RetainKeepsExact(h, o.value); }
    case CallRelease(o) =>
      if o.Some? {
        if Count(h.table, o.value) > 1 {
          ReleaseKeepsExact(h, o.value);
        } else {
          LastReleaseClears(h, o.value);
        }
      }
    case CallInit(loc, o) => InitNeedsFreshLocation(h, loc, o);
    case CallStore(loc, o) => StoreKeepsExact(h, loc, o);
    case CallLoad(loc) => LoadReturnsContents(h, loc);
    case CallDestroy(loc) => DetachClears(h, loc);
  }

  /** Over every run of calls, a weak variable holds an object exactly when the object lists
      it, exactly once. */
  lemma {:induction false} RegistrationIsExact(h: Heap, calls: seq<Call>)
    requires Exact(h) && InitsAreFresh(h, calls)
    ensures Exact(PerformAll(h, calls))
    decreases |calls|
  {
    if calls != [] {
      PerformKeepsExact(h, calls[0]);
      RegistrationIsExact(Perform(h, calls[0]), calls[1..]);
    }
  }
}
