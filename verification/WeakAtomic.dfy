/**
  The protocol and the sequential runtime agree: an operation that finds its locks free and runs
  to its end without interference does to memory what the function of `RefHeap` says.
*/
module WeakAtomic {
  import opened Options
  import opened SideTable
  import opened WeakProtocol
  import RefHeap

  /** What the thread does next when nothing else runs. */
  function NextMove(f: Frame): Move {
    if WantsStripe(f.pc).Some? then TakeStripe
    else if NeedsShard(f.pc).Some? && !f.sh then TakeShard
    else Run
  }

  /** The thread takes up to `n` steps of its own. */
  function Solo(c: Config, i: Tid, v: View, n: nat): View
    decreases n
  {
    if n == 0 || v.st.Empty? || !CanMove(c, v.m, v.l, v.st, NextMove(v.st.top)) then v
    else Solo(c, i, Step(c, i, v, NextMove(v.st.top)), n - 1)
  }

  function HeapOf(m: Mem): RefHeap.Heap {
    RefHeap.Heap(m.table, m.slots, [])
  }

  function WithHeap(m: Mem, h: RefHeap.Heap): Mem {
    m.(table := h.table, slots := h.slots)
  }

  function At(m: Mem, l: Ledger, pc: Pc, rest: Stack): View {
    View(m, l, Push(Frame(pc, false), rest))
  }

  // ---------------------------------------------------------------- pieces

  lemma {:induction false} SoloAdds(c: Config, i: Tid, v: View, a: nat, b: nat)
    ensures Solo(c, i, v, a + b) == Solo(c, i, Solo(c, i, v, a), b)
    decreases a
  {
    if a > 0 && v.st.Push? {
      if CanMove(c, v.m, v.l, v.st, NextMove(v.st.top)) {
        SoloAdds(c, i, Step(c, i, v, NextMove(v.st.top)), a - 1, b);
      } else {
        assert Solo(c, i, v, b) == v;
      }
    }
  }

  /** Taking a shard lock, running the critical section and giving the lock back. */
  lemma SectionAlone(c: Config, i: Tid, m: Mem, l: Ledger, pc: Pc, rest: Stack)
    requires NeedsShard(pc).Some? && c.shard(NeedsShard(pc).value) !in m.shards
    ensures Solo(c, i, At(m, l, pc, rest), 2) == Section(m, l, pc, rest)
  {
    var k := c.shard(NeedsShard(pc).value);
    assert WantsStripe(pc).None?;
    var v1 := Step(c, i, At(m, l, pc, rest), TakeShard);
    assert v1 == View(m.(shards := m.shards[k := i]), l, Push(Frame(pc, true), rest));
    assert m.shards[k := i] - {k} == m.shards;
    var v2 := Step(c, i, v1, Run);
    assert v2 == Section(m, l, pc, rest);
    assert Solo(c, i, At(m, l, pc, rest), 2) == Solo(c, i, v1, 1) == Solo(c, i, v2, 0);
  }

  lemma StripeAlone(c: Config, i: Tid, m: Mem, l: Ledger, pc: Pc, rest: Stack)
    requires WantsStripe(pc).Some? && c.stripe(WantsStripe(pc).value) !in m.stripes
    ensures Solo(c, i, At(m, l, pc, rest), 1)
            == At(m.(stripes := m.stripes[c.stripe(WantsStripe(pc).value) := i]), l, AfterStripe(m, pc), rest)
  {
    var v1 := Step(c, i, At(m, l, pc, rest), TakeStripe);
    assert Solo(c, i, At(m, l, pc, rest), 1) == Solo(c, i, v1, 0);
  }

  lemma RunAlone(c: Config, i: Tid, m: Mem, l: Ledger, pc: Pc, rest: Stack)
    requires WantsStripe(pc).None? && NeedsShard(pc).None?
    ensures Solo(c, i, At(m, l, pc, rest), 1) == Unlocked(c, m, l, pc, rest)
  {
    var v1 := Step(c, i, At(m, l, pc, rest), Run);
    assert Solo(c, i, At(m, l, pc, rest), 1) == Solo(c, i, v1, 0);
  }

  lemma UnlockAlone(c: Config, i: Tid, m: Mem, m': Mem, l: Ledger, loc: Loc, ref: Option<Obj>, rest: Stack)
    requires c.stripe(loc) !in m.stripes && m'.stripes == m.stripes[c.stripe(loc) := i]
    ensures Solo(c, i, At(m', l, Unlock(loc, ref), rest), 1)
            == View(m'.(stripes := m.stripes), l.(owned := l.owned + Bag(ref)), rest)
  {
    RunAlone(c, i, m', l, Unlock(loc, ref), rest);
    assert m'.stripes - {c.stripe(loc)} == m.stripes;
  }

  // ---------------------------------------------------------------- retain

  /** The reference lent to the call comes back, with one more if the retain succeeded. */
  lemma RetainAlone(c: Config, i: Tid, m: Mem, l: Ledger, o: Obj, own: bool, rest: Stack)
    requires c.shard(o) !in m.shards
    ensures var (h, r) := RefHeap.Retain(HeapOf(m), Some(o));
            Solo(c, i, At(m, l, Retain(o, own), rest), 2)
            == View(WithHeap(m, h), l.(owned := l.owned + Bag(When(own, o)) + Bag(r)), rest)
  {
    SectionAlone(c, i, m, l, Retain(o, own), rest);
  }

  // ---------------------------------------------------------------- weak loads

  function LoadSteps(m: Mem, loc: Loc): nat {
    if loc in m.slots then 4 else 2
  }

  lemma HeldAlone(c: Config, i: Tid, m: Mem, m1: Mem, l: Ledger, loc: Loc, o: Obj, rest: Stack)
    requires c.stripe(loc) !in m.stripes && c.shard(o) !in m.shards
    requires m1 == m.(stripes := m.stripes[c.stripe(loc) := i])
    ensures Solo(c, i, At(m1, l, LoadHeld(loc, o), rest), 3)
            == View(m.(table := Retained(m.table, o)), l.(owned := l.owned + Bag(When(Accepts(m.table, o), o))), rest)
  {
    SectionAlone(c, i, m1, l, LoadHeld(loc, o), rest);
    SoloAdds(c, i, At(m1, l, LoadHeld(loc, o), rest), 2, 1);
    UnlockAlone(c, i, m, m1.(table := Retained(m.table, o)), l, loc, When(Accepts(m.table, o), o), rest);
  }

  lemma LoadAlone(c: Config, i: Tid, m: Mem, l: Ledger, loc: Loc, rest: Stack)
    requires c.stripe(loc) !in m.stripes && (loc in m.slots ==> c.shard(m.slots[loc]) !in m.shards)
    ensures var (h, r) := RefHeap.LoadWeakRetained(HeapOf(m), loc);
            Solo(c, i, At(m, l, LoadStart(loc), rest), LoadSteps(m, loc))
            == View(WithHeap(m, h), l.(owned := l.owned + Bag(r)), rest)
  {
    var v0 := At(m, l, LoadStart(loc), rest);
    var m1 := m.(stripes := m.stripes[c.stripe(loc) := i]);
    StripeAlone(c, i, m, l, LoadStart(loc), rest);
    if loc in m.slots {
      var o := m.slots[loc];
      SoloAdds(c, i, v0, 1, 3);
      HeldAlone(c, i, m, m1, l, loc, o, rest);
    } else {
      SoloAdds(c, i, v0, 1, 1);
      UnlockAlone(c, i, m, m1, l, loc, None, rest);
    }
  }

  // ---------------------------------------------------------------- weak stores

  function AttachSteps(new_: Option<Obj>): nat {
    if new_.Some? then 3 else 2
  }

  function StoreSteps(m: Mem, loc: Loc, new_: Option<Obj>): nat {
    1 + (if loc in m.slots then 2 else 0) + AttachSteps(new_)
  }

  /** The second half of a store: `m'` is memory with the stripe held and the variable
      unregistered. */
  lemma AttachAlone(c: Config, i: Tid, m: Mem, m': Mem, l: Ledger, loc: Loc, new_: Option<Obj>, own: bool, rest: Stack)
    requires c.stripe(loc) !in m.stripes && (new_.Some? ==> c.shard(new_.value) !in m.shards)
    requires m' == m.(stripes := m.stripes[c.stripe(loc) := i], table := RefHeap.Detach(HeapOf(m), loc))
    ensures var h := RefHeap.StoreWeak(HeapOf(m), loc, new_).0;
            Solo(c, i, At(m', l, Unregistered(loc, new_, own), rest), AttachSteps(new_))
            == View(WithHeap(m, h), l.(owned := l.owned + Bag(if own then new_ else None)), rest)
  {
    var v := At(m', l, Unregistered(loc, new_, own), rest);
    var h := RefHeap.StoreWeak(HeapOf(m), loc, new_).0;
    var m'' := m'.(table := h.table, slots := h.slots);
    if new_.Some? {
      SoloAdds(c, i, v, 2, 1);
      SectionAlone(c, i, m', l, StoreNew(loc, new_.value, own), rest);
      UnlockAlone(c, i, m, m'', l, loc, When(own, new_.value), rest);
    } else {
      SoloAdds(c, i, v, 1, 1);
      RunAlone(c, i, m', l, StoreNil(loc), rest);
      UnlockAlone(c, i, m, m'', l, loc, None, rest);
    }
  }

  /** A destroy is the same with nothing to store. */
  lemma StoreAlone(c: Config, i: Tid, m: Mem, l: Ledger, loc: Loc, new_: Option<Obj>, own: bool, rest: Stack)
    requires c.stripe(loc) !in m.stripes
    requires (loc in m.slots ==> c.shard(m.slots[loc]) !in m.shards)
             && (new_.Some? ==> c.shard(new_.value) !in m.shards)
    ensures var h := RefHeap.StoreWeak(HeapOf(m), loc, new_).0;
            Solo(c, i, At(m, l, StoreStart(loc, new_, own), rest), StoreSteps(m, loc, new_))
            == View(WithHeap(m, h), l.(owned := l.owned + Bag(if own then new_ else None)), rest)
  {
    var v0 := At(m, l, StoreStart(loc, new_, own), rest);
    var m1 := m.(stripes := m.stripes[c.stripe(loc) := i]);
    var m2 := m1.(table := RefHeap.Detach(HeapOf(m), loc));
    StripeAlone(c, i, m, l, StoreStart(loc, new_, own), rest);
    if loc in m.slots {
      var o := m.slots[loc];
      SoloAdds(c, i, v0, 1, 2 + AttachSteps(new_));
      SectionAlone(c, i, m1, l, StoreOld(loc, o, new_, own), rest);
      SoloAdds(c, i, At(m1, l, StoreOld(loc, o, new_, own), rest), 2, AttachSteps(new_));
    } else {
      SoloAdds(c, i, v0, 1, AttachSteps(new_));
    }
    AttachAlone(c, i, m, m2, l, loc, new_, own, rest);
  }

  // ---------------------------------------------------------------- releases

  function ReleaseSteps(m: Mem, o: Obj): nat {
    if IsLast(m.table, o) then 2 + 2 * |Extracted(m.table, o)| + 4 else 2
  }

  lemma {:induction false} ZeroAlone(c: Config, i: Tid, m: Mem, l: Ledger, o: Obj, locs: seq<Loc>, rest: Stack)
    requires forall loc :: loc in locs ==> c.stripe(loc) !in m.stripes
    ensures Solo(c, i, At(m, l, Zero(o, locs), rest), 2 * |locs|)
            == At(m.(slots := RefHeap.Zeroed(m.slots, locs)), l, Zero(o, []), rest)
    decreases |locs|
  {
    if locs == [] {
      assert RefHeap.Zeroed(m.slots, locs) == m.slots;
    } else {
      var m1 := m.(stripes := m.stripes[c.stripe(locs[0]) := i]);
      var m2 := m.(slots := m.slots - {locs[0]});
      var v := At(m, l, Zero(o, locs), rest);
      StripeAlone(c, i, m, l, Zero(o, locs), rest);
      RunAlone(c, i, m1, l, ZeroHeld(o, locs), rest);
      assert m1.stripes - {c.stripe(locs[0])} == m.stripes;
      SoloAdds(c, i, v, 1, 1);
      SoloAdds(c, i, v, 2, 2 * |locs[1..]|);
      ZeroAlone(c, i, m2, l, o, locs[1..], rest);
      ZeroedNext(m.slots, locs);
    }
  }

  lemma ZeroedNext(slots: map<Loc, Obj>, locs: seq<Loc>)
    requires locs != []
    ensures RefHeap.Zeroed(slots - {locs[0]}, locs[1..]) == RefHeap.Zeroed(slots, locs)
  {
    assert locs == [locs[0]] + locs[1..];
  }

  /** The end of a deallocation, with a `-dealloc` that does nothing. */
  lemma EndAlone(c: Config, i: Tid, m: Mem, l: Ledger, o: Obj, rest: Stack)
    requires c.shard(o) !in m.shards
    ensures Solo(c, i, At(m, l, Zero(o, []), rest), 4)
            == View(m.(table := m.table - {o}),
                    l.(invoked := l.invoked + multiset{o}, life := l.life[o := Freed]), rest)
  {
    var v := At(m, l, Zero(o, []), rest);
    var l1 := l.(invoked := l.invoked + multiset{o});
    RunAlone(c, i, m, l, Zero(o, []), rest);
    RunAlone(c, i, m, l1, Body(o), rest);
    SectionAlone(c, i, m, l1, Remove(o), rest);
    SoloAdds(c, i, v, 1, 3);
    SoloAdds(c, i, At(m, l1, Body(o), rest), 1, 2);
  }

  lemma LastReleaseAlone(c: Config, i: Tid, m: Mem, l: Ledger, o: Obj, rest: Stack)
    requires c.shard(o) !in m.shards
    requires forall loc :: loc in Extracted(m.table, o) ==> c.stripe(loc) !in m.stripes
    ensures var locs := Extracted(m.table, o);
            var m1, l1 := m.(table := Released(m.table, o)), l.(life := l.life[o := Dying]);
            Solo(c, i, At(m1, l1, Zero(o, locs), rest), 2 * |locs| + 4)
            == View(m1.(table := m1.table - {o}, slots := RefHeap.Zeroed(m.slots, locs)),
                    l.(life := l.life[o := Freed], invoked := l.invoked + multiset{o}), rest)
  {
    var locs := Extracted(m.table, o);
    var m1, l1 := m.(table := Released(m.table, o)), l.(life := l.life[o := Dying]);
    ZeroAlone(c, i, m1, l1, o, locs, rest);
    SoloAdds(c, i, At(m1, l1, Zero(o, locs), rest), 2 * |locs|, 4);
    EndAlone(c, i, m1.(slots := RefHeap.Zeroed(m.slots, locs)), l1, o, rest);
    assert l1.life[o := Freed] == l.life[o := Freed];
  }

  /** A release that is not the last gives up its reference; the last one deallocates the
      object, whose `-dealloc` here does nothing. */
  lemma ReleaseAlone(c: Config, i: Tid, m: Mem, l: Ledger, o: Obj, own: bool, rest: Stack)
    requires c.shard(o) !in m.shards
    requires forall loc :: loc in Extracted(m.table, o) ==> c.stripe(loc) !in m.stripes
    ensures var h := RefHeap.Release(HeapOf(m), Some(o));
            var l' := if IsLast(m.table, o)
                      then l.(life := l.life[o := Freed], invoked := l.invoked + multiset{o}) else l;
            Solo(c, i, At(m, l, Release(o, own), rest), ReleaseSteps(m, o)) == View(WithHeap(m, h), l', rest)
  {
    var v := At(m, l, Release(o, own), rest);
    SectionAlone(c, i, m, l, Release(o, own), rest);
    if IsLast(m.table, o) {
      SoloAdds(c, i, v, 2, 2 * |Extracted(m.table, o)| + 4);
      LastReleaseAlone(c, i, m, l, o, rest);
    }
  }
}
