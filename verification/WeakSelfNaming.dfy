/**
  A `-dealloc` that names its own object, to which it has no reference.
*/
module WeakSelfNaming {
  import opened Options
  import opened SideTable
  import opened WeakProtocol
  import opened WeakInvariant
  import opened WeakAtomic
  import opened WeakRuns

  /** The steps an operation takes when nothing interferes. */
  function CallSteps(m: Mem, pc: Pc): nat {
    match pc
    case Retain(_, _) => 2
    case Release(o, _) => ReleaseSteps(m, o)
    case StoreStart(loc, new_, _) => StoreSteps(m, loc, new_)
    case LoadStart(loc) => LoadSteps(m, loc)
    case _ => 0
  }

  /** The locks that the operation needs are free. */
  predicate LocksFree(c: Config, m: Mem, pc: Pc) {
    match pc
    case Retain(o, _) => c.shard(o) !in m.shards
    case Release(o, _) =>
      c.shard(o) !in m.shards && forall loc :: loc in Extracted(m.table, o) ==> c.stripe(loc) !in m.stripes
    case StoreStart(loc, new_, _) =>
      && c.stripe(loc) !in m.stripes
      && (loc in m.slots ==> c.shard(m.slots[loc]) !in m.shards)
      && (new_.Some? ==> c.shard(new_.value) !in m.shards)
    case _ => true
  }

  /** The state after a call that borrows no reference has run to its end. */
  function AfterCall(c: Config, s: State, i: Tid, pc: Pc): State
    requires i < |s.threads|
  {
    Put(s, i, Solo(c, i, At(s.mem, s.ledger, pc, s.threads[i]), CallSteps(s.mem, pc)))
  }

  /** An object inside its `-dealloc` is dying, and nobody has a reference to it. */
  lemma InsideIsDying(c: Config, s: State, i: Tid, o: Obj)
    requires Inv(c, s) && i < |s.threads| && InsideDealloc(s.threads[i], o)
    ensures LifeOf(s.ledger, o) == Dying && o !in s.ledger.owned
    ensures StackWeight(Deallocator, s.threads[i], o) >= 1
  {
    assert CountOk(s, o);
    InsideHasWeight(s.threads[i], o);
    TotalUpdate(Deallocator, s.threads, i, Empty, o);
  }

  lemma RetainUnmarked(c: Config, s: State, i: Tid, o: Obj)
    requires Inv(c, s) && i < |s.threads| && InsideDealloc(s.threads[i], o) && o !in s.mem.table
    requires c.shard(o) !in s.mem.shards
    ensures !Inv(c, AfterCall(c, s, i, Retain(o, false)))
    ensures AfterCall(c, s, i, Retain(o, false)).threads == s.threads
  {
    InsideIsDying(c, s, i, o);
    RetainAlone(c, i, s.mem, s.ledger, o, false, s.threads[i]);
    var s' := AfterCall(c, s, i, Retain(o, false));
    assert o in s'.mem.table && !EntryOk(s'.mem.table[o], LifeOf(s'.ledger, o));
  }

  lemma StoreUnmarked(c: Config, s: State, i: Tid, loc: Loc, o: Obj)
    requires Inv(c, s) && i < |s.threads| && InsideDealloc(s.threads[i], o) && o !in s.mem.table
    requires LocksFree(c, s.mem, StoreStart(loc, Some(o), false))
    ensures !Inv(c, AfterCall(c, s, i, StoreStart(loc, Some(o), false)))
    ensures AfterCall(c, s, i, StoreStart(loc, Some(o), false)).threads == s.threads
  {
    InsideIsDying(c, s, i, o);
    StoreAlone(c, i, s.mem, s.ledger, loc, Some(o), false, s.threads[i]);
    var s' := AfterCall(c, s, i, StoreStart(loc, Some(o), false));
    assert o in s'.mem.table && !EntryOk(s'.mem.table[o], LifeOf(s'.ledger, o));
  }

  lemma ReleaseUnmarked(c: Config, s: State, i: Tid, o: Obj)
    requires Inv(c, s) && i < |s.threads| && InsideDealloc(s.threads[i], o) && o !in s.mem.table
    requires c.shard(o) !in s.mem.shards
    ensures !Inv(c, AfterCall(c, s, i, Release(o, false)))
    ensures AfterCall(c, s, i, Release(o, false)).threads == s.threads
  {
    InsideIsDying(c, s, i, o);
    ReleaseAlone(c, i, s.mem, s.ledger, o, false, s.threads[i]);
    var s' := AfterCall(c, s, i, Release(o, false));
    assert LifeOf(s'.ledger, o) == Freed && s'.threads == s.threads;
    TotalUpdate(Deallocator, s.threads, i, Empty, o);
    assert !CountOk(s', o);
  }

  /** With an entry the call is like any other: it is refused or ignored, and returns. */
  lemma MarkedReturns(c: Config, s: State, i: Tid, pc: Pc, o: Obj)
    requires Inv(c, s) && i < |s.threads| && IsEntry(pc) && Unowned(pc) == Some(o)
    requires InsideDealloc(s.threads[i], o) && o in s.mem.table && LocksFree(c, s.mem, pc)
    ensures AfterCall(c, s, i, pc).threads == s.threads
  {
    InsideIsDying(c, s, i, o);
    match pc
    case Retain(_, _) => RetainAlone(c, i, s.mem, s.ledger, o, false, s.threads[i]);
    case Release(_, _) => ReleaseAlone(c, i, s.mem, s.ledger, o, false, s.threads[i]);
    case StoreStart(loc, _, _) => StoreAlone(c, i, s.mem, s.ledger, loc, Some(o), false, s.threads[i]);
  }

  /** A thread inside the `-dealloc` of `o`, in any reachable state, calls an operation that
      names `o` without a reference to it, and the call runs to its end.  The invariant holds
      afterwards if and only if `o` had a table entry at the call. */
  lemma NamingOwnObject(c: Config, s: State, i: Tid, pc: Pc, o: Obj)
    requires Inv(c, s) && i < |s.threads| && InClient(s.threads[i])
    requires MayCall(s.mem, s.ledger, s.threads[i], pc) && Unowned(pc) == Some(o) && LocksFree(c, s.mem, pc)
    ensures AfterCall(c, s, i, pc).threads == s.threads
    ensures Inv(c, AfterCall(c, s, i, pc)) <==> o in s.mem.table
  {
    if o in s.mem.table {
      MarkedReturns(c, s, i, pc, o);
      assert s.ledger.(owned := s.ledger.owned - Bag(Carries(pc))) == s.ledger;
      LeadsCall(c, s, i, pc, CallSteps(s.mem, pc),
          Solo(c, i, At(s.mem, s.ledger, pc, s.threads[i]), CallSteps(s.mem, pc)));
      LeadsKeepsInv(c, s, AfterCall(c, s, i, pc));
    } else {
      match pc
      case Retain(_, _) => RetainUnmarked(c, s, i, o);
      case Release(_, _) => ReleaseUnmarked(c, s, i, o);
      case StoreStart(loc, _, _) => StoreUnmarked(c, s, i, loc, o);
    }
  }

  // ---------------------------------------------------------------- what can be made good

  /** The end of a `-dealloc` that is the top frame. */
  lemma BodyEnds(c: Config, i: Tid, m: Mem, l: Ledger, o: Obj, rest: Stack)
    requires c.shard(o) !in m.shards
    ensures Solo(c, i, At(m, l, Body(o), rest), 3)
            == View(m.(table := m.table - {o}), l.(life := l.life[o := Freed]), rest)
  {
    SoloAdds(c, i, At(m, l, Body(o), rest), 1, 2);
    RunAlone(c, i, m, l, Body(o), rest);
    SectionAlone(c, i, m, l, Remove(o), rest);
  }

  function WithCount(m: Mem, o: Obj, n: nat): Mem {
    m.(table := m.table[o := Entry(n, false, [])])
  }

  function InBody(o: Obj, rest: Stack): Stack {
    Push(Frame(Body(o), false), rest)
  }

  lemma RetainMakesEntry(c: Config, i: Tid, m: Mem, l: Ledger, o: Obj, st: Stack)
    requires c.shard(o) !in m.shards && o !in m.table
    ensures Solo(c, i, At(m, l, Retain(o, false), st), 2)
            == View(WithCount(m, o, 2), l.(owned := l.owned + multiset{o}), st)
  {
    RetainAlone(c, i, m, l, o, false, st);
    assert l.owned + Bag(None) + Bag(Some(o)) == l.owned + multiset{o};
  }

  lemma ReleaseLowersEntry(c: Config, i: Tid, m: Mem, l: Ledger, o: Obj, st: Stack)
    requires c.shard(o) !in m.shards && o in m.table && m.table[o] == Entry(2, false, [])
    ensures ReleaseSteps(m, o) == 2
    ensures Solo(c, i, At(m, l, Release(o, true), st), 2) == View(WithCount(m, o, 1), l, st)
  {
    ReleaseAlone(c, i, m, l, o, true, st);
  }

  lemma SameEnd(c: Config, i: Tid, m: Mem, l: Ledger, o: Obj, rest: Stack)
    requires c.shard(o) !in m.shards && o !in m.table
    ensures Solo(c, i, At(WithCount(m, o, 1), l, Body(o), rest), 3)
            == Solo(c, i, At(m, l, Body(o), rest), 3)
  {
    BodyEnds(c, i, m, l, o, rest);
    BodyEnds(c, i, WithCount(m, o, 1), l, o, rest);
    assert m.table[o := Entry(1, false, [])] - {o} == m.table - {o};
  }

  /** Without an entry, a retain by the `-dealloc` hands out a reference to the dying object.
      If it is given up again before the `-dealloc` returns, the end is the same as if the object
      had not been named: the invariant is broken in between only. */
  lemma RetainAndReleaseLeaveNoTrace(c: Config, i: Tid, m: Mem, l: Ledger, o: Obj, rest: Stack)
    requires c.shard(o) !in m.shards && o !in m.table
    ensures Solo(c, i, At(m, l, Retain(o, false), InBody(o, rest)), 2)
            == View(WithCount(m, o, 2), l.(owned := l.owned + multiset{o}), InBody(o, rest))
    ensures Solo(c, i, At(WithCount(m, o, 2), l, Release(o, true), InBody(o, rest)),
            ReleaseSteps(WithCount(m, o, 2), o))
            == View(WithCount(m, o, 1), l, InBody(o, rest))
    ensures Solo(c, i, View(WithCount(m, o, 1), l, InBody(o, rest)), 3) == Solo(c, i, View(m, l, InBody(o, rest)), 3)
  {
    RetainMakesEntry(c, i, m, l, o, InBody(o, rest));
    ReleaseLowersEntry(c, i, WithCount(m, o, 2), l, o, InBody(o, rest));
    assert WithCount(WithCount(m, o, 2), o, 1) == WithCount(m, o, 1);
    SameEnd(c, i, m, l, o, rest);
  }
}
