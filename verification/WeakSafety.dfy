/**
  What the weak-reference protocol guarantees in every interleaving: weak loads are safe,
  references are conserved, `-dealloc` runs once, dying objects stay dying, and a `-dealloc`
  may name its own object exactly when its last release found a table entry.
*/
module WeakSafety {
  import opened Options
  import opened SideTable
  import opened WeakProtocol
  import opened WeakInvariant

  /** The state that `n` threads have reached by the actions of `run`. */
  function Reached(c: Config, n: nat, run: seq<Action>): State
    requires Legal(c, Initial(n), run)
  {
    After(c, Initial(n), run)
  }

  lemma ReachedOk(c: Config, n: nat, run: seq<Action>)
    requires Legal(c, Initial(n), run)
    ensures Inv(c, Reached(c, n, run))
  {
    InitialOk(c, n);
    Reachable(c, Initial(n), run);
  }

  // ---------------------------------------------------------------- weak variables

  /** A weak variable that is not in the middle of a store names an object that still has its
      table entry: a live one that lists the variable, or a dying one whose deallocator has
      still to zero the variable. */
  lemma SlotsNameEntries(c: Config, n: nat, run: seq<Action>, loc: Loc)
    requires Legal(c, Initial(n), run)
    requires var s := Reached(c, n, run);
             loc in s.mem.slots && !MidStore(c, s, loc)
    ensures var s := Reached(c, n, run);
            var o := s.mem.slots[loc];
            && o in s.mem.table
            && if LifeOf(s.ledger, o) == Live then loc in s.mem.table[o].locs
               else LifeOf(s.ledger, o) == Dying && exists i :: 0 <= i < |s.threads| && WillZero(s.threads[i], o, loc)
  {
    ReachedOk(c, n, run);
  }

  /** A load that is about to return an object returns a live one, and the reference it hands
      out is one of those counted. */
  lemma LoadsReturnLiveObjects(c: Config, n: nat, run: seq<Action>, i: Tid, loc: Loc, o: Obj)
    requires Legal(c, Initial(n), run)
    requires var s := Reached(c, n, run);
             i < |s.threads| && s.threads[i].Push? && s.threads[i].top.pc == Unlock(loc, Some(o))
    ensures var s := Reached(c, n, run);
            LifeOf(s.ledger, o) == Live && s.ledger.owned[o] + 1 <= Count(s.mem.table, o)
  {
    var s := Reached(c, n, run);
    ReachedOk(c, n, run);
    assert CountOk(s, o);
    TotalUpdate(Reference, s.threads, i, Empty, o);
  }

  /** The retain inside a load succeeds exactly when the deallocation of the object it read
      has not begun; it never finds the object without an entry. */
  lemma LoadsRefuseDyingObjects(c: Config, n: nat, run: seq<Action>, i: Tid, loc: Loc, o: Obj)
    requires Legal(c, Initial(n), run)
    requires var s := Reached(c, n, run);
             i < |s.threads| && s.threads[i].Push? && s.threads[i].top == Frame(LoadHeld(loc, o), true)
    ensures var s := Reached(c, n, run);
            var s' := Apply(c, s, Action(i, Run));
            && o in s.mem.table
            && s'.threads[i].Push?
            && s'.threads[i].top.pc == Unlock(loc, if LifeOf(s.ledger, o) == Live then Some(o) else None)
            && References(s'.mem, s'.ledger, o) == References(s.mem, s.ledger, o) + If(LifeOf(s.ledger, o) == Live)
  {
    ReachedOk(c, n, run);
    TitleHolds(c, Reached(c, n, run), i);
  }

  // ---------------------------------------------------------------- strong references

  /** Conservation: the references in the hands of clients and of running calls are exactly
      those the side table counts; a dying object has none left; `-dealloc` has been called at
      most once, and once for every object that is gone. */
  lemma ReferencesConserved(c: Config, n: nat, run: seq<Action>, o: Obj)
    requires Legal(c, Initial(n), run)
    ensures var s := Reached(c, n, run);
            && s.ledger.owned[o] + Total(Reference, s.threads, o)
               == (if LifeOf(s.ledger, o) == Live then Count(s.mem.table, o) else 0)
            && s.ledger.invoked[o] <= 1
            && (LifeOf(s.ledger, o) == Live ==> s.ledger.invoked[o] == 0)
            && (LifeOf(s.ledger, o) == Freed ==> s.ledger.invoked[o] == 1)
  {
    ReachedOk(c, n, run);
    var s := Reached(c, n, run);
    assert CountOk(s, o);
    InvokedAreDeallocators(s.threads, o);
  }

  lemma {:induction false} InvokedOnStack(st: Stack, o: Obj)
    ensures StackWeight(Invoked, st, o) <= StackWeight(Deallocator, st, o)
  {
    if st.Push? {
      InvokedOnStack(st.rest, o);
    }
  }

  lemma {:induction false} InvokedAreDeallocators(threads: seq<Stack>, o: Obj)
    ensures Total(Invoked, threads, o) <= Total(Deallocator, threads, o)
  {
    if threads != [] {
      InvokedOnStack(threads[0], o);
      InvokedAreDeallocators(threads[1..], o);
    }
  }

  /** A deallocation begins only in the release that gives up the last reference. */
  lemma DeallocationBegins(c: Config, n: nat, run: seq<Action>, a: Action, o: Obj)
    requires Legal(c, Initial(n), run) && Enabled(c, Reached(c, n, run), a)
    requires LifeOf(Reached(c, n, run).ledger, o) != Dying
    requires LifeOf(Apply(c, Reached(c, n, run), a).ledger, o) == Dying
    ensures var s := Reached(c, n, run);
            && a.move == Run && s.threads[a.i].top == Frame(Release(o, true), true)
            && References(s.mem, s.ledger, o) == 1 && s.ledger.owned[o] == 0
  {
    var s := Reached(c, n, run);
    ReachedOk(c, n, run);
    TitleHolds(c, s, a.i);
    LifeChanges(c, a.i, ViewOf(s, a.i), a.move, o);
    assert CountOk(s, o);
    TotalUpdate(Reference, s.threads, a.i, Empty, o);
  }

  lemma LifeChanges(c: Config, i: Tid, v: View, mv: Move, o: Obj)
    requires CanMove(c, v.m, v.l, v.st, mv) && StackOk(v.st) && Title(v.m, v.l, v.st) && TableOk(v.m, v.l)
    requires LifeOf(v.l, o) != Dying && LifeOf(Step(c, i, v, mv).l, o) == Dying
    ensures mv == Run && v.st.top.sh && v.st.top.pc == Release(o, true)
    ensures LifeOf(v.l, o) == Live && Count(v.m.table, o) == 1
  {
  }

  /** When every call has returned, an object nobody refers to has been deallocated, by one
      call of `-dealloc`, and no weak variable names it. */
  lemma NothingLeaksAtRest(c: Config, n: nat, run: seq<Action>, o: Obj)
    requires Legal(c, Initial(n), run)
    requires forall i :: 0 <= i < |Reached(c, n, run).threads| ==> Reached(c, n, run).threads[i].Empty?
    requires LifeOf(Reached(c, n, run).ledger, o) != Unborn && o !in Reached(c, n, run).ledger.owned
    ensures var s := Reached(c, n, run);
            && LifeOf(s.ledger, o) == Freed && s.ledger.invoked[o] == 1 && o !in s.mem.table
            && forall loc :: loc in s.mem.slots ==> s.mem.slots[loc] != o
  {
    var s := Reached(c, n, run);
    ReachedOk(c, n, run);
    assert CountOk(s, o);
    TotalOfIdle(Reference, s.threads, o);
    TotalOfIdle(Deallocator, s.threads, o);
    TotalOfIdle(Invoked, s.threads, o);
    assert s.ledger.owned[o] == 0;
    assert LifeOf(s.ledger, o) == Live ==> Count(s.mem.table, o) >= 1;
  }

  // ---------------------------------------------------------------- dying objects

  /** The object is being deallocated and its entry says so. */
  predicate MarkedDying(s: State, o: Obj, count: nat) {
    LifeOf(s.ledger, o) == Dying && o in s.mem.table && s.mem.table[o] == Entry(count, true, [])
  }

  lemma DyingStep(c: Config, s: State, a: Action, o: Obj, count: nat)
    requires Inv(c, s) && Enabled(c, s, a) && MarkedDying(s, o, count)
    ensures MarkedDying(Apply(c, s, a), o, count) || LifeOf(Apply(c, s, a).ledger, o) == Freed
  {
    var v := ViewOf(s, a.i);
    TitleHolds(c, s, a.i);
    DyingView(c, a.i, v, a.move, o, count);
  }

  lemma DyingView(c: Config, i: Tid, v: View, mv: Move, o: Obj, count: nat)
    requires CanMove(c, v.m, v.l, v.st, mv) && StackOk(v.st) && Title(v.m, v.l, v.st)
    requires LifeOf(v.l, o) == Dying && o in v.m.table && v.m.table[o] == Entry(count, true, [])
    ensures var v' := Step(c, i, v, mv);
            || (LifeOf(v'.l, o) == Dying && o in v'.m.table && v'.m.table[o] == Entry(count, true, []))
            || LifeOf(v'.l, o) == Freed
  {
    if mv.Run? && v.st.top.sh {
      match v.st.top.pc
      case Retain(_, _) =>
      case Release(_, _) =>
      case Remove(_) =>
      case StoreOld(_, _, _, _) =>
      case StoreNew(_, _, _) =>
      case LoadHeld(_, _) =>
    }
  }

  /** Once freed, an object stays so. */
  lemma FreedView(c: Config, i: Tid, v: View, mv: Move, o: Obj)
    requires CanMove(c, v.m, v.l, v.st, mv) && StackOk(v.st) && Title(v.m, v.l, v.st) && TableOk(v.m, v.l)
    requires LifeOf(v.l, o) == Freed
    ensures LifeOf(Step(c, i, v, mv).l, o) == Freed
  {
  }

  /** Stability: from the moment an object is marked until it is removed, no run of retains,
      releases, weak stores and weak loads, its own `-dealloc`'s included, raises its count,
      registers a weak variable with it, takes the mark away or hands out a reference to it. */
  lemma {:induction false} DyingIsStable(c: Config, s: State, run: seq<Action>, o: Obj, count: nat)
    requires Inv(c, s) && Legal(c, s, run)
    requires MarkedDying(s, o, count) || LifeOf(s.ledger, o) == Freed
    ensures var s' := After(c, s, run);
            && (MarkedDying(s', o, count) || LifeOf(s'.ledger, o) == Freed)
            && o !in s'.ledger.owned && Total(Reference, s'.threads, o) == 0
    decreases |run|
  {
    if run == [] {
      assert CountOk(s, o);
    } else {
      var s1 := Apply(c, s, run[0]);
      InvStep(c, s, run[0]);
      if MarkedDying(s, o, count) {
        DyingStep(c, s, run[0], o, count);
      } else {
        TitleHolds(c, s, run[0].i);
        FreedView(c, run[0].i, ViewOf(s, run[0].i), run[0].move, o);
      }
      DyingIsStable(c, s1, run[1..], o, count);
    }
  }

  // ---------------------------------------------------------------- -dealloc naming its own object

  /** A `-dealloc` has no reference to its own object.  What happens if it names the object all
      the same is decided by whether the last release found a table entry: with an entry, a
      retain gives nothing, a release is ignored and a weak store leaves nil; without one, the
      retain hands out a reference, the release begins a second deallocation and the weak
      variable comes to name the dying object. */
  lemma NamingTheDyingObject(m: Mem, l: Ledger, o: Obj, loc: Loc, rest: Stack)
    requires TableOk(m, l) && LifeOf(l, o) == Dying && o !in l.owned
    requires rest.Push? && rest.top.pc == Body(o)
    ensures o in m.table <==> o !in StrongSection(m, l, Retain(o, false), rest).l.owned
    ensures o in m.table <==> StrongSection(m, l, Release(o, false), rest) == View(m, l, rest)
    ensures o in m.table <==> loc !in WeakSection(m, l, StoreNew(loc, o, false), rest).m.slots
    ensures o in m.table ==> WeakSection(m, l, StoreNew(loc, o, false), rest).m.table == m.table
    ensures o !in m.table ==>
              && StrongSection(m, l, Release(o, false), rest).st == Push(Frame(Zero(o, []), false), rest)
              && WeakSection(m, l, StoreNew(loc, o, false), rest).m.slots[loc] == o
  {
    if o in m.table {
      assert m.table[o := m.table[o]] == m.table;
    }
  }
}
