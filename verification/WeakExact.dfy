/**
  When weak registration is exact under interleaving: which steps keep it, and what a run
  without the others guarantees.

  A weak variable can be claimed in two places: an entry lists it, or a deallocator has
  extracted it and has still to zero it.  Claims are exact when each of them is for the object
  that the variable holds, only once, and no store is between its two critical sections there.
*/
module WeakExact {
  import opened Options
  import opened Sequences
  import opened SideTable
  import opened WeakProtocol
  import opened WeakInvariant
  import RefHeap

  predicate Listed(m: Mem, o: Obj, loc: Loc) {
    loc in EntryOf(m.table, o).locs
  }

  predicate Names(m: Mem, loc: Loc, o: Obj) {
    loc in m.slots && m.slots[loc] == o
  }

  predicate NamesLive(s: State, loc: Loc) {
    loc in s.mem.slots && LifeOf(s.ledger, s.mem.slots[loc]) == Live
  }

  /** An entry lists a weak variable only if the variable holds its object, and then once. */
  ghost predicate Converse(c: Config, s: State) {
    && (forall o :: NoRepeats(EntryOf(s.mem.table, o).locs))
    && (forall o, loc {:trigger Listed(s.mem, o, loc)} :: Listed(s.mem, o, loc) ==>
          Names(s.mem, loc, o) && !MidStore(c, s, loc))
  }

  // ---------------------------------------------------------------- what a step does to lists and slots

  /** What a step does to the list of an object. */
  datatype ListMove = Same | Emptied | Removed(loc: Loc) | Appended(loc: Loc)

  function ListMoveOf(v: View, mv: Move, o: Obj): ListMove {
    if !mv.Run? || v.st.Empty? || !v.st.top.sh then Same
    else match v.st.top.pc
      case Release(p, _) => if p == o && IsLast(v.m.table, o) then Emptied else Same
      case Remove(p) => if p == o then Emptied else Same
      case StoreOld(loc, p, _, _) => if p == o then Removed(loc) else Same
      case StoreNew(loc, p, _) => if p == o && Accepts(v.m.table, o) then Appended(loc) else Same
      case _ => Same
  }

  function Moved(locs: seq<Loc>, lm: ListMove): seq<Loc> {
    match lm
    case Same => locs
    case Emptied => []
    case Removed(loc) => Without(locs, loc)
    case Appended(loc) => locs + [loc]
  }

  lemma StrongList(m: Mem, l: Ledger, f: Frame, rest: Stack, o: Obj)
    requires f.sh && (f.pc.Retain? || f.pc.Release? || f.pc.Remove?)
    ensures EntryOf(StrongSection(m, l, f.pc, rest).m.table, o).locs
            == Moved(EntryOf(m.table, o).locs, ListMoveOf(View(m, l, Push(f, rest)), Run, o))
  {
    match f.pc
    case Retain(_, _) =>
    case Release(_, _) =>
    case Remove(_) =>
  }

  lemma WeakList(m: Mem, l: Ledger, f: Frame, rest: Stack, o: Obj)
    requires f.sh && (f.pc.StoreOld? || f.pc.StoreNew? || f.pc.LoadHeld?)
    ensures EntryOf(WeakSection(m, l, f.pc, rest).m.table, o).locs
            == Moved(EntryOf(m.table, o).locs, ListMoveOf(View(m, l, Push(f, rest)), Run, o))
  {
    match f.pc
    case StoreOld(_, _, _, _) =>
    case StoreNew(_, _, _) =>
    case LoadHeld(_, _) =>
  }

  lemma ListMoves(c: Config, i: Tid, v: View, mv: Move, o: Obj)
    requires CanMove(c, v.m, v.l, v.st, mv) && StackOk(v.st)
    ensures EntryOf(Step(c, i, v, mv).m.table, o).locs == Moved(EntryOf(v.m.table, o).locs, ListMoveOf(v, mv, o))
  {
    if mv.Run? && v.st.top.sh {
      var m := v.m.(shards := v.m.shards - {c.shard(ShardOf(v.st.top.pc))});
      if v.st.top.pc.Retain? || v.st.top.pc.Release? || v.st.top.pc.Remove? {
        StrongList(m, v.l, v.st.top, v.st.rest, o);
      } else {
        WeakList(m, v.l, v.st.top, v.st.rest, o);
      }
    }
  }

  /** The weak variable that a step writes, if any. */
  function Writes(v: View, mv: Move): Option<Loc> {
    match mv
    case InitSlot(loc) => Some(loc)
    case Run =>
      if v.st.Empty? then None
      else (match v.st.top.pc
            case StoreNew(loc, _, _) => if v.st.top.sh then Some(loc) else None
            case StoreNil(loc) => if v.st.top.sh then None else Some(loc)
            case ZeroHeld(_, locs) => if locs == [] || v.st.top.sh then None else Some(locs[0])
            case _ => None)
    case _ => None
  }

  lemma SlotStays(c: Config, i: Tid, v: View, mv: Move, loc: Loc)
    requires CanMove(c, v.m, v.l, v.st, mv) && StackOk(v.st) && Writes(v, mv) != Some(loc)
    ensures var m' := Step(c, i, v, mv).m;
            && (loc in m'.slots <==> loc in v.m.slots)
            && (loc in m'.slots ==> m'.slots[loc] == v.m.slots[loc])
  {
    if mv.Run? && v.st.top.sh {
      match v.st.top.pc
      case Retain(_, _) =>
      case Release(_, _) =>
      case Remove(_) =>
      case StoreOld(_, _, _, _) =>
      case StoreNew(_, _, _) =>
      case LoadHeld(_, _) =>
    }
  }

  /** The step takes its thread between the two critical sections of a store to `loc`. */
  predicate Enters(v: View, mv: Move, loc: Loc) {
    v.st.Push? &&
    (|| (mv.TakeStripe? && v.st.top.pc.StoreStart? && v.st.top.pc.loc == loc && loc !in v.m.slots)
     || (mv.Run? && v.st.top.sh && v.st.top.pc.StoreOld? && v.st.top.pc.loc == loc))
  }

  lemma TopAfter(c: Config, i: Tid, v: View, mv: Move, loc: Loc)
    requires CanMove(c, v.m, v.l, v.st, mv) && StackOk(v.st)
    requires var st' := Step(c, i, v, mv).st;
             st'.Push? && (st'.top.pc.StoreNew? || st'.top.pc.StoreNil?) && st'.top.pc.loc == loc
    ensures Enters(v, mv, loc)
            || (v.st.Push? && (v.st.top.pc.StoreNew? || v.st.top.pc.StoreNil?) && v.st.top.pc.loc == loc)
  {
    if mv.TakeStripe? {
      match v.st.top.pc
      case StoreStart(_, _, _) =>
      case LoadStart(_) =>
      case Zero(_, _) =>
    } else if mv.Run? && v.st.top.sh {
      match v.st.top.pc
      case Retain(_, _) =>
      case Release(_, _) =>
      case Remove(_) =>
      case StoreOld(_, _, _, _) =>
      case StoreNew(_, _, _) =>
      case LoadHeld(_, _) =>
    }
  }

  /** A weak variable comes to be in the middle of a store only by the step that enters it. */
  lemma MidStoreBegins(c: Config, s: State, a: Action, loc: Loc)
    requires Inv(c, s) && Enabled(c, s, a) && MidStore(c, Apply(c, s, a), loc)
    ensures MidStore(c, s, loc) || Enters(ViewOf(s, a.i), a.move, loc)
  {
    var s' := Apply(c, s, a);
    var k := c.stripe(loc);
    var h := s'.mem.stripes[k];
    var v := ViewOf(s, a.i);
    StripesStep(c, s, a);
    LockMoves(c, a.i, v, a.move);
    if h == a.i {
      TopAfter(c, a.i, v, a.move, loc);
      if !Enters(v, a.move, loc) {
        StripeHolder(c, s, a.i, loc);
      }
    } else {
      StripeHolder(c, s, h, loc);
    }
  }

  lemma HolderIsMidStore(c: Config, s: State, i: Tid, loc: Loc)
    requires Inv(c, s) && i < |s.threads| && s.threads[i].Push?
    requires (s.threads[i].top.pc.StoreNew? || s.threads[i].top.pc.StoreNil?) && s.threads[i].top.pc.loc == loc
    ensures MidStore(c, s, loc)
  {
    StripeHolder(c, s, i, loc);
  }

  /** While a thread holds the stripe of `loc` elsewhere, or nobody works on `loc`, no store is
      in the middle there. */
  lemma NotMidStore(c: Config, s: State, i: Tid, loc: Loc)
    requires Inv(c, s) && i < |s.threads| && s.threads[i].Push? && HoldsStripe(s.threads[i].top.pc) == Some(loc)
    requires !s.threads[i].top.pc.StoreNew? && !s.threads[i].top.pc.StoreNil?
    ensures !MidStore(c, s, loc)
  {
    StripeHolder(c, s, i, loc);
  }

  lemma QuietIsNotMidStore(c: Config, s: State, loc: Loc)
    requires Inv(c, s) && Quiet(s, loc)
    ensures !MidStore(c, s, loc)
  {
  }

  // ---------------------------------------------------------------- the step that loses a registration

  /** A deallocator writes nil to a weak variable that has come to hold a live object; or a
      variable that holds one is initialised again. */
  predicate Loses(s: State, a: Action) {
    a.i < |s.threads| &&
    var v := ViewOf(s, a.i);
    Writes(v, a.move).Some? && (a.move.InitSlot? || v.st.top.pc.ZeroHeld?) && NamesLive(s, Writes(v, a.move).value)
  }

  lemma LiveIsListed(c: Config, s: State, loc: Loc)
    requires Inv(c, s) && NamesLive(s, loc) && !MidStore(c, s, loc)
    ensures Listed(s.mem, s.mem.slots[loc], loc)
  {
    assert Registered(s, s.mem.slots[loc], loc);
  }

  lemma ListedIsLive(s: State, o: Obj, loc: Loc)
    requires TableOk(s.mem, s.ledger) && Listed(s.mem, o, loc)
    ensures LifeOf(s.ledger, o) == Live && o in s.mem.table && !s.mem.table[o].dying
  {
  }

  lemma WriterIsNotMidStore(c: Config, s: State, a: Action)
    requires Inv(c, s) && Enabled(c, s, a)
    requires var v := ViewOf(s, a.i);
             Writes(v, a.move).Some? && (a.move.InitSlot? || v.st.top.pc.ZeroHeld?)
    ensures !MidStore(c, s, Writes(ViewOf(s, a.i), a.move).value)
  {
    if a.move.InitSlot? {
      QuietIsNotMidStore(c, s, a.move.loc);
    } else {
      NotMidStore(c, s, a.i, s.threads[a.i].top.pc.locs[0]);
    }
  }

  lemma LosingBreaks(c: Config, s: State, a: Action)
    requires Inv(c, s) && Enabled(c, s, a) && Loses(s, a)
    ensures !Converse(c, Apply(c, s, a))
  {
    var v := ViewOf(s, a.i);
    var loc := Writes(v, a.move).value;
    var o := s.mem.slots[loc];
    WriterIsNotMidStore(c, s, a);
    LiveIsListed(c, s, loc);
    ListMoves(c, a.i, v, a.move, o);
    assert Listed(Apply(c, s, a).mem, o, loc);
    assert loc !in Apply(c, s, a).mem.slots;
  }

  /** A listed variable keeps its value. */
  lemma ListedStays(c: Config, s: State, a: Action, o: Obj, loc: Loc)
    requires Inv(c, s) && Converse(c, s) && Enabled(c, s, a) && !Loses(s, a) && Listed(s.mem, o, loc)
    ensures Names(Apply(c, s, a).mem, loc, o)
  {
    var v := ViewOf(s, a.i);
    ListedIsLive(s, o, loc);
    if Writes(v, a.move) == Some(loc) {
      HolderIsMidStore(c, s, a.i, loc);
      assert false;
    }
    SlotStays(c, a.i, v, a.move, loc);
  }

  /** A listed variable that stays on the list does not come to be in the middle of a store. */
  lemma ListedStaysSettled(c: Config, s: State, a: Action, o: Obj, loc: Loc)
    requires Inv(c, s) && Converse(c, s) && Enabled(c, s, a) && Listed(s.mem, o, loc)
    requires Listed(Apply(c, s, a).mem, o, loc)
    ensures !MidStore(c, Apply(c, s, a), loc)
  {
    var v := ViewOf(s, a.i);
    assert MemoryOk(s.mem, v.st);
    ListMoves(c, a.i, v, a.move, o);
    if MidStore(c, Apply(c, s, a), loc) {
      MidStoreBegins(c, s, a, loc);
      assert false;
    }
  }

  /** The step that puts a variable on a list is the second critical section of a store. */
  lemma NewlyListed(c: Config, s: State, a: Action, o: Obj, loc: Loc)
    requires Inv(c, s) && Enabled(c, s, a) && !Listed(s.mem, o, loc) && Listed(Apply(c, s, a).mem, o, loc)
    ensures Names(Apply(c, s, a).mem, loc, o) && !MidStore(c, Apply(c, s, a), loc)
  {
    var v := ViewOf(s, a.i);
    ListMoves(c, a.i, v, a.move, o);
    assert ListMoveOf(v, a.move, o) == Appended(loc);
    StripeHolder(c, s, a.i, loc);
  }

  lemma ListsStayDistinct(c: Config, s: State, a: Action, o: Obj)
    requires Inv(c, s) && Converse(c, s) && Enabled(c, s, a)
    ensures NoRepeats(EntryOf(Apply(c, s, a).mem.table, o).locs)
  {
    var v := ViewOf(s, a.i);
    var locs := EntryOf(s.mem.table, o).locs;
    ListMoves(c, a.i, v, a.move, o);
    assert NoRepeats(locs);
    match ListMoveOf(v, a.move, o)
    case Same =>
    case Emptied =>
    case Removed(loc) => RefHeap.WithoutKeepsDistinct(locs, loc);
    case Appended(loc) =>
      HolderIsMidStore(c, s, a.i, loc);
      assert !Listed(s.mem, o, loc);
  }

  /** While registration is exact, a step keeps it exact if and only if it is neither a
      deallocator zeroing a variable that has come to hold a live object, nor the
      initialisation of a variable that holds one. */
  lemma ConverseStep(c: Config, s: State, a: Action)
    requires Inv(c, s) && Converse(c, s) && Enabled(c, s, a)
    ensures Converse(c, Apply(c, s, a)) <==> !Loses(s, a)
  {
    var s' := Apply(c, s, a);
    if Loses(s, a) {
      LosingBreaks(c, s, a);
    } else {
      forall o
        ensures NoRepeats(EntryOf(s'.mem.table, o).locs)
      {
        ListsStayDistinct(c, s, a, o);
      }
      forall o, loc | Listed(s'.mem, o, loc)
        ensures Names(s'.mem, loc, o) && !MidStore(c, s', loc)
      {
        if Listed(s.mem, o, loc) {
          ListedStays(c, s, a, o, loc);
          ListedStaysSettled(c, s, a, o, loc);
        } else {
          NewlyListed(c, s, a, o, loc);
        }
      }
    }
  }

  // ---------------------------------------------------------------- claims of deallocators

  /** The variables that a deallocator has still to zero hold its object, each is listed once,
      and no store is in the middle there. */
  ghost predicate PendingOk(c: Config, s: State, st: Stack) {
    st.Push? && (st.top.pc.Zero? || st.top.pc.ZeroHeld?) ==>
      && NoRepeats(st.top.pc.locs)
      && forall loc :: loc in st.top.pc.locs ==> Names(s.mem, loc, st.top.pc.o) && !MidStore(c, s, loc)
  }

  ghost predicate AllPendingOk(c: Config, s: State) {
    forall j {:trigger s.threads[j]} :: 0 <= j < |s.threads| ==> PendingOk(c, s, s.threads[j])
  }

  /** Every claim to a weak variable, by an entry or by a deallocator, is exact. */
  ghost predicate Settled(c: Config, s: State) {
    Inv(c, s) && Converse(c, s) && AllPendingOk(c, s)
  }

  /** The step overwrites a variable that is still claimed: a store, or a destroy, finds the
      entry of the object in its variable marked as deallocating; or a variable that holds
      anything is initialised. */
  predicate Overwrites(s: State, a: Action) {
    a.i < |s.threads| &&
    match a.move
    case InitSlot(loc) => loc in s.mem.slots
    case Run =>
      var st := s.threads[a.i];
      st.Push? && st.top.sh && st.top.pc.StoreOld? && EntryOf(s.mem.table, st.top.pc.old_).dying
    case _ => false
  }

  /** One object has one deallocator. */
  lemma OneDeallocator(c: Config, s: State, i: Tid, j: Tid, o: Obj)
    requires Inv(c, s) && i < |s.threads| && j < |s.threads| && s.threads[i].Push? && s.threads[j].Push?
    requires Deallocates(s.threads[i].top.pc) == Some(o) && Deallocates(s.threads[j].top.pc) == Some(o)
    ensures i == j
  {
    if i != j {
      assert CountOk(s, o);
      TotalOfTwo(Deallocator, s.threads, i, j, o);
    }
  }

  lemma SettledLosesNothing(c: Config, s: State, a: Action)
    requires Settled(c, s) && Enabled(c, s, a) && !Overwrites(s, a)
    ensures !Loses(s, a)
  {
    TitleHolds(c, s, a.i);
    var st := s.threads[a.i];
    assert PendingOk(c, s, st);
    if st.Push? && st.top.pc.ZeroHeld? && st.top.pc.locs != [] {
      assert st.top.pc.locs[0] in st.top.pc.locs;
    }
  }

  /** A variable that another deallocator has still to zero. */
  lemma PendingStays(c: Config, s: State, a: Action, j: Tid, o: Obj, loc: Loc)
    requires Settled(c, s) && Enabled(c, s, a) && !Overwrites(s, a)
    requires j < |s.threads| && j != a.i && WillZero(s.threads[j], o, loc)
    ensures Names(Apply(c, s, a).mem, loc, o) && !MidStore(c, Apply(c, s, a), loc)
  {
    var v := ViewOf(s, a.i);
    assert PendingOk(c, s, s.threads[j]);
    PendingNotWritten(c, s, a, j, o, loc);
    SlotStays(c, a.i, v, a.move, loc);
    PendingNotEntered(c, s, a, j, o, loc);
    if MidStore(c, Apply(c, s, a), loc) {
      MidStoreBegins(c, s, a, loc);
    }
  }

  /** Nobody writes a variable that another thread has still to zero. */
  lemma PendingNotWritten(c: Config, s: State, a: Action, j: Tid, o: Obj, loc: Loc)
    requires Settled(c, s) && Enabled(c, s, a) && !Overwrites(s, a)
    requires j < |s.threads| && j != a.i && WillZero(s.threads[j], o, loc)
    ensures Writes(ViewOf(s, a.i), a.move) != Some(loc)
  {
    assert PendingOk(c, s, s.threads[j]) && PendingOk(c, s, s.threads[a.i]);
    if a.move.Run? && Writes(ViewOf(s, a.i), a.move) == Some(loc) {
      var pc := s.threads[a.i].top.pc;
      if pc.ZeroHeld? {
        assert loc in pc.locs;
        OneDeallocator(c, s, a.i, j, o);
      } else {
        HolderIsMidStore(c, s, a.i, loc);
      }
      assert false;
    }
  }

  /** Nobody enters a store to it without finding the mark. */
  lemma PendingNotEntered(c: Config, s: State, a: Action, j: Tid, o: Obj, loc: Loc)
    requires Settled(c, s) && Enabled(c, s, a) && !Overwrites(s, a)
    requires j < |s.threads| && WillZero(s.threads[j], o, loc)
    ensures !Enters(ViewOf(s, a.i), a.move, loc)
  {
    assert PendingOk(c, s, s.threads[j]);
    assert MemoryOk(s.mem, s.threads[a.i]);
    TitleHolds(c, s, j);
    assert Registered(s, o, loc);
  }

  /** What the thread that moves has itself still to zero. */
  lemma OwnPending(c: Config, s: State, a: Action)
    requires Settled(c, s) && Enabled(c, s, a) && !Overwrites(s, a)
    ensures PendingOk(c, Apply(c, s, a), Apply(c, s, a).threads[a.i])
  {
    var v, s' := ViewOf(s, a.i), Apply(c, s, a);
    var st' := s'.threads[a.i];
    assert PendingOk(c, s, v.st);
    if st'.Push? && (st'.top.pc.Zero? || st'.top.pc.ZeroHeld?) {
      PendingBefore(c, s, a);
      var o, locs := st'.top.pc.o, st'.top.pc.locs;
      forall loc | loc in locs
        ensures Names(s'.mem, loc, o) && !MidStore(c, s', loc)
      {
        SlotStays(c, a.i, v, a.move, loc);
        if MidStore(c, s', loc) {
          MidStoreBegins(c, s, a, loc);
          assert false;
        }
      }
    }
  }

  /** It was claimed before the step: by the entry, if the step is the last release, or by the
      deallocator itself. */
  lemma PendingBefore(c: Config, s: State, a: Action)
    requires Settled(c, s) && Enabled(c, s, a)
    requires var st' := Apply(c, s, a).threads[a.i]; st'.Push? && (st'.top.pc.Zero? || st'.top.pc.ZeroHeld?)
    ensures var v, pc' := ViewOf(s, a.i), Apply(c, s, a).threads[a.i].top.pc;
            && NoRepeats(pc'.locs) && v.st.Push? && !a.move.InitSlot?
            && !v.st.top.pc.StoreStart? && !v.st.top.pc.StoreOld?
            && forall loc :: loc in pc'.locs ==>
                 Writes(v, a.move) != Some(loc) && Names(s.mem, loc, pc'.o) && !MidStore(c, s, loc)
  {
    var v, pc' := ViewOf(s, a.i), Apply(c, s, a).threads[a.i].top.pc;
    assert StackOk(v.st) && PendingOk(c, s, v.st);
    if v.st.Push? && a.move.Run? && v.st.top.sh && v.st.top.pc.Release? {
      forall loc | loc in pc'.locs
        ensures Listed(s.mem, pc'.o, loc)
      {
      }
    }
  }

  /** Overwriting leaves a claim that is not exact. */
  lemma OverwritingUnsettles(c: Config, s: State, a: Action)
    requires Settled(c, s) && Enabled(c, s, a) && Overwrites(s, a)
    ensures !Settled(c, Apply(c, s, a))
  {
    if a.move.InitSlot? {
      InitUnsettles(c, s, a);
    } else {
      StoreUnsettles(c, s, a);
    }
  }

  lemma InitUnsettles(c: Config, s: State, a: Action)
    requires Settled(c, s) && Enabled(c, s, a) && a.move.InitSlot? && a.move.loc in s.mem.slots
    ensures !Settled(c, Apply(c, s, a))
  {
    var loc, s' := a.move.loc, Apply(c, s, a);
    QuietIsNotMidStore(c, s, loc);
    var o := s.mem.slots[loc];
    assert Registered(s, o, loc);
    if NamesLive(s, loc) {
      LosingBreaks(c, s, a);
    } else {
      var j :| 0 <= j < |s.threads| && WillZero(s.threads[j], o, loc);
      assert s'.threads[j] == s.threads[j] && loc !in s'.mem.slots;
      assert !PendingOk(c, s', s'.threads[j]);
    }
  }

  lemma StoreUnsettles(c: Config, s: State, a: Action)
    requires Settled(c, s) && Enabled(c, s, a) && Overwrites(s, a) && a.move.Run?
    ensures !Settled(c, Apply(c, s, a))
  {
    var s' := Apply(c, s, a);
    var st := s.threads[a.i];
    var loc, o := st.top.pc.loc, st.top.pc.old_;
    assert MemoryOk(s.mem, st);
    NotMidStore(c, s, a.i, loc);
    assert Registered(s, o, loc);
    var j :| 0 <= j < |s.threads| && WillZero(s.threads[j], o, loc);
    assert s'.threads[j] == s.threads[j];
    StripeHolder(c, s, a.i, loc);
    assert MidStore(c, s', loc);
    assert !PendingOk(c, s', s'.threads[j]);
  }

  /** While all claims are exact, a step keeps them so if and only if it does not overwrite a
      variable that is still claimed.  For a store that is the mark which its first critical
      section finds. */
  lemma SettledStep(c: Config, s: State, a: Action)
    requires Settled(c, s) && Enabled(c, s, a) && Disciplined(s.mem, a.move)
    ensures Settled(c, Apply(c, s, a)) <==> !Overwrites(s, a)
  {
    if Overwrites(s, a) {
      OverwritingUnsettles(c, s, a);
    } else {
      InvStep(c, s, a);
      SettledLosesNothing(c, s, a);
      ConverseStep(c, s, a);
      PendingKept(c, s, a);
    }
  }

  lemma PendingKept(c: Config, s: State, a: Action)
    requires Settled(c, s) && Enabled(c, s, a) && !Overwrites(s, a)
    ensures AllPendingOk(c, Apply(c, s, a))
  {
    var s' := Apply(c, s, a);
    forall j | 0 <= j < |s'.threads|
      ensures PendingOk(c, s', s'.threads[j])
    {
      if j == a.i {
        OwnPending(c, s, a);
      } else {
        OtherPending(c, s, a, j);
      }
    }
  }

  lemma OtherPending(c: Config, s: State, a: Action, j: Tid)
    requires Settled(c, s) && Enabled(c, s, a) && !Overwrites(s, a) && j < |s.threads| && j != a.i
    ensures PendingOk(c, Apply(c, s, a), s.threads[j])
  {
    var st := s.threads[j];
    assert PendingOk(c, s, st);
    if st.Push? && (st.top.pc.Zero? || st.top.pc.ZeroHeld?) {
      forall loc | loc in st.top.pc.locs
        ensures Names(Apply(c, s, a).mem, loc, st.top.pc.o) && !MidStore(c, Apply(c, s, a), loc)
      {
        PendingStays(c, s, a, j, st.top.pc.o, loc);
      }
    }
  }

  // ---------------------------------------------------------------- runs

  /** No step of the run overwrites a claimed variable. */
  predicate Careful(c: Config, s: State, run: seq<Action>)
    requires Legal(c, s, run)
    decreases |run|
  {
    run == [] || (!Overwrites(s, run[0]) && Careful(c, Apply(c, s, run[0]), run[1..]))
  }

  lemma InitialSettled(c: Config, n: nat)
    ensures Settled(c, Initial(n))
  {
    InitialOk(c, n);
  }

  /** In every run in which no store or destroy finds a deallocating object in its variable,
      and only variables that hold nothing are initialised, all claims stay exact. */
  lemma {:induction false} CarefulRunsSettle(c: Config, s: State, run: seq<Action>)
    requires Settled(c, s) && Legal(c, s, run) && Careful(c, s, run)
    ensures Settled(c, After(c, s, run))
    decreases |run|
  {
    if run != [] {
      SettledStep(c, s, run[0]);
      CarefulRunsSettle(c, Apply(c, s, run[0]), run[1..]);
    }
  }

  /** From the beginning, with any number of threads. */
  lemma CarefulFromTheStart(c: Config, n: nat, run: seq<Action>)
    requires Legal(c, Initial(n), run) && Careful(c, Initial(n), run)
    ensures Settled(c, After(c, Initial(n), run))
  {
    InitialSettled(c, n);
    CarefulRunsSettle(c, Initial(n), run);
  }

  /** Then a weak variable that is not in the middle of a store holds an object if and only if
      the object's entry lists it or the object's deallocator has still to zero it. */
  lemma SettledIsExact(c: Config, s: State, loc: Loc, o: Obj)
    requires Settled(c, s) && !MidStore(c, s, loc)
    ensures Names(s.mem, loc, o)
            <==> Listed(s.mem, o, loc) || exists j :: 0 <= j < |s.threads| && WillZero(s.threads[j], o, loc)
  {
    if Names(s.mem, loc, o) {
      assert Registered(s, o, loc);
    }
    if j :| 0 <= j < |s.threads| && WillZero(s.threads[j], o, loc) {
      assert PendingOk(c, s, s.threads[j]);
    }
  }

  /** A destroyed variable, or any other that holds nothing, is on no list: neither an entry nor
      a deallocator will touch it again. */
  lemma DestroyedIsForgotten(c: Config, s: State, loc: Loc, o: Obj)
    requires Settled(c, s) && loc !in s.mem.slots
    ensures !Listed(s.mem, o, loc)
    ensures forall j :: 0 <= j < |s.threads| ==> !WillZero(s.threads[j], o, loc)
  {
    forall j | 0 <= j < |s.threads|
      ensures !WillZero(s.threads[j], o, loc)
    {
      assert PendingOk(c, s, s.threads[j]);
    }
  }

  /** A stored object stays in its variable until the variable is stored to again, or the object
      has begun to die and its own deallocator zeroes the variable. */
  lemma StoresStay(c: Config, s: State, a: Action, loc: Loc, o: Obj)
    requires Settled(c, s) && Enabled(c, s, a) && !Overwrites(s, a) && Names(s.mem, loc, o)
    ensures Names(Apply(c, s, a).mem, loc, o) || MidStore(c, s, loc)
            || (LifeOf(s.ledger, o) == Dying && WillZero(s.threads[a.i], o, loc))
  {
    var v := ViewOf(s, a.i);
    if Writes(v, a.move) == Some(loc) {
      var pc := s.threads[a.i].top.pc;
      if pc.ZeroHeld? {
        assert PendingOk(c, s, s.threads[a.i]) && loc in pc.locs;
        TitleHolds(c, s, a.i);
      } else {
        HolderIsMidStore(c, s, a.i, loc);
      }
    } else {
      SlotStays(c, a.i, v, a.move, loc);
    }
  }
}
