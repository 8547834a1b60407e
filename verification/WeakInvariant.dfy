/**
  The inductive invariant of the weak-reference protocol, conjunct by conjunct.
*/
module WeakInvariant {
  import opened Options
  import opened SideTable
  import opened WeakProtocol

  // ---------------------------------------------------------------- counting frames

  /** What a frame can contribute to an object: a strong reference, a deallocation under way,
      a deallocation whose `-dealloc` has been called. */
  datatype Kind = Reference | Deallocator | Invoked

  function Concerns(k: Kind, pc: Pc): Option<Obj> {
    match k
    case Reference => Carries(pc)
    case Deallocator => Deallocates(pc)
    case Invoked => if pc.Body? || pc.Remove? then Some(pc.o) else None
  }

  function Deallocates(pc: Pc): Option<Obj> {
    if pc.Zero? || pc.ZeroHeld? || pc.Body? || pc.Remove? then Some(pc.o) else None
  }

  function Weight(k: Kind, pc: Pc, o: Obj): nat {
    if Concerns(k, pc) == Some(o) then 1 else 0
  }

  function StackWeight(k: Kind, st: Stack, o: Obj): nat {
    if st.Empty? then 0 else Weight(k, st.top.pc, o) + StackWeight(k, st.rest, o)
  }

  function Total(k: Kind, threads: seq<Stack>, o: Obj): nat {
    if threads == [] then 0 else StackWeight(k, threads[0], o) + Total(k, threads[1..], o)
  }

  lemma {:induction false} TotalUpdate(k: Kind, threads: seq<Stack>, i: Tid, st: Stack, o: Obj)
    requires i < |threads|
    ensures Total(k, threads[i := st], o) == Total(k, threads, o) - StackWeight(k, threads[i], o)
            + StackWeight(k, st, o)
    ensures Total(k, threads, o) >= StackWeight(k, threads[i], o)
  {
    var u := threads[i := st];
    if i == 0 {
      assert u[1..] == threads[1..];
    } else {
      assert u[1..] == threads[1..][i - 1 := st];
      TotalUpdate(k, threads[1..], i - 1, st, o);
    }
  }

  lemma TotalOfTwo(k: Kind, threads: seq<Stack>, i: Tid, j: Tid, o: Obj)
    requires i < |threads| && j < |threads| && i != j
    ensures Total(k, threads, o) >= StackWeight(k, threads[i], o) + StackWeight(k, threads[j], o)
  {
    TotalUpdate(k, threads, i, Empty, o);
    TotalUpdate(k, threads[i := Empty], j, Empty, o);
  }

  lemma {:induction false} TotalOfIdle(k: Kind, threads: seq<Stack>, o: Obj)
    requires forall i :: 0 <= i < |threads| ==> threads[i].Empty?
    ensures Total(k, threads, o) == 0
  {
    if threads != [] {
      TotalOfIdle(k, threads[1..], o);
    }
  }

  lemma {:induction false} InsideHasWeight(st: Stack, o: Obj)
    requires InsideDealloc(st, o)
    ensures StackWeight(Deallocator, st, o) >= 1
  {
    if st.top.pc != Body(o) {
      InsideHasWeight(st.rest, o);
    }
  }

  // ---------------------------------------------------------------- conjuncts

  ghost predicate OnlyBodies(st: Stack) {
    st.Empty? || (st.top.pc.Body? && !st.top.sh && OnlyBodies(st.rest))
  }

  ghost predicate StackOk(st: Stack) {
    st.Push? ==> OnlyBodies(st.rest) && (st.top.sh ==> NeedsShard(st.top.pc).Some?)
                 && (st.top.pc.ZeroHeld? ==> st.top.pc.locs != [])
  }

  ghost predicate StacksOk(s: State) {
    forall i :: 0 <= i < |s.threads| ==> StackOk(s.threads[i])
  }

  function TopStripe(c: Config, st: Stack): Option<int> {
    if st.Push? && HoldsStripe(st.top.pc).Some? then Some(c.stripe(HoldsStripe(st.top.pc).value)) else None
  }

  function TopShard(c: Config, st: Stack): Option<int> {
    if st.Push? && st.top.sh && NeedsShard(st.top.pc).Some? then Some(c.shard(NeedsShard(st.top.pc).value)) else None
  }

  function StripesHeld(c: Config, threads: seq<Stack>): seq<Option<int>> {
    seq(|threads|, i requires 0 <= i < |threads| => TopStripe(c, threads[i]))
  }

  function ShardsHeld(c: Config, threads: seq<Stack>): seq<Option<int>> {
    seq(|threads|, i requires 0 <= i < |threads| => TopShard(c, threads[i]))
  }

  /** A lock is held by a thread exactly when the top frame of the thread is at a program
      point that holds it. */
  ghost predicate LocksMatch(locks: map<int, Tid>, held: seq<Option<int>>) {
    && (forall k :: k in locks ==> locks[k] < |held| && held[locks[k]] == Some(k))
    && (forall i :: 0 <= i < |held| && held[i].Some? ==> held[i].value in locks && locks[held[i].value] == i)
  }

  ghost predicate StripesOk(c: Config, s: State) {
    LocksMatch(s.mem.stripes, StripesHeld(c, s.threads))
  }

  ghost predicate ShardsOk(c: Config, s: State) {
    LocksMatch(s.mem.shards, ShardsHeld(c, s.threads))
  }

  /** What a frame remembers is still so: the weak variable is initialised, the value read from
      it is still there, an object named without a reference is inside its `-dealloc` and has
      an entry. */
  ghost predicate MemoryOk(m: Mem, st: Stack) {
    st.Push? ==>
      var pc := st.top.pc;
      && (WeakVariable(pc).Some? ==> WeakVariable(pc).value in m.inited)
      && (pc.StoreOld? ==> pc.loc in m.slots && m.slots[pc.loc] == pc.old_)
      && (pc.LoadHeld? ==> pc.loc in m.slots && m.slots[pc.loc] == pc.o)
      && (Unowned(pc).Some? ==> Unowned(pc).value in m.table && InsideDealloc(st.rest, Unowned(pc).value))
  }

  ghost predicate MemoriesOk(s: State) {
    forall i :: 0 <= i < |s.threads| ==> MemoryOk(s.mem, s.threads[i])
  }

  /** An entry in the table belongs to a live object, or to a dying one that is marked as such
      and whose list has been extracted. */
  ghost predicate TableOk(m: Mem, l: Ledger) {
    forall o :: o in m.table ==> EntryOk(m.table[o], LifeOf(l, o))
  }

  predicate EntryOk(e: Entry, life: Life) {
    if e.dying then life == Dying && e.locs == [] else life == Live && e.count >= 1
  }

  /** The number of strong references the side table stands for. */
  function References(m: Mem, l: Ledger, o: Obj): nat {
    if LifeOf(l, o) == Live then Count(m.table, o) else 0
  }

  function If(b: bool): nat {
    if b then 1 else 0
  }

  ghost predicate CountOk(s: State, o: Obj) {
    && s.ledger.owned[o] + Total(Reference, s.threads, o) == References(s.mem, s.ledger, o)
    && Total(Deallocator, s.threads, o) == If(LifeOf(s.ledger, o) == Dying)
    && s.ledger.invoked[o] == If(LifeOf(s.ledger, o) == Freed) + Total(Invoked, s.threads, o)
  }

  ghost predicate CountsOk(s: State) {
    forall o :: CountOk(s, o)
  }

  /** The thread holding the stripe of `loc` is between unregistering `loc` and writing it. */
  ghost predicate MidStore(c: Config, s: State, loc: Loc) {
    && c.stripe(loc) in s.mem.stripes
    && s.mem.stripes[c.stripe(loc)] < |s.threads|
    && var st := s.threads[s.mem.stripes[c.stripe(loc)]];
       st.Push? && (st.top.pc.StoreNew? || st.top.pc.StoreNil?) && st.top.pc.loc == loc
  }

  /** The stack belongs to the deallocator of `o`, which has still to zero `loc`. */
  ghost predicate WillZero(st: Stack, o: Obj, loc: Loc) {
    st.Push? && (st.top.pc.Zero? || st.top.pc.ZeroHeld?) && st.top.pc.o == o && loc in st.top.pc.locs
  }

  ghost predicate Registered(s: State, o: Obj, loc: Loc) {
    && o in s.mem.table
    && if s.mem.table[o].dying then exists i :: 0 <= i < |s.threads| && WillZero(s.threads[i], o, loc)
       else loc in s.mem.table[o].locs
  }

  ghost predicate WeakOk(c: Config, s: State) {
    forall loc :: loc in s.mem.slots && !MidStore(c, s, loc) ==> Registered(s, s.mem.slots[loc], loc)
  }

  ghost predicate Inv(c: Config, s: State) {
    && StacksOk(s)
    && StripesOk(c, s)
    && ShardsOk(c, s)
    && MemoriesOk(s)
    && TableOk(s.mem, s.ledger)
    && CountsOk(s)
    && WeakOk(c, s)
  }

  lemma InitialOk(c: Config, threads: nat)
    ensures Inv(c, Initial(threads))
  {
    var s := Initial(threads);
    forall o
      ensures CountOk(s, o)
    {
      TotalOfIdle(Reference, s.threads, o);
      TotalOfIdle(Deallocator, s.threads, o);
      TotalOfIdle(Invoked, s.threads, o);
    }
  }

  // ---------------------------------------------------------------- one thread at a time

  function ViewOf(s: State, i: Tid): View
    requires i < |s.threads|
  {
    View(s.mem, s.ledger, s.threads[i])
  }

  lemma StackStep(c: Config, i: Tid, v: View, mv: Move)
    requires CanMove(c, v.m, v.l, v.st, mv) && StackOk(v.st)
    ensures StackOk(Step(c, i, v, mv).st)
  {
  }

  // ---------------------------------------------------------------- locks

  /** Thread `i`, which held `h`, comes to hold `h'`: nothing changes, or one free lock is
      taken, or the one lock is given back. */
  ghost predicate LockMove(locks: map<int, Tid>, locks': map<int, Tid>, i: Tid, h: Option<int>, h': Option<int>) {
    || (locks' == locks && h' == h)
    || (h.None? && h'.Some? && h'.value !in locks && locks' == locks[h'.value := i])
    || (h.Some? && h'.None? && locks' == locks - {h.value})
  }

  lemma LocksKept(locks: map<int, Tid>, held: seq<Option<int>>, locks': map<int, Tid>, i: Tid, h': Option<int>)
    requires LocksMatch(locks, held) && i < |held| && LockMove(locks, locks', i, held[i], h')
    ensures LocksMatch(locks', held[i := h'])
  {
  }

  lemma SectionLocks(c: Config, m: Mem, l: Ledger, f: Frame, rest: Stack)
    requires f.sh && StackOk(Push(f, rest))
    ensures var v' := Section(m, l, f.pc, rest);
            && v'.m.stripes == m.stripes && TopStripe(c, v'.st) == TopStripe(c, Push(f, rest))
            && v'.m.shards == m.shards && TopShard(c, v'.st) == None
  {
    match f.pc
    case Retain(_, _) =>
    case Release(_, _) =>
    case Remove(_) =>
    case StoreOld(_, _, _, _) =>
    case StoreNew(_, _, _) =>
    case LoadHeld(_, _) =>
  }

  lemma UnlockedLocks(c: Config, i: Tid, m: Mem, l: Ledger, f: Frame, rest: Stack)
    requires !f.sh && Ready(f) && StackOk(Push(f, rest))
    ensures var v' := Unlocked(c, m, l, f.pc, rest);
            && LockMove(m.stripes, v'.m.stripes, i, TopStripe(c, Push(f, rest)), TopStripe(c, v'.st))
            && v'.m.shards == m.shards && TopShard(c, v'.st) == None
  {
    match f.pc
    case Zero(_, _) =>
    case ZeroHeld(_, _) =>
    case Body(_) =>
    case StoreNil(_) =>
    case Unlock(_, _) =>
  }

  lemma ClientHoldsNothing(c: Config, i: Tid, v: View, mv: Move)
    requires CanMove(c, v.m, v.l, v.st, mv) && StackOk(v.st) && IsClient(mv)
    ensures Step(c, i, v, mv).m.stripes == v.m.stripes
    ensures Step(c, i, v, mv).m.shards == v.m.shards
    ensures TopStripe(c, v.st) == TopStripe(c, Step(c, i, v, mv).st) == None
    ensures TopShard(c, v.st) == TopShard(c, Step(c, i, v, mv).st) == None
  {
  }

  lemma LockMoves(c: Config, i: Tid, v: View, mv: Move)
    requires CanMove(c, v.m, v.l, v.st, mv) && StackOk(v.st)
    ensures var v' := Step(c, i, v, mv);
            && LockMove(v.m.stripes, v'.m.stripes, i, TopStripe(c, v.st), TopStripe(c, v'.st))
            && LockMove(v.m.shards, v'.m.shards, i, TopShard(c, v.st), TopShard(c, v'.st))
  {
    if IsClient(mv) {
      ClientHoldsNothing(c, i, v, mv);
    } else if mv.TakeStripe? {
      assert HoldsStripe(AfterStripe(v.m, v.st.top.pc)) == WantsStripe(v.st.top.pc);
    } else if mv.Run? {
      if v.st.top.sh {
        SectionLocks(c, v.m.(shards := v.m.shards - {c.shard(ShardOf(v.st.top.pc))}), v.l, v.st.top, v.st.rest);
      } else {
        UnlockedLocks(c, i, v.m, v.l, v.st.top, v.st.rest);
      }
    }
  }

  lemma StripesStep(c: Config, s: State, a: Action)
    requires StacksOk(s) && StripesOk(c, s) && Enabled(c, s, a)
    ensures StripesOk(c, Apply(c, s, a))
  {
    var v' := Step(c, a.i, ViewOf(s, a.i), a.move);
    LockMoves(c, a.i, ViewOf(s, a.i), a.move);
    var held := StripesHeld(c, s.threads);
    assert StripesHeld(c, s.threads[a.i := v'.st]) == held[a.i := TopStripe(c, v'.st)];
    LocksKept(s.mem.stripes, held, v'.m.stripes, a.i, TopStripe(c, v'.st));
  }

  lemma ShardsStep(c: Config, s: State, a: Action)
    requires StacksOk(s) && ShardsOk(c, s) && Enabled(c, s, a)
    ensures ShardsOk(c, Apply(c, s, a))
  {
    var v' := Step(c, a.i, ViewOf(s, a.i), a.move);
    LockMoves(c, a.i, ViewOf(s, a.i), a.move);
    var held := ShardsHeld(c, s.threads);
    assert ShardsHeld(c, s.threads[a.i := v'.st]) == held[a.i := TopShard(c, v'.st)];
    LocksKept(s.mem.shards, held, v'.m.shards, a.i, TopShard(c, v'.st));
  }

  // ---------------------------------------------------------------- titles

  /** What the life of the object named at a program point must be. */
  ghost predicate Title(m: Mem, l: Ledger, st: Stack) {
    st.Push? ==>
      match st.top.pc
      case Retain(o, own) => if own then LifeOf(l, o) == Live else o in m.table && LifeOf(l, o) == Dying
      case Release(o, own) => if own then LifeOf(l, o) == Live else o in m.table && LifeOf(l, o) == Dying
      case StoreNew(_, o, own) => if own then LifeOf(l, o) == Live else o in m.table && LifeOf(l, o) == Dying
      case LoadHeld(_, o) => o in m.table
      case Zero(o, _) => LifeOf(l, o) == Dying
      case ZeroHeld(o, _) => LifeOf(l, o) == Dying
      case Body(o) => LifeOf(l, o) == Dying
      case Remove(o) => LifeOf(l, o) == Dying
      case _ => true
  }

  lemma StripeHolder(c: Config, s: State, i: Tid, loc: Loc)
    requires StripesOk(c, s) && i < |s.threads| && s.threads[i].Push? && HoldsStripe(s.threads[i].top.pc) == Some(loc)
    ensures c.stripe(loc) in s.mem.stripes && s.mem.stripes[c.stripe(loc)] == i
  {
    assert StripesHeld(c, s.threads)[i] == Some(c.stripe(loc));
  }

  lemma TitleHolds(c: Config, s: State, i: Tid)
    requires Inv(c, s) && i < |s.threads|
    ensures Title(s.mem, s.ledger, s.threads[i])
  {
    var st := s.threads[i];
    if st.Push? {
      var pc := st.top.pc;
      if pc.LoadHeld? {
        StripeHolder(c, s, i, pc.loc);
        assert MemoryOk(s.mem, st);
      } else if !pc.StoreStart? && !pc.LoadStart? && !pc.StoreNil? && !pc.Unlock? && !pc.StoreOld? {
        var o := pc.o;
        assert CountOk(s, o);
        TotalUpdate(Reference, s.threads, i, Empty, o);
        TotalUpdate(Deallocator, s.threads, i, Empty, o);
        assert MemoryOk(s.mem, st);
        if Unowned(pc) == Some(o) {
          InsideHasWeight(st.rest, o);
        }
      }
    }
  }

  // ---------------------------------------------------------------- counts

  /** References in hand minus references counted do not change. */
  ghost predicate SameReferences(v: View, v': View, o: Obj) {
    v'.l.owned[o] + StackWeight(Reference, v'.st, o) + References(v.m, v.l, o)
    == v.l.owned[o] + StackWeight(Reference, v.st, o) + References(v'.m, v'.l, o)
  }

  /** Deallocators minus dying objects, and `-dealloc` calls minus those accounted for. */
  ghost predicate SameDeallocs(v: View, v': View, o: Obj) {
    && StackWeight(Deallocator, v'.st, o) + If(LifeOf(v.l, o) == Dying)
       == StackWeight(Deallocator, v.st, o) + If(LifeOf(v'.l, o) == Dying)
    && v'.l.invoked[o] + If(LifeOf(v.l, o) == Freed) + StackWeight(Invoked, v.st, o)
       == v.l.invoked[o] + If(LifeOf(v'.l, o) == Freed) + StackWeight(Invoked, v'.st, o)
  }

  lemma RetainReferences(v: View, m: Mem, p: Obj, own: bool, o: Obj)
    requires v.st.Push? && v.st.top.pc == Retain(p, own) && Title(v.m, v.l, v.st) && TableOk(v.m, v.l)
    requires m == v.m.(shards := m.shards)
    ensures SameReferences(v, StrongSection(m, v.l, Retain(p, own), v.st.rest), o)
  {
    assert Accepts(m.table, p) == own;
  }

  lemma ReleaseReferences(v: View, m: Mem, p: Obj, own: bool, o: Obj)
    requires v.st.Push? && v.st.top.pc == Release(p, own) && Title(v.m, v.l, v.st) && TableOk(v.m, v.l)
    requires m == v.m.(shards := m.shards)
    ensures SameReferences(v, StrongSection(m, v.l, Release(p, own), v.st.rest), o)
  {
    assert Accepts(m.table, p) == own;
  }

  lemma StrongReferences(v: View, m: Mem, o: Obj)
    requires v.st.Push? && Title(v.m, v.l, v.st) && TableOk(v.m, v.l)
    requires v.st.top.pc.Retain? || v.st.top.pc.Release? || v.st.top.pc.Remove?
    requires m == v.m.(shards := m.shards)
    ensures SameReferences(v, StrongSection(m, v.l, v.st.top.pc, v.st.rest), o)
  {
    match v.st.top.pc
    case Retain(p, own) => RetainReferences(v, m, p, own, o);
    case Release(p, own) => ReleaseReferences(v, m, p, own, o);
    case Remove(_) =>
  }

  lemma StrongDeallocs(v: View, m: Mem, o: Obj)
    requires StackOk(v.st) && v.st.Push? && Title(v.m, v.l, v.st) && TableOk(v.m, v.l)
    requires v.st.top.pc.Retain? || v.st.top.pc.Release? || v.st.top.pc.Remove?
    requires m == v.m.(shards := m.shards)
    ensures SameDeallocs(v, StrongSection(m, v.l, v.st.top.pc, v.st.rest), o)
  {
    match v.st.top.pc
    case Retain(_, _) =>
    case Release(_, _) => ReleaseDeallocs(v, m, o);
    case Remove(_) => RemoveDeallocs(v, m, o);
  }

  lemma ReleaseDeallocs(v: View, m: Mem, o: Obj)
    requires StackOk(v.st) && v.st.Push? && Title(v.m, v.l, v.st) && TableOk(v.m, v.l)
    requires v.st.top.pc.Release? && m == v.m.(shards := m.shards)
    ensures SameDeallocs(v, StrongSection(m, v.l, v.st.top.pc, v.st.rest), o)
  {
  }

  lemma RemoveDeallocs(v: View, m: Mem, o: Obj)
    requires StackOk(v.st) && v.st.Push? && Title(v.m, v.l, v.st)
    requires v.st.top.pc.Remove? && m == v.m.(shards := m.shards)
    ensures SameDeallocs(v, StrongSection(m, v.l, v.st.top.pc, v.st.rest), o)
  {
  }

  lemma WeakBalance(v: View, m: Mem, o: Obj)
    requires StackOk(v.st) && v.st.Push? && Title(v.m, v.l, v.st) && TableOk(v.m, v.l)
    requires v.st.top.pc.StoreOld? || v.st.top.pc.StoreNew? || v.st.top.pc.LoadHeld?
    requires m == v.m.(shards := m.shards)
    ensures SameReferences(v, WeakSection(m, v.l, v.st.top.pc, v.st.rest), o)
    ensures SameDeallocs(v, WeakSection(m, v.l, v.st.top.pc, v.st.rest), o)
  {
    WeakReferences(v, m, o);
    WeakDeallocs(v, m, o);
  }

  lemma WeakReferences(v: View, m: Mem, o: Obj)
    requires StackOk(v.st) && v.st.Push? && Title(v.m, v.l, v.st) && TableOk(v.m, v.l)
    requires v.st.top.pc.StoreOld? || v.st.top.pc.StoreNew? || v.st.top.pc.LoadHeld?
    requires m == v.m.(shards := m.shards)
    ensures SameReferences(v, WeakSection(m, v.l, v.st.top.pc, v.st.rest), o)
  {
    match v.st.top.pc
    case StoreOld(_, _, _, _) =>
    case StoreNew(_, _, _) =>
    case LoadHeld(_, _) =>
  }

  lemma WeakDeallocs(v: View, m: Mem, o: Obj)
    requires v.st.Push?
    requires v.st.top.pc.StoreOld? || v.st.top.pc.StoreNew? || v.st.top.pc.LoadHeld?
    ensures SameDeallocs(v, WeakSection(m, v.l, v.st.top.pc, v.st.rest), o)
  {
    match v.st.top.pc
    case StoreOld(_, _, _, _) =>
    case StoreNew(_, _, _) =>
    case LoadHeld(_, _) =>
  }

  lemma UnlockedReferences(c: Config, v: View, o: Obj)
    requires StackOk(v.st) && v.st.Push? && !v.st.top.sh && Ready(v.st.top)
    ensures SameReferences(v, Unlocked(c, v.m, v.l, v.st.top.pc, v.st.rest), o)
  {
    match v.st.top.pc
    case Zero(_, _) =>
    case ZeroHeld(_, _) =>
    case Body(_) =>
    case StoreNil(_) =>
    case Unlock(_, _) =>
  }

  lemma UnlockedDeallocs(c: Config, v: View, o: Obj)
    requires StackOk(v.st) && v.st.Push? && !v.st.top.sh && Ready(v.st.top)
    ensures SameDeallocs(v, Unlocked(c, v.m, v.l, v.st.top.pc, v.st.rest), o)
  {
    match v.st.top.pc
    case Zero(_, _) =>
    case ZeroHeld(_, _) =>
    case Body(_) =>
    case StoreNil(_) =>
    case Unlock(_, _) =>
  }

  lemma ClientReferences(c: Config, i: Tid, v: View, mv: Move, o: Obj)
    requires CanMove(c, v.m, v.l, v.st, mv) && IsClient(mv) && TableOk(v.m, v.l)
    ensures SameReferences(v, Step(c, i, v, mv), o)
  {
  }

  lemma ClientDeallocs(c: Config, i: Tid, v: View, mv: Move, o: Obj)
    requires CanMove(c, v.m, v.l, v.st, mv) && IsClient(mv) && TableOk(v.m, v.l)
    ensures SameDeallocs(v, Step(c, i, v, mv), o)
  {
    match mv
    case Alloc(_) =>
    case InitSlot(_) =>
    case Call(pc) => CallDeallocs(v.st, pc, o);
  }

  /** A call that has just begun deallocates nothing. */
  lemma CallDeallocs(st: Stack, pc: Pc, o: Obj)
    requires IsEntry(pc)
    ensures StackWeight(Deallocator, Push(Frame(pc, false), st), o) == StackWeight(Deallocator, st, o)
    ensures StackWeight(Invoked, Push(Frame(pc, false), st), o) == StackWeight(Invoked, st, o)
  {
  }

  lemma AcquireBalance(c: Config, i: Tid, v: View, mv: Move, o: Obj)
    requires CanMove(c, v.m, v.l, v.st, mv) && (mv.TakeStripe? || mv.TakeShard?)
    ensures SameReferences(v, Step(c, i, v, mv), o) && SameDeallocs(v, Step(c, i, v, mv), o)
  {
    if mv.TakeStripe? {
      match v.st.top.pc
      case StoreStart(_, _, _) =>
      case LoadStart(_) =>
      case Zero(_, _) =>
    }
  }

  lemma Balance(c: Config, i: Tid, v: View, mv: Move, o: Obj)
    requires CanMove(c, v.m, v.l, v.st, mv) && StackOk(v.st) && Title(v.m, v.l, v.st) && TableOk(v.m, v.l)
    ensures SameReferences(v, Step(c, i, v, mv), o) && SameDeallocs(v, Step(c, i, v, mv), o)
  {
    if IsClient(mv) {
      ClientReferences(c, i, v, mv, o);
      ClientDeallocs(c, i, v, mv, o);
    } else if mv.Run? {
      if v.st.top.sh {
        var m := v.m.(shards := v.m.shards - {c.shard(ShardOf(v.st.top.pc))});
        if v.st.top.pc.Retain? || v.st.top.pc.Release? || v.st.top.pc.Remove? {
          StrongReferences(v, m, o);
          StrongDeallocs(v, m, o);
        } else {
          WeakBalance(v, m, o);
        }
      } else {
        UnlockedReferences(c, v, o);
        UnlockedDeallocs(c, v, o);
      }
    } else {
      AcquireBalance(c, i, v, mv, o);
    }
  }

  lemma CountsStep(c: Config, s: State, a: Action)
    requires Inv(c, s) && Enabled(c, s, a)
    ensures CountsOk(Apply(c, s, a))
  {
    var v := ViewOf(s, a.i);
    var v' := Step(c, a.i, v, a.move);
    TitleHolds(c, s, a.i);
    forall o
      ensures CountOk(Apply(c, s, a), o)
    {
      assert CountOk(s, o);
      Balance(c, a.i, v, a.move, o);
      TotalUpdate(Reference, s.threads, a.i, v'.st, o);
      TotalUpdate(Deallocator, s.threads, a.i, v'.st, o);
      TotalUpdate(Invoked, s.threads, a.i, v'.st, o);
    }
  }

  // ---------------------------------------------------------------- entries

  /** What a step may do to the entry of one object. */
  datatype EntryMove = Kept | Grown | Killed | Dropped | Filtered(loc: Loc)

  /** The step of a thread at `st` does `em` to the entry of `o`. */
  ghost predicate Moves(em: EntryMove, v: View, v': View, o: Obj)
    requires o in v.m.table
  {
    var e := v.m.table[o];
    match em
    case Kept => o in v'.m.table && v'.m.table[o].dying == e.dying && v'.m.table[o].locs == e.locs
    case Grown => o in v'.m.table && !e.dying && !v'.m.table[o].dying && e.locs <= v'.m.table[o].locs
    case Killed => o in v'.m.table && !e.dying && v'.m.table[o].dying && v'.st.Push? && v'.st.top.pc == Zero(o, e.locs)
    case Dropped => o !in v'.m.table && v.st.Push? && v.st.top.pc == Remove(o)
    case Filtered(loc) =>
      && v.st.Push? && v.st.top.pc.StoreOld? && v.st.top.pc.loc == loc
      && v'.st.Push? && (v'.st.top.pc.StoreNew? || v'.st.top.pc.StoreNil?) && v'.st.top.pc.loc == loc
      && o in v'.m.table && v'.m.table[o].dying == e.dying && v'.m.table[o].locs == Without(e.locs, loc)
  }

  function EntryMoveOf(v: View, mv: Move, o: Obj): EntryMove {
    if !mv.Run? || v.st.Empty? then Kept
    else match v.st.top.pc
      case Release(p, _) => if p == o && IsLast(v.m.table, o) then Killed else Kept
      case Remove(p) => if p == o then Dropped else Kept
      case StoreOld(loc, p, _, _) => if p == o then Filtered(loc) else Kept
      case StoreNew(_, p, _) => if p == o && Accepts(v.m.table, o) then Grown else Kept
      case _ => Kept
  }

  lemma StrongEntry(v: View, m: Mem, o: Obj)
    requires v.st.Push? && o in v.m.table && m == v.m.(shards := m.shards)
    requires v.st.top.pc.Retain? || v.st.top.pc.Release? || v.st.top.pc.Remove?
    ensures Moves(EntryMoveOf(v, Run, o), v, StrongSection(m, v.l, v.st.top.pc, v.st.rest), o)
  {
    match v.st.top.pc
    case Retain(_, _) =>
    case Release(_, _) =>
    case Remove(_) =>
  }

  lemma WeakEntry(v: View, m: Mem, o: Obj)
    requires v.st.Push? && o in v.m.table && m == v.m.(shards := m.shards)
    requires v.st.top.pc.StoreOld? || v.st.top.pc.StoreNew? || v.st.top.pc.LoadHeld?
    ensures Moves(EntryMoveOf(v, Run, o), v, WeakSection(m, v.l, v.st.top.pc, v.st.rest), o)
  {
    match v.st.top.pc
    case StoreOld(_, _, _, _) =>
    case StoreNew(_, _, _) =>
    case LoadHeld(_, _) =>
  }

  lemma EntryMoves(c: Config, i: Tid, v: View, mv: Move, o: Obj)
    requires CanMove(c, v.m, v.l, v.st, mv) && StackOk(v.st) && o in v.m.table
    ensures Moves(EntryMoveOf(v, mv, o), v, Step(c, i, v, mv), o)
  {
    if mv.Run? && v.st.top.sh {
      var m := v.m.(shards := v.m.shards - {c.shard(ShardOf(v.st.top.pc))});
      if v.st.top.pc.Retain? || v.st.top.pc.Release? || v.st.top.pc.Remove? {
        StrongEntry(v, m, o);
      } else {
        WeakEntry(v, m, o);
      }
    }
  }

  lemma ReleaseTable(m: Mem, l: Ledger, o: Obj, rest: Stack)
    requires TableOk(m, l) && (LifeOf(l, o) == Live || o in m.table)
    ensures var v' := StrongSection(m, l, Release(o, true), rest);
            TableOk(v'.m, v'.l)
  {
    var v' := StrongSection(m, l, Release(o, true), rest);
    assert o in v'.m.table ==> EntryOk(v'.m.table[o], LifeOf(v'.l, o));
  }

  lemma StrongTable(v: View, m: Mem)
    requires v.st.Push? && Title(v.m, v.l, v.st) && TableOk(v.m, v.l) && m == v.m.(shards := m.shards)
    requires v.st.top.pc.Retain? || v.st.top.pc.Release? || v.st.top.pc.Remove?
    ensures var v' := StrongSection(m, v.l, v.st.top.pc, v.st.rest);
            TableOk(v'.m, v'.l)
  {
    match v.st.top.pc
    case Retain(o, _) =>
    case Release(o, own) => ReleaseTable(m, v.l, o, v.st.rest);
    case Remove(o) =>
  }

  lemma WeakTable(v: View, m: Mem)
    requires v.st.Push? && Title(v.m, v.l, v.st) && TableOk(v.m, v.l) && m == v.m.(shards := m.shards)
    requires v.st.top.pc.StoreOld? || v.st.top.pc.StoreNew? || v.st.top.pc.LoadHeld?
    ensures var v' := WeakSection(m, v.l, v.st.top.pc, v.st.rest);
            TableOk(v'.m, v'.l)
  {
    match v.st.top.pc
    case StoreOld(_, _, _, _) =>
    case StoreNew(_, _, _) =>
    case LoadHeld(_, _) =>
  }

  lemma TableStep(c: Config, i: Tid, v: View, mv: Move)
    requires CanMove(c, v.m, v.l, v.st, mv) && StackOk(v.st) && Title(v.m, v.l, v.st) && TableOk(v.m, v.l)
    ensures TableOk(Step(c, i, v, mv).m, Step(c, i, v, mv).l)
  {
    if mv.Run? && v.st.top.sh {
      var m := v.m.(shards := v.m.shards - {c.shard(ShardOf(v.st.top.pc))});
      if v.st.top.pc.Retain? || v.st.top.pc.Release? || v.st.top.pc.Remove? {
        StrongTable(v, m);
      } else {
        WeakTable(v, m);
      }
    }
  }

  // ---------------------------------------------------------------- slots

  /** A step writes only the weak variable whose stripe its thread holds, or the one it
      initialises. */
  lemma SlotsTouched(c: Config, i: Tid, v: View, mv: Move, loc: Loc)
    requires CanMove(c, v.m, v.l, v.st, mv) && StackOk(v.st)
    requires v.st.Push? ==> HoldsStripe(v.st.top.pc) != Some(loc)
    requires loc in v.m.inited && mv != InitSlot(loc)
    ensures var m' := Step(c, i, v, mv).m;
            && loc in m'.inited
            && (loc in m'.slots <==> loc in v.m.slots)
            && (loc in m'.slots ==> m'.slots[loc] == v.m.slots[loc])
  {
    if mv.Run? && v.st.top.sh {
      match v.st.top.pc
      case Retain(_, _) =>
      case Release(_, _) =>
      case Remove(_) =>
      case StoreOld(_, _, _, _) =>
      case StoreNew(_, _, _) =>
      case LoadHeld(_, _) =>
    }
  }

  // ---------------------------------------------------------------- what frames remember

  lemma StripeMemory(m: Mem, m': Mem, pc: Pc, rest: Stack)
    requires WantsStripe(pc).Some? && MemoryOk(m, Push(Frame(pc, false), rest))
    requires m' == m.(stripes := m'.stripes)
    ensures MemoryOk(m', Push(Frame(AfterStripe(m, pc), false), rest))
  {
    match pc
    case StoreStart(_, _, _) =>
    case LoadStart(_) =>
    case Zero(_, _) =>
  }

  lemma StrongMemory(m: Mem, l: Ledger, pc: Pc, rest: Stack)
    requires OnlyBodies(rest)
    requires pc.Retain? || pc.Release? || pc.Remove?
    ensures var v' := StrongSection(m, l, pc, rest);
            MemoryOk(v'.m, v'.st)
  {
  }

  lemma WeakMemory(m: Mem, l: Ledger, f: Frame, rest: Stack)
    requires MemoryOk(m, Push(f, rest))
    requires f.pc.StoreOld? || f.pc.StoreNew? || f.pc.LoadHeld?
    ensures var v' := WeakSection(m, l, f.pc, rest);
            MemoryOk(v'.m, v'.st)
  {
    match f.pc
    case StoreOld(_, _, _, _) =>
    case StoreNew(_, _, _) =>
    case LoadHeld(_, _) =>
  }

  /** The actor's own stack after its step. */
  lemma OwnMemory(c: Config, i: Tid, v: View, mv: Move)
    requires CanMove(c, v.m, v.l, v.st, mv) && Disciplined(v.m, mv) && StackOk(v.st) && MemoryOk(v.m, v.st)
    ensures MemoryOk(Step(c, i, v, mv).m, Step(c, i, v, mv).st)
  {
    if mv.TakeStripe? {
      StripeMemory(v.m, Step(c, i, v, mv).m, v.st.top.pc, v.st.rest);
    } else if mv.Run? && v.st.top.sh {
      var m := v.m.(shards := v.m.shards - {c.shard(ShardOf(v.st.top.pc))});
      assert MemoryOk(m, v.st);
      if v.st.top.pc.Retain? || v.st.top.pc.Release? || v.st.top.pc.Remove? {
        StrongMemory(m, v.l, v.st.top.pc, v.st.rest);
      } else {
        WeakMemory(m, v.l, v.st.top, v.st.rest);
      }
    }
  }

  /** An object named by a thread from inside its `-dealloc` keeps its entry: the only step
      that drops it belongs to the same deallocation, which cannot run twice. */
  lemma NamedKept(c: Config, s: State, a: Action, j: Tid, o: Obj)
    requires Inv(c, s) && Enabled(c, s, a) && j < |s.threads| && j != a.i
    requires o in s.mem.table && InsideDealloc(s.threads[j], o)
    ensures o in Apply(c, s, a).mem.table
  {
    var v := ViewOf(s, a.i);
    EntryMoves(c, a.i, v, a.move, o);
    if EntryMoveOf(v, a.move, o).Dropped? {
      assert CountOk(s, o);
      InsideHasWeight(s.threads[j], o);
      assert Weight(Deallocator, v.st.top.pc, o) == 1;
      TotalOfTwo(Deallocator, s.threads, a.i, j, o);
      assert false;
    }
  }

  /** The stack of a thread that did not move. */
  lemma OtherMemory(c: Config, s: State, a: Action, j: Tid)
    requires Inv(c, s) && Enabled(c, s, a) && j < |s.threads| && j != a.i
    ensures MemoryOk(Apply(c, s, a).mem, s.threads[j])
  {
    var st := s.threads[j];
    assert MemoryOk(s.mem, st);
    if st.Push? {
      if WeakVariable(st.top.pc).Some? {
        var loc := WeakVariable(st.top.pc).value;
        OthersStripe(c, s, a, j, loc);
      }
      if Unowned(st.top.pc).Some? {
        NamedKept(c, s, a, j, Unowned(st.top.pc).value);
      }
    }
  }

  /** A weak variable that a thread has read under its stripe is not touched by others. */
  lemma OthersStripe(c: Config, s: State, a: Action, j: Tid, loc: Loc)
    requires Inv(c, s) && Enabled(c, s, a) && j < |s.threads| && j != a.i
    requires s.threads[j].Push? && WeakVariable(s.threads[j].top.pc) == Some(loc)
    ensures var m' := Apply(c, s, a).mem;
            && loc in m'.inited
            && (HoldsStripe(s.threads[j].top.pc) == Some(loc) ==>
                 && (loc in m'.slots <==> loc in s.mem.slots)
                 && (loc in m'.slots ==> m'.slots[loc] == s.mem.slots[loc]))
  {
    var v := ViewOf(s, a.i);
    assert MemoryOk(s.mem, s.threads[j]);
    if HoldsStripe(s.threads[j].top.pc) == Some(loc) {
      StripeHolder(c, s, j, loc);
      if v.st.Push? && HoldsStripe(v.st.top.pc) == Some(loc) {
        StripeHolder(c, s, a.i, loc);
        assert false;
      }
      assert a.move.InitSlot? ==> Quiet(s, a.move.loc);
      SlotsTouched(c, a.i, v, a.move, loc);
    } else {
      InitedGrows(c, a.i, v, a.move);
    }
  }

  lemma InitedGrows(c: Config, i: Tid, v: View, mv: Move)
    requires CanMove(c, v.m, v.l, v.st, mv)
    ensures v.m.inited <= Step(c, i, v, mv).m.inited
  {
  }

  lemma MemoriesStep(c: Config, s: State, a: Action)
    requires Inv(c, s) && Enabled(c, s, a) && Disciplined(s.mem, a.move)
    ensures MemoriesOk(Apply(c, s, a))
  {
    var s' := Apply(c, s, a);
    forall j | 0 <= j < |s'.threads|
      ensures MemoryOk(s'.mem, s'.threads[j])
    {
      if j == a.i {
        assert MemoryOk(s.mem, s.threads[j]);
        OwnMemory(c, a.i, ViewOf(s, a.i), a.move);
      } else {
        OtherMemory(c, s, a, j);
      }
    }
  }

  // ---------------------------------------------------------------- weak variables

  lemma ZeroingKept(c: Config, s: State, a: Action, o: Obj, loc: Loc)
    requires Inv(c, s) && Enabled(c, s, a)
    requires exists j :: 0 <= j < |s.threads| && WillZero(s.threads[j], o, loc)
    requires loc in Apply(c, s, a).mem.slots
    ensures exists j :: 0 <= j < |s.threads| && WillZero(Apply(c, s, a).threads[j], o, loc)
  {
    var s' := Apply(c, s, a);
    var j :| 0 <= j < |s.threads| && WillZero(s.threads[j], o, loc);
    assert WillZero(s'.threads[j], o, loc);
  }

  /** A weak variable whose value the step leaves alone stays mid-store. */
  lemma MidStoreKept(c: Config, s: State, a: Action, loc: Loc)
    requires Inv(c, s) && Enabled(c, s, a) && MidStore(c, s, loc)
    requires loc in Apply(c, s, a).mem.slots
    ensures MidStore(c, Apply(c, s, a), loc) || Rewritten(s, a, loc)
  {
    var k := c.stripe(loc);
    var h := s.mem.stripes[k];
    var v := ViewOf(s, a.i);
    assert TopStripe(c, s.threads[h]) == Some(k);
    if h != a.i {
      LockMoves(c, a.i, v, a.move);
      assert StripesHeld(c, s.threads)[a.i] == TopStripe(c, v.st);
    }
  }

  /** The step registers `loc` with a new object and writes it. */
  ghost predicate Rewritten(s: State, a: Action, loc: Loc) {
    && a.i < |s.threads| && a.move.Run? && s.threads[a.i].Push?
    && s.threads[a.i].top.pc.StoreNew? && s.threads[a.i].top.pc.loc == loc
  }

  lemma RewrittenOk(c: Config, s: State, a: Action, loc: Loc)
    requires Inv(c, s) && Enabled(c, s, a) && Rewritten(s, a, loc)
    requires loc in Apply(c, s, a).mem.slots
    ensures Registered(Apply(c, s, a), Apply(c, s, a).mem.slots[loc], loc)
  {
  }

  /** A step that neither registers nor clears `loc` leaves its value. */
  lemma SlotKept(c: Config, i: Tid, v: View, mv: Move, loc: Loc)
    requires CanMove(c, v.m, v.l, v.st, mv) && StackOk(v.st) && loc in Step(c, i, v, mv).m.slots
    requires !(mv.Run? && v.st.top.pc.StoreNew? && v.st.top.pc.loc == loc)
    ensures loc in v.m.slots && Step(c, i, v, mv).m.slots[loc] == v.m.slots[loc]
  {
    if mv.Run? && v.st.top.sh {
      match v.st.top.pc
      case Retain(_, _) =>
      case Release(_, _) =>
      case Remove(_) =>
      case StoreOld(_, _, _, _) =>
      case StoreNew(_, _, _) =>
      case LoadHeld(_, _) =>
    }
  }

  /** Once an object is about to leave the table, nobody has a weak variable of it left to zero. */
  lemma RemovedHasNothingToZero(c: Config, s: State, i: Tid, o: Obj, loc: Loc)
    requires Inv(c, s) && i < |s.threads| && s.threads[i].Push? && s.threads[i].top.pc == Remove(o)
    ensures forall j :: 0 <= j < |s.threads| ==> !WillZero(s.threads[j], o, loc)
  {
    forall j | 0 <= j < |s.threads|
      ensures !WillZero(s.threads[j], o, loc)
    {
      if j != i {
        assert CountOk(s, o);
        TotalOfTwo(Deallocator, s.threads, i, j, o);
      }
    }
  }

  /** A store that has just unregistered `loc` is between its two critical sections. */
  lemma FilteredIsMidStore(c: Config, s: State, a: Action, o: Obj, loc: Loc)
    requires Inv(c, s) && Enabled(c, s, a) && o in s.mem.table
    requires EntryMoveOf(ViewOf(s, a.i), a.move, o) == Filtered(loc)
    ensures MidStore(c, Apply(c, s, a), loc)
  {
    var v := ViewOf(s, a.i);
    EntryMoves(c, a.i, v, a.move, o);
    StripeHolder(c, s, a.i, loc);
    LockMoves(c, a.i, v, a.move);
  }

  lemma RegisteredKept(c: Config, s: State, a: Action, loc: Loc)
    requires Inv(c, s) && Enabled(c, s, a)
    requires loc in s.mem.slots && Registered(s, s.mem.slots[loc], loc)
    requires var s' := Apply(c, s, a);
             loc in s'.mem.slots && s'.mem.slots[loc] == s.mem.slots[loc] && !MidStore(c, s', loc)
    ensures Registered(Apply(c, s, a), s.mem.slots[loc], loc)
  {
    var o := s.mem.slots[loc];
    var s' := Apply(c, s, a);
    var v := ViewOf(s, a.i);
    var em := EntryMoveOf(v, a.move, o);
    EntryMoves(c, a.i, v, a.move, o);
    if s.mem.table[o].dying {
      if em.Dropped? {
        RemovedHasNothingToZero(c, s, a.i, o, loc);
        assert false;
      }
      ZeroingKept(c, s, a, o, loc);
    } else if em.Killed? {
      assert WillZero(s'.threads[a.i], o, loc);
    } else if em.Filtered? && em.loc == loc {
      FilteredIsMidStore(c, s, a, o, loc);
      assert false;
    } else if em.Dropped? {
      TitleHolds(c, s, a.i);
    }
  }

  lemma WeakStep(c: Config, s: State, a: Action)
    requires Inv(c, s) && Enabled(c, s, a)
    ensures WeakOk(c, Apply(c, s, a))
  {
    var s' := Apply(c, s, a);
    forall loc | loc in s'.mem.slots && !MidStore(c, s', loc)
      ensures Registered(s', s'.mem.slots[loc], loc)
    {
      if Rewritten(s, a, loc) {
        RewrittenOk(c, s, a, loc);
      } else {
        SlotKept(c, a.i, ViewOf(s, a.i), a.move, loc);
        if MidStore(c, s, loc) {
          MidStoreKept(c, s, a, loc);
        }
        RegisteredKept(c, s, a, loc);
      }
    }
  }

  lemma InvStep(c: Config, s: State, a: Action)
    requires Inv(c, s) && Enabled(c, s, a) && Disciplined(s.mem, a.move)
    ensures Inv(c, Apply(c, s, a))
  {
    var v, v' := ViewOf(s, a.i), Step(c, a.i, ViewOf(s, a.i), a.move);
    assert StacksOk(Apply(c, s, a)) by {
      StackStep(c, a.i, v, a.move);
    }
    StripesStep(c, s, a);
    ShardsStep(c, s, a);
    MemoriesStep(c, s, a);
    TitleHolds(c, s, a.i);
    TableStep(c, a.i, v, a.move);
    CountsStep(c, s, a);
    WeakStep(c, s, a);
  }

  /** Every state that disciplined clients can bring about satisfies the invariant. */
  lemma {:induction false} Reachable(c: Config, s: State, run: seq<Action>)
    requires Inv(c, s) && Legal(c, s, run)
    ensures Inv(c, After(c, s, run))
    decreases |run|
  {
    if run != [] {
      InvStep(c, s, run[0]);
      Reachable(c, Apply(c, s, run[0]), run[1..]);
    }
  }
}
