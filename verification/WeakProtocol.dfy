/**
  Reference counts, deallocation and weak variables as a protocol of concurrent threads.

  A step is one lock acquisition, one critical section, or one lock release.  The two families
  of locks are hash-indexed: `stripe` sends the address of a weak variable to its stripe lock
  and `shard` an object to the lock of its table shard.  Both functions are arbitrary, so
  colliding addresses are covered.

  A thread is a stack of frames.  Only `-dealloc` calls back into client code, so every frame
  below the top one is a running `-dealloc`.

  Clients follow one rule: an operation that names an object (retain, release, weak store)
  borrows a strong reference to it for as long as the call runs.  `owned` counts the references
  in the hands of clients, frames hold the borrowed ones.  The one exception is `-dealloc`,
  which may name its own object without a reference.
*/
module WeakProtocol {
  import opened Options
  import opened SideTable

  datatype Config = Config(stripe: Loc -> int, shard: Obj -> int)

  /** Program points.  `own` tells whether the frame borrowed a reference to the object it names. */
  datatype Pc =
    | Retain(o: Obj, own: bool)
    | Release(o: Obj, own: bool)
    | Zero(o: Obj, locs: seq<Loc>)                                   // extracted list still to be zeroed
    | ZeroHeld(o: Obj, locs: seq<Loc>)                               // holds the stripe of locs[0]
    | Body(o: Obj)                                                   // -dealloc is running
    | Remove(o: Obj)                                                 // -dealloc has returned
    | StoreStart(loc: Loc, new_: Option<Obj>, own: bool)
    | StoreOld(loc: Loc, old_: Obj, new_: Option<Obj>, own: bool)    // holds the stripe, has read old_
    | StoreNew(loc: Loc, o: Obj, own: bool)                          // old_ is unregistered, still in the slot
    | StoreNil(loc: Loc)                                             // the same, with nothing to register
    | LoadStart(loc: Loc)
    | LoadHeld(loc: Loc, o: Obj)                                     // holds the stripe, has read o
    | Unlock(loc: Loc, ref: Option<Obj>)                             // holds the stripe, hands out ref

  /** `sh`: the frame holds the shard lock its program point needs. */
  datatype Frame = Frame(pc: Pc, sh: bool)

  datatype Stack = Empty | Push(top: Frame, rest: Stack)

  type Tid = nat

  datatype Life = Unborn | Live | Dying | Freed

  /** Memory shared by the threads.  A weak variable that is not in `slots` holds nil;
      `stripes` and `shards` list the locks that are held, and by whom. */
  datatype Mem = Mem(
    table: Table, slots: map<Loc, Obj>, inited: set<Loc>, stripes: map<int, Tid>, shards: map<int, Tid>)

  /** What the runtime does not store: the life of each object, the strong references in the
      hands of clients, and the `-dealloc` calls made so far. */
  datatype Ledger = Ledger(life: map<Obj, Life>, owned: multiset<Obj>, invoked: multiset<Obj>)

  datatype State = State(mem: Mem, ledger: Ledger, threads: seq<Stack>)

  function LifeOf(l: Ledger, o: Obj): Life {
    if o in l.life then l.life[o] else Unborn
  }

  function Initial(threads: nat): State {
    State(Mem(map[], map[], {}, map[], map[]), Ledger(map[], multiset{}, multiset{}), seq(threads, _ => Empty))
  }

  // ---------------------------------------------------------------- locks

  function WantsStripe(pc: Pc): Option<Loc> {
    match pc
    case StoreStart(loc, _, _) => Some(loc)
    case LoadStart(loc) => Some(loc)
    case Zero(_, locs) => if locs == [] then None else Some(locs[0])
    case _ => None
  }

  function HoldsStripe(pc: Pc): Option<Loc> {
    match pc
    case StoreOld(loc, _, _, _) => Some(loc)
    case StoreNew(loc, _, _) => Some(loc)
    case StoreNil(loc) => Some(loc)
    case LoadHeld(loc, _) => Some(loc)
    case Unlock(loc, _) => Some(loc)
    case ZeroHeld(_, locs) => if locs == [] then None else Some(locs[0])
    case _ => None
  }

  function NeedsShard(pc: Pc): Option<Obj> {
    match pc
    case Retain(o, _) => Some(o)
    case Release(o, _) => Some(o)
    case Remove(o) => Some(o)
    case StoreOld(_, old_, _, _) => Some(old_)
    case StoreNew(_, o, _) => Some(o)
    case LoadHeld(_, o) => Some(o)
    case _ => None
  }

  // ---------------------------------------------------------------- steps

  /** The object whose reference a frame carries: borrowed for the call, or about to be handed out. */
  function Carries(pc: Pc): Option<Obj> {
    match pc
    case Retain(o, own) => When(own, o)
    case Release(o, own) => When(own, o)
    case StoreStart(_, new_, own) => if own then new_ else None
    case StoreOld(_, _, new_, own) => if own then new_ else None
    case StoreNew(_, o, own) => When(own, o)
    case Unlock(_, ref) => ref
    case _ => None
  }

  /** The object a frame names without a reference to it. */
  function Unowned(pc: Pc): Option<Obj> {
    match pc
    case Retain(o, own) => When(!own, o)
    case Release(o, own) => When(!own, o)
    case StoreStart(_, new_, own) => if own then None else new_
    case StoreOld(_, _, new_, own) => if own then None else new_
    case StoreNew(_, o, own) => When(!own, o)
    case _ => None
  }

  /** The weak variable an operation works on. */
  function WeakVariable(pc: Pc): Option<Loc> {
    match pc
    case StoreStart(loc, _, _) => Some(loc)
    case LoadStart(loc) => Some(loc)
    case StoreOld(loc, _, _, _) => Some(loc)
    case StoreNew(loc, _, _) => Some(loc)
    case StoreNil(loc) => Some(loc)
    case LoadHeld(loc, _) => Some(loc)
    case Unlock(loc, _) => Some(loc)
    case _ => None
  }

  /** Where an operation begins.  `objc_destroyWeak(loc)` begins at `StoreStart(loc, None, false)`:
      it unregisters the variable and writes nil under the same locks.  `objc_initWeak` is the
      move `InitSlot` followed by a store. */
  predicate IsEntry(pc: Pc) {
    pc.Retain? || pc.Release? || pc.StoreStart? || pc.LoadStart?
  }

  datatype Move =
    | Alloc(o: Obj)
    | InitSlot(loc: Loc)
    | Call(pc: Pc)
    | TakeStripe
    | TakeShard
    | Run

  /** One step of one thread. */
  datatype Action = Action(i: Tid, move: Move)

  /** A step of client code, as opposed to a step of an operation already begun. */
  predicate IsClient(mv: Move) {
    mv.Alloc? || mv.InitSlot? || mv.Call?
  }

  /** The thread is executing client code: it is idle or inside a `-dealloc`. */
  predicate InClient(st: Stack) {
    st.Push? ==> st.top.pc.Body?
  }

  /** `-dealloc` of `o` runs somewhere on this stack. */
  predicate InsideDealloc(st: Stack, o: Obj) {
    st.Push? && (st.top.pc == Body(o) || InsideDealloc(st.rest, o))
  }

  /** The client may make the call: it has a reference to lend, or is inside the `-dealloc` of
      the object it names. */
  predicate MayCall(m: Mem, l: Ledger, st: Stack, pc: Pc) {
    && IsEntry(pc)
    && (Carries(pc).Some? ==> Carries(pc).value in l.owned)
    && (Unowned(pc).Some? ==> InsideDealloc(st, Unowned(pc).value))
    && (WeakVariable(pc).Some? ==> WeakVariable(pc).value in m.inited)
  }

  /** The frame can go on without taking a further lock. */
  predicate Ready(f: Frame) {
    f.sh || (NeedsShard(f.pc).None? && WantsStripe(f.pc).None?)
  }

  predicate CanMove(c: Config, m: Mem, l: Ledger, st: Stack, mv: Move) {
    match mv
    case Alloc(o) => InClient(st) && LifeOf(l, o) == Unborn
    case InitSlot(loc) => InClient(st)
    case Call(pc) => InClient(st) && MayCall(m, l, st, pc)
    case TakeStripe =>
      st.Push? && WantsStripe(st.top.pc).Some? && c.stripe(WantsStripe(st.top.pc).value) !in m.stripes
    case TakeShard =>
      st.Push? && !st.top.sh && NeedsShard(st.top.pc).Some? && c.shard(NeedsShard(st.top.pc).value) !in m.shards
    case Run => st.Push? && Ready(st.top)
  }

  /** No operation on the weak variable is under way.  A deallocator that has still to zero it
      does not count: the client that owns the variable does not know of it. */
  predicate Quiet(s: State, loc: Loc) {
    forall j :: 0 <= j < |s.threads| && s.threads[j].Push? ==> WeakVariable(s.threads[j].top.pc) != Some(loc)
  }

  predicate Enabled(c: Config, s: State, a: Action) {
    && a.i < |s.threads| && CanMove(c, s.mem, s.ledger, s.threads[a.i], a.move)
    && (a.move.InitSlot? ==> Quiet(s, a.move.loc))
  }

  /** The rule for `-dealloc`: it names its own object without a reference only while the
      object has a table entry, that is, when its last release found one. */
  predicate Disciplined(m: Mem, mv: Move) {
    mv.Call? && Unowned(mv.pc).Some? ==> Unowned(mv.pc).value in m.table
  }

  function Bag(o: Option<Obj>): multiset<Obj> {
    if o.None? then multiset{} else multiset{o.value}
  }

  function When(b: bool, o: Obj): Option<Obj> {
    if b then Some(o) else None
  }

  /** What a step reads and writes: the shared memory, the ledger, the stack of its thread. */
  datatype View = View(m: Mem, l: Ledger, st: Stack)

  function AfterStripe(m: Mem, pc: Pc): Pc
    requires WantsStripe(pc).Some?
  {
    match pc
    case StoreStart(loc, new_, own) =>
      if loc in m.slots then StoreOld(loc, m.slots[loc], new_, own) else Unregistered(loc, new_, own)
    case LoadStart(loc) => if loc in m.slots then LoadHeld(loc, m.slots[loc]) else Unlock(loc, None)
    case Zero(o, locs) => ZeroHeld(o, locs)
  }

  function Unregistered(loc: Loc, new_: Option<Obj>, own: bool): Pc {
    if new_.Some? then StoreNew(loc, new_.value, own) else StoreNil(loc)
  }

  function Step(c: Config, i: Tid, v: View, mv: Move): View
    requires CanMove(c, v.m, v.l, v.st, mv)
  {
    match mv
    case Alloc(o) => View(v.m, v.l.(life := v.l.life[o := Live], owned := v.l.owned + multiset{o}), v.st)
    case InitSlot(loc) => View(v.m.(slots := v.m.slots - {loc}, inited := v.m.inited + {loc}), v.l, v.st)
    case Call(pc) => View(v.m, v.l.(owned := v.l.owned - Bag(Carries(pc))), Push(Frame(pc, false), v.st))
    case TakeStripe =>
      var pc := v.st.top.pc;
      View(v.m.(stripes := v.m.stripes[c.stripe(WantsStripe(pc).value) := i]), v.l,
           Push(Frame(AfterStripe(v.m, pc), false), v.st.rest))
    case TakeShard =>
      var pc := v.st.top.pc;
      View(v.m.(shards := v.m.shards[c.shard(NeedsShard(pc).value) := i]), v.l, Push(Frame(pc, true), v.st.rest))
    case Run =>
      if v.st.top.sh
      then Section(v.m.(shards := v.m.shards - {c.shard(ShardOf(v.st.top.pc))}), v.l, v.st.top.pc, v.st.rest)
      else Unlocked(c, v.m, v.l, v.st.top.pc, v.st.rest)
  }

  function ShardOf(pc: Pc): Obj {
    if NeedsShard(pc).Some? then NeedsShard(pc).value else 0
  }

  function Goto(m: Mem, l: Ledger, pc: Pc, rest: Stack): View {
    View(m, l, Push(Frame(pc, false), rest))
  }

  /** The critical section under a shard lock; `m` is the memory with the lock given back. */
  function Section(m: Mem, l: Ledger, pc: Pc, rest: Stack): View {
    if pc.Retain? || pc.Release? || pc.Remove? then StrongSection(m, l, pc, rest) else WeakSection(m, l, pc, rest)
  }

  function StrongSection(m: Mem, l: Ledger, pc: Pc, rest: Stack): View {
    match pc
    case Retain(o, own) =>
      View(m.(table := Retained(m.table, o)),
           l.(owned := l.owned + Bag(When(own, o)) + Bag(When(Accepts(m.table, o), o))), rest)
    case Release(o, _) =>
      if IsLast(m.table, o)
      then Goto(m.(table := Released(m.table, o)), l.(life := l.life[o := Dying]), Zero(o, Extracted(m.table, o)), rest)
      else View(m.(table := Released(m.table, o)), l, rest)
    case Remove(o) => View(m.(table := m.table - {o}), l.(life := l.life[o := Freed]), rest)
    case _ => View(m, l, rest)
  }

  function WeakSection(m: Mem, l: Ledger, pc: Pc, rest: Stack): View {
    match pc
    case StoreOld(loc, old_, new_, own) =>
      Goto(m.(table := Unregister(m.table, old_, loc)), l, Unregistered(loc, new_, own), rest)
    case StoreNew(loc, o, own) =>
      var slots := if Accepts(m.table, o) then m.slots[loc := o] else m.slots - {loc};
      Goto(m.(table := Register(m.table, o, loc), slots := slots), l, Unlock(loc, When(own, o)), rest)
    case LoadHeld(loc, o) =>
      Goto(m.(table := Retained(m.table, o)), l, Unlock(loc, When(Accepts(m.table, o), o)), rest)
    case _ => View(m, l, rest)
  }

  /** Steps that take place without a shard lock. */
  function Unlocked(c: Config, m: Mem, l: Ledger, pc: Pc, rest: Stack): View {
    match pc
    case Zero(o, _) => Goto(m, l.(invoked := l.invoked + multiset{o}), Body(o), rest)
    case ZeroHeld(o, locs) =>
      if locs == [] then Goto(m, l, pc, rest)
      else
        var m' := m.(slots := m.slots - {locs[0]}, stripes := m.stripes - {c.stripe(locs[0])});
        Goto(m', l, Zero(o, locs[1..]), rest)
    case Body(o) => Goto(m, l, Remove(o), rest)
    case StoreNil(loc) => Goto(m.(slots := m.slots - {loc}), l, Unlock(loc, None), rest)
    case Unlock(loc, ref) => View(m.(stripes := m.stripes - {c.stripe(loc)}), l.(owned := l.owned + Bag(ref)), rest)
    case _ => Goto(m, l, pc, rest)
  }

  function Apply(c: Config, s: State, a: Action): State
    requires Enabled(c, s, a)
  {
    var v := Step(c, a.i, View(s.mem, s.ledger, s.threads[a.i]), a.move);
    State(v.m, v.l, s.threads[a.i := v.st])
  }

  // ---------------------------------------------------------------- runs

  /** The actions can be taken one after the other from `s`, by clients that keep the rule. */
  predicate Legal(c: Config, s: State, run: seq<Action>)
    decreases |run|
  {
    run == [] || (Enabled(c, s, run[0]) && Disciplined(s.mem, run[0].move) && Legal(c, Apply(c, s, run[0]), run[1..]))
  }

  function After(c: Config, s: State, run: seq<Action>): State
    requires Legal(c, s, run)
    decreases |run|
  {
    if run == [] then s else After(c, Apply(c, s, run[0]), run[1..])
  }
}
