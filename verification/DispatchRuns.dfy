/**
  Whole runs of the class runtime: calls in any order, each meeting its contract.
*/
module DispatchRuns {
  import opened Options
  import opened Selectors
  import opened ClassTypes
  import opened ClassForest
  import opened Dispatch
  import opened CacheCoherence
  import opened MetaChains
  import opened LoaderImage
  import opened LoaderLaws
  import opened LoaderOrder
  import opened MethodLists

  /** The calls a client makes, and the loading of a module: its class structs and method lists,
      the first free address behind them, and its class section.  A send names the class of its
      receiver, if there is one; a message to a class names that class. */
  datatype Call =
    | Allocates(superclass: Option<Cid>, name: string)
    | Registers(c: Cid)
    | Adds(c: Cid, sel: Selector, imp: Imp, types: string)
    | Replaces(c: Cid, sel: Selector, imp: Imp, types: string)
    | Exchanges(e1: Eid, e2: Eid)
    | Loads(classes: Classes, lists: Lists, next: nat, lay: Layout, section: seq<Option<Cid>>)
    | GetsMethod(cls: Option<Cid>, sel: Selector)
    | GetsClass(name: string)
    | Sends(receiver: Option<Cid>, sel: Selector)
    | MessagesClass(c: Cid, sel: Selector)

  datatype Outcome =
    | Nothing
    | NewPair(c: Cid)
    | DidAdd(added: bool)
    | OldImp(old_: Option<Imp>)
    | Handle(e: Option<Eid>)
    | Class(cls: Option<Cid>)
    | Answer(imp: Option<Imp>)

  /** The module of a `Loads` call, about to be loaded. */
  function ModuleOf(co: Core, sh: Shape, call: Call): Image
    requires call.Loads?
  {
    Image(co, sh, call.classes, call.lists, call.next)
  }

  /** What a call may assume: superclasses and receivers are registered, no two registered
      classes share a name, handles come from `class_getInstanceMethod`, and a module is made of
      fresh structs that are well linked, each class listed once. */
  ghost predicate Contract(co: Core, sh: Shape, call: Call) {
    match call
    case Allocates(superclass, _) => MayAllocate(co, superclass)
    case Registers(c) =>
      && c in co.classes && !co.classes[c].meta
      && (co.classes[c].name !in co.registry || co.registry[co.classes[c].name] == c)
    case Adds(c, _, _, _) => c in co.classes && c in co.methods
    case Replaces(c, _, _, _) => c in co.classes && c in co.methods
    case Exchanges(e1, e2) => e1 in co.entries && e2 in co.entries
    case Loads(_, _, _, lay, section) =>
      CanLoad(ModuleOf(co, sh, call), lay) && Complete(ModuleOf(co, sh, call), Listed(section))
    case GetsMethod(cls, _) => cls.Some? ==> cls.value in co.classes
    case GetsClass(_) => true
    case Sends(receiver, _) => receiver.Some? ==> receiver.value in co.classes && co.classes[receiver.value].registered
    case MessagesClass(c, _) => c in co.classes && !co.classes[c].meta
  }

  // ---------------------------------------------------------------- the two runtimes

  function ShapeAfter(co: Core, sh: Shape, call: Call): Shape {
    match call
    case Allocates(superclass, _) => SproutOf(co, sh, superclass)
    case Loads(_, _, _, lay, section) => LoadedShape(ModuleOf(co, sh, call), lay, Listed(section))
    case _ => sh
  }

  /** The metaclass of a class; every class of a well-formed runtime has one. */
  function MetaOf(cs: Classes, c: Cid): Cid {
    if IsaIn(cs, Some(c)).Some? then IsaIn(cs, Some(c)).value else c
  }

  /** What the walk of a message to the class `c` finds. */
  function ClassLookup(co: Core, sh: Shape, c: Cid, sel: Selector): Option<Imp> {
    LookupAlong(co.methods, co.entries, ClassWalk(co.classes, sh, c), sel)
  }

  /** The runtime without caches. */
  function Plain(co: Core, sh: Shape, call: Call): (Core, Outcome)
    requires Contract(co, sh, call)
  {
    match call
    case Allocates(superclass, name) => var r := Allocate(co, superclass, name); (r.0, NewPair(r.1))
    case Registers(c) => (RegisterPair(co, c), Nothing)
    case Adds(c, sel, imp, types) => var r := AddMethod(co, c, sel, imp, types); (r.0, DidAdd(r.1))
    case Replaces(c, sel, imp, types) => var r := ReplaceMethod(co, c, sel, imp, types); (r.0, OldImp(r.1))
    case Exchanges(e1, e2) => (Exchange(co, e1, e2), Nothing)
    case Loads(_, _, _, lay, section) => (CoreAfter(ModuleOf(co, sh, call), lay, Listed(section)), Nothing)
    case GetsMethod(cls, sel) => (co, Handle(GetMethod(co, cls, sel)))
    case GetsClass(name) => (co, Class(GetClass(co, name)))
    case Sends(receiver, sel) =>
      (co, Answer(if receiver.Some? then SlowLookup(co, sh, receiver.value, sel) else None))
    case MessagesClass(c, sel) => (co, Answer(ClassLookup(co, sh, c, sel)))
  }

  /** The runtime with caches. */
  function Cached(m: Memory, sh: Shape, call: Call): (Memory, Outcome)
    requires Contract(m.core, sh, call)
  {
    match call
    case Allocates(superclass, name) =>
      var r := Allocate(m.core, superclass, name);
      (Memory(r.0, CachesAfterAllocate(m)), NewPair(r.1))
    case Registers(c) => (m.(core := RegisterPair(m.core, c)), Nothing)
    case Adds(c, sel, imp, types) =>
      var r := AddMethod(m.core, c, sel, imp, types);
      (Memory(r.0, CachesAfterAdd(m, sh, c, sel)), DidAdd(r.1))
    case Replaces(c, sel, imp, types) =>
      var r := ReplaceMethod(m.core, c, sel, imp, types);
      (Memory(r.0, CachesAfterReplace(m, sh, c, sel)), OldImp(r.1))
    case Exchanges(e1, e2) => (Memory(Exchange(m.core, e1, e2), CachesAfterExchange(m, sh)), Nothing)
    case Loads(_, _, _, lay, section) => (After(ModuleOf(m.core, sh, call), lay, m.caches, Listed(section)), Nothing)
    case GetsMethod(cls, sel) => (m, Handle(GetMethod(m.core, cls, sel)))
    case GetsClass(name) => (m, Class(GetClass(m.core, name)))
    case Sends(receiver, sel) =>
      if receiver.None? then (m, Answer(None))
      else var r := CachedLookup(m, sh, receiver.value, sel); (r.0, Answer(r.1))
    case MessagesClass(c, sel) =>
      var r := SendOn(m, MetaOf(m.core.classes, c), ClassWalk(m.core.classes, sh, c), sel);
      (r.0, Answer(r.1))
  }

  /** Every call of a run meets its contract when its turn comes. */
  ghost predicate Contracts(co: Core, sh: Shape, calls: seq<Call>)
    decreases |calls|
  {
    calls == [] ||
    (Contract(co, sh, calls[0])
     && Contracts(Plain(co, sh, calls[0]).0, ShapeAfter(co, sh, calls[0]), calls[1..]))
  }

  /** The outcomes of a run, and the final state. */
  function PlainRun(co: Core, sh: Shape, calls: seq<Call>): (Core, Shape, seq<Outcome>)
    requires Contracts(co, sh, calls)
    decreases |calls|
  {
    if calls == [] then (co, sh, [])
    else
      var r := Plain(co, sh, calls[0]);
      var rest := PlainRun(r.0, ShapeAfter(co, sh, calls[0]), calls[1..]);
      (rest.0, rest.1, [r.1] + rest.2)
  }

  lemma ClassMessageKeepsValid(m: Memory, sh: Shape, c: Cid, sel: Selector)
    requires Valid(m, sh) && c in m.core.classes && !m.core.classes[c].meta
    ensures var m' := SendOn(m, MetaOf(m.core.classes, c), ClassWalk(m.core.classes, sh, c), sel).0;
            Valid(m', sh) && m'.core == m.core
  {
    assert PairOk(m.core.classes, sh, c);
    ClassSendKeepsValid(m, sh, MetaOf(m.core.classes, c), ClassWalk(m.core.classes, sh, c), sel);
  }

  /** Each call keeps the invariant and does to classes, methods and the registry what it does
      without caches.  Its result is the same too, unless it is a message to a class. */
  lemma {:induction false} StepRefines(m: Memory, sh: Shape, call: Call)
    requires Valid(m, sh) && Contract(m.core, sh, call)
    ensures var ((m', out), (co', out')) := (Cached(m, sh, call), Plain(m.core, sh, call));
            && Valid(m', ShapeAfter(m.core, sh, call)) && m'.core == co'
            && (!call.MessagesClass? ==> out == out')
  {
    match call {
      case Allocates(superclass, name) =>
        AllocateKeepsCore(m.core, sh, superclass, name);
        AllocateKeepsCoherent(m, sh, superclass, name);
      case Registers(c) =>
        RegisterKeepsCore(m.core, sh, c);
        RegisterKeepsCoherent(m, sh, c);
      case Adds(c, sel, imp, types) =>
        AddKeepsCore(m.core, sh, c, sel, imp, types);
        AddKeepsCoherent(m, sh, c, sel, imp, types);
      case Replaces(c, sel, imp, types) =>
        ReplaceKeepsCore(m.core, sh, c, sel, imp, types);
        ReplaceKeepsCoherent(m, sh, c, sel, imp, types);
      case Exchanges(e1, e2) =>
        ExchangeKeepsCore(m.core, sh, e1, e2);
        ExchangeKeepsCoherent(m, sh, e1, e2);
      case Loads(_, _, _, lay, section) => LoadedIsValid(ModuleOf(m.core, sh, call), lay, m.caches, Listed(section));
      case GetsMethod(_, _) =>
      case GetsClass(_) =>
      case Sends(receiver, sel) =>
        if receiver.Some? {
          SendRefinesWalk(m, sh, receiver.value, sel);
          SendKeepsCoherent(m, sh, receiver.value, sel);
        }
      case MessagesClass(c, sel) =>
        ClassMessageKeepsValid(m, sh, c, sel);
    }
  }

  lemma ReplaceKeepsCore(co: Core, sh: Shape, c: Cid, sel: Selector, imp: Imp, types: string)
    requires CoreOk(co, sh) && c in co.classes
    ensures CoreOk(ReplaceMethod(co, c, sel, imp, types).0, sh)
  {
    var e := FindOwn(co.methods, co.entries, c, sel);
    if e.Some? {
      ImpsKeepCore(co, sh, SetImp(co.entries, e.value, imp));
    } else {
      AddKeepsCore(co, sh, c, sel, imp, types);
    }
  }

  lemma ExchangeKeepsCore(co: Core, sh: Shape, e1: Eid, e2: Eid)
    requires CoreOk(co, sh) && e1 in co.entries && e2 in co.entries
    ensures CoreOk(Exchange(co, e1, e2), sh)
  {
    ImpsKeepCore(co, sh, Exchange(co, e1, e2).entries);
  }

  function CachedRun(m: Memory, sh: Shape, calls: seq<Call>): (Memory, seq<Outcome>)
    requires Valid(m, sh) && Contracts(m.core, sh, calls)
    decreases |calls|
  {
    if calls == [] then (m, [])
    else
      StepRefines(m, sh, calls[0]);
      var r := Cached(m, sh, calls[0]);
      var rest := CachedRun(r.0, ShapeAfter(m.core, sh, calls[0]), calls[1..]);
      (rest.0, [r.1] + rest.1)
  }

  /** Two runs of the same calls have the same results, messages to classes aside. */
  predicate Alike(calls: seq<Call>, outs: seq<Outcome>, outs': seq<Outcome>) {
    && |outs| == |calls| && |outs'| == |calls|
    && forall k :: 0 <= k < |calls| && !calls[k].MessagesClass? ==> outs[k] == outs'[k]
  }

  /** Whatever clients call, in whatever order, every result with caches is the result without,
      except that of a message to a class: the other caches cannot be observed.  They stay
      coherent throughout. */
  lemma {:induction false} RunRefines(m: Memory, sh: Shape, calls: seq<Call>)
    requires Valid(m, sh) && Contracts(m.core, sh, calls)
    ensures var (co', sh', outs) := PlainRun(m.core, sh, calls);
            var (m', outs') := CachedRun(m, sh, calls);
            Alike(calls, outs, outs') && m'.core == co' && Valid(m', sh')
    decreases |calls|
  {
    if calls != [] {
      StepRefines(m, sh, calls[0]);
      RunRefines(Cached(m, sh, calls[0]).0, ShapeAfter(m.core, sh, calls[0]), calls[1..]);
    }
  }

  /** Before any class is allocated or loaded. */
  const EMPTY_MEMORY := Memory(Core(map[], map[], map[], map[], 0), map[])
  const EMPTY_SHAPE := Shape(map[], map[], map[])

  lemma EmptyIsValid()
    ensures Valid(EMPTY_MEMORY, EMPTY_SHAPE)
  {
  }

  // ---------------------------------------------------------------- method lists over runs

  lemma StepKeepsHandles(co: Core, sh: Shape, call: Call)
    requires CoreOk(co, sh) && AllDistinct(co) && Contract(co, sh, call)
    requires call.Loads? ==> ListsDistinct(call.lists)
    ensures HandlesStay(co, Plain(co, sh, call).0) && AllDistinct(Plain(co, sh, call).0)
  {
    match call {
      case Allocates(superclass, name) => AllocateKeepsHandles(co, sh, superclass, name);
      case Registers(c) => RegisterKeepsHandles(co, sh, c);
      case Adds(c, sel, imp, types) => AddKeepsHandles(co, sh, c, sel, imp, types);
      case Replaces(c, sel, imp, types) => ReplaceKeepsHandles(co, sh, c, sel, imp, types);
      case Exchanges(e1, e2) => ImpsKeepHandles(co, sh, Exchange(co, e1, e2).entries);
      case Loads(_, _, _, lay, section) => LoadingKeepsHandles(ModuleOf(co, sh, call), lay, Listed(section));
      case GetsMethod(_, _) => SameMethodsKeepHandles(co, sh, co);
      case GetsClass(_) => SameMethodsKeepHandles(co, sh, co);
      case Sends(_, _) => SameMethodsKeepHandles(co, sh, co);
      case MessagesClass(_, _) => SameMethodsKeepHandles(co, sh, co);
    }
  }

  /** Over a run, each class keeps pairwise different selectors, each entry its selector and its
      types, and each registered class its lists in place.  For other classes, and for all
      metaclasses, `HandleRuns` says when the lists stay. */
  lemma {:induction false} RunKeepsHandles(m: Memory, sh: Shape, calls: seq<Call>)
    requires Valid(m, sh) && AllDistinct(m.core) && Contracts(m.core, sh, calls)
    requires forall k :: 0 <= k < |calls| && calls[k].Loads? ==> ListsDistinct(calls[k].lists)
    ensures var co' := PlainRun(m.core, sh, calls).0;
            HandlesStay(m.core, co') && AllDistinct(co')
    decreases |calls|
  {
    if calls == [] {
      SameMethodsKeepHandles(m.core, sh, m.core);
    } else {
      var co1 := Plain(m.core, sh, calls[0]).0;
      StepRefines(m, sh, calls[0]);
      StepKeepsHandles(m.core, sh, calls[0]);
      RunKeepsHandles(Cached(m, sh, calls[0]).0, ShapeAfter(m.core, sh, calls[0]), calls[1..]);
      HandlesStayTransitive(m.core, co1, PlainRun(m.core, sh, calls).0);
    }
  }

  // ---------------------------------------------------------------- metaclass chains over runs

  lemma SameLinksStay(cs: Classes, sh: Shape, cs': Classes)
    requires cs.Keys <= cs'.Keys
    requires forall b :: b in cs ==>
               cs'[b].isa == cs[b].isa && cs'[b].superClass == cs[b].superClass && cs'[b].meta == cs[b].meta
    ensures LinksStay(cs, sh, cs', sh)
  {
  }

  lemma AllocateKeepsLinks(co: Core, sh: Shape, superclass: Option<Cid>, name: string)
    requires co.next !in co.classes && co.next + 1 !in co.classes
    ensures LinksStay(co.classes, sh, Allocate(co, superclass, name).0.classes, SproutOf(co, sh, superclass))
  {
    forall b | b in co.classes
      ensures LinkKept(co.classes, sh, Allocate(co, superclass, name).0.classes, SproutOf(co, sh, superclass), b)
    {
      SproutSame(sh, co.next, co.next + 1, superclass, b);
    }
  }

  lemma RegisterLinksStay(co: Core, sh: Shape, c: Cid)
    requires c in co.classes
    ensures LinksStay(co.classes, sh, RegisterPair(co, c).classes, sh)
  {
    SameLinksStay(co.classes, sh, RegisterPair(co, c).classes);
  }

  lemma SameClasses(co: Core, sh: Shape, call: Call)
    requires Contract(co, sh, call) && !call.Allocates? && !call.Registers? && !call.Loads?
    ensures Plain(co, sh, call).0.classes == co.classes && ShapeAfter(co, sh, call) == sh
  {
  }

  lemma StepKeepsLinks(co: Core, sh: Shape, call: Call)
    requires CoreOk(co, sh) && Contract(co, sh, call)
    ensures LinksStay(co.classes, sh, Plain(co, sh, call).0.classes, ShapeAfter(co, sh, call))
  {
    if call.Allocates? {
      NewClassIsNew(co, sh);
      AllocateKeepsLinks(co, sh, call.superclass, call.name);
    } else if call.Registers? {
      RegisterLinksStay(co, sh, call.c);
    } else if call.Loads? {
      LoadingKeepsLinks(ModuleOf(co, sh, call), call.lay, Listed(call.section));
    } else {
      SameClasses(co, sh, call);
      SameLinksStay(co.classes, sh, co.classes);
    }
  }

  /** The metaclass chain of a class stays as it is over every run. */
  lemma {:induction false} RunKeepsChains(m: Memory, sh: Shape, calls: seq<Call>, c: Cid)
    requires Valid(m, sh) && Contracts(m.core, sh, calls)
    requires c in m.core.classes && !m.core.classes[c].meta && Chained(m.core.classes, sh, c)
    ensures var (co', sh', _) := PlainRun(m.core, sh, calls);
            c in co'.classes && !co'.classes[c].meta && Chained(co'.classes, sh', c)
    decreases |calls|
  {
    if calls != [] {
      var co1, sh1 := Plain(m.core, sh, calls[0]).0, ShapeAfter(m.core, sh, calls[0]);
      StepRefines(m, sh, calls[0]);
      StepKeepsLinks(m.core, sh, calls[0]);
      ChainStays(m.core.classes, sh, co1.classes, sh1, c);
      assert LinkKept(m.core.classes, sh, co1.classes, sh1, c);
      RunKeepsChains(Cached(m, sh, calls[0]).0, sh1, calls[1..], c);
    }
  }

  /** A class that is loaded has a complete metaclass chain if and only if the classes above it that
      were there have theirs; by `RunKeepsChains`, for good. */
  lemma LoadedIsChained(m: Memory, sh: Shape, call: Call, c: Cid)
    requires Valid(m, sh) && Contract(m.core, sh, call) && call.Loads? && c in call.classes && !call.classes[c].meta
    ensures var co' := Plain(m.core, sh, call).0;
            && c in co'.classes && !co'.classes[c].meta
            && (Chained(co'.classes, ShapeAfter(m.core, sh, call), c)
                <==> KnownLinked(ModuleOf(m.core, sh, call), call.lay, c))
  {
    StepRefines(m, sh, call);
    LoadedChain(ModuleOf(m.core, sh, call), call.lay, Listed(call.section), c);
  }
}
