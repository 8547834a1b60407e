/**
  Runs with messages to classes: the results are those of the walks as long as no change leaves a
  stale hit in the cache of a metaclass, and exactly which changes do that.
*/
module ClassMessages {
  import opened Options
  import opened Sequences
  import opened Selectors
  import opened ClassTypes
  import opened ClassForest
  import opened Dispatch
  import opened CacheCoherence
  import opened MetaChains
  import opened MetaCaches
  import opened LoaderImage
  import opened LoaderStep
  import opened LoaderLaws
  import opened LoaderOrder
  import opened DispatchRuns

  /** The cache of the metaclass of `c` agrees with the walk of a message to `c`. */
  predicate AgreesAt(m: Memory, sh: Shape, c: Cid) {
    CoherentOn(m.core, CacheOf(m.caches, MetaOf(m.core.classes, c)), ClassWalk(m.core.classes, sh, c))
  }

  ghost predicate ClassSideCoherent(m: Memory, sh: Shape) {
    forall c {:trigger AgreesAt(m, sh, c)} :: c in m.core.classes && !m.core.classes[c].meta ==> AgreesAt(m, sh, c)
  }

  // ---------------------------------------------------------------- the changes that leave a stale hit

  /** The call changes what a cached class message to `c` should answer, and its flush does not
      reach the metaclass of `c`. */
  predicate StalesAt(m: Memory, sh: Shape, call: Call, c: Cid)
    requires Contract(m.core, sh, call)
  {
    var mt, walk := MetaOf(m.core.classes, c), ClassWalk(m.core.classes, sh, c);
    var cache := CacheOf(m.caches, mt);
    match call
    case Adds(b, sel, imp, _) =>
      FindOwn(m.core.methods, m.core.entries, b, sel).None?
      && !(m.core.classes[b].registered && mt in Descendants(sh, b)) && StaleHit(m.core, cache, walk, b, sel, imp)
    case Replaces(b, sel, imp, _) =>
      !((m.core.classes[b].registered || FindOwn(m.core.methods, m.core.entries, b, sel).Some?)
        && mt in Descendants(sh, b))
      && StaleHit(m.core, cache, walk, b, sel, imp)
    case Exchanges(e1, e2) =>
      mt !in Under(sh, m.core.registry.Values) && ExchangedHit(m.core, cache, walk, e1, e2)
    case _ => false
  }

  ghost predicate Stales(m: Memory, sh: Shape, call: Call)
    requires Contract(m.core, sh, call)
  {
    exists c :: c in m.core.classes && !m.core.classes[c].meta && StalesAt(m, sh, call, c)
  }

  // ---------------------------------------------------------------- changes of methods

  lemma FlushedAt(ca: Caches, ds: set<Cid>, mt: Cid)
    ensures CacheOf(Flush(ca, ds), mt) == FlushedCache(CacheOf(ca, mt), mt in ds)
  {
  }

  lemma AddsAt(m: Memory, sh: Shape, b: Cid, sel: Selector, imp: Imp, types: string, c: Cid)
    requires Valid(m, sh) && b in m.core.classes && c in m.core.classes && !m.core.classes[c].meta
    requires AgreesAt(m, sh, c) && FindOwn(m.core.methods, m.core.entries, b, sel).None?
    ensures b in m.core.methods
    ensures var m' := Memory(AddMethod(m.core, b, sel, imp, types).0, CachesAfterAdd(m, sh, b, sel));
            var mt, walk := MetaOf(m.core.classes, c), ClassWalk(m.core.classes, sh, c);
            AgreesAt(m', sh, c)
            <==> (m.core.classes[b].registered && mt in Descendants(sh, b))
                 || !StaleHit(m.core, CacheOf(m.caches, mt), walk, b, sel, imp)
  {
    var mt, walk := MetaOf(m.core.classes, c), ClassWalk(m.core.classes, sh, c);
    assert ClassOk(m.core, b) && PairOk(m.core.classes, sh, c);
    ClassWalkEnds(m.core.classes, sh, c);
    AddAndCache(m.core, sh, b, sel, imp, types, mt, walk, CacheOf(m.caches, mt));
    FlushedAt(m.caches, Descendants(sh, b), mt);
    assert AddMethod(m.core, b, sel, imp, types).0.classes == m.core.classes;
  }

  lemma ReplacesAt(m: Memory, sh: Shape, b: Cid, sel: Selector, imp: Imp, types: string, c: Cid)
    requires Valid(m, sh) && b in m.core.classes && c in m.core.classes && !m.core.classes[c].meta
    requires AgreesAt(m, sh, c) && FindOwn(m.core.methods, m.core.entries, b, sel).Some?
    ensures b in m.core.methods
    ensures var m' := Memory(ReplaceMethod(m.core, b, sel, imp, types).0, CachesAfterReplace(m, sh, b, sel));
            var mt, walk := MetaOf(m.core.classes, c), ClassWalk(m.core.classes, sh, c);
            AgreesAt(m', sh, c)
            <==> mt in Descendants(sh, b) || !StaleHit(m.core, CacheOf(m.caches, mt), walk, b, sel, imp)
  {
    var mt, walk := MetaOf(m.core.classes, c), ClassWalk(m.core.classes, sh, c);
    assert ClassOk(m.core, b) && PairOk(m.core.classes, sh, c);
    ClassWalkEnds(m.core.classes, sh, c);
    ReplaceAndCache(m.core, sh, b, sel, imp, types, mt, walk, CacheOf(m.caches, mt));
    FlushedAt(m.caches, Descendants(sh, b), mt);
  }

  lemma ExchangesAt(m: Memory, sh: Shape, e1: Eid, e2: Eid, c: Cid)
    requires e1 in m.core.entries && e2 in m.core.entries && AgreesAt(m, sh, c)
    ensures var m' := Memory(Exchange(m.core, e1, e2), CachesAfterExchange(m, sh));
            var mt, walk := MetaOf(m.core.classes, c), ClassWalk(m.core.classes, sh, c);
            AgreesAt(m', sh, c)
            <==> mt in Under(sh, m.core.registry.Values)
                 || !ExchangedHit(m.core, CacheOf(m.caches, mt), walk, e1, e2)
  {
    var mt, walk := MetaOf(m.core.classes, c), ClassWalk(m.core.classes, sh, c);
    ExchangeAndCache(m.core, sh, e1, e2, mt, walk, CacheOf(m.caches, mt));
    FlushedAt(m.caches, Under(sh, m.core.registry.Values), mt);
  }

  // ---------------------------------------------------------------- growth

  lemma {:induction false} MetasStay(cs: Classes, sh: Shape, cs': Classes, sh': Shape, list: seq<Cid>)
    requires LinksStay(cs, sh, cs', sh') && forall b :: b in list ==> b in cs
    ensures MetasOf(cs', list) == MetasOf(cs, list)
    decreases |list|
  {
    if list != [] {
      assert LinkKept(cs, sh, cs', sh', list[0]);
      MetasStay(cs, sh, cs', sh', list[1..]);
    }
  }

  /** A walk that is there stays as it is. */
  lemma ClassWalkStays(cs: Classes, sh: Shape, cs': Classes, sh': Shape, c: Cid)
    requires Forest(cs, sh) && PairsOk(cs, sh) && LinksStay(cs, sh, cs', sh') && c in cs && !cs[c].meta
    ensures MetaOf(cs', c) == MetaOf(cs, c) && ClassWalk(cs', sh', c) == ClassWalk(cs, sh, c)
  {
    assert LinkKept(cs, sh, cs', sh', c);
    LineMembers(cs, sh, c);
    MetasStay(cs, sh, cs', sh', Line(sh, c));
    RootIsRoot(cs, sh, c);
    var r := Last(Line(sh, c)).value;
    assert PairOk(cs, sh, r) && LinkKept(cs, sh, cs', sh', r) && LinkKept(cs, sh, cs', sh', cs[r].isa.value);
  }

  /** New classes come in with empty caches, and change no answer of those that are there. */
  lemma GrowthKeepsAgreement(m: Memory, sh: Shape, m': Memory, sh': Shape, c: Cid)
    requires Valid(m, sh) && LinksStay(m.core.classes, sh, m'.core.classes, sh')
    requires FreshCaches(m.core, m.caches, m'.caches)
    requires c in m.core.classes && !m.core.classes[c].meta && AgreesAt(m, sh, c)
    requires forall s :: LookupAlong(m'.core.methods, m'.core.entries, ClassWalk(m.core.classes, sh, c), s)
                         == LookupAlong(m.core.methods, m.core.entries, ClassWalk(m.core.classes, sh, c), s)
    ensures AgreesAt(m', sh', c)
  {
    ClassWalkStays(m.core.classes, sh, m'.core.classes, sh', c);
    assert PairOk(m.core.classes, sh, c);
    assert CacheOf(m'.caches, MetaOf(m.core.classes, c)) == CacheOf(m.caches, MetaOf(m.core.classes, c));
  }

  lemma WalkIsKnown(cs: Classes, sh: Shape, c: Cid)
    requires Forest(cs, sh) && PairsOk(cs, sh) && c in cs && !cs[c].meta
    ensures forall b :: b in ClassWalk(cs, sh, c) ==> b in cs
  {
    ClassWalkEnds(cs, sh, c);
    WalkInside(cs, cs[c].isa, ClassWalk(cs, sh, c));
  }

  lemma AllocatesAt(m: Memory, sh: Shape, superclass: Option<Cid>, name: string, c: Cid)
    requires Valid(m, sh) && MayAllocate(m.core, superclass)
    requires c in m.core.classes && !m.core.classes[c].meta && AgreesAt(m, sh, c)
    ensures AgreesAt(Memory(Allocate(m.core, superclass, name).0, CachesAfterAllocate(m)),
                     SproutOf(m.core, sh, superclass), c)
  {
    var m' := Memory(Allocate(m.core, superclass, name).0, CachesAfterAllocate(m));
    NewClassIsNew(m.core, sh);
    AllocateKeepsLinks(m.core, sh, superclass, name);
    AllocateFreshCaches(m);
    WalkIsKnown(m.core.classes, sh, c);
    var walk := ClassWalk(m.core.classes, sh, c);
    forall s
      ensures LookupAlong(m'.core.methods, m'.core.entries, walk, s)
              == LookupAlong(m.core.methods, m.core.entries, walk, s)
    {
      AnswersAlong(m.core, superclass, name, walk, s);
    }
    GrowthKeepsAgreement(m, sh, m', SproutOf(m.core, sh, superclass), c);
  }

  lemma LoadsAt(img: Image, lay: Layout, ca: Caches, done: seq<Cid>, c: Cid)
    requires ImageOk(img, lay) && Complete(img, done) && Valid(Memory(img.core, ca), img.shape)
    requires c in img.core.classes && !img.core.classes[c].meta && AgreesAt(Memory(img.core, ca), img.shape, c)
    ensures AgreesAt(After(img, lay, ca, done), LoadedShape(img, lay, done), c)
  {
    LoadingKeepsLinks(img, lay, done);
    LoadedFreshCaches(img, lay, ca, done);
    WalkIsKnown(img.core.classes, img.shape, c);
    var walk := ClassWalk(img.core.classes, img.shape, c);
    forall s
      ensures LookupAlong(MethodsAfter(img, lay, done), EntriesAfter(img, lay, done), walk, s)
              == LookupAlong(img.core.methods, img.core.entries, walk, s)
    {
      AnswersAlongKnown(img, lay, done, walk, s);
    }
    GrowthKeepsAgreement(Memory(img.core, ca), img.shape, After(img, lay, ca, done), LoadedShape(img, lay, done), c);
  }

  lemma LoadedFreshCaches(img: Image, lay: Layout, ca: Caches, done: seq<Cid>)
    requires ImageOk(img, lay) && Complete(img, done) && Valid(Memory(img.core, ca), img.shape)
    ensures FreshCaches(img.core, ca, CachesAfter(img, lay, ca, done))
  {
    CompletePatchesAll(img, lay, done);
    forall b | b in img.classes
      ensures b !in img.core.classes
    {
      assert FreshIn(img, b);
    }
    LoadedCaches(img, lay, ca, done);
  }

  // ---------------------------------------------------------------- one call

  lemma SendsAt(m: Memory, sh: Shape, r: Cid, sel: Selector, c: Cid)
    requires Valid(m, sh) && r in m.core.classes && m.core.classes[r].registered
    requires c in m.core.classes && !m.core.classes[c].meta && AgreesAt(m, sh, c)
    ensures AgreesAt(CachedLookup(m, sh, r, sel).0, sh, c)
  {
    assert ClassOk(m.core, r) && PairOk(m.core.classes, sh, c);
  }

  lemma MessagesAt(m: Memory, sh: Shape, d: Cid, sel: Selector, c: Cid)
    requires Valid(m, sh) && d in m.core.classes && !m.core.classes[d].meta
    requires c in m.core.classes && !m.core.classes[c].meta && AgreesAt(m, sh, c)
    ensures AgreesAt(SendOn(m, MetaOf(m.core.classes, d), ClassWalk(m.core.classes, sh, d), sel).0, sh, c)
  {
    assert PairOk(m.core.classes, sh, c) && PairOk(m.core.classes, sh, d);
    if c == d {
      SendAlong(m, MetaOf(m.core.classes, c), ClassWalk(m.core.classes, sh, c), sel);
    }
  }

  /** A call that changes a method. */
  predicate Redefines(call: Call) {
    call.Adds? || call.Replaces? || call.Exchanges?
  }

  lemma RedefinitionAt(m: Memory, sh: Shape, call: Call, c: Cid)
    requires Valid(m, sh) && Contract(m.core, sh, call) && Redefines(call)
    requires c in m.core.classes && !m.core.classes[c].meta && AgreesAt(m, sh, c)
    ensures AgreesAt(Cached(m, sh, call).0, sh, c) <==> !StalesAt(m, sh, call, c)
  {
    match call {
      case Adds(b, sel, imp, types) =>
        if FindOwn(m.core.methods, m.core.entries, b, sel).None? {
          AddsAt(m, sh, b, sel, imp, types, c);
        }
      case Replaces(b, sel, imp, types) =>
        if FindOwn(m.core.methods, m.core.entries, b, sel).None? {
          AddsAt(m, sh, b, sel, imp, types, c);
        } else {
          ReplacesAt(m, sh, b, sel, imp, types, c);
        }
      case Exchanges(e1, e2) => ExchangesAt(m, sh, e1, e2, c);
    }
  }

  lemma RegistersAt(m: Memory, sh: Shape, b: Cid, c: Cid)
    requires Valid(m, sh) && b in m.core.classes && c in m.core.classes && !m.core.classes[c].meta
    requires AgreesAt(m, sh, c)
    ensures AgreesAt(m.(core := RegisterPair(m.core, b)), sh, c)
  {
    RegisterLinksStay(m.core, sh, b);
    ClassWalkStays(m.core.classes, sh, RegisterPair(m.core, b).classes, sh, c);
  }

  lemma OthersAt(m: Memory, sh: Shape, call: Call, c: Cid)
    requires Valid(m, sh) && Contract(m.core, sh, call) && !Redefines(call)
    requires c in m.core.classes && !m.core.classes[c].meta && AgreesAt(m, sh, c)
    ensures AgreesAt(Cached(m, sh, call).0, ShapeAfter(m.core, sh, call), c)
  {
    match call {
      case Allocates(superclass, name) => AllocatesAt(m, sh, superclass, name, c);
      case Registers(b) => RegistersAt(m, sh, b, c);
      case Loads(_, _, _, lay, section) => LoadsAt(ModuleOf(m.core, sh, call), lay, m.caches, Listed(section), c);
      case GetsMethod(_, _) =>
      case GetsClass(_) =>
      case Sends(receiver, sel) =>
        if receiver.Some? {
          SendsAt(m, sh, receiver.value, sel, c);
        }
      case MessagesClass(d, sel) => MessagesAt(m, sh, d, sel, c);
    }
  }

  /** The cache for messages to `c` still agrees after a call if and only if the call did not
      leave a stale hit in it. */
  lemma CallAt(m: Memory, sh: Shape, call: Call, c: Cid)
    requires Valid(m, sh) && Contract(m.core, sh, call)
    requires c in m.core.classes && !m.core.classes[c].meta && AgreesAt(m, sh, c)
    ensures AgreesAt(Cached(m, sh, call).0, ShapeAfter(m.core, sh, call), c) <==> !StalesAt(m, sh, call, c)
  {
    if Redefines(call) {
      RedefinitionAt(m, sh, call, c);
    } else {
      OthersAt(m, sh, call, c);
    }
  }

  /** A metaclass that was there belongs to a class that was there. */
  lemma KnownMetaHasKnownClass(cs: Classes, sh: Shape, cs': Classes, sh': Shape, c: Cid)
    requires PairsOk(cs, sh) && PairsOk(cs', sh') && LinksStay(cs, sh, cs', sh') && c in cs' && !cs'[c].meta
    ensures MetaOf(cs', c) in cs ==> c in cs
  {
    assert PairOk(cs', sh', c);
    var mt := MetaOf(cs', c);
    if mt in cs {
      assert LinkKept(cs, sh, cs', sh', mt) && PairOk(cs, sh, mt);
      var owner := sh.owner[mt];
      assert LinkKept(cs, sh, cs', sh', owner) && PairOk(cs', sh', owner);
    }
  }

  lemma NoNewcomers(co: Core, sh: Shape, call: Call)
    requires Contract(co, sh, call) && !call.Allocates? && !call.Loads?
    ensures Plain(co, sh, call).0.classes.Keys == co.classes.Keys
  {
    if !call.Registers? {
      SameClasses(co, sh, call);
    }
  }

  lemma NewcomersFresh(m: Memory, sh: Shape, call: Call)
    requires Valid(m, sh) && Contract(m.core, sh, call) && (call.Allocates? || call.Loads?)
    ensures FreshCaches(m.core, m.caches, Cached(m, sh, call).0.caches)
  {
    if call.Allocates? {
      NewClassIsNew(m.core, sh);
      AllocateFreshCaches(m);
    } else {
      LoadedFreshCaches(ModuleOf(m.core, sh, call), call.lay, m.caches, Listed(call.section));
    }
  }

  lemma FreshNewcomer(m: Memory, sh: Shape, m': Memory, sh': Shape, c: Cid)
    requires PairsOk(m.core.classes, sh) && PairsOk(m'.core.classes, sh')
    requires LinksStay(m.core.classes, sh, m'.core.classes, sh') && FreshCaches(m.core, m.caches, m'.caches)
    requires c in m'.core.classes && !m'.core.classes[c].meta && c !in m.core.classes
    ensures AgreesAt(m', sh', c)
  {
    KnownMetaHasKnownClass(m.core.classes, sh, m'.core.classes, sh', c);
    assert CacheOf(m'.caches, MetaOf(m'.core.classes, c)) == [];
  }

  /** A class that the call brings in has an empty cache. */
  lemma NewcomerAt(m: Memory, sh: Shape, call: Call, c: Cid)
    requires Valid(m, sh) && Contract(m.core, sh, call) && c !in m.core.classes
    ensures var (m', sh') := (Cached(m, sh, call).0, ShapeAfter(m.core, sh, call));
            c in m'.core.classes && !m'.core.classes[c].meta ==> AgreesAt(m', sh', c)
  {
    var m', sh' := Cached(m, sh, call).0, ShapeAfter(m.core, sh, call);
    StepRefines(m, sh, call);
    if !call.Allocates? && !call.Loads? {
      NoNewcomers(m.core, sh, call);
    } else if c in m'.core.classes && !m'.core.classes[c].meta {
      NewcomersFresh(m, sh, call);
      StepKeepsLinks(m.core, sh, call);
      FreshNewcomer(m, sh, m', sh', c);
    }
  }

  /** The class side stays coherent in a step if and only if the step stales no hit. */
  lemma ClassSideStep(m: Memory, sh: Shape, call: Call)
    requires Valid(m, sh) && Contract(m.core, sh, call) && ClassSideCoherent(m, sh)
    ensures ClassSideCoherent(Cached(m, sh, call).0, ShapeAfter(m.core, sh, call)) <==> !Stales(m, sh, call)
  {
    var m', sh' := Cached(m, sh, call).0, ShapeAfter(m.core, sh, call);
    StepRefines(m, sh, call);
    StepKeepsLinks(m.core, sh, call);
    forall c | c in m.core.classes && !m.core.classes[c].meta
      ensures c in m'.core.classes && !m'.core.classes[c].meta && AgreesAt(m, sh, c)
      ensures AgreesAt(m', sh', c) <==> !StalesAt(m, sh, call, c)
    {
      assert AgreesAt(m, sh, c) && LinkKept(m.core.classes, sh, m'.core.classes, sh', c);
      CallAt(m, sh, call, c);
    }
    if !Stales(m, sh, call) {
      forall c | c in m'.core.classes && !m'.core.classes[c].meta
        ensures AgreesAt(m', sh', c)
      {
        if c in m.core.classes {
          assert LinkKept(m.core.classes, sh, m'.core.classes, sh', c);
        } else {
          NewcomerAt(m, sh, call, c);
        }
      }
    }
  }

  // ---------------------------------------------------------------- runs

  /** On a coherent class side a message to a class has the result of its walk. */
  lemma MessageAnswers(m: Memory, sh: Shape, call: Call)
    requires Valid(m, sh) && Contract(m.core, sh, call) && ClassSideCoherent(m, sh)
    ensures Cached(m, sh, call).1 == Plain(m.core, sh, call).1
  {
    StepRefines(m, sh, call);
    if call.MessagesClass? {
      var c := call.c;
      assert AgreesAt(m, sh, c);
      SendAlong(m, MetaOf(m.core.classes, c), ClassWalk(m.core.classes, sh, c), call.sel);
    }
  }

  /** No call of the run leaves a stale hit in the cache of a metaclass. */
  ghost predicate Undisturbed(m: Memory, sh: Shape, calls: seq<Call>)
    requires Valid(m, sh) && Contracts(m.core, sh, calls)
    decreases |calls|
  {
    calls == [] ||
    (StepRefines(m, sh, calls[0]);
     && !Stales(m, sh, calls[0])
     && Undisturbed(Cached(m, sh, calls[0]).0, ShapeAfter(m.core, sh, calls[0]), calls[1..]))
  }

  /** In such a run every result with caches is the result without, those of messages to classes
      included. */
  lemma {:induction false} RunRefinesFully(m: Memory, sh: Shape, calls: seq<Call>)
    requires Valid(m, sh) && Contracts(m.core, sh, calls) && ClassSideCoherent(m, sh) && Undisturbed(m, sh, calls)
    ensures CachedRun(m, sh, calls).1 == PlainRun(m.core, sh, calls).2
    ensures ClassSideCoherent(CachedRun(m, sh, calls).0, PlainRun(m.core, sh, calls).1)
    decreases |calls|
  {
    if calls != [] {
      StepRefines(m, sh, calls[0]);
      ClassSideStep(m, sh, calls[0]);
      MessageAnswers(m, sh, calls[0]);
      RunRefinesFully(Cached(m, sh, calls[0]).0, ShapeAfter(m.core, sh, calls[0]), calls[1..]);
    }
  }

  /** Whatever is allocated, registered and loaded from the beginning, in whatever order, the walk
      of every class and of every metaclass ends, the class-side one as `ClassWalk` says. */
  lemma EveryRunHasWalks(calls: seq<Call>, c: Cid)
    requires Contracts(EMPTY_MEMORY.core, EMPTY_SHAPE, calls)
    ensures var (co, sh, _) := PlainRun(EMPTY_MEMORY.core, EMPTY_SHAPE, calls);
            && (c in co.classes ==> exists walk :: Walks(co.classes, Some(c), walk))
            && (c in co.classes && !co.classes[c].meta ==>
                  && Walks(co.classes, Some(c), Line(sh, c))
                  && Walks(co.classes, co.classes[c].isa, ClassWalk(co.classes, sh, c)))
  {
    EmptyIsValid();
    RunRefines(EMPTY_MEMORY, EMPTY_SHAPE, calls);
    var (co, sh, _) := PlainRun(EMPTY_MEMORY.core, EMPTY_SHAPE, calls);
    if c in co.classes {
      EveryWalkEnds(co.classes, sh, c);
      if !co.classes[c].meta {
        LineIsWalk(co.classes, sh, c);
        ClassWalkEnds(co.classes, sh, c);
      }
    }
  }

  /** From the beginning, a run without stale hits cannot be told from one without caches. */
  lemma FromTheBeginning(calls: seq<Call>)
    requires Contracts(EMPTY_MEMORY.core, EMPTY_SHAPE, calls)
    requires Undisturbed(EMPTY_MEMORY, EMPTY_SHAPE, calls)
    ensures CachedRun(EMPTY_MEMORY, EMPTY_SHAPE, calls).1 == PlainRun(EMPTY_MEMORY.core, EMPTY_SHAPE, calls).2
  {
    RunRefinesFully(EMPTY_MEMORY, EMPTY_SHAPE, calls);
  }

  // ---------------------------------------------------------------- a run with a stale hit

  /** The walk of a new subclass starts with its own metaclass. */
  lemma WalkOfSubclass(cs: Classes, sh: Shape, cs': Classes, sh': Shape, s: Cid, c: Cid, mt: Cid)
    requires Forest(cs, sh) && PairsOk(cs, sh) && Forest(cs', sh') && PairsOk(cs', sh') && LinksStay(cs, sh, cs', sh')
    requires s in cs && !cs[s].meta && c in cs' && !cs'[c].meta
    requires cs'[c].superClass == Some(s) && cs'[c].isa == Some(mt)
    ensures ClassWalk(cs', sh', c) == [mt] + ClassWalk(cs, sh, s)
  {
    ClassWalkStays(cs, sh, cs', sh', s);
    WalkOnward(cs', sh', c);
    var walk := ClassWalk(cs', sh', c);
    assert walk == [walk[0]] + walk[1..];
  }

  lemma NewPairLinks(co: Core, s: Cid, name: string)
    requires s in co.classes && co.next !in co.classes && co.next + 1 !in co.classes
    ensures var cs' := Allocate(co, Some(s), name).0.classes;
            && co.next + 1 in cs' && !cs'[co.next + 1].meta
            && cs'[co.next + 1].superClass == Some(s) && cs'[co.next + 1].isa == Some(co.next)
            && MetaOf(cs', co.next + 1) == co.next
  {
  }

  lemma SubclassWalk(m: Memory, sh: Shape, s: Cid, name: string)
    requires Valid(m, sh) && MayAllocate(m.core, Some(s))
    ensures var (cs', sh') := (Allocate(m.core, Some(s), name).0.classes, SproutOf(m.core, sh, Some(s)));
            && m.core.next + 1 in cs' && !cs'[m.core.next + 1].meta && MetaOf(cs', m.core.next + 1) == m.core.next
            && ClassWalk(cs', sh', m.core.next + 1) == [m.core.next] + ClassWalk(m.core.classes, sh, s)
  {
    NewClassIsNew(m.core, sh);
    AllocateKeepsLinks(m.core, sh, Some(s), name);
    AllocateKeepsCore(m.core, sh, Some(s), name);
    NewPairLinks(m.core, s, name);
    assert ClassOk(m.core, s);
    WalkOfSubclass(m.core.classes, sh, Allocate(m.core, Some(s), name).0.classes, SproutOf(m.core, sh, Some(s)),
                   s, m.core.next + 1, m.core.next);
  }

  /** A new class answers messages to it as its superclass does; a new root class answers none. */
  lemma NewClassInheritsMessages(m: Memory, sh: Shape, superclass: Option<Cid>, name: string, sel: Selector)
    requires Valid(m, sh) && MayAllocate(m.core, superclass)
    ensures ClassLookup(Allocate(m.core, superclass, name).0, SproutOf(m.core, sh, superclass), m.core.next + 1, sel)
            == if superclass.Some? then ClassLookup(m.core, sh, superclass.value, sel) else None
  {
    NewClassIsNew(m.core, sh);
    if superclass.Some? {
      var s := superclass.value;
      SubclassWalk(m, sh, s, name);
      assert ClassOk(m.core, s) && PairOk(m.core.classes, sh, s);
      ClassWalkEnds(m.core.classes, sh, s);
      NewMetaInherits(m.core, sh, s, name, ClassWalk(m.core.classes, sh, s), sel);
    } else {
      RootWalk(m, sh, name);
      var co' := Allocate(m.core, None, name).0;
      assert FindOwn(co'.methods, co'.entries, m.core.next, sel) == None by {
        assert co'.methods[m.core.next] == [];
      }
      assert FindAlong(co'.methods, co'.entries, [m.core.next], sel) == None by {
        assert [m.core.next][1..] == [];
      }
    }
  }

  lemma RootWalk(m: Memory, sh: Shape, name: string)
    requires Valid(m, sh)
    ensures ClassWalk(Allocate(m.core, None, name).0.classes, SproutOf(m.core, sh, None), m.core.next + 1)
            == [m.core.next]
  {
    var cs', sh' := Allocate(m.core, None, name).0.classes, SproutOf(m.core, sh, None);
    NewClassIsNew(m.core, sh);
    AllocateKeepsCore(m.core, sh, None, name);
    WalkOnward(cs', sh', m.core.next + 1);
    assert AboveRoot(cs', m.core.next + 1) == [];
    var walk := ClassWalk(cs', sh', m.core.next + 1);
    assert walk == [walk[0]] + walk[1..];
  }

  /** A class method is replaced that has been found from below through an empty cache, which the
      flush does not reach. */
  lemma HitStays(m: Memory, sh: Shape, mt: Cid, walk: seq<Cid>, sm: Cid, sel: Selector, imp: Imp, types: string)
    requires mt in m.caches && m.caches[mt] == [] && mt !in Descendants(sh, sm)
    requires sm in m.core.classes && sm in m.core.methods && FindOwn(m.core.methods, m.core.entries, sm, sel).Some?
    requires LookupAlong(m.core.methods, m.core.entries, walk, sel).Some?
    ensures var (m2, first) := SendOn(m, mt, walk, sel);
            var m3 := Memory(ReplaceMethod(m2.core, sm, sel, imp, types).0, CachesAfterReplace(m2, sh, sm, sel));
            && m2.core == m.core && first == LookupAlong(m.core.methods, m.core.entries, walk, sel)
            && SendOn(m3, mt, walk, sel).1 == first
  {
    var m2 := SendOn(m, mt, walk, sel).0;
    FlushedAt(m2.caches, Descendants(sh, sm), mt);
  }

  /** The message is answered the same before and after the replacement, and wrongly then. */
  ghost predicate AnswersStale(m: Memory, sh: Shape, c: Cid, sm: Cid, sel: Selector, imp: Imp, types: string) {
    var message, replace := MessagesClass(c, sel), Replaces(sm, sel, imp, types);
    && Contract(m.core, sh, message)
    && var (m2, first) := Cached(m, sh, message);
       && Contract(m2.core, sh, replace)
       && var m3 := Cached(m2, sh, replace).0;
          && Contract(m3.core, sh, message)
          && first == Cached(m3, sh, message).1
          && Plain(m3.core, sh, message).1 == Answer(Some(imp)) && first != Answer(Some(imp))
  }

  /** What makes it so: the message is cached nowhere yet and finds a class method of `sm`, above
      which the flush does not reach. */
  predicate MayGoStale(m: Memory, sh: Shape, c: Cid, walk: seq<Cid>, sm: Cid, sel: Selector, imp: Imp, types: string) {
    var mt := MetaOf(m.core.classes, c);
    && c in m.core.classes && !m.core.classes[c].meta && ClassWalk(m.core.classes, sh, c) == walk
    && mt in m.caches && m.caches[mt] == [] && mt !in Descendants(sh, sm)
    && sm in m.core.classes && sm in m.core.methods && FindOwn(m.core.methods, m.core.entries, sm, sel).Some?
    && var hit := LookupAlong(m.core.methods, m.core.entries, walk, sel);
       var co' := ReplaceMethod(m.core, sm, sel, imp, types).0;
       hit.Some? && hit != Some(imp) && LookupAlong(co'.methods, co'.entries, walk, sel) == Some(imp)
  }

  lemma StaleFrom(m: Memory, sh: Shape, c: Cid, walk: seq<Cid>, sm: Cid, sel: Selector, imp: Imp, types: string)
    requires MayGoStale(m, sh, c, walk, sm, sel, imp, types)
    ensures AnswersStale(m, sh, c, sm, sel, imp, types)
  {
    HitStays(m, sh, MetaOf(m.core.classes, c), walk, sm, sel, imp, types);
  }

  lemma StaleSetup(m: Memory, sh: Shape, s: Cid, name: string, sel: Selector, imp: Imp, types: string)
    requires Valid(m, sh) && MayAllocate(m.core, Some(s))
    requires var own := FindOwn(m.core.methods, m.core.entries, MetaOf(m.core.classes, s), sel);
             own.Some? && ImpOf(m.core.entries, own) != Some(imp)
    ensures MayGoStale(Memory(Allocate(m.core, Some(s), name).0, CachesAfterAllocate(m)), SproutOf(m.core, sh, Some(s)),
                       m.core.next + 1, [m.core.next] + ClassWalk(m.core.classes, sh, s), MetaOf(m.core.classes, s),
                       sel, imp, types)
  {
    var co, walk := m.core, ClassWalk(m.core.classes, sh, s);
    assert ClassOk(co, s) && PairOk(co.classes, sh, s);
    SubclassWalk(m, sh, s, name);
    ClassWalkEnds(co.classes, sh, s);
    StaleClassMethod(co, sh, s, name, walk, sel, imp, types);
  }

  /** A subclass of `s` is allocated and sent a message, the class method of `s` for it is replaced,
      and the message is sent again.  The second message answers with the method that has been
      replaced, where the walk finds the new one. */
  lemma StaleAnswer(m: Memory, sh: Shape, s: Cid, name: string, sel: Selector, imp: Imp, types: string)
    requires Valid(m, sh) && MayAllocate(m.core, Some(s))
    requires var own := FindOwn(m.core.methods, m.core.entries, MetaOf(m.core.classes, s), sel);
             own.Some? && ImpOf(m.core.entries, own) != Some(imp)
    ensures var call := Allocates(Some(s), name);
            AnswersStale(Cached(m, sh, call).0, ShapeAfter(m.core, sh, call), m.core.next + 1,
                         MetaOf(m.core.classes, s), sel, imp, types)
  {
    var m1 := Memory(Allocate(m.core, Some(s), name).0, CachesAfterAllocate(m));
    StaleSetup(m, sh, s, name, sel, imp, types);
    StaleFrom(m1, SproutOf(m.core, sh, Some(s)), m.core.next + 1, [m.core.next] + ClassWalk(m.core.classes, sh, s),
              MetaOf(m.core.classes, s), sel, imp, types);
    assert Cached(m, sh, Allocates(Some(s), name)).0 == m1;
  }
}
