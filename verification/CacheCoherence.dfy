/**
  Every operation keeps the class graph well formed and the caches coherent; over whole runs,
  the runtime with caches is indistinguishable from the one without.
*/
module CacheCoherence {
  import opened Options
  import opened Selectors
  import opened ClassTypes
  import opened ClassForest
  import opened Dispatch

  // ---------------------------------------------------------------- the class graph

  lemma RegisterKeepsClass(co: Core, c: Cid, b: Cid)
    requires ClassOk(co, c) && ClassOk(co, b) && !co.classes[c].meta
    requires co.classes[c].name !in co.registry || co.registry[co.classes[c].name] == c
    ensures ClassOk(RegisterPair(co, c), b)
  {
  }

  lemma RegisterKeepsLinks(co: Core, c: Cid)
    requires c in co.classes
    ensures RegisterPair(co, c).classes.Keys == co.classes.Keys
    ensures forall b :: b in co.classes ==> SameLinks(co.classes[b], RegisterPair(co, c).classes[b])
  {
  }

  lemma RegisterKeepsRegistry(co: Core, c: Cid)
    requires c in co.classes && RegistryOk(co)
    ensures RegistryOk(RegisterPair(co, c))
  {
  }

  lemma RegisterKeepsClasses(co: Core, c: Cid)
    requires ClassesOk(co) && c in co.classes && !co.classes[c].meta
    requires co.classes[c].name !in co.registry || co.registry[co.classes[c].name] == c
    ensures ClassesOk(RegisterPair(co, c))
  {
    var co' := RegisterPair(co, c);
    forall b | b in co'.classes
      ensures ClassOk(co', b)
    {
      assert ClassOk(co, b) && ClassOk(co, c);
      RegisterKeepsClass(co, c, b);
    }
  }

  lemma RegisterKeepsPairs(co: Core, sh: Shape, c: Cid)
    requires c in co.classes && PairsOk(co.classes, sh)
    ensures PairsOk(RegisterPair(co, c).classes, sh)
  {
    var cs' := RegisterPair(co, c).classes;
    forall b | b in cs'
      ensures PairOk(cs', sh, b)
    {
      assert PairOk(co.classes, sh, b);
    }
  }

  lemma RegisterKeepsLeaves(co: Core, sh: Shape, c: Cid)
    requires c in co.classes && LeavesOk(co, sh)
    ensures LeavesOk(RegisterPair(co, c), sh)
  {
    var co' := RegisterPair(co, c);
    forall b | b in co'.classes
      ensures LeafOk(co', sh, b)
    {
      assert LeafOk(co, sh, b);
    }
  }

  lemma RegisterKeepsEntries(co: Core, c: Cid)
    requires c in co.classes && EntriesOk(co)
    ensures EntriesOk(RegisterPair(co, c))
  {
    forall e | e in co.entries
      ensures EntryOk(RegisterPair(co, c), e)
    {
      assert EntryOk(co, e);
    }
  }

  lemma RegisterKeepsCore(co: Core, sh: Shape, c: Cid)
    requires CoreOk(co, sh) && c in co.classes && !co.classes[c].meta
    requires co.classes[c].name !in co.registry || co.registry[co.classes[c].name] == c
    ensures CoreOk(RegisterPair(co, c), sh)
  {
    RegisterKeepsLinks(co, c);
    ForestSameLinks(co.classes, RegisterPair(co, c).classes, sh);
    RegisterKeepsRegistry(co, c);
    RegisterKeepsClasses(co, c);
    RegisterKeepsPairs(co, sh, c);
    RegisterKeepsEntries(co, c);
    RegisterKeepsLeaves(co, sh, c);
  }

  /** A change of method lists, entries and the counter keeps the rest. */
  lemma MethodsKeepCore(co: Core, sh: Shape, co': Core)
    requires CoreOk(co, sh) && ClassesOk(co') && EntriesOk(co')
    requires co'.classes == co.classes && co'.registry == co.registry && co'.methods.Keys == co.methods.Keys
    ensures CoreOk(co', sh)
  {
    forall c | c in co.classes
      ensures LeafOk(co', sh, c)
    {
      assert LeafOk(co, sh, c);
    }
  }

  lemma AddKeepsClass(co: Core, c: Cid, sel: Selector, imp: Imp, types: string, b: Cid)
    requires ClassOk(co, c) && ClassOk(co, b)
    ensures ClassOk(AddMethod(co, c, sel, imp, types).0, b)
  {
    if b == c && FindOwn(co.methods, co.entries, c, sel).None? {
      ExtendedFlat(co.methods[c], Added(c, co.next), co.classes[c].registered);
    }
  }

  lemma AddKeepsTables(co: Core, c: Cid, sel: Selector, imp: Imp, types: string)
    requires ClassOk(co, c) && EntriesOk(co)
    ensures var co' := AddMethod(co, c, sel, imp, types).0;
            && co'.classes == co.classes && co'.registry == co.registry && co'.methods.Keys == co.methods.Keys
            && EntriesOk(co')
  {
    var co' := AddMethod(co, c, sel, imp, types).0;
    forall e | e in co'.entries
      ensures EntryOk(co', e)
    {
      assert e in co.entries ==> EntryOk(co, e);
    }
  }

  lemma AddKeepsClasses(co: Core, c: Cid, sel: Selector, imp: Imp, types: string)
    requires ClassesOk(co) && ClassOk(co, c)
    ensures ClassesOk(AddMethod(co, c, sel, imp, types).0)
  {
    var co' := AddMethod(co, c, sel, imp, types).0;
    forall b | b in co'.classes
      ensures ClassOk(co', b)
    {
      assert ClassOk(co, b);
      AddKeepsClass(co, c, sel, imp, types, b);
    }
  }

  lemma AddKeepsCore(co: Core, sh: Shape, c: Cid, sel: Selector, imp: Imp, types: string)
    requires CoreOk(co, sh) && c in co.classes
    ensures CoreOk(AddMethod(co, c, sel, imp, types).0, sh)
  {
    assert ClassOk(co, c);
    AddKeepsClasses(co, c, sel, imp, types);
    AddKeepsTables(co, c, sel, imp, types);
    MethodsKeepCore(co, sh, AddMethod(co, c, sel, imp, types).0);
  }

  lemma ImpsKeepCore(co: Core, sh: Shape, es: Entries)
    requires CoreOk(co, sh) && es.Keys == co.entries.Keys
    ensures CoreOk(co.(entries := es), sh)
  {
    var co' := co.(entries := es);
    forall c | c in co.classes
      ensures ClassOk(co', c)
    {
      assert ClassOk(co, c);
    }
    forall e | e in es
      ensures EntryOk(co', e)
    {
      assert EntryOk(co, e);
    }
    MethodsKeepCore(co, sh, co');
  }

  // -- allocation

  /** The new class is not on any line, nor on any subclass list, before. */
  lemma NewClassIsNew(co: Core, sh: Shape)
    requires CoreOk(co, sh)
    ensures co.next !in co.classes && co.next + 1 !in co.classes
    ensures forall d :: d in co.classes ==>
              && co.next !in Kids(sh, d) && co.next + 1 !in Kids(sh, d)
              && co.next !in Line(sh, d) && co.next + 1 !in Line(sh, d)
  {
    assert forall c :: c in co.classes ==> ClassOk(co, c);
    forall d | d in co.classes
      ensures co.next !in Kids(sh, d) && co.next + 1 !in Kids(sh, d)
      ensures co.next !in Line(sh, d) && co.next + 1 !in Line(sh, d)
    {
      assert KidsOk(co.classes, sh, d);
      LineMembers(co.classes, sh, d);
    }
  }

  predicate MayAllocate(co: Core, superclass: Option<Cid>) {
    superclass.Some? ==> superclass.value in co.classes && co.classes[superclass.value].registered
  }

  lemma AllocateGrafts(co: Core, superclass: Option<Cid>, name: string)
    requires MayAllocate(co, superclass) && co.next !in co.classes && co.next + 1 !in co.classes
    requires superclass.Some? ==> !co.classes[superclass.value].meta
    ensures Grafted(co.classes, Allocate(co, superclass, name).0.classes, co.next, co.next + 1, superclass)
  {
  }

  lemma AllocateClassOk(co: Core, superclass: Option<Cid>, name: string, b: Cid)
    requires co.next !in co.classes && co.next + 1 !in co.classes
    requires b in co.classes ==> ClassOk(co, b)
    requires b in Allocate(co, superclass, name).0.classes
    ensures ClassOk(Allocate(co, superclass, name).0, b)
  {
  }

  lemma AllocateTables(co: Core, superclass: Option<Cid>, name: string)
    requires co.next !in co.classes && co.next + 1 !in co.classes && co.methods.Keys == co.classes.Keys
    requires EntriesOk(co) && RegistryOk(co)
    ensures var co' := Allocate(co, superclass, name).0;
            co'.methods.Keys == co'.classes.Keys && EntriesOk(co') && RegistryOk(co')
  {
    var co' := Allocate(co, superclass, name).0;
    forall e | e in co'.entries
      ensures EntryOk(co', e)
    {
      assert EntryOk(co, e);
    }
  }

  function SproutOf(co: Core, sh: Shape, superclass: Option<Cid>): Shape {
    Sprout(sh, co.next, co.next + 1, superclass)
  }

  lemma AllocateKeepsForest(co: Core, sh: Shape, superclass: Option<Cid>, name: string)
    requires CoreOk(co, sh) && MayAllocate(co, superclass)
    ensures Forest(Allocate(co, superclass, name).0.classes, SproutOf(co, sh, superclass))
    ensures co.next !in co.classes && co.next + 1 !in co.classes
  {
    NewClassIsNew(co, sh);
    if superclass.Some? {
      assert ClassOk(co, superclass.value);
    }
    AllocateGrafts(co, superclass, name);
    GraftKeepsForest(co.classes, Allocate(co, superclass, name).0.classes, sh, co.next, co.next + 1, superclass);
  }

  /** What an allocation leaves of a class that was there before. */
  lemma AllocateOld(co: Core, superclass: Option<Cid>, name: string, b: Cid)
    requires b in co.classes && b != co.next && b != co.next + 1
    ensures var co' := Allocate(co, superclass, name).0;
            SameFlags(co, co', b) && ChainOf(co'.methods, b) == ChainOf(co.methods, b) && co'.entries == co.entries
  {
  }

  lemma AllocateNew(co: Core, superclass: Option<Cid>, name: string)
    requires MayAllocate(co, superclass) && co.next !in co.classes && co.next + 1 !in co.classes
    ensures var co' := Allocate(co, superclass, name).0;
            && co'.classes.Keys == co.classes.Keys + {co.next, co.next + 1}
            && co'.classes[co.next].meta && !co'.classes[co.next + 1].registered
  {
  }

  lemma SproutSame(sh: Shape, meta: Cid, c: Cid, superclass: Option<Cid>, b: Cid)
    requires b != meta && b != c
    ensures Line(Sprout(sh, meta, c, superclass), b) == Line(sh, b)
    ensures superclass != Some(b) ==> Kids(Sprout(sh, meta, c, superclass), b) == Kids(sh, b)
  {
  }

  lemma SproutNew(sh: Shape, meta: Cid, c: Cid, superclass: Option<Cid>)
    requires superclass != Some(c)
    ensures Kids(Sprout(sh, meta, c, superclass), c) == []
  {
  }

  lemma AllocateLeavesKids(co: Core, sh: Shape, superclass: Option<Cid>, name: string, b: Cid)
    requires MayAllocate(co, superclass) && co.next !in co.classes && co.next + 1 !in co.classes
    requires b in co.classes ==> LeafOk(co, sh, b)
    requires b in Allocate(co, superclass, name).0.classes
    ensures LeafOk(Allocate(co, superclass, name).0, SproutOf(co, sh, superclass), b)
  {
    AllocateNew(co, superclass, name);
    if b == co.next + 1 {
      SproutNew(sh, co.next, co.next + 1, superclass);
    } else if b in co.classes {
      AllocateOld(co, superclass, name, b);
      SproutSame(sh, co.next, co.next + 1, superclass, b);
    }
  }

  lemma AllocateKeepsCore(co: Core, sh: Shape, superclass: Option<Cid>, name: string)
    requires CoreOk(co, sh) && MayAllocate(co, superclass)
    ensures CoreOk(Allocate(co, superclass, name).0, SproutOf(co, sh, superclass))
  {
    AllocateKeepsForest(co, sh, superclass, name);
    AllocateTables(co, superclass, name);
    AllocateKeepsClasses(co, superclass, name);
    AllocateKeepsPairs(co, sh, superclass, name);
    AllocateKeepsLeaves(co, sh, superclass, name);
  }

  lemma AllocateKeepsPair(co: Core, sh: Shape, superclass: Option<Cid>, name: string, b: Cid)
    requires MayAllocate(co, superclass) && co.next !in co.classes && co.next + 1 !in co.classes
    requires b in co.classes ==> PairOk(co.classes, sh, b)
    requires superclass.Some? ==> !co.classes[superclass.value].meta && PairOk(co.classes, sh, superclass.value)
    requires b in Allocate(co, superclass, name).0.classes
    ensures PairOk(Allocate(co, superclass, name).0.classes, SproutOf(co, sh, superclass), b)
  {
  }

  lemma AllocateKeepsPairs(co: Core, sh: Shape, superclass: Option<Cid>, name: string)
    requires CoreOk(co, sh) && MayAllocate(co, superclass)
    requires co.next !in co.classes && co.next + 1 !in co.classes
    ensures PairsOk(Allocate(co, superclass, name).0.classes, SproutOf(co, sh, superclass))
  {
    var cs', sh' := Allocate(co, superclass, name).0.classes, SproutOf(co, sh, superclass);
    if superclass.Some? {
      assert ClassOk(co, superclass.value) && PairOk(co.classes, sh, superclass.value);
    }
    forall b | b in cs'
      ensures PairOk(cs', sh', b)
    {
      assert b in co.classes ==> PairOk(co.classes, sh, b);
      AllocateKeepsPair(co, sh, superclass, name, b);
    }
  }

  lemma AllocateKeepsLeaves(co: Core, sh: Shape, superclass: Option<Cid>, name: string)
    requires MayAllocate(co, superclass) && co.next !in co.classes && co.next + 1 !in co.classes
    requires LeavesOk(co, sh)
    ensures LeavesOk(Allocate(co, superclass, name).0, SproutOf(co, sh, superclass))
  {
    var co', sh' := Allocate(co, superclass, name).0, SproutOf(co, sh, superclass);
    forall b | b in co'.classes
      ensures LeafOk(co', sh', b)
    {
      assert b in co.classes ==> LeafOk(co, sh, b);
      AllocateLeavesKids(co, sh, superclass, name, b);
    }
  }

  lemma AllocateKeepsClasses(co: Core, superclass: Option<Cid>, name: string)
    requires co.next !in co.classes && co.next + 1 !in co.classes
    requires ClassesOk(co)
    ensures ClassesOk(Allocate(co, superclass, name).0)
  {
    var co' := Allocate(co, superclass, name).0;
    forall b | b in co'.classes
      ensures ClassOk(co', b)
    {
      assert b in co.classes ==> ClassOk(co, b);
      AllocateClassOk(co, superclass, name, b);
    }
  }

  /** An allocation changes no answer of the classes that were there before. */
  lemma AllocateKeepsAnswers(co: Core, sh: Shape, superclass: Option<Cid>, name: string, d: Cid, s: Selector)
    requires Forest(co.classes, sh) && co.next !in co.classes && co.next + 1 !in co.classes && d in co.classes
    ensures var co', sh' := Allocate(co, superclass, name).0, SproutOf(co, sh, superclass);
            Line(sh', d) == Line(sh, d) && SlowLookup(co', sh', d, s) == SlowLookup(co, sh, d, s)
  {
    LineMembers(co.classes, sh, d);
    SproutSame(sh, co.next, co.next + 1, superclass, d);
    AnswersAlong(co, superclass, name, Line(sh, d), s);
  }

  lemma AnswersAlong(co: Core, superclass: Option<Cid>, name: string, line: seq<Cid>, s: Selector)
    requires co.next !in co.classes && co.next + 1 !in co.classes
    requires forall b :: b in line ==> b in co.classes
    ensures var co' := Allocate(co, superclass, name).0;
            LookupAlong(co'.methods, co'.entries, line, s) == LookupAlong(co.methods, co.entries, line, s)
  {
    var co' := Allocate(co, superclass, name).0;
    forall b | b in line
      ensures FindOwn(co'.methods, co'.entries, b, s) == FindOwn(co.methods, co.entries, b, s)
    {
      AllocateOld(co, superclass, name, b);
    }
    FindAlongSame(co.methods, co.entries, co'.methods, co'.entries, line, s);
  }

  /** A new class answers every selector as its superclass does. */
  lemma NewClassInherits(co: Core, sh: Shape, superclass: Option<Cid>, name: string, s: Selector)
    requires CoreOk(co, sh) && MayAllocate(co, superclass)
    ensures var (co', c) := Allocate(co, superclass, name);
            SlowLookup(co', SproutOf(co, sh, superclass), c, s)
            == if superclass.Some? then SlowLookup(co, sh, superclass.value, s) else None
  {
    NewClassIsNew(co, sh);
    var line := if superclass.Some? then Line(sh, superclass.value) else [];
    if superclass.Some? {
      LineMembers(co.classes, sh, superclass.value);
    }
    var (co', c) := Allocate(co, superclass, name);
    assert Line(SproutOf(co, sh, superclass), c) == [c] + line;
    assert ([c] + line)[1..] == line;
    assert FindOwn(co'.methods, co'.entries, c, s) == None by {
      assert co'.methods[c] == [];
    }
    AnswersAlong(co, superclass, name, line, s);
  }

  /** Registering makes the class known under its name, and changes nothing else. */
  lemma RegisterMakesKnown(co: Core, c: Cid, name: string)
    requires c in co.classes
    ensures var co' := RegisterPair(co, c);
            && GetClass(co', name) == (if name == co.classes[c].name then Some(c) else GetClass(co, name))
            && co'.classes.Keys == co.classes.Keys
            && co'.classes[c] == co.classes[c].(registered := true)
            && forall b :: b in co.classes && b != c ==> co'.classes[b] == co.classes[b]
  {
  }

  // ---------------------------------------------------------------- the caches

  lemma FlushNothing(ca: Caches)
    ensures Flush(ca, {}) == ca
  {
  }

  /** A class that is not registered has no descendants but itself; a metaclass has none on the
      instance side. */
  lemma UnregisteredIsAlone(m: Memory, sh: Shape, c: Cid, d: Cid)
    requires Valid(m, sh) && c in m.core.classes && !m.core.classes[c].registered
    requires d in m.core.classes && !m.core.classes[d].meta && CacheOf(m.caches, d) != []
    ensures c !in Line(sh, d)
  {
    LineMembers(m.core.classes, sh, d);
    if c in Line(sh, d) {
      assert LeafOk(m.core, sh, c);
      BelowIsUnder(m.core.classes, sh, c, d);
      UnderKids(sh, c, d);
      assert false;
    }
  }

  lemma AddKeepsCoherent(m: Memory, sh: Shape, c: Cid, sel: Selector, imp: Imp, types: string)
    requires Valid(m, sh) && c in m.core.classes
    ensures Coherent(Memory(AddMethod(m.core, c, sel, imp, types).0, CachesAfterAdd(m, sh, c, sel)), sh)
  {
    var co' := AddMethod(m.core, c, sel, imp, types).0;
    if FindOwn(m.core.methods, m.core.entries, c, sel).None? {
      var ds := if m.core.classes[c].registered then Descendants(sh, c) else {};
      forall d, s | d in m.core.classes && !m.core.classes[d].meta && d !in ds && CacheOf(m.caches, d) != []
        ensures SlowLookup(co', sh, d, s) == SlowLookup(m.core, sh, d, s)
      {
        AddChangeSet(m.core, sh, c, sel, imp, types, d, s);
        if !m.core.classes[c].registered {
          UnregisteredIsAlone(m, sh, c, d);
        }
      }
      FlushRestores(m, co', sh, ds);
      FlushNothing(m.caches);
    }
  }

  lemma ReplaceKeepsCoherent(m: Memory, sh: Shape, c: Cid, sel: Selector, imp: Imp, types: string)
    requires Valid(m, sh) && c in m.core.classes
    ensures Coherent(Memory(ReplaceMethod(m.core, c, sel, imp, types).0, CachesAfterReplace(m, sh, c, sel)), sh)
  {
    if FindOwn(m.core.methods, m.core.entries, c, sel).None? {
      AddKeepsCoherent(m, sh, c, sel, imp, types);
    } else {
      var co' := ReplaceMethod(m.core, c, sel, imp, types).0;
      forall d, s |
          && d in m.core.classes && !m.core.classes[d].meta && d !in Descendants(sh, c)
          && CacheOf(m.caches, d) != []
        ensures SlowLookup(co', sh, d, s) == SlowLookup(m.core, sh, d, s)
      {
        ReplaceChangeSet(m.core, sh, c, sel, imp, types, d, s);
      }
      FlushRestores(m, co', sh, Descendants(sh, c));
    }
  }

  /** The flush of an exchange reaches every class on the instance side that has anything
      cached, although only the registry is enumerated. */
  lemma FlushAllReaches(m: Memory, sh: Shape, d: Cid)
    requires Valid(m, sh) && d in m.core.classes && !m.core.classes[d].meta && CacheOf(m.caches, d) != []
    ensures d in Under(sh, m.core.registry.Values)
  {
    assert ClassOk(m.core, d);
    SelfAtStart(m.core.classes, sh, d);
    assert d in m.core.registry.Values && d in sh.line[d];
  }

  lemma ExchangeKeepsCoherent(m: Memory, sh: Shape, e1: Eid, e2: Eid)
    requires Valid(m, sh) && e1 in m.core.entries && e2 in m.core.entries
    ensures Coherent(Memory(Exchange(m.core, e1, e2), CachesAfterExchange(m, sh)), sh)
  {
    var co' := Exchange(m.core, e1, e2);
    var ds := Under(sh, m.core.registry.Values);
    forall d | d in m.core.classes && !m.core.classes[d].meta && CacheOf(m.caches, d) != []
      ensures d in ds
    {
      FlushAllReaches(m, sh, d);
    }
    FlushRestores(m, co', sh, ds);
  }

  lemma RegisterKeepsCoherent(m: Memory, sh: Shape, c: Cid)
    requires Valid(m, sh) && c in m.core.classes
    ensures Coherent(m.(core := RegisterPair(m.core, c)), sh)
  {
    var m' := m.(core := RegisterPair(m.core, c));
    forall d | d in m'.core.classes && !m'.core.classes[d].meta
      ensures CoherentAt(m'.core, sh, m'.caches, d) && (m'.core.classes[d].registered || CacheOf(m'.caches, d) == [])
    {
      assert CoherentAt(m.core, sh, m.caches, d);
    }
  }

  function CachesAfterAllocate(m: Memory): Caches {
    m.caches[m.core.next := []][m.core.next + 1 := []]
  }

  ghost predicate SameAnswers(co: Core, sh: Shape, co': Core, sh': Shape, d: Cid) {
    forall s :: SlowLookup(co', sh', d, s) == SlowLookup(co, sh, d, s)
  }

  /** The classes that were there keep their flags and their answers. */
  ghost predicate Kept(co: Core, sh: Shape, co': Core, sh': Shape, d: Cid) {
    SameFlags(co, co', d) && SameAnswers(co, sh, co', sh', d)
  }

  predicate SameFlags(co: Core, co': Core, d: Cid) {
    && d in co.classes && d in co'.classes && co'.classes[d].meta == co.classes[d].meta
    && co'.classes[d].registered == co.classes[d].registered
  }

  ghost predicate Grows(co: Core, sh: Shape, co': Core, sh': Shape) {
    forall d :: d in co.classes ==> Kept(co, sh, co', sh', d)
  }

  ghost predicate FreshCaches(co: Core, ca: Caches, ca': Caches) {
    && (forall d :: d in ca' ==> CacheOf(ca', d) == if d in co.classes then CacheOf(ca, d) else [])
    && (forall d :: d in ca ==> d in ca')
  }

  lemma CoherentAtSame(co: Core, sh: Shape, ca: Caches, co': Core, sh': Shape, ca': Caches, d: Cid)
    requires CoherentAt(co, sh, ca, d) && CacheOf(ca', d) == CacheOf(ca, d) && SameAnswers(co, sh, co', sh', d)
    ensures CoherentAt(co', sh', ca', d)
  {
  }

  lemma GrowthKeepsCoherentAt(co: Core, sh: Shape, ca: Caches, co': Core, sh': Shape, ca': Caches, d: Cid)
    requires Grows(co, sh, co', sh') && FreshCaches(co, ca, ca')
    requires d in co.classes ==> CoherentAt(co, sh, ca, d) && (co.classes[d].registered || CacheOf(ca, d) == [])
    requires d in co'.classes
    ensures CoherentAt(co', sh', ca', d) && (co'.classes[d].registered || CacheOf(ca', d) == [])
  {
    if d in co.classes {
      assert Kept(co, sh, co', sh', d);
      assert CacheOf(ca', d) == CacheOf(ca, d);
      CoherentAtSame(co, sh, ca, co', sh', ca', d);
    } else {
      assert CacheOf(ca', d) == [];
    }
  }

  lemma GrowthKeepsCoherent(m: Memory, sh: Shape, m': Memory, sh': Shape)
    requires Coherent(m, sh) && Grows(m.core, sh, m'.core, sh') && FreshCaches(m.core, m.caches, m'.caches)
    requires m'.caches.Keys <= m'.core.classes.Keys
    ensures Coherent(m', sh')
  {
    forall d | d in m'.caches
      ensures CacheOk(m'.caches[d])
    {
      assert CacheOf(m'.caches, d) == m'.caches[d];
    }
    forall d | d in m'.core.classes && !m'.core.classes[d].meta
      ensures CoherentAt(m'.core, sh', m'.caches, d) && (m'.core.classes[d].registered || CacheOf(m'.caches, d) == [])
    {
      assert d in m.core.classes ==> Kept(m.core, sh, m'.core, sh', d);
      GrowthKeepsCoherentAt(m.core, sh, m.caches, m'.core, sh', m'.caches, d);
    }
  }

  lemma AllocateSameAnswers(co: Core, sh: Shape, superclass: Option<Cid>, name: string, d: Cid)
    requires Forest(co.classes, sh) && co.next !in co.classes && co.next + 1 !in co.classes && d in co.classes
    ensures SameAnswers(co, sh, Allocate(co, superclass, name).0, SproutOf(co, sh, superclass), d)
  {
    forall s
      ensures SlowLookup(Allocate(co, superclass, name).0, SproutOf(co, sh, superclass), d, s)
              == SlowLookup(co, sh, d, s)
    {
      AllocateKeepsAnswers(co, sh, superclass, name, d, s);
    }
  }

  lemma AllocateGrows(co: Core, sh: Shape, superclass: Option<Cid>, name: string)
    requires Forest(co.classes, sh) && co.next !in co.classes && co.next + 1 !in co.classes
    ensures Grows(co, sh, Allocate(co, superclass, name).0, SproutOf(co, sh, superclass))
  {
    var co', sh' := Allocate(co, superclass, name).0, SproutOf(co, sh, superclass);
    forall d | d in co.classes
      ensures Kept(co, sh, co', sh', d)
    {
      AllocateKeeps(co, sh, superclass, name, d);
    }
  }

  lemma AllocateKeeps(co: Core, sh: Shape, superclass: Option<Cid>, name: string, d: Cid)
    requires Forest(co.classes, sh) && co.next !in co.classes && co.next + 1 !in co.classes && d in co.classes
    ensures Kept(co, sh, Allocate(co, superclass, name).0, SproutOf(co, sh, superclass), d)
  {
    assert SameFlags(co, Allocate(co, superclass, name).0, d) by {
      AllocateOld(co, superclass, name, d);
    }
    AllocateSameAnswers(co, sh, superclass, name, d);
  }

  lemma AllocateFreshCaches(m: Memory)
    requires m.core.next !in m.core.classes && m.core.next + 1 !in m.core.classes
    requires m.caches.Keys <= m.core.classes.Keys
    ensures FreshCaches(m.core, m.caches, CachesAfterAllocate(m))
    ensures CachesAfterAllocate(m).Keys <= m.core.classes.Keys + {m.core.next, m.core.next + 1}
  {
  }

  lemma AllocateKeepsCoherent(m: Memory, sh: Shape, superclass: Option<Cid>, name: string)
    requires Valid(m, sh) && MayAllocate(m.core, superclass)
    ensures Coherent(Memory(Allocate(m.core, superclass, name).0, CachesAfterAllocate(m)),
            SproutOf(m.core, sh, superclass))
  {
    var m', sh' := Memory(Allocate(m.core, superclass, name).0, CachesAfterAllocate(m)),
        SproutOf(m.core, sh, superclass);
    NewClassIsNew(m.core, sh);
    AllocateGrows(m.core, sh, superclass, name);
    AllocateFreshCaches(m);
    assert m'.caches.Keys <= m'.core.classes.Keys by {
      AllocateNew(m.core, superclass, name);
    }
    GrowthKeepsCoherent(m, sh, m', sh');
  }
}
