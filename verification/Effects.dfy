/**
  What each call does to classes, methods and the registry, said of the tables before and after it.
*/
module Effects {
  import opened Options
  import opened Selectors
  import opened ClassTypes
  import opened ClassForest
  import opened Dispatch
  import opened CacheCoherence
  import opened LoaderImage
  import opened LoaderStep
  import opened LoaderLaws
  import opened LoaderOrder
  import opened DispatchRuns
  import opened ClassMessages
  import opened Outcomes

  /** A class of that name, its superclass and its metaclass have come in. */
  predicate ComesIn(co: Core, co': Core, c: Cid, superclass: Option<Cid>, name: string) {
    && c in co'.classes && c !in co.classes
    && var k := co'.classes[c];
       && k.name == name && !k.meta && !k.registered && k.superClass == superclass
       && (superclass.Some? ==>
             superclass.value in co.classes && k.instanceSize == co.classes[superclass.value].instanceSize)
       && (superclass.None? ==> k.instanceSize == OBJECT_SIZE)
       && k.isa.Some? && k.isa.value in co'.classes && k.isa.value !in co.classes
       && var mk := co'.classes[k.isa.value];
          mk.name == name && mk.meta && mk.isa == None && mk.instanceSize == CLASS_SIZE
  }

  /** The class is known under its name, and nothing else has changed. */
  ghost predicate MadeKnown(co: Core, co': Core, c: Cid) {
    && c in co.classes && co'.classes.Keys == co.classes.Keys
    && co'.classes[c] == co.classes[c].(registered := true)
    && (forall b :: b in co.classes && b != c ==> co'.classes[b] == co.classes[b])
    && (forall n :: n in co'.registry <==> n == co.classes[c].name || n in co.registry)
    && (forall n :: n in co'.registry ==>
          co'.registry[n] == if n == co.classes[c].name then c else co.registry[n])
    && co'.methods == co.methods && co'.entries == co.entries
  }

  predicate OtherEntriesStay(co: Core, co': Core, e: Eid) {
    forall x :: x in co.entries && x != e ==> x in co'.entries && co'.entries[x] == co.entries[x]
  }

  /** The class has a new first entry for the selector. */
  ghost predicate HasNew(co: Core, co': Core, c: Cid, sel: Selector, imp: Imp, types: string) {
    exists e ::
      && e !in co.entries && e in co'.entries && co'.entries[e] == MethodEntry(sel, imp, types)
      && FirstMatch(co'.entries, ChainOf(co'.methods, c), sel, Some(e))
      && OtherEntriesStay(co, co', e)
  }

  /** The first entry for the selector has the IMP, and no other entry has changed. */
  ghost predicate HasImp(co: Core, co': Core, c: Cid, sel: Selector, imp: Imp) {
    exists e ::
      && e in co.entries && e in co'.entries && co'.entries[e] == co.entries[e].(imp := imp)
      && FirstMatch(co.entries, ChainOf(co.methods, c), sel, Some(e))
      && OtherEntriesStay(co, co', e) && co'.methods == co.methods
  }

  /** The two entries have each other's IMP. */
  predicate Swapped(co: Core, co': Core, e1: Eid, e2: Eid) {
    && e1 in co.entries && e2 in co.entries && co'.entries.Keys == co.entries.Keys
    && co'.entries[e1] == co.entries[e1].(imp := co.entries[e2].imp)
    && co'.entries[e2] == co.entries[e2].(imp := co.entries[e1].imp)
    && (forall x :: x in co.entries && x != e1 && x != e2 ==> co'.entries[x] == co.entries[x])
    && co'.methods == co.methods && co'.classes == co.classes && co'.registry == co.registry
  }

  /** A compiled class has come in with its name and its methods, in order. */
  predicate LoadedIn(co': Core, classes: Classes, lists: Lists, c: Cid) {
    && c in classes && c in co'.classes && co'.classes[c].name == classes[c].name
    && co'.classes[c].meta == classes[c].meta && (co'.classes[c].registered <==> !classes[c].meta)
    && (!classes[c].meta ==>
          && classes[c].name in co'.registry && co'.registry[classes[c].name] == c
          && co'.classes[c].superClass == classes[c].superClass && co'.classes[c].isa == classes[c].isa)
    && var n := if c in lists then |lists[c]| else 0;
       && |ChainOf(co'.methods, c)| == n
       && forall k: nat :: k < n ==>
            ChainOf(co'.methods, c)[k] in co'.entries && co'.entries[ChainOf(co'.methods, c)[k]] == lists[c][k]
  }

  ghost predicate KeepsMethods(co: Core, co': Core) {
    && (forall b :: b in co.methods ==> b in co'.methods && co'.methods[b] == co.methods[b])
    && (forall x :: x in co.entries ==> x in co'.entries && co'.entries[x] == co.entries[x])
  }

  predicate Lacks(co: Core, c: Cid, sel: Selector) {
    forall e :: e in ChainOf(co.methods, c) ==> !Matches(co.entries, e, sel)
  }

  ghost predicate RightEffect(co: Core, call: Call, co': Core, out: Outcome) {
    match call
    case Allocates(superclass, name) =>
      out.NewPair? && ComesIn(co, co', out.c, superclass, name) && KeepsMethods(co, co') && co'.registry == co.registry
    case Registers(c) => MadeKnown(co, co', c)
    case Adds(c, sel, imp, types) => if Lacks(co, c, sel) then HasNew(co, co', c, sel, imp, types) else co' == co
    case Replaces(c, sel, imp, types) =>
      if Lacks(co, c, sel) then HasNew(co, co', c, sel, imp, types) else HasImp(co, co', c, sel, imp)
    case Exchanges(e1, e2) => Swapped(co, co', e1, e2)
    case Loads(classes, lists, _, _, _) =>
      && co'.classes.Keys == co.classes.Keys + classes.Keys && KeepsMethods(co, co')
      && (forall c :: c in classes ==> LoadedIn(co', classes, lists, c))
      && (forall n :: n in co.registry ==> n in co'.registry && co'.registry[n] == co.registry[n])
    case _ => co' == co
  }

  // ---------------------------------------------------------------- each call

  lemma AllocateEffect(co: Core, sh: Shape, superclass: Option<Cid>, name: string)
    requires CoreOk(co, sh) && MayAllocate(co, superclass)
    ensures var (co', c) := Allocate(co, superclass, name);
            ComesIn(co, co', c, superclass, name) && KeepsMethods(co, co') && co'.registry == co.registry
  {
    AllocatedStructs(co, sh, superclass, name);
    NewClassIsNew(co, sh);
  }

  lemma AddEffect(co: Core, sh: Shape, c: Cid, sel: Selector, imp: Imp, types: string)
    requires CoreOk(co, sh) && c in co.classes && Lacks(co, c, sel)
    ensures c in co.methods
    ensures HasNew(co, ReplaceMethod(co, c, sel, imp, types).0, c, sel, imp, types)
    ensures AddMethod(co, c, sel, imp, types).0 == ReplaceMethod(co, c, sel, imp, types).0
  {
    assert ClassOk(co, c);
    var co' := ReplaceMethod(co, c, sel, imp, types).0;
    ReplaceAddsAbsent(co, sh, c, sel, imp, types);
    FindInFirst(co'.entries, ChainOf(co'.methods, c), sel);
    FindInFinds(co.entries, ChainOf(co.methods, c), sel);
  }

  lemma ReplaceEffect(co: Core, sh: Shape, c: Cid, sel: Selector, imp: Imp, types: string)
    requires CoreOk(co, sh) && c in co.classes && !Lacks(co, c, sel)
    ensures c in co.methods && AddMethod(co, c, sel, imp, types).0 == co
    ensures HasImp(co, ReplaceMethod(co, c, sel, imp, types).0, c, sel, imp)
  {
    var chain := ChainOf(co.methods, c);
    assert ClassOk(co, c);
    FindInFirst(co.entries, chain, sel);
    FindInFinds(co.entries, chain, sel);
    var e := FindIn(co.entries, chain, sel).value;
    var k :| 0 <= k < |chain| && chain[k] == e && Matches(co.entries, chain[k], sel)
             && forall j :: 0 <= j < k ==> !Matches(co.entries, chain[j], sel);
    ReplaceReturnsOld(co, sh, c, sel, imp, types, k);
  }

  lemma LoadedMethodsIn(img: Image, lay: Layout, done: seq<Cid>, c: Cid)
    requires ImageOk(img, lay) && Complete(img, done) && c in img.classes
    ensures var (chain, es) := (ChainOf(MethodsAfter(img, lay, done), c), EntriesAfter(img, lay, done));
            && |chain| == (if c in img.lists then |img.lists[c]| else 0)
            && forall k: nat :: k < |chain| ==> chain[k] in es && es[chain[k]] == img.lists[c][k]
  {
    AllPatched(img, lay, done, c);
    ConvertedFlat(img, c);
    forall k: nat | k < |Flat(Converted(img, c))|
      ensures Compiled(c, k) in EntriesAfter(img, lay, done)
      ensures EntriesAfter(img, lay, done)[Compiled(c, k)] == img.lists[c][k]
    {
      EntryAfter(img, lay, done, Compiled(c, k));
    }
  }

  lemma LoadedStructIn(img: Image, lay: Layout, done: seq<Cid>, c: Cid)
    requires ImageOk(img, lay) && Complete(img, done) && c in img.classes
    ensures var k := ClassesAfter(img, lay, done)[c];
            && k.name == img.classes[c].name && k.meta == img.classes[c].meta
            && (k.registered <==> !img.classes[c].meta)
            && (!k.meta ==> k.superClass == img.classes[c].superClass && k.isa == img.classes[c].isa)
  {
    LoadedFlag(img, lay, done, c);
    if img.classes[c].meta {
      assert MetaImageOk(img, lay, c);
    }
  }

  lemma LoadEffectOn(img: Image, lay: Layout, done: seq<Cid>, c: Cid)
    requires ImageOk(img, lay) && Complete(img, done) && c in img.classes
    ensures LoadedIn(CoreAfter(img, lay, done), img.classes, img.lists, c)
  {
    LoadedMethodsIn(img, lay, done, c);
    LoadedStructIn(img, lay, done, c);
    RegistryHolds(img, lay, done);
  }

  lemma LoadKeeps(img: Image, lay: Layout, done: seq<Cid>)
    requires ImageOk(img, lay)
    ensures KeepsMethods(img.core, CoreAfter(img, lay, done))
  {
    forall b | b in img.core.methods
      ensures b in MethodsAfter(img, lay, done) && MethodsAfter(img, lay, done)[b] == img.core.methods[b]
    {
      KnownMethods(img, lay, done, b);
    }
    forall e | e in img.core.entries
      ensures e in EntriesAfter(img, lay, done) && EntriesAfter(img, lay, done)[e] == img.core.entries[e]
    {
      KnownEntry(img, lay, done, e);
    }
  }

  lemma LoadEffect(img: Image, lay: Layout, done: seq<Cid>)
    requires ImageOk(img, lay) && Complete(img, done)
    ensures var co' := CoreAfter(img, lay, done);
            && co'.classes.Keys == img.core.classes.Keys + img.classes.Keys && KeepsMethods(img.core, co')
            && (forall c :: c in img.classes ==> LoadedIn(co', img.classes, img.lists, c))
            && (forall n :: n in img.core.registry ==> n in co'.registry && co'.registry[n] == img.core.registry[n])
  {
    LoadKeeps(img, lay, done);
    RegistryHolds(img, lay, done);
    forall c | c in img.classes
      ensures LoadedIn(CoreAfter(img, lay, done), img.classes, img.lists, c)
    {
      LoadEffectOn(img, lay, done, c);
    }
  }

  lemma MethodEffect(co: Core, sh: Shape, call: Call)
    requires CoreOk(co, sh) && Contract(co, sh, call) && (call.Adds? || call.Replaces?)
    ensures RightEffect(co, call, Plain(co, sh, call).0, Plain(co, sh, call).1)
  {
    if Lacks(co, call.c, call.sel) {
      AddEffect(co, sh, call.c, call.sel, call.imp, call.types);
    } else {
      ReplaceEffect(co, sh, call.c, call.sel, call.imp, call.types);
    }
  }

  lemma OtherEffect(co: Core, sh: Shape, call: Call)
    requires CoreOk(co, sh) && Contract(co, sh, call)
    requires !call.Adds? && !call.Replaces? && !call.Allocates? && !call.Loads?
    ensures RightEffect(co, call, Plain(co, sh, call).0, Plain(co, sh, call).1)
  {
  }

  lemma PlainEffect(co: Core, sh: Shape, call: Call)
    requires CoreOk(co, sh) && Contract(co, sh, call)
    ensures RightEffect(co, call, Plain(co, sh, call).0, Plain(co, sh, call).1)
  {
    if call.Adds? || call.Replaces? {
      MethodEffect(co, sh, call);
    } else if call.Allocates? {
      AllocateEffect(co, sh, call.superclass, call.name);
    } else if call.Loads? {
      LoadEffect(ModuleOf(co, sh, call), call.lay, Listed(call.section));
    } else {
      OtherEffect(co, sh, call);
    }
  }

  /** Every call does that, with caches and without. */
  lemma CallEffect(m: Memory, sh: Shape, call: Call)
    requires Valid(m, sh) && Contract(m.core, sh, call)
    ensures Cached(m, sh, call).0.core == Plain(m.core, sh, call).0
    ensures RightEffect(m.core, call, Cached(m, sh, call).0.core, Plain(m.core, sh, call).1)
  {
    StepRefines(m, sh, call);
    PlainEffect(m.core, sh, call);
  }

  // ---------------------------------------------------------------- caches

  /** The call empties the caches of the classes whose walk is `walk`. */
  predicate Flushes(co: Core, call: Call, walk: seq<Cid>) {
    match call
    case Adds(c, sel, _, _) => Lacks(co, c, sel) && c in co.classes && co.classes[c].registered && c in walk
    case Replaces(c, sel, _, _) =>
      (Lacks(co, c, sel) ==> c in co.classes && co.classes[c].registered) && c in walk
    case Exchanges(_, _) => exists r :: r in walk && r in co.classes && co.classes[r].registered
    case _ => false
  }

  lemma KnownCache(m: Memory, sh: Shape, call: Call, d: Cid)
    requires Valid(m, sh) && Contract(m.core, sh, call) && d in m.core.classes && (call.Allocates? || call.Loads?)
    ensures CacheOf(Cached(m, sh, call).0.caches, d) == CacheOf(m.caches, d)
  {
    NewcomersFresh(m, sh, call);
  }

  lemma FlushedCaches(m: Memory, sh: Shape, call: Call, d: Cid, walk: seq<Cid>)
    requires Valid(m, sh) && Contract(m.core, sh, call) && (call.Adds? || call.Replaces? || call.Exchanges?)
    requires d in m.core.classes && !m.core.classes[d].meta && Walks(m.core.classes, Some(d), walk)
    ensures CacheOf(Cached(m, sh, call).0.caches, d)
            == if Flushes(m.core, call, walk) then [] else CacheOf(m.caches, d)
  {
    if call.Adds? {
      AddFlushes(m, sh, call.c, call.sel, d, walk);
    } else if call.Replaces? {
      ReplaceFlushes(m, sh, call.c, call.sel, d, walk);
    } else {
      ExchangeFlushes(m, sh, d, walk);
    }
  }

  lemma QuietCache(m: Memory, sh: Shape, call: Call, d: Cid)
    requires Valid(m, sh) && Contract(m.core, sh, call) && d in m.core.classes && !m.core.classes[d].meta
    requires call.Registers? || call.GetsMethod? || call.GetsClass? || call.Sends? || call.MessagesClass?
    ensures !(call.Sends? && call.receiver == Some(d)) ==>
              CacheOf(Cached(m, sh, call).0.caches, d) == CacheOf(m.caches, d)
  {
    if call.MessagesClass? {
      MessageCache(m, sh, call.c, call.sel, d);
    }
  }

  lemma MessageCache(m: Memory, sh: Shape, c: Cid, sel: Selector, d: Cid)
    requires Valid(m, sh) && Contract(m.core, sh, MessagesClass(c, sel))
    requires d in m.core.classes && !m.core.classes[d].meta
    ensures CacheOf(Cached(m, sh, MessagesClass(c, sel)).0.caches, d) == CacheOf(m.caches, d)
  {
    assert PairOk(m.core.classes, sh, c);
  }

  /** Exactly those caches of classes are emptied; all others stay, except that a send to an instance
      fills the cache of its class. */
  lemma CallFlushes(m: Memory, sh: Shape, call: Call, d: Cid, walk: seq<Cid>)
    requires Valid(m, sh) && Contract(m.core, sh, call)
    requires d in m.core.classes && !m.core.classes[d].meta && Walks(m.core.classes, Some(d), walk)
    ensures var (cache, cache') := (CacheOf(m.caches, d), CacheOf(Cached(m, sh, call).0.caches, d));
            && (Flushes(m.core, call, walk) ==> cache' == [])
            && (!Flushes(m.core, call, walk) && !(call.Sends? && call.receiver == Some(d)) ==> cache' == cache)
  {
    if call.Adds? || call.Replaces? || call.Exchanges? {
      FlushedCaches(m, sh, call, d, walk);
    } else if call.Allocates? || call.Loads? {
      KnownCache(m, sh, call, d);
    } else {
      QuietCache(m, sh, call, d);
    }
  }

  /** After a send that has an answer, the class of the receiver has that answer cached, if it has a
      cache. */
  lemma SendIsCached(m: Memory, sh: Shape, receiver: Option<Cid>, sel: Selector)
    requires Valid(m, sh) && Contract(m.core, sh, Sends(receiver, sel))
    requires receiver.Some? && receiver.value in m.caches
    ensures var (m', out) := Cached(m, sh, Sends(receiver, sel));
            out.Answer? && receiver.value in m'.caches && CacheLookup(m'.caches[receiver.value], sel) == out.imp
  {
    SendRemembers(m, receiver.value, Line(sh, receiver.value), sel);
  }

  lemma LoadMakesCaches(img: Image, lay: Layout, ca: Caches, done: seq<Cid>, d: Cid)
    requires ImageOk(img, lay) && Complete(img, done) && d in img.classes
    ensures d in CachesAfter(img, lay, ca, done) && CachesAfter(img, lay, ca, done)[d] == []
  {
    CompletePatchesAll(img, lay, done);
    AllConverted(img, lay, ca, done);
  }

  /** The structs that come in have caches of their own. */
  lemma NewcomersHaveCaches(m: Memory, sh: Shape, call: Call, d: Cid)
    requires Valid(m, sh) && Contract(m.core, sh, call) && d !in m.core.classes
    ensures var m' := Cached(m, sh, call).0; d in m'.core.classes ==> d in m'.caches && m'.caches[d] == []
  {
    if call.Allocates? {
      NewClassIsNew(m.core, sh);
      AllocateNew(m.core, call.superclass, call.name);
    } else if call.Loads? {
      var img := ModuleOf(m.core, sh, call);
      if d in img.classes {
        LoadMakesCaches(img, call.lay, m.caches, Listed(call.section), d);
      }
    } else {
      StepRefines(m, sh, call);
      NoNewcomers(m.core, sh, call);
    }
  }
}
