/**
  Loading a section, at any time, keeps the invariant of dispatch and changes no answer that was
  given before; the order of the section shows only in the order of siblings.
*/
module LoaderOrder {
  import opened Options
  import opened Selectors
  import opened ClassTypes
  import opened ClassForest
  import opened Dispatch
  import opened CacheCoherence
  import opened LoaderImage
  import opened LoaderStep
  import opened LoaderLaws

  // ---------------------------------------------------------------- the tables

  lemma AllPatched(img: Image, lay: Layout, done: seq<Cid>, b: Cid)
    requires ImageOk(img, lay) && Complete(img, done) && b in img.classes
    ensures Patched(img, lay, done, b)
  {
    if img.classes[b].meta {
      assert MetaImageOk(img, lay, b);
    }
  }

  ghost predicate AllArePatched(img: Image, lay: Layout, done: seq<Cid>) {
    forall b :: b in img.classes ==> Patched(img, lay, done, b)
  }

  lemma CompletePatchesAll(img: Image, lay: Layout, done: seq<Cid>)
    requires ImageOk(img, lay) && Complete(img, done)
    ensures AllArePatched(img, lay, done)
  {
    forall b | b in img.classes
      ensures Patched(img, lay, done, b)
    {
      AllPatched(img, lay, done, b);
    }
  }

  lemma MethodsConverted(img: Image, lay: Layout, done: seq<Cid>)
    requires AllArePatched(img, lay, done)
    ensures MethodsAfter(img, lay, done) == img.core.methods + map b | b in img.classes :: Converted(img, b)
  {
  }

  lemma CachesCreated(img: Image, lay: Layout, ca: Caches, done: seq<Cid>)
    requires AllArePatched(img, lay, done)
    ensures CachesAfter(img, lay, ca, done) == ca + map b | b in img.classes :: []
  {
  }

  lemma EntriesConverted(img: Image, lay: Layout, done: seq<Cid>)
    requires AllArePatched(img, lay, done) && img.lists.Keys <= img.classes.Keys
    ensures EntriesAfter(img, lay, done) == img.core.entries
            + map e | e in CompiledEntries(img) :: img.lists[e.cls][e.n]
  {
    assert forall e :: e in CompiledEntries(img) ==> Patched(img, lay, done, e.cls) by {
      forall e | e in CompiledEntries(img)
        ensures Patched(img, lay, done, e.cls)
      {
        InCompiled(img, e);
      }
    }
  }

  /** In the end the tables do not depend on the order. */
  lemma AllConverted(img: Image, lay: Layout, ca: Caches, done: seq<Cid>)
    requires AllArePatched(img, lay, done) && img.lists.Keys <= img.classes.Keys
    ensures MethodsAfter(img, lay, done) == img.core.methods + map b | b in img.classes :: Converted(img, b)
    ensures CachesAfter(img, lay, ca, done) == ca + map b | b in img.classes :: []
    ensures EntriesAfter(img, lay, done) == img.core.entries
            + map e | e in CompiledEntries(img) :: img.lists[e.cls][e.n]
  {
    MethodsConverted(img, lay, done);
    CachesCreated(img, lay, ca, done);
    EntriesConverted(img, lay, done);
  }

  /** The method lists of a compiled class hold its compiled entries, in order. */
  lemma ConvertedFlat(img: Image, b: Cid)
    ensures var n := if b in img.lists then |img.lists[b]| else 0;
            |Flat(Converted(img, b))| == n && forall k :: 0 <= k < n ==> Flat(Converted(img, b))[k] == Compiled(b, k)
  {
    if b in img.lists && img.lists[b] != [] {
      FlatOne(Converted(img, b)[0]);
    }
  }

  /** The registry has the classes loaded, each under its own name, and keeps the others. */
  lemma {:induction false} RegistryHolds(img: Image, lay: Layout, done: seq<Cid>)
    requires ImageOk(img, lay) && Loadable(img, done)
    ensures var r := RegistryAfter(img, done);
            && (forall c :: c in done ==> img.classes[c].name in r && r[img.classes[c].name] == c)
            && (forall n :: n in img.core.registry ==> n in r && r[n] == img.core.registry[n])
            && (forall n :: n in r && n !in img.core.registry ==> r[n] in done && img.classes[r[n]].name == n)
  {
    if done != [] {
      var front, last := done[..|done| - 1], done[|done| - 1];
      RegistryHolds(img, lay, front);
      assert done == front + [last];
      assert FreshIn(img, last);
      forall c | c in front
        ensures img.classes[c].name != img.classes[last].name
      {
        assert SameName(img.classes[c], img.classes[last]) ==> c == last;
      }
    }
  }

  // ---------------------------------------------------------------- the invariant of dispatch

  lemma NewClassOk(img: Image, lay: Layout, done: seq<Cid>, b: Cid)
    requires ImageOk(img, lay) && Complete(img, done) && b in img.classes
    ensures ClassOk(CoreAfter(img, lay, done), b)
  {
    AllPatched(img, lay, done, b);
    RegistryHolds(img, lay, done);
    ConvertedFlat(img, b);
    assert FreshIn(img, b);
    forall e | e in Flat(Converted(img, b))
      ensures e in EntriesAfter(img, lay, done) && e.cls == b
    {
      EntryAfter(img, lay, done, e);
    }
    if img.classes[b].meta {
      assert MetaImageOk(img, lay, b);
    }
  }

  /** The entries of a class that was there are found as before. */
  lemma KnownEntry(img: Image, lay: Layout, done: seq<Cid>, e: Eid)
    requires ImageOk(img, lay) && e in img.core.entries
    ensures e in EntriesAfter(img, lay, done) && EntriesAfter(img, lay, done)[e] == img.core.entries[e]
  {
    EntryAfter(img, lay, done, e);
    assert EntryOk(img.core, e);
    assert e.cls in img.classes ==> FreshIn(img, e.cls);
  }

  lemma KnownMethods(img: Image, lay: Layout, done: seq<Cid>, b: Cid)
    requires ImageOk(img, lay) && b in img.core.classes
    ensures b in img.core.methods && b in MethodsAfter(img, lay, done)
    ensures MethodsAfter(img, lay, done)[b] == img.core.methods[b]
  {
    assert b in img.classes ==> FreshIn(img, b);
  }

  lemma KnownClassOk(img: Image, lay: Layout, done: seq<Cid>, b: Cid)
    requires ImageOk(img, lay) && Complete(img, done) && b in img.core.classes
    ensures ClassOk(CoreAfter(img, lay, done), b)
  {
    assert ClassOk(img.core, b);
    KnownStays(img, lay, done, b);
    KnownMethods(img, lay, done, b);
    RegistryHolds(img, lay, done);
    forall e | e in ChainOf(img.core.methods, b)
      ensures e in EntriesAfter(img, lay, done)
    {
      KnownEntry(img, lay, done, e);
    }
  }

  lemma LoadedClassesOk(img: Image, lay: Layout, done: seq<Cid>)
    requires ImageOk(img, lay) && Complete(img, done)
    ensures ClassesOk(CoreAfter(img, lay, done))
  {
    var co := CoreAfter(img, lay, done);
    forall b | b in co.classes
      ensures ClassOk(co, b)
    {
      if b in img.classes {
        NewClassOk(img, lay, done, b);
      } else {
        KnownClassOk(img, lay, done, b);
      }
    }
  }

  lemma LoadedPair(img: Image, lay: Layout, done: seq<Cid>, b: Cid)
    requires ImageOk(img, lay) && Complete(img, done) && b in All(img)
    ensures PairOk(ClassesAfter(img, lay, done), LoadedShape(img, lay, done), b)
  {
    if All(img)[b].meta {
      LoadedMetaPair(img, lay, done, b);
    } else {
      ClassIsLinked(img, lay, b);
      IsaAround(img, lay, done, b);
      LoadedMetaLinked(img, lay, done, b);
      LoadedFlag(img, lay, done, IsaOf(img, Some(b)).value);
    }
  }

  /** Loading leaves a struct what it is, a class or a metaclass. */
  lemma LoadedFlag(img: Image, lay: Layout, done: seq<Cid>, b: Cid)
    requires ImageOk(img, lay) && Complete(img, done) && b in All(img)
    ensures ClassesAfter(img, lay, done)[b].meta == All(img)[b].meta
  {
    if All(img)[b].meta {
      MetaSuperInside(img, lay, done, b);
    } else {
      IsaAround(img, lay, done, b);
    }
  }

  lemma LoadedMetaPair(img: Image, lay: Layout, done: seq<Cid>, b: Cid)
    requires ImageOk(img, lay) && Complete(img, done) && b in All(img) && All(img)[b].meta
    ensures PairOk(ClassesAfter(img, lay, done), LoadedShape(img, lay, done), b)
  {
    MetaIsOwned(img, lay, b);
    IsaAround(img, lay, done, Owner(img, lay, b).value);
    MetaSuperInside(img, lay, done, b);
  }

  /** Metaclasses are linked above each other as their classes are, loaded ones too. */
  lemma LoadedMetaLinked(img: Image, lay: Layout, done: seq<Cid>, c: Cid)
    requires ImageOk(img, lay) && Complete(img, done) && c in All(img) && !All(img)[c].meta
    ensures IsaOf(img, Some(c)).Some? && IsaOf(img, Some(c)).value in All(img)
    ensures MetaLinked(ClassesAfter(img, lay, done), c, IsaOf(img, Some(c)).value)
  {
    ClassIsLinked(img, lay, c);
    IsaAround(img, lay, done, c);
    var mt, up := IsaOf(img, Some(c)).value, SuperOf(img, c);
    if up.Some? {
      ClassIsLinked(img, lay, up.value);
    }
    if c in img.classes {
      MetaLinks(img, lay, done, c, mt);
    } else {
      assert PairOk(img.core.classes, img.shape, c);
      KnownStays(img, lay, done, c);
      KnownStays(img, lay, done, mt);
      if up.Some? {
        KnownStays(img, lay, done, up.value);
      }
    }
  }

  lemma MetaSuperInside(img: Image, lay: Layout, done: seq<Cid>, b: Cid)
    requires ImageOk(img, lay) && Complete(img, done) && b in All(img) && All(img)[b].meta
    ensures var s := ClassesAfter(img, lay, done)[b].superClass; s.Some? ==> s.value in All(img)
    ensures ClassesAfter(img, lay, done)[b].meta
  {
    if b in img.classes {
      assert MetaImageOk(img, lay, b);
      var c := lay.owner[b];
      ClassIsLinked(img, lay, c);
      MetaLinks(img, lay, done, c, b);
      if SuperOf(img, c).Some? {
        ClassIsLinked(img, lay, SuperOf(img, c).value);
      }
    } else {
      KnownStays(img, lay, done, b);
      assert PairOk(img.core.classes, img.shape, b);
    }
  }

  lemma LoadedPairs(img: Image, lay: Layout, done: seq<Cid>)
    requires ImageOk(img, lay) && Complete(img, done)
    ensures PairsOk(ClassesAfter(img, lay, done), LoadedShape(img, lay, done))
  {
    forall b | b in ClassesAfter(img, lay, done)
      ensures PairOk(ClassesAfter(img, lay, done), LoadedShape(img, lay, done), b)
    {
      LoadedPair(img, lay, done, b);
    }
  }

  lemma NewKidExtends(img: Image, lay: Layout, done: seq<Cid>, b: Cid, d: Cid)
    requires ImageOk(img, lay) && Loadable(img, done) && d in NewKids(img, done, b)
    ensures MayExtend(img, b)
  {
    NewKidIsLoaded(img, done, b, d);
    assert ClassImageOk(img, lay, d);
  }

  /** A class that is not registered gets no subclasses. */
  lemma NoNewKids(img: Image, lay: Layout, done: seq<Cid>, b: Cid)
    requires ImageOk(img, lay) && Loadable(img, done) && !MayExtend(img, b)
    ensures NewKids(img, done, b) == []
  {
    if NewKids(img, done, b) != [] {
      NewKidExtends(img, lay, done, b, NewKids(img, done, b)[0]);
    }
  }

  lemma KnownLeaf(img: Image, lay: Layout, done: seq<Cid>, b: Cid)
    requires ImageOk(img, lay) && Loadable(img, done) && b in img.core.classes
    requires !img.core.classes[b].meta && !img.core.classes[b].registered
    ensures Kids(LoadedShape(img, lay, done), b) == []
  {
    KnownStays(img, lay, done, b);
    assert LeafOk(img.core, img.shape, b);
    NoNewKids(img, lay, done, b);
    LoadedLines(img, lay, done, b);
  }

  lemma LoadedIsRegistered(img: Image, lay: Layout, done: seq<Cid>, b: Cid)
    requires Complete(img, done) && b in img.classes && !img.classes[b].meta
    ensures ClassesAfter(img, lay, done)[b].registered
  {
  }

  lemma LoadedLeaf(img: Image, lay: Layout, done: seq<Cid>, b: Cid)
    requires ImageOk(img, lay) && Complete(img, done) && b in All(img)
    ensures LeafOk(CoreAfter(img, lay, done), LoadedShape(img, lay, done), b)
  {
    if b !in img.classes {
      KnownStays(img, lay, done, b);
      if !img.core.classes[b].meta && !img.core.classes[b].registered {
        KnownLeaf(img, lay, done, b);
      }
    } else if img.classes[b].meta {
      assert MetaImageOk(img, lay, b);
    } else {
      LoadedIsRegistered(img, lay, done, b);
    }
  }

  lemma LoadedLeaves(img: Image, lay: Layout, done: seq<Cid>)
    requires ImageOk(img, lay) && Complete(img, done)
    ensures LeavesOk(CoreAfter(img, lay, done), LoadedShape(img, lay, done))
  {
    forall b | b in All(img)
      ensures LeafOk(CoreAfter(img, lay, done), LoadedShape(img, lay, done), b)
    {
      LoadedLeaf(img, lay, done, b);
    }
  }

  lemma LoadedEntries(img: Image, lay: Layout, done: seq<Cid>)
    requires ImageOk(img, lay) && Complete(img, done)
    ensures EntriesOk(CoreAfter(img, lay, done))
  {
    var co := CoreAfter(img, lay, done);
    forall e | e in co.entries
      ensures EntryOk(co, e)
    {
      EntryAfter(img, lay, done, e);
      assert e in img.core.entries ==> EntryOk(img.core, e);
    }
  }

  lemma RegisteredUnder(img: Image, lay: Layout, done: seq<Cid>, n: string)
    requires ImageOk(img, lay) && Complete(img, done) && n in RegistryAfter(img, done)
    ensures var c := RegistryAfter(img, done)[n];
            c in All(img) && ClassesAfter(img, lay, done)[c].registered && ClassesAfter(img, lay, done)[c].name == n
  {
    RegistryHolds(img, lay, done);
    if n in img.core.registry {
      assert img.core.registry[n] in img.core.classes;
      KnownStays(img, lay, done, img.core.registry[n]);
    }
  }

  lemma LoadedRegistry(img: Image, lay: Layout, done: seq<Cid>)
    requires ImageOk(img, lay) && Complete(img, done)
    ensures RegistryOk(CoreAfter(img, lay, done))
  {
    var co := CoreAfter(img, lay, done);
    forall n | n in co.registry
      ensures co.registry[n] in co.classes && co.classes[co.registry[n]].registered
      ensures co.classes[co.registry[n]].name == n
    {
      RegisteredUnder(img, lay, done, n);
    }
  }

  lemma LoadedKeys(img: Image, lay: Layout, done: seq<Cid>)
    requires AllArePatched(img, lay, done) && img.core.methods.Keys == img.core.classes.Keys
    ensures MethodsAfter(img, lay, done).Keys == ClassesAfter(img, lay, done).Keys
  {
  }

  lemma LoadedCore(img: Image, lay: Layout, done: seq<Cid>)
    requires ImageOk(img, lay) && Complete(img, done)
    ensures CoreOk(CoreAfter(img, lay, done), LoadedShape(img, lay, done))
  {
    CompletePatchesAll(img, lay, done);
    LoadedKeys(img, lay, done);
    LoadedForest(img, lay, done);
    LoadedClassesOk(img, lay, done);
    LoadedPairs(img, lay, done);
    LoadedEntries(img, lay, done);
    LoadedRegistry(img, lay, done);
    LoadedLeaves(img, lay, done);
  }

  // ---------------------------------------------------------------- the caches

  /** The answers of the classes that were there do not change: new classes come in below them. */
  lemma LoadingKeepsAnswers(img: Image, lay: Layout, done: seq<Cid>, d: Cid, s: Selector)
    requires ImageOk(img, lay) && Complete(img, done) && d in img.core.classes
    ensures SlowLookup(CoreAfter(img, lay, done), LoadedShape(img, lay, done), d, s)
            == SlowLookup(img.core, img.shape, d, s)
  {
    KnownStays(img, lay, done, d);
    LoadedLines(img, lay, done, d);
    LineMembers(img.core.classes, img.shape, d);
    AnswersAlongKnown(img, lay, done, Line(img.shape, d), s);
  }

  lemma AnswersAlongKnown(img: Image, lay: Layout, done: seq<Cid>, line: seq<Cid>, s: Selector)
    requires ImageOk(img, lay) && forall b :: b in line ==> b in img.core.classes
    ensures LookupAlong(MethodsAfter(img, lay, done), EntriesAfter(img, lay, done), line, s)
            == LookupAlong(img.core.methods, img.core.entries, line, s)
  {
    var ms, es := MethodsAfter(img, lay, done), EntriesAfter(img, lay, done);
    forall b | b in line
      ensures FindOwn(ms, es, b, s) == FindOwn(img.core.methods, img.core.entries, b, s)
    {
      OwnFoundKnown(img, lay, done, b, s);
    }
    FindAlongSame(img.core.methods, img.core.entries, ms, es, line, s);
    var e := FindAlong(img.core.methods, img.core.entries, line, s);
    if e.Some? {
      forall b | b in line
        ensures ClassOk(img.core, b)
      {
      }
      FoundInOwner(img.core, line, s);
      KnownEntry(img, lay, done, e.value);
    }
  }

  lemma OwnFoundKnown(img: Image, lay: Layout, done: seq<Cid>, b: Cid, s: Selector)
    requires ImageOk(img, lay) && b in img.core.classes
    ensures FindOwn(MethodsAfter(img, lay, done), EntriesAfter(img, lay, done), b, s)
            == FindOwn(img.core.methods, img.core.entries, b, s)
  {
    KnownMethods(img, lay, done, b);
    assert ClassOk(img.core, b);
    forall e | e in ChainOf(img.core.methods, b)
      ensures Matches(img.core.entries, e, s) <==> Matches(EntriesAfter(img, lay, done), e, s)
    {
      KnownEntry(img, lay, done, e);
    }
    FindInSame(img.core.entries, EntriesAfter(img, lay, done), ChainOf(img.core.methods, b), s);
  }

  lemma LoadingGrows(img: Image, lay: Layout, done: seq<Cid>)
    requires ImageOk(img, lay) && Complete(img, done)
    ensures Grows(img.core, img.shape, CoreAfter(img, lay, done), LoadedShape(img, lay, done))
  {
    var co', sh' := CoreAfter(img, lay, done), LoadedShape(img, lay, done);
    forall d | d in img.core.classes
      ensures Kept(img.core, img.shape, co', sh', d)
    {
      KnownStays(img, lay, done, d);
      forall s
        ensures SlowLookup(co', sh', d, s) == SlowLookup(img.core, img.shape, d, s)
      {
        LoadingKeepsAnswers(img, lay, done, d, s);
      }
    }
  }

  lemma LoadedCaches(img: Image, lay: Layout, ca: Caches, done: seq<Cid>)
    requires AllArePatched(img, lay, done) && ca.Keys <= img.core.classes.Keys && img.lists.Keys <= img.classes.Keys
    requires forall b :: b in img.classes ==> b !in img.core.classes
    ensures FreshCaches(img.core, ca, CachesAfter(img, lay, ca, done))
    ensures CachesAfter(img, lay, ca, done).Keys <= All(img).Keys
  {
    AllConverted(img, lay, ca, done);
  }

  /** A section can be loaded at any time: what it leaves is again a runtime with a well-formed
      class graph and coherent caches, although no cache is flushed. */
  lemma LoadedIsValid(img: Image, lay: Layout, ca: Caches, done: seq<Cid>)
    requires ImageOk(img, lay) && Complete(img, done) && Valid(Memory(img.core, ca), img.shape)
    ensures Valid(After(img, lay, ca, done), LoadedShape(img, lay, done))
  {
    LoadedCore(img, lay, done);
    LoadingGrows(img, lay, done);
    CompletePatchesAll(img, lay, done);
    forall b | b in img.classes
      ensures b !in img.core.classes
    {
      assert FreshIn(img, b);
    }
    LoadedCaches(img, lay, ca, done);
    GrowthKeepsCoherent(Memory(img.core, ca), img.shape, After(img, lay, ca, done), LoadedShape(img, lay, done));
  }

  // ---------------------------------------------------------------- order independence

  predicate SameButSiblings(a: ObjcClass, b: ObjcClass) {
    a == b.(subclassList := a.subclassList, siblingClass := a.siblingClass)
  }

  lemma SameRegistry(img: Image, lay: Layout, done: seq<Cid>, done': seq<Cid>)
    requires ImageOk(img, lay) && Complete(img, done) && Complete(img, done')
    ensures RegistryAfter(img, done') == RegistryAfter(img, done)
  {
    RegistryHolds(img, lay, done);
    RegistryHolds(img, lay, done');
    var r, r' := RegistryAfter(img, done), RegistryAfter(img, done');
    forall n
      ensures n in r ==> n in r' && r'[n] == r[n]
      ensures n in r' ==> n in r
    {
    }
  }

  lemma SameStructs(img: Image, lay: Layout, done: seq<Cid>, done': seq<Cid>, b: Cid)
    requires ImageOk(img, lay) && Complete(img, done) && Complete(img, done') && b in All(img)
    ensures SameButSiblings(StructAfter(img, lay, done', b), StructAfter(img, lay, done, b))
  {
    if b !in img.classes {
      KnownStays(img, lay, done, b);
      KnownStays(img, lay, done', b);
    } else if img.classes[b].meta {
      assert MetaImageOk(img, lay, b);
    }
  }

  /** Two orders of loading give the same structs but for the sibling order, and the same method
      lists, caches and registry. */
  lemma OrderLeavesNoTrace(img: Image, lay: Layout, ca: Caches, done: seq<Cid>, done': seq<Cid>)
    requires ImageOk(img, lay) && Complete(img, done) && Complete(img, done')
    ensures var m, m' := After(img, lay, ca, done), After(img, lay, ca, done');
            && m'.core.methods == m.core.methods && m'.core.entries == m.core.entries && m'.caches == m.caches
            && m'.core.registry == m.core.registry && m'.core.next == m.core.next
            && m'.core.classes.Keys == m.core.classes.Keys
            && forall b :: b in m.core.classes ==> SameButSiblings(m'.core.classes[b], m.core.classes[b])
  {
    CompletePatchesAll(img, lay, done);
    CompletePatchesAll(img, lay, done');
    AllConverted(img, lay, ca, done);
    AllConverted(img, lay, ca, done');
    SameRegistry(img, lay, done, done');
    assert forall b :: b in All(img) ==>
        SameButSiblings(StructAfter(img, lay, done', b), StructAfter(img, lay, done, b)) by {
      forall b | b in All(img)
        ensures SameButSiblings(StructAfter(img, lay, done', b), StructAfter(img, lay, done, b))
      {
        SameStructs(img, lay, done, done', b);
      }
    }
  }

  lemma MetasMembers(img: Image, list: seq<Cid>, b: Cid)
    requires HaveMetas(img, list)
    ensures b in Metas(img, list) <==> exists k :: k in list && IsaOf(img, Some(k)) == Some(b)
  {
    MetasAt(img, list);
    if k :| k in list && IsaOf(img, Some(k)) == Some(b) {
      var i :| 0 <= i < |list| && list[i] == k;
      assert Metas(img, list)[i] == b;
    }
  }

  lemma SameKids(img: Image, lay: Layout, done: seq<Cid>, done': seq<Cid>, b: Cid, d: Cid)
    requires ImageOk(img, lay) && Complete(img, done) && Complete(img, done') && b in All(img)
    ensures d in LoadedKids(img, lay, done, b) <==> d in LoadedKids(img, lay, done', b)
  {
    if All(img)[b].meta {
      MetaIsOwned(img, lay, b);
      var c := Owner(img, lay, b).value;
      NewKidsMembers(img, done, c);
      NewKidsMembers(img, done', c);
      ClassesHaveMetas(img, lay, NewKids(img, done, c));
      ClassesHaveMetas(img, lay, NewKids(img, done', c));
      MetasMembers(img, NewKids(img, done, c), d);
      MetasMembers(img, NewKids(img, done', c), d);
    } else {
      NewKidsMembers(img, done, b);
      NewKidsMembers(img, done', b);
    }
  }

  /** Each class and metaclass has the same subclasses: the subclass lists, read off the pointers,
      have the same members. */
  lemma SameSubclasses(img: Image, lay: Layout, done: seq<Cid>, done': seq<Cid>, b: Cid, list: seq<Cid>,
      list': seq<Cid>, d: Cid)
    requires ImageOk(img, lay) && Complete(img, done) && Complete(img, done') && b in All(img)
    requires Threads(ClassesAfter(img, lay, done), ClassesAfter(img, lay, done)[b].subclassList, list)
    requires Threads(ClassesAfter(img, lay, done'), ClassesAfter(img, lay, done')[b].subclassList, list')
    ensures d in list <==> d in list'
  {
    PointersGiveKids(img, lay, done, b, list);
    PointersGiveKids(img, lay, done', b, list');
    SameKids(img, lay, done, done', b, d);
  }

  lemma PointersGiveKids(img: Image, lay: Layout, done: seq<Cid>, b: Cid, list: seq<Cid>)
    requires ImageOk(img, lay) && Complete(img, done) && b in All(img)
    requires Threads(ClassesAfter(img, lay, done), ClassesAfter(img, lay, done)[b].subclassList, list)
    ensures list == LoadedKids(img, lay, done, b)
  {
    var cs, sh := ClassesAfter(img, lay, done), LoadedShape(img, lay, done);
    LoadedForest(img, lay, done);
    LoadedLines(img, lay, done, b);
    assert KidsOk(cs, sh, b);
    OneThread(cs, cs[b].subclassList, list, Kids(sh, b));
  }

  /** Every lookup, in a class or a metaclass, has the same result. */
  lemma SameLookups(img: Image, lay: Layout, done: seq<Cid>, done': seq<Cid>, b: Cid, walk: seq<Cid>,
      walk': seq<Cid>, sel: Selector)
    requires ImageOk(img, lay) && Complete(img, done) && Complete(img, done')
    requires Walks(ClassesAfter(img, lay, done), Some(b), walk) && Walks(ClassesAfter(img, lay, done'), Some(b), walk')
    ensures LookupAlong(MethodsAfter(img, lay, done'), EntriesAfter(img, lay, done'), walk', sel)
            == LookupAlong(MethodsAfter(img, lay, done), EntriesAfter(img, lay, done), walk, sel)
  {
    OrderLeavesNoTrace(img, lay, map[], done, done');
    var cs, cs' := ClassesAfter(img, lay, done), ClassesAfter(img, lay, done');
    forall x | x in cs && x in cs'
      ensures cs'[x].superClass == cs[x].superClass
    {
      assert SameButSiblings(StructAfter(img, lay, done', x), StructAfter(img, lay, done, x)) by {
        SameStructs(img, lay, done, done', x);
      }
    }
    WalkUnique(cs, cs', Some(b), walk, walk');
  }
}
