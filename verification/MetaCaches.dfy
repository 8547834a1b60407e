/**
  Messages to class objects, whose class is a metaclass.  The source keeps no subclass list for
  the metaclasses it allocates, and links the metaclass of a root class to the root class without
  putting it on its list, so not every cache that a change concerns is flushed.  Here is exactly
  when a cache of any class or metaclass still agrees with its walk.
*/
module MetaCaches {
  import opened Options
  import opened Selectors
  import opened ClassTypes
  import opened ClassForest
  import opened Dispatch
  import opened CacheCoherence

  /** Every cached pair is what a walk finds. */
  predicate CoherentOn(co: Core, cache: seq<CacheEntry>, walk: seq<Cid>) {
    forall x :: x in cache ==> LookupAlong(co.methods, co.entries, walk, x.sel) == Some(x.imp)
  }

  predicate SeesOn(co: Core, walk: seq<Cid>, c: Cid, sel: Selector) {
    c in walk && FindAlong(co.methods, co.entries, Before(walk, c), sel).None?
  }

  function FlushedCache(cache: seq<CacheEntry>, flushed: bool): seq<CacheEntry> {
    if flushed then [] else cache
  }

  /** As long as the cache agrees with the walk, a send answers what the walk answers, and the
      cache agrees with the walk afterwards. */
  lemma SendAlong(m: Memory, c: Cid, walk: seq<Cid>, sel: Selector)
    requires CoherentOn(m.core, CacheOf(m.caches, c), walk)
    ensures var (m', imp) := SendOn(m, c, walk, sel);
            && imp == LookupAlong(m.core.methods, m.core.entries, walk, sel)
            && m'.core == m.core && CoherentOn(m.core, CacheOf(m'.caches, c), walk)
  {
    var cache := CacheOf(m.caches, c);
    CacheLookupFinds(cache, sel);
    if CacheLookup(cache, sel).Some? {
      var k :| 0 <= k < |cache| && SelEq(cache[k].sel, sel) && CacheLookup(cache, sel) == Some(cache[k].imp);
      assert cache[k] in cache;
      FindAlongEq(m.core.methods, m.core.entries, walk, cache[k].sel, sel);
    }
  }

  /** The answers after a change that gives `imp` to those who see `sel` in `c`. */
  ghost predicate Gives(co: Core, co': Core, walk: seq<Cid>, c: Cid, sel: Selector, imp: Imp) {
    forall s :: LookupAlong(co'.methods, co'.entries, walk, s)
                == if SelEq(s, sel) && SeesOn(co, walk, c, sel) then Some(imp)
                   else LookupAlong(co.methods, co.entries, walk, s)
  }

  /** A hit that the change makes wrong. */
  predicate StaleHit(co: Core, cache: seq<CacheEntry>, walk: seq<Cid>, c: Cid, sel: Selector, imp: Imp) {
    SeesOn(co, walk, c, sel) && exists x :: x in cache && SelEq(x.sel, sel) && x.imp != imp
  }

  lemma AgreesAfter(co: Core, co': Core, cache: seq<CacheEntry>, walk: seq<Cid>, c: Cid, sel: Selector, imp: Imp)
    requires CoherentOn(co, cache, walk) && Gives(co, co', walk, c, sel, imp)
    ensures CoherentOn(co', cache, walk) <==> !StaleHit(co, cache, walk, c, sel, imp)
  {
    if StaleHit(co, cache, walk, c, sel, imp) {
      var x :| x in cache && SelEq(x.sel, sel) && x.imp != imp;
      assert LookupAlong(co'.methods, co'.entries, walk, x.sel) == Some(imp);
    } else {
      forall x | x in cache
        ensures LookupAlong(co'.methods, co'.entries, walk, x.sel) == Some(x.imp)
      {
        assert LookupAlong(co.methods, co.entries, walk, x.sel) == Some(x.imp);
      }
    }
  }

  /** A method is added to a class or metaclass.  The cache of another one, with whatever walk,
      agrees with the walk afterwards if and only if it was flushed or holds no hit for the
      selector that the walk would now find in the new place. */
  lemma AddAndCache(co: Core, sh: Shape, c: Cid, sel: Selector, imp: Imp, types: string, d: Cid,
                    walk: seq<Cid>, cache: seq<CacheEntry>)
    requires CoreOk(co, sh) && c in co.classes && FindOwn(co.methods, co.entries, c, sel).None?
    requires Walks(co.classes, Some(d), walk) && CoherentOn(co, cache, walk)
    ensures var flushed := co.classes[c].registered && d in Descendants(sh, c);
            CoherentOn(AddMethod(co, c, sel, imp, types).0, FlushedCache(cache, flushed), walk)
            <==> flushed || !StaleHit(co, cache, walk, c, sel, imp)
  {
    var co' := AddMethod(co, c, sel, imp, types).0;
    WalkInside(co.classes, Some(d), walk);
    assert ClassOk(co, c);
    forall b | b in walk
      ensures ClassOk(co, b)
    {
    }
    NewEntryIsNew(co, c);
    AddDefines(co, walk, c, sel, imp, types);
    forall s
      ensures LookupAlong(co'.methods, co'.entries, walk, s)
              == if SelEq(s, sel) && SeesOn(co, walk, c, sel) then Some(imp)
                 else LookupAlong(co.methods, co.entries, walk, s)
    {
      DefinitionSeen(co, co', walk, c, sel, Added(c, co.next), s);
    }
    AgreesAfter(co, co', cache, walk, c, sel, imp);
  }

  /** The same for a method that is replaced; the class and the threaded classes below it are
      flushed whether or not it is registered. */
  lemma ReplaceAndCache(co: Core, sh: Shape, c: Cid, sel: Selector, imp: Imp, types: string, d: Cid,
                        walk: seq<Cid>, cache: seq<CacheEntry>)
    requires CoreOk(co, sh) && c in co.classes && FindOwn(co.methods, co.entries, c, sel).Some?
    requires Walks(co.classes, Some(d), walk) && CoherentOn(co, cache, walk)
    ensures var flushed := d in Descendants(sh, c);
            CoherentOn(ReplaceMethod(co, c, sel, imp, types).0, FlushedCache(cache, flushed), walk)
            <==> flushed || !StaleHit(co, cache, walk, c, sel, imp)
  {
    var co', e := ReplaceMethod(co, c, sel, imp, types).0, FindOwn(co.methods, co.entries, c, sel).value;
    WalkInside(co.classes, Some(d), walk);
    assert ClassOk(co, c);
    forall b | b in walk
      ensures ClassOk(co, b)
    {
    }
    forall s
      ensures LookupAlong(co'.methods, co'.entries, walk, s)
              == if SelEq(s, sel) && SeesOn(co, walk, c, sel) then Some(imp)
                 else LookupAlong(co.methods, co.entries, walk, s)
    {
      NewImpSeen(co, walk, c, sel, e, imp, s);
    }
    AgreesAfter(co, co', cache, walk, c, sel, imp);
  }

  /** A hit that an exchange makes wrong: what its walk finds gets another IMP. */
  predicate ExchangedHit(co: Core, cache: seq<CacheEntry>, walk: seq<Cid>, e1: Eid, e2: Eid)
    requires e1 in co.entries && e2 in co.entries
  {
    co.entries[e1].imp != co.entries[e2].imp
    && exists x :: x in cache && FindAlong(co.methods, co.entries, walk, x.sel) in {Some(e1), Some(e2)}
  }

  /** The same for an exchange, which flushes what is under the registered classes. */
  lemma ExchangeAndCache(co: Core, sh: Shape, e1: Eid, e2: Eid, d: Cid, walk: seq<Cid>, cache: seq<CacheEntry>)
    requires e1 in co.entries && e2 in co.entries && CoherentOn(co, cache, walk)
    ensures var flushed := d in Under(sh, co.registry.Values);
            CoherentOn(Exchange(co, e1, e2), FlushedCache(cache, flushed), walk)
            <==> flushed || !ExchangedHit(co, cache, walk, e1, e2)
  {
    var co' := Exchange(co, e1, e2);
    forall x | x in cache
      ensures LookupAlong(co'.methods, co'.entries, walk, x.sel) == Some(x.imp)
              <==> !(co.entries[e1].imp != co.entries[e2].imp
                     && FindAlong(co.methods, co.entries, walk, x.sel) in {Some(e1), Some(e2)})
    {
      FindAlongSetImp(co, co'.entries, walk, x.sel);
      assert LookupAlong(co.methods, co.entries, walk, x.sel) == Some(x.imp);
    }
  }

  // ---------------------------------------------------------------- classes allocated at run time

  /** A new class answers class messages as its superclass does: its metaclass comes before those
      of the superclass's walk, without methods. */
  lemma NewMetaInherits(co: Core, sh: Shape, s: Cid, name: string, walk: seq<Cid>, sel: Selector)
    requires CoreOk(co, sh) && MayAllocate(co, Some(s)) && Walks(co.classes, co.classes[s].isa, walk)
    ensures var co' := Allocate(co, Some(s), name).0;
            && Walks(co'.classes, co'.classes[co.next + 1].isa, [co.next] + walk)
            && LookupAlong(co'.methods, co'.entries, [co.next] + walk, sel)
               == LookupAlong(co.methods, co.entries, walk, sel)
  {
    var co' := Allocate(co, Some(s), name).0;
    NewClassIsNew(co, sh);
    WalkInside(co.classes, co.classes[s].isa, walk);
    NewMetaWalk(co, s, name, walk);
    AnswersAlong(co, Some(s), name, walk, sel);
    NewMetaIsEmpty(co, s, name, sel);
    assert ([co.next] + walk)[1..] == walk;
  }

  lemma NewMetaIsEmpty(co: Core, s: Cid, name: string, sel: Selector)
    requires s in co.classes
    ensures var co' := Allocate(co, Some(s), name).0;
            FindOwn(co'.methods, co'.entries, co.next, sel) == None
  {
    var co' := Allocate(co, Some(s), name).0;
    assert co'.methods[co.next] == [];
  }

  lemma NewMetaWalk(co: Core, s: Cid, name: string, walk: seq<Cid>)
    requires co.next !in co.classes && co.next + 1 !in co.classes && s in co.classes
    requires Walks(co.classes, co.classes[s].isa, walk)
    ensures var cs' := Allocate(co, Some(s), name).0.classes;
            Walks(cs', cs'[co.next + 1].isa, [co.next] + walk)
  {
    var cs' := Allocate(co, Some(s), name).0.classes;
    WalkSame(co.classes, cs', co.classes[s].isa, walk);
    assert ([co.next] + walk)[1..] == walk;
  }

  /** So a class method of any class goes stale in every subclass allocated at run time: the first
      message caches it in the metaclass of the subclass, replacing it flushes only what is on
      subclass lists, and the walk answers otherwise from then on. */
  lemma StaleClassMethod(co: Core, sh: Shape, s: Cid, name: string, walk: seq<Cid>, sel: Selector, imp: Imp,
      types: string)
    requires CoreOk(co, sh) && MayAllocate(co, Some(s)) && co.classes[s].isa.Some?
    requires Walks(co.classes, co.classes[s].isa, walk)
    requires FindOwn(co.methods, co.entries, co.classes[s].isa.value, sel).Some?
    requires ImpOf(co.entries, FindOwn(co.methods, co.entries, co.classes[s].isa.value, sel)) != Some(imp)
    ensures var sm, mt, sh1 := co.classes[s].isa.value, co.next, SproutOf(co, sh, Some(s));
            var co1 := Allocate(co, Some(s), name).0;
            && sm in co1.classes && sm in co1.methods
            && var hit := LookupAlong(co1.methods, co1.entries, [mt] + walk, sel);
               var co2 := ReplaceMethod(co1, sm, sel, imp, types).0;
               && hit.Some? && hit != Some(imp)
               && FindOwn(co1.methods, co1.entries, sm, sel).Some? && mt !in Descendants(sh1, sm)
               && LookupAlong(co2.methods, co2.entries, [mt] + walk, sel) == Some(imp)
  {
    var sm, mt := co.classes[s].isa.value, co.next;
    var co1 := Allocate(co, Some(s), name).0;
    NewClassIsNew(co, sh);
    WalkInside(co.classes, Some(sm), walk);
    NewMetaInherits(co, sh, s, name, walk, sel);
    FoundAtOnce(co, sh, sm, walk, sel);
    AllocateOld(co, Some(s), name, sm);
    AllocateKeepsCore(co, sh, Some(s), name);
    AloneOnItsLine(co, sh, s, sm);
    assert ClassOk(co1, sm);
    SameOwn(co, sh, s, name, sm, sel);
    ReplacedBelow(co1, SproutOf(co, sh, Some(s)), mt, [mt] + walk, sm, sel, imp, types);
  }

  lemma FoundAtOnce(co: Core, sh: Shape, sm: Cid, walk: seq<Cid>, sel: Selector)
    requires CoreOk(co, sh) && sm in co.classes && Walks(co.classes, Some(sm), walk)
    requires FindOwn(co.methods, co.entries, sm, sel).Some?
    ensures walk != [] && walk[0] == sm
    ensures LookupAlong(co.methods, co.entries, walk, sel)
            == ImpOf(co.entries, FindOwn(co.methods, co.entries, sm, sel))
    ensures LookupAlong(co.methods, co.entries, walk, sel).Some?
  {
    assert ClassOk(co, sm);
    FindInFinds(co.entries, ChainOf(co.methods, sm), sel);
  }

  lemma AloneOnItsLine(co: Core, sh: Shape, s: Cid, sm: Cid)
    requires CoreOk(co, sh) && sm in co.classes && co.next !in co.classes
    ensures co.next !in Descendants(SproutOf(co, sh, Some(s)), sm)
  {
  }

  lemma SameOwn(co: Core, sh: Shape, s: Cid, name: string, sm: Cid, sel: Selector)
    requires CoreOk(co, sh) && sm in co.classes && co.next !in co.classes && co.next + 1 !in co.classes
    ensures var co1 := Allocate(co, Some(s), name).0;
            FindOwn(co1.methods, co1.entries, sm, sel) == FindOwn(co.methods, co.entries, sm, sel)
  {
    AllocateOld(co, Some(s), name, sm);
  }

  /** After the replacement the walk of a metaclass without methods finds the new IMP. */
  lemma ReplacedBelow(co: Core, sh: Shape, mt: Cid, walk: seq<Cid>, sm: Cid, sel: Selector, imp: Imp, types: string)
    requires CoreOk(co, sh) && sm in co.classes && Walks(co.classes, Some(mt), walk)
    requires |walk| >= 2 && walk[0] == mt && walk[1] == sm && mt != sm
    requires FindOwn(co.methods, co.entries, mt, sel).None? && FindOwn(co.methods, co.entries, sm, sel).Some?
    ensures sm in co.methods
    ensures var co' := ReplaceMethod(co, sm, sel, imp, types).0;
            LookupAlong(co'.methods, co'.entries, walk, sel) == Some(imp)
  {
    WalkInside(co.classes, Some(mt), walk);
    forall b | b in walk
      ensures ClassOk(co, b)
    {
    }
    assert ClassOk(co, sm);
    assert Before(walk, sm) == [mt] by {
      assert walk[1..][0] == sm;
      assert Before(walk[1..], sm) == [];
    }
    assert [mt][1..] == [];
    NewImpSeen(co, walk, sm, sel, FindOwn(co.methods, co.entries, sm, sel).value, imp, sel);
  }
}
