/**
  What the operations on classes return, and the structs, entries and caches they leave, said of
  the tables that result.
*/
module Outcomes {
  import opened Options
  import opened Selectors
  import opened ClassTypes
  import opened ClassForest
  import opened Dispatch
  import opened CacheCoherence
  import opened MetaChains
  import opened DispatchRuns

  // ---------------------------------------------------------------- methods of a class

  /** `class_getInstanceMethod` finds the first entry of the class itself and never one of an
      ancestor. */
  lemma GetMethodIsOwn(co: Core, sh: Shape, c: Cid, sel: Selector)
    requires CoreOk(co, sh) && c in co.classes
    ensures GetMethod(co, None, sel) == None
    ensures var e := GetMethod(co, Some(c), sel);
            && FirstMatch(co.entries, ChainOf(co.methods, c), sel, e)
            && (e.None? <==> forall x :: x in ChainOf(co.methods, c) ==> !Matches(co.entries, x, sel))
            && (e.Some? ==> e.value in co.entries && SelEq(co.entries[e.value].sel, sel) && e.value.cls == c)
  {
    assert ClassOk(co, c);
    FindInFirst(co.entries, ChainOf(co.methods, c), sel);
    FindInFinds(co.entries, ChainOf(co.methods, c), sel);
  }

  /** A replacement returns the IMP that the first matching entry had, and gives that entry, and no
      other, the new one.  Lists, selectors and types stay. */
  lemma ReplaceReturnsOld(co: Core, sh: Shape, c: Cid, sel: Selector, imp: Imp, types: string, k: nat)
    requires CoreOk(co, sh) && c in co.classes && k < |ChainOf(co.methods, c)|
    requires Matches(co.entries, ChainOf(co.methods, c)[k], sel)
    requires forall j :: 0 <= j < k ==> !Matches(co.entries, ChainOf(co.methods, c)[j], sel)
    ensures c in co.methods
    ensures var ((co', previous), e) := (ReplaceMethod(co, c, sel, imp, types), ChainOf(co.methods, c)[k]);
            && previous == Some(co.entries[e].imp)
            && e in co'.entries && co'.entries[e] == MethodEntry(co.entries[e].sel, imp, co.entries[e].types)
            && co'.entries.Keys == co.entries.Keys
            && (forall x :: x in co.entries && x != e ==> co'.entries[x] == co.entries[x])
            && co'.methods == co.methods && co'.classes == co.classes && co'.registry == co.registry
  {
    var chain := ChainOf(co.methods, c);
    assert ClassOk(co, c);
    FindInFirst(co.entries, chain, sel);
    FindInFinds(co.entries, chain, sel);
    var e := FindIn(co.entries, chain, sel);
    assert chain[k] in chain;
    var i :| 0 <= i < |chain| && chain[i] == e.value && Matches(co.entries, chain[i], sel)
             && forall j :: 0 <= j < i ==> !Matches(co.entries, chain[j], sel);
    assert i == k;
  }

  /** A replacement of what the class does not have returns nothing and adds the method, as it was
      given. */
  lemma ReplaceAddsAbsent(co: Core, sh: Shape, c: Cid, sel: Selector, imp: Imp, types: string)
    requires CoreOk(co, sh) && c in co.classes
    requires forall e :: e in ChainOf(co.methods, c) ==> !Matches(co.entries, e, sel)
    ensures c in co.methods
    ensures var (co', previous) := ReplaceMethod(co, c, sel, imp, types);
            var e := GetMethod(co', Some(c), sel);
            && previous == None && e.Some? && e.value !in co.entries
            && co'.entries.Keys == co.entries.Keys + {e.value}
            && co'.entries[e.value] == MethodEntry(sel, imp, types)
            && (forall x :: x in co.entries ==> co'.entries[x] == co.entries[x])
            && forall b :: b in co.methods && b != c ==> b in co'.methods && co'.methods[b] == co.methods[b]
  {
    assert ClassOk(co, c);
    FindInFinds(co.entries, ChainOf(co.methods, c), sel);
    NewEntryIsNew(co, c);
    AddFindHere(co, c, sel, imp, types, sel);
  }

  /** Whether or not the class had the method, a second replacement returns the IMP of the first. */
  lemma ReplaceTwice(co: Core, sh: Shape, c: Cid, sel: Selector, imp: Imp, types: string, imp': Imp, types': string)
    requires CoreOk(co, sh) && c in co.classes
    ensures c in co.methods
    ensures var co' := ReplaceMethod(co, c, sel, imp, types).0;
            c in co'.classes && c in co'.methods && ReplaceMethod(co', c, sel, imp', types').1 == Some(imp)
  {
    assert ClassOk(co, c);
    var chain := ChainOf(co.methods, c);
    var co' := ReplaceMethod(co, c, sel, imp, types).0;
    FindInFinds(co.entries, chain, sel);
    if FindOwn(co.methods, co.entries, c, sel).Some? {
      forall e | e in chain
        ensures Matches(co.entries, e, sel) <==> Matches(co'.entries, e, sel)
      {
      }
      FindInSame(co.entries, co'.entries, chain, sel);
    } else {
      ReplaceAddsAbsent(co, sh, c, sel, imp, types);
    }
  }

  // ---------------------------------------------------------------- new classes

  /** The two structs that an allocation makes. */
  lemma AllocatedStructs(co: Core, sh: Shape, superclass: Option<Cid>, name: string)
    requires CoreOk(co, sh) && MayAllocate(co, superclass)
    ensures var (co', c) := Allocate(co, superclass, name);
            && c in co'.classes && c !in co.classes
            && var k := co'.classes[c];
               && k.name == name && !k.meta && !k.registered && k.superClass == superclass
               && k.instanceSize
                  == (if superclass.Some? then co.classes[superclass.value].instanceSize else OBJECT_SIZE)
               && k.isa.Some? && k.isa.value in co'.classes && k.isa.value !in co.classes
               && var mk := co'.classes[k.isa.value];
                  && mk.name == name && mk.meta && !mk.registered && mk.isa == None && mk.instanceSize == CLASS_SIZE
                  && mk.superClass == (if superclass.Some? then co.classes[superclass.value].isa else None)
                  && co'.classes.Keys == co.classes.Keys + {c, k.isa.value}
  {
    NewClassIsNew(co, sh);
  }

  /** All of `b` is as it was, but for the head of its subclass list if it is the superclass of a
      new class. */
  predicate LeftAlone(co: Core, co': Core, b: Cid, superclass: Option<Cid>) {
    && b in co.classes && b in co'.classes && b in co.methods && b in co'.methods
    && co'.methods[b] == co.methods[b]
    && co'.classes[b] == co.classes[b].(subclassList := co'.classes[b].subclassList)
    && (superclass != Some(b) ==> co'.classes[b] == co.classes[b])
  }

  lemma AllocateLeavesRest(co: Core, sh: Shape, superclass: Option<Cid>, name: string, b: Cid)
    requires CoreOk(co, sh) && MayAllocate(co, superclass)
    ensures var co' := Allocate(co, superclass, name).0;
            && co'.registry == co.registry && co'.entries == co.entries
            && (b in co.classes ==> LeftAlone(co, co', b, superclass))
            && (b in co'.classes && b !in co.classes ==> b in co'.methods && co'.methods[b] == [])
  {
    NewClassIsNew(co, sh);
  }

  /** The new structs have empty caches, and no other cache changes. */
  lemma AllocateMakesCaches(m: Memory, superclass: Option<Cid>, name: string, b: Cid)
    requires m.core.next !in m.core.classes && m.core.next + 1 !in m.core.classes && MayAllocate(m.core, superclass)
    requires b in Allocate(m.core, superclass, name).0.classes
    ensures var ca' := CachesAfterAllocate(m);
            if b in m.core.classes then (b in ca' <==> b in m.caches) && CacheOf(ca', b) == CacheOf(m.caches, b)
            else b in ca' && ca'[b] == []
  {
    AllocateNew(m.core, superclass, name);
  }

  /** A class that is allocated under a name and registered is found under that name, and every
      other name as before. */
  lemma AllocateThenRegister(co: Core, sh: Shape, superclass: Option<Cid>, name: string, n: string)
    requires CoreOk(co, sh) && MayAllocate(co, superclass)
    ensures var (co1, c) := Allocate(co, superclass, name);
            && c in co1.classes
            && GetClass(RegisterPair(co1, c), n) == if n == name then Some(c) else GetClass(co, n)
  {
    AllocatedStructs(co, sh, superclass, name);
    var (co1, c) := Allocate(co, superclass, name);
    RegisterMakesKnown(co1, c, n);
  }

  /** A name finds a class if and only if that is a registered class of the name. */
  lemma GetClassIsExact(co: Core, sh: Shape, name: string, c: Cid)
    requires CoreOk(co, sh)
    ensures GetClass(co, name) == Some(c) <==> c in co.classes && co.classes[c].registered && co.classes[c].name == name
  {
    if c in co.classes {
      assert ClassOk(co, c);
    }
    if name in co.registry {
      assert co.registry[name] in co.classes;
    }
  }

  // ---------------------------------------------------------------- flushes

  /** An addition empties the caches of the class and of what is below it, if it is registered and
      lacked the method, and no other cache. */
  lemma AddFlushes(m: Memory, sh: Shape, c: Cid, sel: Selector, d: Cid, walk: seq<Cid>)
    requires Valid(m, sh) && c in m.core.classes && d in m.core.classes && !m.core.classes[d].meta
    requires Walks(m.core.classes, Some(d), walk)
    ensures var absent := forall e :: e in ChainOf(m.core.methods, c) ==> !Matches(m.core.entries, e, sel);
            CacheOf(CachesAfterAdd(m, sh, c, sel), d)
            == if absent && m.core.classes[c].registered && c in walk then [] else CacheOf(m.caches, d)
    ensures CachesAfterAdd(m, sh, c, sel).Keys == m.caches.Keys
  {
    FlushSetIsInverse(m.core.classes, sh, c, d, walk);
    FindInFinds(m.core.entries, ChainOf(m.core.methods, c), sel);
  }

  /** So does a replacement, registered or not, if the class had the method. */
  lemma ReplaceFlushes(m: Memory, sh: Shape, c: Cid, sel: Selector, d: Cid, walk: seq<Cid>)
    requires Valid(m, sh) && c in m.core.classes && d in m.core.classes && !m.core.classes[d].meta
    requires Walks(m.core.classes, Some(d), walk)
    ensures var absent := forall e :: e in ChainOf(m.core.methods, c) ==> !Matches(m.core.entries, e, sel);
            CacheOf(CachesAfterReplace(m, sh, c, sel), d)
            == if (absent ==> m.core.classes[c].registered) && c in walk then [] else CacheOf(m.caches, d)
    ensures CachesAfterReplace(m, sh, c, sel).Keys == m.caches.Keys
  {
    FlushSetIsInverse(m.core.classes, sh, c, d, walk);
    FindInFinds(m.core.entries, ChainOf(m.core.methods, c), sel);
  }

  /** An exchange empties the caches of what is below a registered class, itself included. */
  lemma ExchangeFlushes(m: Memory, sh: Shape, d: Cid, walk: seq<Cid>)
    requires Valid(m, sh) && d in m.core.classes && !m.core.classes[d].meta && Walks(m.core.classes, Some(d), walk)
    ensures CacheOf(CachesAfterExchange(m, sh), d)
            == if exists r :: r in walk && r in m.core.classes && m.core.classes[r].registered then []
               else CacheOf(m.caches, d)
    ensures CachesAfterExchange(m, sh).Keys == m.caches.Keys
  {
    LineIsWalk(m.core.classes, sh, d);
    WalkUnique(m.core.classes, m.core.classes, Some(d), walk, Line(sh, d));
    LineMembers(m.core.classes, sh, d);
    forall r | r in walk
      ensures m.core.classes[r].registered <==> r in m.core.registry.Values
    {
      assert ClassOk(m.core, r);
    }
  }

  // ---------------------------------------------------------------- sends

  /** A send whose walk finds something leaves an answer to that selector in the cache, the one it
      gave; it touches no other cache, and none if it finds nothing. */
  lemma SendRemembers(m: Memory, c: Cid, walk: seq<Cid>, sel: Selector)
    requires c in m.caches
    ensures var (m', imp) := SendOn(m, c, walk, sel);
            && m'.core == m.core && m'.caches.Keys == m.caches.Keys
            && CacheLookup(m'.caches[c], sel) == imp
            && (imp.None? || CacheLookup(m.caches[c], sel).Some? ==> m' == m)
            && (forall d :: d in m.caches && d != c ==> m'.caches[d] == m.caches[d])
  {
    if CacheLookup(m.caches[c], sel).None? {
      var imp := LookupAlong(m.core.methods, m.core.entries, walk, sel);
      if imp.Some? {
        InsertedIsFound(m.caches[c], sel, imp.value, sel);
      }
    }
  }

  // ---------------------------------------------------------------- every call

  /** `e` is the first entry that matches in the nearest class of a walk that has one. */
  ghost predicate FirstAlong(co: Core, walk: seq<Cid>, sel: Selector, e: Option<Eid>) {
    if e.None? then forall k :: 0 <= k < |walk| ==> FirstMatch(co.entries, ChainOf(co.methods, walk[k]), sel, None)
    else exists k :: 0 <= k < |walk| && FirstMatch(co.entries, ChainOf(co.methods, walk[k]), sel, e)
                     && forall j :: 0 <= j < k ==> FirstMatch(co.entries, ChainOf(co.methods, walk[j]), sel, None)
  }

  /** A message answers the IMP of the first entry along the walk, from the class of the receiver. */
  ghost predicate AnswersAlongWalk(co: Core, from: Option<Cid>, sel: Selector, imp: Option<Imp>) {
    exists walk, e :: Walks(co.classes, from, walk) && FirstAlong(co, walk, sel, e) && imp == ImpOf(co.entries, e)
  }

  lemma WalkAnswers(co: Core, from: Option<Cid>, walk: seq<Cid>, sel: Selector)
    requires Walks(co.classes, from, walk)
    ensures AnswersAlongWalk(co, from, sel, LookupAlong(co.methods, co.entries, walk, sel))
  {
    var e := FindAlong(co.methods, co.entries, walk, sel);
    FindAlongFirst(co.methods, co.entries, walk, sel);
    forall k | 0 <= k < |walk|
      ensures FirstMatch(co.entries, ChainOf(co.methods, walk[k]), sel, FindOwn(co.methods, co.entries, walk[k], sel))
    {
      FindInFirst(co.entries, ChainOf(co.methods, walk[k]), sel);
    }
    assert FirstAlong(co, walk, sel, e);
  }

  /** What a call of the runtime without caches is to return. */
  ghost predicate RightOutcome(co: Core, sh: Shape, call: Call, out: Outcome) {
    match call
    case Allocates(_, name) => out.NewPair? && out.c !in co.classes
    case Registers(_) => out == Nothing
    case Adds(c, sel, _, _) => out == DidAdd(forall e :: e in ChainOf(co.methods, c) ==> !Matches(co.entries, e, sel))
    case Replaces(c, sel, _, _) =>
      exists e :: FirstMatch(co.entries, ChainOf(co.methods, c), sel, e) && out == OldImp(ImpOf(co.entries, e))
    case Exchanges(_, _) => out == Nothing
    case Loads(_, _, _, _, _) => out == Nothing
    case GetsMethod(cls, sel) =>
      out.Handle? && if cls.None? then out.e == None
                     else FirstMatch(co.entries, ChainOf(co.methods, cls.value), sel, out.e)
    case GetsClass(name) =>
      out.Class? && forall c ::
        out.cls == Some(c) <==> c in co.classes && co.classes[c].registered && co.classes[c].name == name
    case Sends(receiver, sel) => out.Answer? && AnswersAlongWalk(co, receiver, sel, out.imp)
    case MessagesClass(c, sel) =>
      c in co.classes && out.Answer? && AnswersAlongWalk(co, co.classes[c].isa, sel, out.imp)
  }

  lemma MessageOutcome(co: Core, sh: Shape, call: Call)
    requires CoreOk(co, sh) && Contract(co, sh, call) && (call.Sends? || call.MessagesClass?)
    ensures RightOutcome(co, sh, call, Plain(co, sh, call).1)
  {
    if call.Sends? {
      if call.receiver.Some? {
        assert ClassOk(co, call.receiver.value);
        LineIsWalk(co.classes, sh, call.receiver.value);
        WalkAnswers(co, call.receiver, Line(sh, call.receiver.value), call.sel);
      } else {
        WalkAnswers(co, None, [], call.sel);
      }
    } else {
      ClassWalkEnds(co.classes, sh, call.c);
      WalkAnswers(co, co.classes[call.c].isa, ClassWalk(co.classes, sh, call.c), call.sel);
    }
  }

  lemma MethodOutcome(co: Core, sh: Shape, call: Call)
    requires CoreOk(co, sh) && Contract(co, sh, call) && (call.Adds? || call.Replaces? || call.GetsMethod?)
    ensures RightOutcome(co, sh, call, Plain(co, sh, call).1)
  {
    var c := if call.GetsMethod? then call.cls else Some(call.c);
    if c.Some? {
      FindInFirst(co.entries, ChainOf(co.methods, c.value), call.sel);
      FindInFinds(co.entries, ChainOf(co.methods, c.value), call.sel);
    }
  }

  lemma ClassOutcome(co: Core, sh: Shape, call: Call)
    requires CoreOk(co, sh) && Contract(co, sh, call) && (call.Allocates? || call.GetsClass?)
    ensures RightOutcome(co, sh, call, Plain(co, sh, call).1)
  {
    if call.Allocates? {
      NewClassIsNew(co, sh);
    } else {
      forall c
        ensures GetClass(co, call.name) == Some(c)
                <==> c in co.classes && co.classes[c].registered && co.classes[c].name == call.name
      {
        GetClassIsExact(co, sh, call.name, c);
      }
    }
  }

  /** Every call returns that.  With caches so does every call but a message to a class, which does
      if no stale hit is left (`ClassMessages`). */
  lemma CallOutcome(m: Memory, sh: Shape, call: Call)
    requires Valid(m, sh) && Contract(m.core, sh, call)
    ensures RightOutcome(m.core, sh, call, Plain(m.core, sh, call).1)
    ensures !call.MessagesClass? ==> RightOutcome(m.core, sh, call, Cached(m, sh, call).1)
  {
    StepRefines(m, sh, call);
    if call.Sends? || call.MessagesClass? {
      MessageOutcome(m.core, sh, call);
    } else if call.Adds? || call.Replaces? || call.GetsMethod? {
      MethodOutcome(m.core, sh, call);
    } else if call.Allocates? || call.GetsClass? {
      ClassOutcome(m.core, sh, call);
    }
  }
}
