/**
  The class runtime in the imperative form of the source: class structs updated in place, loops
  along the pointer chains, and a recursive walk down the subclass lists.
*/
module ClassRegistry {
  import opened Options
  import opened Selectors
  import opened ClassTypes
  import opened ClassForest
  import opened Dispatch
  import opened CacheCoherence
  import opened DispatchRuns
  import opened MetaChains

  // ---------------------------------------------------------------- sets of flushed classes

  function First(list: seq<Cid>, k: nat): set<Cid>
    requires k <= |list|
  {
    set d | d in list[..k]
  }

  /** The classes visited when the trees of the first `k` kids of `c` have been. */
  function Visited(sh: Shape, c: Cid, k: nat): set<Cid>
    requires k <= |Kids(sh, c)|
  {
    {c} + Under(sh, First(Kids(sh, c), k))
  }

  lemma FlushTwice(ca: Caches, a: set<Cid>, b: set<Cid>)
    ensures Flush(Flush(ca, a), b) == Flush(ca, a + b)
  {
  }

  lemma UnderNone(sh: Shape)
    ensures Under(sh, {}) == {}
  {
  }

  lemma UnderOneMore(sh: Shape, roots: set<Cid>, r: Cid)
    ensures Under(sh, roots + {r}) == Under(sh, roots) + Descendants(sh, r)
  {
    forall d | d in sh.line
      ensures d in Under(sh, roots + {r}) <==> d in Under(sh, roots) || d in Descendants(sh, r)
    {
      if d in Descendants(sh, r) {
        assert r in roots + {r} && r in sh.line[d];
      }
      if x :| x in roots && x in sh.line[d] {
        assert x in roots + {r} && x in sh.line[d];
      }
    }
  }

  /** Clearing the cache of the class itself is the start of a flush. */
  lemma FlushStarts(ca: Caches, sh: Shape, c: Cid)
    ensures (if c in ca then ca[c := []] else ca) == Flush(ca, Visited(sh, c, 0))
  {
    assert First(Kids(sh, c), 0) == {};
    UnderNone(sh);
  }

  lemma VisitedNext(sh: Shape, c: Cid, k: nat)
    requires k < |Kids(sh, c)|
    ensures Visited(sh, c, k + 1) == Visited(sh, c, k) + Descendants(sh, Kids(sh, c)[k])
  {
    var kids := Kids(sh, c);
    assert kids[..k + 1] == kids[..k] + [kids[k]];
    assert First(kids, k + 1) == First(kids, k) + {kids[k]};
    UnderOneMore(sh, First(kids, k), kids[k]);
  }

  /** Flushing the tree of the next kid. */
  lemma FlushGoesOn(ca: Caches, sh: Shape, c: Cid, k: nat)
    requires k < |Kids(sh, c)|
    ensures Flush(Flush(ca, Visited(sh, c, k)), Descendants(sh, Kids(sh, c)[k])) == Flush(ca, Visited(sh, c, k + 1))
  {
    VisitedNext(sh, c, k);
    FlushTwice(ca, Visited(sh, c, k), Descendants(sh, Kids(sh, c)[k]));
  }

  lemma VisitedEnd(cs: Classes, sh: Shape, c: Cid)
    requires Forest(cs, sh) && c in cs
    ensures Visited(sh, c, |Kids(sh, c)|) == Descendants(sh, c)
  {
    assert First(Kids(sh, c), |Kids(sh, c)|) == KidSet(sh, c);
    forall d
      ensures d in Visited(sh, c, |Kids(sh, c)|) <==> d in Descendants(sh, c)
    {
      BelowIsUnder(cs, sh, c, d);
    }
  }

  lemma KidStep(cs: Classes, sh: Shape, c: Cid, k: nat)
    requires Forest(cs, sh) && c in cs && k < |Kids(sh, c)|
    ensures var d := Kids(sh, c)[k];
            && d in cs && cs[d].siblingClass == At(Kids(sh, c), k + 1)
            && Descendants(sh, d) < Descendants(sh, c)
  {
    assert KidsOk(cs, sh, c);
    KidsTreeShrinks(cs, sh, c, Kids(sh, c)[k]);
  }

  // ---------------------------------------------------------------- the runtime

  class Runtime {
    var classes: Classes
    var methods: Methods
    var entries: Entries
    var registry: Registry
    var next: nat
    var caches: Caches
    ghost var shape: Shape

    function Contents(): Memory
      reads this
    {
      Memory(Core(classes, methods, entries, registry, next), caches)
    }

    ghost predicate Ok()
      reads this
    {
      Valid(Contents(), shape)
    }

    constructor ()
      ensures Ok() && Contents() == EMPTY_MEMORY
    {
      classes, methods, entries, registry, next, caches := map[], map[], map[], map[], 0, map[];
      shape := EMPTY_SHAPE;
      new;
      EmptyIsValid();
    }

    // -- method lists

    method FindInList(list: seq<Eid>, sel: Selector) returns (e: Option<Eid>)
      requires forall x :: x in list ==> x in entries
      ensures e == FindIn(entries, list, sel)
    {
      var k := 0;
      while k < |list|
        invariant k <= |list|
        invariant FindIn(entries, list, sel) == FindIn(entries, list[k..], sel)
      {
        if SelEq(entries[list[k]].sel, sel) {
          return Some(list[k]);
        }
        k := k + 1;
      }
      return None;
    }

    method FindMethodInChain(c: Cid, sel: Selector) returns (e: Option<Eid>)
      requires c in methods && forall x :: x in ChainOf(methods, c) ==> x in entries
      ensures e == FindOwn(methods, entries, c, sel)
    {
      var chain := methods[c];
      var k := 0;
      while k < |chain|
        invariant k <= |chain|
        invariant FindIn(entries, Flat(chain), sel) == FindIn(entries, Flat(chain[k..]), sel)
        invariant forall x :: x in Flat(chain[k..]) ==> x in entries
      {
        assert Flat(chain[k..]) == chain[k] + Flat(chain[k..][1..]);
        assert chain[k..][1..] == chain[k + 1..];
        FindInConcat(entries, chain[k], Flat(chain[k + 1..]), sel);
        e := FindInList(chain[k], sel);
        if e.Some? {
          return;
        }
        k := k + 1;
      }
      return None;
    }

    method GetInstanceMethod(cls: Option<Cid>, sel: Selector) returns (e: Option<Eid>)
      requires Ok() && Contract(Contents().core, shape, GetsMethod(cls, sel))
      ensures (Contents(), Handle(e)) == Cached(Contents(), shape, GetsMethod(cls, sel))
    {
      if cls.None? {
        return None;
      }
      assert ClassOk(Contents().core, cls.value);
      e := FindMethodInChain(cls.value, sel);
    }

    method GetClass(name: string) returns (cls: Option<Cid>)
      ensures (Contents(), Class(cls)) == Cached(Contents(), shape, GetsClass(name))
    {
      if name in registry {
        return Some(registry[name]);
      }
      return None;
    }

    // -- caches

    method CacheFind(c: Cid, sel: Selector) returns (imp: Option<Imp>)
      requires c in caches
      ensures imp == CacheLookup(caches[c], sel)
    {
      var k := 0;
      while k < |caches[c]|
        invariant k <= |caches[c]|
        invariant CacheLookup(caches[c], sel) == CacheLookup(caches[c][k..], sel)
      {
        if SelEq(caches[c][k].sel, sel) {
          return Some(caches[c][k].imp);
        }
        k := k + 1;
      }
      return None;
    }

    method CacheFill(c: Cid, sel: Selector, imp: Imp)
      requires c in caches
      modifies `caches
      ensures caches == old(caches)[c := CacheInsert(old(caches)[c], sel, imp)]
    {
      var present := CacheFind(c, sel);
      if present.Some? {
        assert caches == old(caches)[c := old(caches)[c]];
        return;
      }
      if |caches[c]| == CACHE_CAPACITY {
        caches := caches[c := []];
      }
      caches := caches[c := caches[c] + [CacheEntry(sel, imp)]];
      assert [] + [CacheEntry(sel, imp)] == [CacheEntry(sel, imp)];
    }

    /** Clears the caches of the class and of the classes below it, and no others. */
    method FlushClassCacheTree(c: Cid)
      requires Forest(classes, shape) && c in classes
      modifies `caches
      ensures caches == Flush(old(caches), Descendants(shape, c))
      decreases Descendants(shape, c)
    {
      if c in caches {
        caches := caches[c := []];
      }
      FlushStarts(old(caches), shape, c);
      assert KidsOk(classes, shape, c);
      var sub := classes[c].subclassList;
      ghost var k := 0;
      while sub.Some?
        invariant k <= |Kids(shape, c)| && sub == At(Kids(shape, c), k)
        invariant caches == Flush(old(caches), Visited(shape, c, k))
        decreases |Kids(shape, c)| - k
      {
        KidStep(classes, shape, c, k);
        FlushGoesOn(old(caches), shape, c, k);
        FlushClassCacheTree(sub.value);
        sub := classes[sub.value].siblingClass;
        k := k + 1;
      }
      VisitedEnd(classes, shape, c);
    }

    method FlushAllCaches()
      requires Forest(classes, shape) && registry.Values <= classes.Keys
      modifies `caches
      ensures caches == Flush(old(caches), Under(shape, registry.Values))
    {
      var rest := registry.Values;
      ghost var done: set<Cid> := {};
      UnderNone(shape);
      FlushNothing(caches);
      while rest != {}
        invariant done + rest == registry.Values
        invariant caches == Flush(old(caches), Under(shape, done))
        decreases rest
      {
        var c :| c in rest;
        UnderOneMore(shape, done, c);
        FlushTwice(old(caches), Under(shape, done), Descendants(shape, c));
        FlushClassCacheTree(c);
        rest, done := rest - {c}, done + {c};
      }
      assert done == registry.Values;
    }

    // -- classes

    /** Fills in the two structs and puts the class in front of its superclass's subclass list. */
    method CreatePair(superclass: Option<Cid>, name: string) returns (c: Cid)
      requires superclass.Some? ==> superclass.value in classes
      requires next !in classes && next + 1 !in classes
      modifies `classes, `methods, `caches, `next
      ensures (Contents().core, c) == Allocate(old(Contents().core), superclass, name)
      ensures caches == CachesAfterAllocate(old(Contents()))
    {
      var size, metaSuper := OBJECT_SIZE, None;
      if superclass.Some? {
        size, metaSuper := classes[superclass.value].instanceSize, classes[superclass.value].isa;
      }
      var meta := next;
      classes := classes[meta := ObjcClass(None, metaSuper, name, true, false, CLASS_SIZE, None, None)];
      c := next + 1;
      classes := classes[c := ObjcClass(Some(meta), superclass, name, false, false, size, None, None)];
      methods := methods[meta := []][c := []];
      caches := caches[meta := []][c := []];
      next := next + 2;
      if superclass.Some? {
        var first := classes[superclass.value].subclassList;
        classes := classes[c := classes[c].(siblingClass := first)];
        classes := classes[superclass.value := classes[superclass.value].(subclassList := Some(c))];
      }
      assert classes == Allocate(old(Contents().core), superclass, name).0.classes;
    }

    method AllocateClassPair(superclass: Option<Cid>, name: string) returns (c: Cid)
      requires Ok() && Contract(Contents().core, shape, Allocates(superclass, name))
      modifies this
      ensures (Contents(), NewPair(c)) == Cached(old(Contents()), old(shape), Allocates(superclass, name))
      ensures shape == ShapeAfter(old(Contents().core), old(shape), Allocates(superclass, name)) && Ok()
    {
      ghost var m := Contents();
      NewClassIsNew(m.core, shape);
      c := CreatePair(superclass, name);
      StepRefines(m, shape, Allocates(superclass, name));
      shape := SproutOf(m.core, shape, superclass);
    }

    method RegisterClassPair(c: Cid)
      requires Ok() && Contract(Contents().core, shape, Registers(c))
      modifies this
      ensures Contents() == Cached(old(Contents()), old(shape), Registers(c)).0
      ensures shape == old(shape) && Ok()
    {
      StepRefines(Contents(), shape, Registers(c));
      registry := registry[classes[c].name := c];
      classes := classes[c := classes[c].(registered := true)];
    }

    /** For a class that the loader has put in place. */
    method RegisterLoadedClass(c: Cid)
      requires c in classes
      modifies `registry, `classes
      ensures registry == old(registry)[old(classes)[c].name := c]
      ensures classes == MarkRegistered(old(classes), c)
    {
      registry := registry[classes[c].name := c];
      classes := classes[c := classes[c].(registered := true)];
    }

    // -- methods

    /** The entry goes to the end of the head list, which is created if there is none. */
    method AppendToHead(c: Cid, e: Eid)
      requires c in methods
      modifies `methods
      ensures methods == old(methods)[c := Extended(old(methods)[c], e, false)]
    {
      if methods[c] == [] {
        methods := methods[c := [[]]];
        assert methods[c][0] + [e] == [e];
      }
      methods := methods[c := [methods[c][0] + [e]] + methods[c][1..]];
    }

    method AddMethod(c: Cid, sel: Selector, imp: Imp, types: string) returns (added: bool)
      requires Ok() && Contract(Contents().core, shape, Adds(c, sel, imp, types))
      modifies this
      ensures (Contents(), DidAdd(added)) == Cached(old(Contents()), old(shape), Adds(c, sel, imp, types))
      ensures shape == old(shape) && Ok()
    {
      ghost var m := Contents();
      assert ClassOk(m.core, c);
      var present := FindMethodInChain(c, sel);
      if present.Some? {
        return false;
      }
      var e := Added(c, next);
      entries := entries[e := MethodEntry(sel, imp, types)];
      next := next + 1;
      if classes[c].registered {
        methods := methods[c := [[e]] + methods[c]];
        FlushClassCacheTree(c);
      } else {
        AppendToHead(c, e);
      }
      assert (Contents(), DidAdd(true)) == Cached(m, shape, Adds(c, sel, imp, types));
      StepRefines(m, shape, Adds(c, sel, imp, types));
      return true;
    }

    method ReplaceMethod(c: Cid, sel: Selector, imp: Imp, types: string) returns (previous: Option<Imp>)
      requires Ok() && Contract(Contents().core, shape, Replaces(c, sel, imp, types))
      modifies this
      ensures (Contents(), OldImp(previous)) == Cached(old(Contents()), old(shape), Replaces(c, sel, imp, types))
      ensures shape == old(shape) && Ok()
    {
      ghost var m := Contents();
      assert ClassOk(m.core, c);
      var e := FindMethodInChain(c, sel);
      if e.Some? {
        FindInFinds(entries, ChainOf(methods, c), sel);
        previous := Some(entries[e.value].imp);
        entries := entries[e.value := entries[e.value].(imp := imp)];
        FlushClassCacheTree(c);
        assert (Contents(), OldImp(previous)) == Cached(m, shape, Replaces(c, sel, imp, types));
        StepRefines(m, shape, Replaces(c, sel, imp, types));
      } else {
        var _ := AddMethod(c, sel, imp, types);
        previous := None;
      }
    }

    method ExchangeImplementations(e1: Eid, e2: Eid)
      requires Ok() && Contract(Contents().core, shape, Exchanges(e1, e2))
      modifies this
      ensures Contents() == Cached(old(Contents()), old(shape), Exchanges(e1, e2)).0
      ensures shape == old(shape) && Ok()
    {
      ghost var m := Contents();
      var imp := entries[e1].imp;
      entries := entries[e1 := entries[e1].(imp := entries[e2].imp)];
      entries := entries[e2 := entries[e2].(imp := imp)];
      FlushAllCaches();
      assert Contents() == Cached(m, shape, Exchanges(e1, e2)).0;
      StepRefines(m, shape, Exchanges(e1, e2));
    }

    // -- sends

    /** Searches the class and then its ancestors, along the superclass links, whatever they
        are: classes or metaclasses. */
    method ClassLookupMethod(c: Cid, sel: Selector, ghost walk: seq<Cid>) returns (imp: Option<Imp>)
      requires Walks(classes, Some(c), walk)
      requires forall b :: b in walk ==> b in methods && forall e :: e in ChainOf(methods, b) ==> e in entries
      ensures imp == LookupAlong(methods, entries, walk, sel)
    {
      var cur := Some(c);
      ghost var rest := walk;
      while cur.Some?
        invariant Walks(classes, cur, rest)
        invariant forall b :: b in rest ==> b in methods && forall e :: e in ChainOf(methods, b) ==> e in entries
        invariant LookupAlong(methods, entries, walk, sel) == LookupAlong(methods, entries, rest, sel)
        decreases |rest|
      {
        FindInFinds(entries, ChainOf(methods, rest[0]), sel);
        var e := FindMethodInChain(cur.value, sel);
        if e.Some? {
          return Some(entries[e.value].imp);
        }
        cur := classes[cur.value].superClass;
        rest := rest[1..];
      }
      return None;
    }

    /** A send to an instance of `c`, or to the class whose metaclass is `c`: the cache first, then
        the walk, whose result fills the cache. */
    method LookupVia(c: Cid, sel: Selector, ghost walk: seq<Cid>) returns (imp: Option<Imp>)
      requires Walks(classes, Some(c), walk)
      requires forall b :: b in walk ==> b in methods && forall e :: e in ChainOf(methods, b) ==> e in entries
      modifies `caches
      ensures (Contents(), imp) == SendOn(old(Contents()), c, walk, sel)
    {
      if c in caches {
        imp := CacheFind(c, sel);
        if imp.Some? {
          return;
        }
      }
      imp := ClassLookupMethod(c, sel, walk);
      if imp.Some? && c in caches {
        CacheFill(c, sel, imp.value);
      }
    }

    /** A message to an instance, or to nil. */
    method MsgLookup(receiver: Option<Cid>, sel: Selector) returns (imp: Option<Imp>)
      requires Ok() && Contract(Contents().core, shape, Sends(receiver, sel))
      modifies this
      ensures (Contents(), Answer(imp)) == Cached(old(Contents()), old(shape), Sends(receiver, sel))
      ensures shape == old(shape) && Ok()
    {
      StepRefines(Contents(), shape, Sends(receiver, sel));
      if receiver.None? {
        return None;
      }
      var c := receiver.value;
      assert ClassOk(Contents().core, c);
      LineIsWalk(classes, shape, c);
      LineMembers(classes, shape, c);
      WalkIsReadable(Contents().core, shape, Line(shape, c));
      imp := LookupVia(c, sel, Line(shape, c));
    }

    /** A message to the class `c`, whatever its ancestors are. */
    method MsgLookupClass(c: Cid, sel: Selector) returns (imp: Option<Imp>)
      requires Ok() && Contract(Contents().core, shape, MessagesClass(c, sel))
      modifies this
      ensures (Contents(), Answer(imp)) == Cached(old(Contents()), old(shape), MessagesClass(c, sel))
      ensures shape == old(shape) && Ok()
    {
      StepRefines(Contents(), shape, MessagesClass(c, sel));
      ghost var walk := ClassWalk(classes, shape, c);
      ClassWalkEnds(classes, shape, c);
      WalkInside(classes, classes[c].isa, walk);
      WalkIsReadable(Contents().core, shape, walk);
      assert PairOk(classes, shape, c);
      imp := LookupVia(classes[c].isa.value, sel, walk);
    }
  }
}
