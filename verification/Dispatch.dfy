/**
  Message dispatch with per-class caches over a changing class graph.

  `Core` is the runtime without caches: each operation is a function on it, and a message send
  is the walk along the receiver's ancestors.  `Memory` adds the caches, with what each
  operation does to them.  A cached send answers from the cache when it can; `Coherent` says
  that this makes no difference.
*/
module Dispatch {
  import opened Options
  import opened Selectors
  import opened ClassTypes
  import opened ClassForest

  type Registry = map<string, Cid>

  /** `next` numbers the class structs and method entries allocated at run time. */
  datatype Core = Core(classes: Classes, methods: Methods, entries: Entries, registry: Registry, next: nat)

  datatype Memory = Memory(core: Core, caches: Caches)

  // ---------------------------------------------------------------- the runtime without caches

  function NewMeta(co: Core, superclass: Option<Cid>, name: string): ObjcClass {
    var super_ := if superclass.Some? && superclass.value in co.classes then co.classes[superclass.value].isa else None;
    ObjcClass(None, super_, name, true, false, CLASS_SIZE, None, None)
  }

  function NewClass(co: Core, superclass: Option<Cid>, name: string): ObjcClass {
    if superclass.Some? && superclass.value in co.classes then
      var s := co.classes[superclass.value];
      ObjcClass(Some(co.next), superclass, name, false, false, s.instanceSize, None, s.subclassList)
    else ObjcClass(Some(co.next), superclass, name, false, false, OBJECT_SIZE, None, None)
  }

  /** The metaclass gets number `next`, the class the one after it; the class goes to the front
      of its superclass's subclass list. */
  function Allocate(co: Core, superclass: Option<Cid>, name: string): (Core, Cid) {
    var c := co.next + 1;
    var cs := co.classes[co.next := NewMeta(co, superclass, name)][c := NewClass(co, superclass, name)];
    var cs' := if superclass.Some? && superclass.value in co.classes
               then cs[superclass.value := cs[superclass.value].(subclassList := Some(c))] else cs;
    (Core(cs', co.methods[co.next := []][c := []], co.entries, co.registry, co.next + 2), c)
  }

  function MarkRegistered(cs: Classes, c: Cid): Classes
    requires c in cs
  {
    cs[c := cs[c].(registered := true)]
  }

  function RegisterPair(co: Core, c: Cid): Core
    requires c in co.classes
  {
    co.(registry := co.registry[co.classes[c].name := c], classes := MarkRegistered(co.classes, c))
  }

  /** Where a new entry goes: in a list of its own at the head of the chain of a registered
      class, at the end of the head list otherwise. */
  function Extended(chain: seq<seq<Eid>>, e: Eid, registered: bool): seq<seq<Eid>> {
    if registered || chain == [] then [[e]] + chain else [chain[0] + [e]] + chain[1..]
  }

  function AddMethod(co: Core, c: Cid, sel: Selector, imp: Imp, types: string): (Core, bool)
    requires c in co.classes && c in co.methods
  {
    if FindOwn(co.methods, co.entries, c, sel).Some? then (co, false)
    else
      var e := Added(c, co.next);
      (co.(methods := co.methods[c := Extended(co.methods[c], e, co.classes[c].registered)],
           entries := co.entries[e := MethodEntry(sel, imp, types)],
           next := co.next + 1), true)
  }

  function SetImp(es: Entries, e: Eid, imp: Imp): Entries {
    if e in es then es[e := es[e].(imp := imp)] else es
  }

  function ReplaceMethod(co: Core, c: Cid, sel: Selector, imp: Imp, types: string): (Core, Option<Imp>)
    requires c in co.classes && c in co.methods
  {
    var e := FindOwn(co.methods, co.entries, c, sel);
    if e.Some? then (co.(entries := SetImp(co.entries, e.value, imp)), ImpOf(co.entries, e))
    else (AddMethod(co, c, sel, imp, types).0, None)
  }

  function Exchange(co: Core, e1: Eid, e2: Eid): Core
    requires e1 in co.entries && e2 in co.entries
  {
    co.(entries := SetImp(SetImp(co.entries, e1, co.entries[e2].imp), e2, co.entries[e1].imp))
  }

  function GetMethod(co: Core, c: Option<Cid>, sel: Selector): Option<Eid> {
    if c.None? then None else FindOwn(co.methods, co.entries, c.value, sel)
  }

  function GetClass(co: Core, name: string): Option<Cid> {
    if name in co.registry then Some(co.registry[name]) else None
  }

  function SlowLookup(co: Core, sh: Shape, c: Cid, sel: Selector): Option<Imp> {
    LookupAlong(co.methods, co.entries, Line(sh, c), sel)
  }

  // ---------------------------------------------------------------- the caches

  function Flush(ca: Caches, ds: set<Cid>): Caches {
    map d | d in ca :: if d in ds then [] else ca[d]
  }

  /** A send to a receiver whose isa is `c`, a class or a metaclass, with its walk. */
  function SendOn(m: Memory, c: Cid, walk: seq<Cid>, sel: Selector): (Memory, Option<Imp>) {
    if c in m.caches && CacheLookup(m.caches[c], sel).Some? then (m, CacheLookup(m.caches[c], sel))
    else
      var imp := LookupAlong(m.core.methods, m.core.entries, walk, sel);
      (if imp.Some? && c in m.caches
       then m.(caches := m.caches[c := CacheInsert(m.caches[c], sel, imp.value)]) else m, imp)
  }

  function CachedLookup(m: Memory, sh: Shape, c: Cid, sel: Selector): (Memory, Option<Imp>) {
    SendOn(m, c, Line(sh, c), sel)
  }

  /** `class_addMethod` flushes the class and its subclasses if the class is registered. */
  function CachesAfterAdd(m: Memory, sh: Shape, c: Cid, sel: Selector): Caches
    requires c in m.core.classes
  {
    if FindOwn(m.core.methods, m.core.entries, c, sel).Some? || !m.core.classes[c].registered then m.caches
    else Flush(m.caches, Descendants(sh, c))
  }

  function CachesAfterReplace(m: Memory, sh: Shape, c: Cid, sel: Selector): Caches
    requires c in m.core.classes
  {
    if FindOwn(m.core.methods, m.core.entries, c, sel).Some? then Flush(m.caches, Descendants(sh, c))
    else CachesAfterAdd(m, sh, c, sel)
  }

  function CachesAfterExchange(m: Memory, sh: Shape): Caches {
    Flush(m.caches, Under(sh, m.core.registry.Values))
  }

  // ---------------------------------------------------------------- invariant

  /** An entry is in the lists of a class that exists, and its number has been given out. */
  predicate EntryOk(co: Core, e: Eid) {
    e.cls in co.classes && (e.Added? ==> e.n < co.next)
  }

  predicate ClassOk(co: Core, c: Cid) {
    && c in co.classes && c in co.methods && c < co.next
    && (forall e :: e in ChainOf(co.methods, c) ==> e in co.entries && e.cls == c)
    && (co.classes[c].registered ==>
          !co.classes[c].meta && co.classes[c].name in co.registry && co.registry[co.classes[c].name] == c)
    && (!co.classes[c].registered ==> |co.methods[c]| <= 1)
  }

  /** A class that is not registered has no subclasses yet. */
  predicate LeafOk(co: Core, sh: Shape, c: Cid) {
    c in co.classes && !co.classes[c].meta && !co.classes[c].registered ==> Kids(sh, c) == []
  }

  /** The superclass of the metaclass of `c` is the metaclass of the superclass of `c`.  Above the
      metaclass of a root class there is nothing, or the root class itself if that was loaded. */
  predicate MetaLinked(cs: Classes, c: Cid, mt: Cid)
    requires c in cs && mt in cs
  {
    var up := cs[c].superClass;
    if up.Some? then up.value in cs && cs[up.value].isa.Some? && cs[mt].superClass == cs[up.value].isa
    else cs[mt].superClass == None || cs[mt].superClass == Some(c)
  }

  /** A class has a metaclass of its own; a metaclass belongs to a class. */
  predicate PairOk(cs: Classes, sh: Shape, c: Cid) {
    && c in cs
    && if cs[c].meta then
         && c in sh.owner && sh.owner[c] in cs && !cs[sh.owner[c]].meta && cs[sh.owner[c]].isa == Some(c)
         && (cs[c].superClass.Some? ==> cs[c].superClass.value in cs)
       else
         var mt := cs[c].isa;
         && mt.Some? && mt.value in cs && cs[mt.value].meta && mt.value in sh.owner && sh.owner[mt.value] == c
         && MetaLinked(cs, c, mt.value)
  }

  ghost predicate ClassesOk(co: Core) {
    forall c {:trigger ClassOk(co, c)} :: c in co.classes ==> ClassOk(co, c)
  }

  ghost predicate PairsOk(cs: Classes, sh: Shape) {
    forall c {:trigger PairOk(cs, sh, c)} :: c in cs ==> PairOk(cs, sh, c)
  }

  ghost predicate EntriesOk(co: Core) {
    forall e {:trigger EntryOk(co, e)} :: e in co.entries ==> EntryOk(co, e)
  }

  /** Every name in the registry leads to a registered class of that name. */
  ghost predicate RegistryOk(co: Core) {
    forall n {:trigger co.registry[n]} :: n in co.registry
        ==> co.registry[n] in co.classes && co.classes[co.registry[n]].registered
            && co.classes[co.registry[n]].name == n
  }

  ghost predicate LeavesOk(co: Core, sh: Shape) {
    forall c {:trigger LeafOk(co, sh, c)} :: c in co.classes ==> LeafOk(co, sh, c)
  }

  ghost predicate CoreOk(co: Core, sh: Shape) {
    && Forest(co.classes, sh)
    && co.methods.Keys == co.classes.Keys
    && ClassesOk(co)
    && PairsOk(co.classes, sh)
    && EntriesOk(co)
    && RegistryOk(co)
    && LeavesOk(co, sh)
  }

  /** The number that the next entry gets is not in use. */
  lemma NewEntryIsNew(co: Core, c: Cid)
    requires EntriesOk(co)
    ensures Added(c, co.next) !in co.entries
  {
    assert Added(c, co.next) in co.entries ==> EntryOk(co, Added(c, co.next));
  }

  /** Every cached pair is what the walk would find. */
  predicate CoherentAt(co: Core, sh: Shape, ca: Caches, c: Cid) {
    forall e :: e in CacheOf(ca, c) ==> SlowLookup(co, sh, c, e.sel) == Some(e.imp)
  }

  function CacheOf(ca: Caches, c: Cid): seq<CacheEntry> {
    if c in ca then ca[c] else []
  }

  /** On the instance side the caches agree with the walk, and classes that are not registered
      have nothing cached. */
  ghost predicate Coherent(m: Memory, sh: Shape) {
    && m.caches.Keys <= m.core.classes.Keys
    && (forall c :: c in m.caches ==> CacheOk(m.caches[c]))
    && (forall c :: c in m.core.classes && !m.core.classes[c].meta ==>
          CoherentAt(m.core, sh, m.caches, c) && (m.core.classes[c].registered || CacheOf(m.caches, c) == []))
  }

  ghost predicate Valid(m: Memory, sh: Shape) {
    CoreOk(m.core, sh) && Coherent(m, sh)
  }

  // ---------------------------------------------------------------- sends

  /** A cached send answers what the walk would answer. */
  lemma SendRefinesWalk(m: Memory, sh: Shape, c: Cid, sel: Selector)
    requires Valid(m, sh) && c in m.core.classes && m.core.classes[c].registered
    ensures CachedLookup(m, sh, c, sel).1 == SlowLookup(m.core, sh, c, sel)
  {
    assert ClassOk(m.core, c);
    var cache := CacheOf(m.caches, c);
    CacheLookupFinds(cache, sel);
    if CacheLookup(cache, sel).Some? {
      var k :| 0 <= k < |cache| && SelEq(cache[k].sel, sel) && CacheLookup(cache, sel) == Some(cache[k].imp);
      assert CoherentAt(m.core, sh, m.caches, c) && cache[k] in cache;
      FindAlongEq(m.core.methods, m.core.entries, Line(sh, c), cache[k].sel, sel);
    }
  }

  /** Filling a cache with what the walk has found keeps the caches coherent. */
  lemma SendKeepsCoherent(m: Memory, sh: Shape, c: Cid, sel: Selector)
    requires Valid(m, sh) && c in m.core.classes && m.core.classes[c].registered
    ensures CachedLookup(m, sh, c, sel).0.core == m.core && Coherent(CachedLookup(m, sh, c, sel).0, sh)
  {
    assert ClassOk(m.core, c);
    if CachedLookup(m, sh, c, sel).0 != m {
      FillKeepsCoherent(m, sh, c, sel, SlowLookup(m.core, sh, c, sel).value);
    }
  }

  /** A message to a class object touches the cache of a metaclass only, so that whatever it
      answers, everything about instances holds as before. */
  lemma ClassSendKeepsValid(m: Memory, sh: Shape, mt: Cid, walk: seq<Cid>, sel: Selector)
    requires Valid(m, sh) && mt in m.core.classes && m.core.classes[mt].meta
    ensures var m' := SendOn(m, mt, walk, sel).0;
            && m'.core == m.core && Valid(m', sh)
            && forall d :: d != mt ==> CacheOf(m'.caches, d) == CacheOf(m.caches, d)
  {
    var m' := SendOn(m, mt, walk, sel).0;
    if m' != m {
      var imp := LookupAlong(m.core.methods, m.core.entries, walk, sel).value;
      InsertKeepsCacheOk(m.caches[mt], sel, imp);
      forall d | d in m.core.classes && !m.core.classes[d].meta
        ensures CoherentAt(m.core, sh, m'.caches, d) && CacheOf(m'.caches, d) == CacheOf(m.caches, d)
      {
        assert CoherentAt(m.core, sh, m.caches, d);
      }
    }
  }

  /** The method lists of the classes on a walk can be read. */
  lemma WalkIsReadable(co: Core, sh: Shape, walk: seq<Cid>)
    requires CoreOk(co, sh) && forall b :: b in walk ==> b in co.classes
    ensures forall b :: b in walk ==> b in co.methods && forall e :: e in ChainOf(co.methods, b) ==> e in co.entries
  {
    forall b | b in walk
      ensures b in co.methods && forall e :: e in ChainOf(co.methods, b) ==> e in co.entries
    {
      assert ClassOk(co, b);
    }
  }

  lemma FillKeepsCoherent(m: Memory, sh: Shape, c: Cid, sel: Selector, imp: Imp)
    requires Coherent(m, sh) && c in m.caches && m.core.classes[c].registered && !m.core.classes[c].meta
    requires SlowLookup(m.core, sh, c, sel) == Some(imp)
    ensures Coherent(m.(caches := m.caches[c := CacheInsert(m.caches[c], sel, imp)]), sh)
  {
    var ca := m.caches[c := CacheInsert(m.caches[c], sel, imp)];
    InsertKeepsCacheOk(m.caches[c], sel, imp);
    assert CoherentAt(m.core, sh, m.caches, c);
    assert CoherentAt(m.core, sh, ca, c);
    forall d | d in m.core.classes && !m.core.classes[d].meta && d != c
      ensures CoherentAt(m.core, sh, ca, d) && CacheOf(ca, d) == CacheOf(m.caches, d)
    {
      assert CoherentAt(m.core, sh, m.caches, d);
    }
  }

  // ---------------------------------------------------------------- flushing

  /** Clearing the caches of the classes whose answers may have changed keeps coherence. */
  lemma FlushRestores(m: Memory, co': Core, sh: Shape, ds: set<Cid>)
    requires Coherent(m, sh) && co'.classes == m.core.classes
    requires forall c, sel :: c in m.core.classes && !m.core.classes[c].meta && c !in ds && CacheOf(m.caches, c) != []
               ==> SlowLookup(co', sh, c, sel) == SlowLookup(m.core, sh, c, sel)
    ensures Coherent(Memory(co', Flush(m.caches, ds)), sh)
  {
    var ca := Flush(m.caches, ds);
    forall c | c in co'.classes && !co'.classes[c].meta
      ensures CoherentAt(co', sh, ca, c) && (co'.classes[c].registered || CacheOf(ca, c) == [])
    {
      assert CoherentAt(m.core, sh, m.caches, c);
    }
  }

  // ---------------------------------------------------------------- what a change changes

  /** The part of a line before `c`. */
  function Before(line: seq<Cid>, c: Cid): seq<Cid> {
    if line == [] || line[0] == c then [] else [line[0]] + Before(line[1..], c)
  }

  /** A definition of `sel` in `c` is the one that `d` sees: `c` is an ancestor of `d`, and no
      class of the line strictly below `c` defines `sel`. */
  predicate Sees(co: Core, sh: Shape, d: Cid, c: Cid, sel: Selector) {
    c in Line(sh, d) && FindAlong(co.methods, co.entries, Before(Line(sh, d), c), sel).None?
  }

  lemma {:induction false} FindAlongAt(ms: Methods, es: Entries, line: seq<Cid>, c: Cid, sel: Selector)
    requires c in line && FindOwn(ms, es, c, sel).Some?
    ensures FindAlong(ms, es, line, sel)
            == if FindAlong(ms, es, Before(line, c), sel).Some? then FindAlong(ms, es, Before(line, c), sel)
               else FindOwn(ms, es, c, sel)
  {
    if line[0] != c {
      FindAlongAt(ms, es, line[1..], c, sel);
      assert Before(line, c)[1..] == Before(line[1..], c);
    }
  }

  lemma {:induction false} BeforeAvoids(line: seq<Cid>, c: Cid)
    ensures forall b :: b in Before(line, c) ==> b in line && b != c
  {
    if line != [] && line[0] != c {
      BeforeAvoids(line[1..], c);
    }
  }

  /** The entry a search finds, if the chains hold entries of their own classes only, is in the
      class that is named in its address. */
  lemma {:induction false} FoundInOwner(co: Core, line: seq<Cid>, sel: Selector)
    requires forall c :: c in line ==> ClassOk(co, c)
    requires FindAlong(co.methods, co.entries, line, sel).Some?
    ensures var e := FindAlong(co.methods, co.entries, line, sel).value;
            && e.cls in line && e in co.entries && SelEq(co.entries[e].sel, sel)
            && FindAlong(co.methods, co.entries, Before(line, e.cls), sel).None?
  {
    var c := line[0];
    FindInFinds(co.entries, ChainOf(co.methods, c), sel);
    assert ClassOk(co, c);
    if FindOwn(co.methods, co.entries, c, sel).None? {
      FoundInOwner(co, line[1..], sel);
      var e := FindAlong(co.methods, co.entries, line, sel).value;
      assert e.cls != c ==> Before(line, e.cls)[1..] == Before(line[1..], e.cls);
      if e.cls == c {
        assert Before(line, c) == [];
      }
    }
  }

  // -- adding

  lemma FlatOne(list: seq<Eid>)
    ensures Flat([list]) == list
  {
    assert Flat([list]) == list + Flat([]);
  }

  /** A new entry stands first, or last; for a class that is not registered, whose chain has at
      most one list, the end of the head list is the end of the chain. */
  lemma ExtendedFlat(chain: seq<seq<Eid>>, e: Eid, registered: bool)
    requires !registered ==> |chain| <= 1
    ensures Flat(Extended(chain, e, registered)) == [e] + Flat(chain)
            || Flat(Extended(chain, e, registered)) == Flat(chain) + [e]
  {
    if registered || chain == [] {
      FlatConcat([[e]], chain);
      FlatOne([e]);
    } else {
      assert chain == [chain[0]];
      FlatOne(chain[0]);
      assert Extended(chain, e, registered) == [chain[0] + [e]];
      FlatOne(chain[0] + [e]);
    }
  }

  /** A search through a list to which one entry has been added, in front or at the end. */
  lemma FindInExtended(es: Entries, ids: seq<Eid>, ids': seq<Eid>, e: Eid, s: Selector)
    requires ids' == [e] + ids || ids' == ids + [e]
    requires Matches(es, e, s) ==> FindIn(es, ids, s).None?
    ensures FindIn(es, ids', s) == if Matches(es, e, s) then Some(e) else FindIn(es, ids, s)
  {
    FindInConcat(es, [e], ids, s);
    FindInConcat(es, ids, [e], s);
  }

  /** The search in another class after an addition to class `c`. */
  lemma AddFindElsewhere(co: Core, c: Cid, sel: Selector, imp: Imp, types: string, b: Cid, s: Selector)
    requires ClassOk(co, c) && ClassOk(co, b) && b != c && Added(c, co.next) !in co.entries
    ensures var co' := AddMethod(co, c, sel, imp, types).0;
            FindOwn(co'.methods, co'.entries, b, s) == FindOwn(co.methods, co.entries, b, s)
  {
    var co' := AddMethod(co, c, sel, imp, types).0;
    FindInSame(co.entries, co'.entries, ChainOf(co.methods, b), s);
  }

  /** The search in the class itself. */
  lemma AddFindHere(co: Core, c: Cid, sel: Selector, imp: Imp, types: string, s: Selector)
    requires ClassOk(co, c) && Added(c, co.next) !in co.entries
    requires FindOwn(co.methods, co.entries, c, sel).None?
    ensures var co' := AddMethod(co, c, sel, imp, types).0;
            FindOwn(co'.methods, co'.entries, c, s)
            == if SelEq(s, sel) then Some(Added(c, co.next)) else FindOwn(co.methods, co.entries, c, s)
  {
    var e := Added(c, co.next);
    var es' := co.entries[e := MethodEntry(sel, imp, types)];
    var ids := ChainOf(co.methods, c);
    FindInSame(co.entries, es', ids, s);
    ExtendedFlat(co.methods[c], e, co.classes[c].registered);
    if SelEq(s, sel) {
      FindInEq(co.entries, ids, s, sel);
    }
    FindInExtended(es', ids, Flat(Extended(co.methods[c], e, co.classes[c].registered)), e, s);
  }

  /** `co'` finds in `c` a new entry for `sel` with the given IMP, where `co` finds none; it
      finds in every other class of the line, and for every other selector, what `co` finds. */
  ghost predicate Defines(co: Core, co': Core, line: seq<Cid>, c: Cid, sel: Selector, e: Eid) {
    && (forall s, b :: b in line ==>
          FindOwn(co'.methods, co'.entries, b, s)
          == if b == c && SelEq(s, sel) then Some(e) else FindOwn(co.methods, co.entries, b, s))
    && (forall x :: x in co.entries ==> x in co'.entries && co'.entries[x] == co.entries[x])
    && (forall b :: b in line ==> ClassOk(co, b))
  }

  lemma UnseenUnchanged(co: Core, co': Core, line: seq<Cid>, c: Cid, sel: Selector, e: Eid, s: Selector)
    requires Defines(co, co', line, c, sel, e) && !(SelEq(s, sel) && c in line)
    ensures LookupAlong(co'.methods, co'.entries, line, s) == LookupAlong(co.methods, co.entries, line, s)
  {
    FindAlongSame(co.methods, co.entries, co'.methods, co'.entries, line, s);
    FoundStays(co, co', line, s);
  }

  lemma SeenChanged(co: Core, co': Core, line: seq<Cid>, c: Cid, sel: Selector, e: Eid, s: Selector)
    requires Defines(co, co', line, c, sel, e) && SelEq(s, sel) && c in line
    ensures if FindAlong(co.methods, co.entries, Before(line, c), sel).None?
            then FindAlong(co'.methods, co'.entries, line, s) == Some(e)
            else LookupAlong(co'.methods, co'.entries, line, s) == LookupAlong(co.methods, co.entries, line, s)
  {
    var below := Before(line, c);
    BeforeAvoids(line, c);
    FindAlongSame(co.methods, co.entries, co'.methods, co'.entries, below, s);
    FindAlongEq(co.methods, co.entries, below, s, sel);
    FindAlongAt(co'.methods, co'.entries, line, c, s);
    if FindAlong(co.methods, co.entries, below, sel).Some? {
      FindAlongPrefix(co.methods, co.entries, line, c, s);
      FoundStays(co, co', below, s);
    }
  }

  lemma AddDefines(co: Core, line: seq<Cid>, c: Cid, sel: Selector, imp: Imp, types: string)
    requires ClassOk(co, c) && Added(c, co.next) !in co.entries
    requires forall b :: b in line ==> ClassOk(co, b)
    requires FindOwn(co.methods, co.entries, c, sel).None?
    ensures Defines(co, AddMethod(co, c, sel, imp, types).0, line, c, sel, Added(c, co.next))
  {
    var co' := AddMethod(co, c, sel, imp, types).0;
    forall s, b | b in line
      ensures FindOwn(co'.methods, co'.entries, b, s)
              == if b == c && SelEq(s, sel) then Some(Added(c, co.next)) else FindOwn(co.methods, co.entries, b, s)
    {
      if b == c {
        AddFindHere(co, c, sel, imp, types, s);
      } else {
        AddFindElsewhere(co, c, sel, imp, types, b, s);
      }
    }
  }

  lemma DefinitionSeen(co: Core, co': Core, line: seq<Cid>, c: Cid, sel: Selector, e: Eid, s: Selector)
    requires Defines(co, co', line, c, sel, e) && e in co'.entries
    ensures LookupAlong(co'.methods, co'.entries, line, s)
            == if SelEq(s, sel) && c in line && FindAlong(co.methods, co.entries, Before(line, c), sel).None?
               then Some(co'.entries[e].imp) else LookupAlong(co.methods, co.entries, line, s)
  {
    if SelEq(s, sel) && c in line {
      SeenChanged(co, co', line, c, sel, e, s);
    } else {
      UnseenUnchanged(co, co', line, c, sel, e, s);
    }
  }

  /** Adding `sel` to `c` gives the new IMP to the classes that see it there, and changes no
      other answer. */
  lemma AddChangeSet(co: Core, sh: Shape, c: Cid, sel: Selector, imp: Imp, types: string, d: Cid, s: Selector)
    requires CoreOk(co, sh) && c in co.classes && d in co.classes
    requires FindOwn(co.methods, co.entries, c, sel).None?
    ensures var co' := AddMethod(co, c, sel, imp, types).0;
            SlowLookup(co', sh, d, s)
            == if SelEq(s, sel) && Sees(co, sh, d, c, sel) then Some(imp) else SlowLookup(co, sh, d, s)
  {
    LineMembers(co.classes, sh, d);
    NewEntryIsNew(co, c);
    AddDefines(co, Line(sh, d), c, sel, imp, types);
    DefinitionSeen(co, AddMethod(co, c, sel, imp, types).0, Line(sh, d), c, sel, Added(c, co.next), s);
  }

  lemma {:induction false} FindAlongPrefix(ms: Methods, es: Entries, line: seq<Cid>, c: Cid, sel: Selector)
    requires FindAlong(ms, es, Before(line, c), sel).Some?
    ensures FindAlong(ms, es, line, sel) == FindAlong(ms, es, Before(line, c), sel)
  {
    if FindOwn(ms, es, line[0], sel).None? {
      assert Before(line, c)[1..] == Before(line[1..], c);
      FindAlongPrefix(ms, es, line[1..], c, sel);
    }
  }

  lemma FoundStays(co: Core, co': Core, line: seq<Cid>, s: Selector)
    requires forall c :: c in line ==> ClassOk(co, c)
    requires forall e :: e in co.entries ==> e in co'.entries && co'.entries[e] == co.entries[e]
    ensures ImpOf(co'.entries, FindAlong(co.methods, co.entries, line, s))
            == LookupAlong(co.methods, co.entries, line, s)
  {
    if FindAlong(co.methods, co.entries, line, s).Some? {
      FoundInOwner(co, line, s);
    }
  }

  // -- replacing

  /** A change of IMPs does not change which entry a search finds. */
  lemma {:induction false} FindAlongSetImp(co: Core, es': Entries, line: seq<Cid>, s: Selector)
    requires es'.Keys == co.entries.Keys
    requires forall e :: e in co.entries ==> es'[e].sel == co.entries[e].sel
    ensures FindAlong(co.methods, es', line, s) == FindAlong(co.methods, co.entries, line, s)
  {
    if line != [] {
      FindInSame(co.entries, es', ChainOf(co.methods, line[0]), s);
      FindAlongSetImp(co, es', line[1..], s);
    }
  }

  /** A line finds the entry of `sel` in `c` exactly for the selectors equal to `sel`, and
      exactly when it sees `c` for `sel`. */
  lemma FindsWhatItSees(co: Core, line: seq<Cid>, c: Cid, sel: Selector, e: Eid, s: Selector)
    requires ClassOk(co, c) && (forall b :: b in line ==> ClassOk(co, b))
    requires FindOwn(co.methods, co.entries, c, sel) == Some(e)
    ensures FindAlong(co.methods, co.entries, line, s) == Some(e)
            <==> SelEq(s, sel) && c in line && FindAlong(co.methods, co.entries, Before(line, c), sel).None?
  {
    FindInFinds(co.entries, ChainOf(co.methods, c), sel);
    assert e.cls == c;
    if FindAlong(co.methods, co.entries, line, s) == Some(e) {
      FoundInOwner(co, line, s);
      FindAlongEq(co.methods, co.entries, Before(line, c), s, sel);
    }
    if SelEq(s, sel) && c in line && FindAlong(co.methods, co.entries, Before(line, c), sel).None? {
      FindAlongEq(co.methods, co.entries, Before(line, c), s, sel);
      FindInEq(co.entries, ChainOf(co.methods, c), s, sel);
      FindAlongAt(co.methods, co.entries, line, c, s);
    }
  }

  lemma NewImpSeen(co: Core, line: seq<Cid>, c: Cid, sel: Selector, e: Eid, imp: Imp, s: Selector)
    requires ClassOk(co, c) && (forall b :: b in line ==> ClassOk(co, b))
    requires FindOwn(co.methods, co.entries, c, sel) == Some(e)
    ensures LookupAlong(co.methods, SetImp(co.entries, e, imp), line, s)
            == if SelEq(s, sel) && c in line && FindAlong(co.methods, co.entries, Before(line, c), sel).None?
               then Some(imp) else LookupAlong(co.methods, co.entries, line, s)
  {
    FindInFinds(co.entries, ChainOf(co.methods, c), sel);
    FindsWhatItSees(co, line, c, sel, e, s);
    FindAlongSetImp(co, SetImp(co.entries, e, imp), line, s);
  }

  /** Replacing `sel` in `c`, defined or not, gives the new IMP to the classes that see it
      there, and changes no other answer. */
  lemma ReplaceChangeSet(co: Core, sh: Shape, c: Cid, sel: Selector, imp: Imp, types: string, d: Cid, s: Selector)
    requires CoreOk(co, sh) && c in co.classes && d in co.classes
    ensures var co' := ReplaceMethod(co, c, sel, imp, types).0;
            SlowLookup(co', sh, d, s)
            == if SelEq(s, sel) && Sees(co, sh, d, c, sel) then Some(imp) else SlowLookup(co, sh, d, s)
  {
    var e := FindOwn(co.methods, co.entries, c, sel);
    if e.None? {
      AddChangeSet(co, sh, c, sel, imp, types, d, s);
    } else {
      LineMembers(co.classes, sh, d);
      NewImpSeen(co, Line(sh, d), c, sel, e.value, imp, s);
    }
  }

  // -- exchanging

  /** The IMP of an entry after an exchange. */
  function Transposed(co: Core, e1: Eid, e2: Eid, e: Eid): Imp
    requires e in co.entries && e1 in co.entries && e2 in co.entries
  {
    if e == e1 then co.entries[e2].imp else if e == e2 then co.entries[e1].imp else co.entries[e].imp
  }

  /** After an exchange every search finds the entry it found before; the IMPs of the two
      entries are transposed, equal or not and whichever classes they are in. */
  lemma ExchangeTransposes(co: Core, sh: Shape, e1: Eid, e2: Eid, d: Cid, s: Selector)
    requires e1 in co.entries && e2 in co.entries
    ensures var co' := Exchange(co, e1, e2);
            && FindAlong(co'.methods, co'.entries, Line(sh, d), s) == FindAlong(co.methods, co.entries, Line(sh, d), s)
            && co'.entries.Keys == co.entries.Keys
            && forall e :: e in co.entries ==>
                 co'.entries[e] == co.entries[e].(imp := Transposed(co, e1, e2, e))
  {
    FindAlongSetImp(co, Exchange(co, e1, e2).entries, Line(sh, d), s);
  }

  /** Exchanging twice restores everything. */
  lemma ExchangeIsInvolution(co: Core, e1: Eid, e2: Eid)
    requires e1 in co.entries && e2 in co.entries
    ensures Exchange(Exchange(co, e1, e2), e1, e2) == co
  {
    assert Exchange(Exchange(co, e1, e2), e1, e2).entries == co.entries;
  }
}
