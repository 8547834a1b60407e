/**
  Class structs, method lists and caches, and the pure searches through them.

  Pointers are identifiers.  What a class struct points to and owns, its chain of method lists
  and its method cache, is kept in maps of its own, keyed by the class.
*/
module ClassTypes {
  import opened Options
  import opened Selectors

  /** Address of a class struct. */
  type Cid = nat

  /** Address of a method implementation. */
  type Imp = nat

  /** Address of a method entry, with the class whose method list it is in: entry number `n` of
      the compiled list of the class, or entry number `n` among those added at run time. */
  datatype Eid = Compiled(cls: Cid, n: nat) | Added(cls: Cid, n: nat)

  datatype MethodEntry = MethodEntry(sel: Selector, imp: Imp, types: string)

  datatype CacheEntry = CacheEntry(sel: Selector, imp: Imp)

  datatype ObjcClass = ObjcClass(
    isa: Option<Cid>,
    superClass: Option<Cid>,
    name: string,
    meta: bool,
    registered: bool,
    instanceSize: int,
    subclassList: Option<Cid>,
    siblingClass: Option<Cid>)

  type Classes = map<Cid, ObjcClass>
  /** Chains of method lists, the head of the chain first. */
  type Methods = map<Cid, seq<seq<Eid>>>
  type Entries = map<Eid, MethodEntry>
  /** A class that is absent has no cache. */
  type Caches = map<Cid, seq<CacheEntry>>

  /** What a vector may have room for that is created with room for sixteen entries. */
  type Capacity = n: nat | 16 <= n witness 16

  const CACHE_CAPACITY: Capacity

  /** Size in bytes of an object that is nothing but its `isa` pointer, and of a class struct. */
  const OBJECT_SIZE := 8
  const CLASS_SIZE := 136

  // ---------------------------------------------------------------- method lists

  /** The entries of a chain in the order of a walk. */
  function Flat(chain: seq<seq<Eid>>): seq<Eid> {
    if chain == [] then [] else chain[0] + Flat(chain[1..])
  }

  function ChainOf(ms: Methods, c: Cid): seq<Eid> {
    if c in ms then Flat(ms[c]) else []
  }

  predicate Matches(es: Entries, e: Eid, sel: Selector) {
    e in es && SelEq(es[e].sel, sel)
  }

  /** The first entry for `sel`. */
  function FindIn(es: Entries, ids: seq<Eid>, sel: Selector): Option<Eid> {
    if ids == [] then None
    else if Matches(es, ids[0], sel) then Some(ids[0])
    else FindIn(es, ids[1..], sel)
  }

  function FindOwn(ms: Methods, es: Entries, c: Cid, sel: Selector): Option<Eid> {
    FindIn(es, ChainOf(ms, c), sel)
  }

  /** The first entry for `sel` along a line of classes. */
  function FindAlong(ms: Methods, es: Entries, line: seq<Cid>, sel: Selector): Option<Eid> {
    if line == [] then None
    else if FindOwn(ms, es, line[0], sel).Some? then FindOwn(ms, es, line[0], sel)
    else FindAlong(ms, es, line[1..], sel)
  }

  function ImpOf(es: Entries, e: Option<Eid>): Option<Imp> {
    if e.Some? && e.value in es then Some(es[e.value].imp) else None
  }

  /** The slow path of a message send. */
  function LookupAlong(ms: Methods, es: Entries, line: seq<Cid>, sel: Selector): Option<Imp> {
    ImpOf(es, FindAlong(ms, es, line, sel))
  }

  lemma {:induction false} FindInFinds(es: Entries, ids: seq<Eid>, sel: Selector)
    ensures var r := FindIn(es, ids, sel);
            if r.Some? then r.value in ids && Matches(es, r.value, sel)
            else forall e :: e in ids ==> !Matches(es, e, sel)
  {
    if ids != [] {
      FindInFinds(es, ids[1..], sel);
    }
  }

  /** `e` is the first of `ids` that matches, if one does. */
  predicate FirstMatch(es: Entries, ids: seq<Eid>, sel: Selector, e: Option<Eid>) {
    if e.None? then forall k :: 0 <= k < |ids| ==> !Matches(es, ids[k], sel)
    else exists k :: 0 <= k < |ids| && ids[k] == e.value && Matches(es, ids[k], sel)
                     && forall j :: 0 <= j < k ==> !Matches(es, ids[j], sel)
  }

  /** A search finds the first entry that matches. */
  lemma {:induction false} FindInFirst(es: Entries, ids: seq<Eid>, sel: Selector)
    ensures FirstMatch(es, ids, sel, FindIn(es, ids, sel))
  {
    if ids != [] && !Matches(es, ids[0], sel) {
      FindInFirst(es, ids[1..], sel);
      var r := FindIn(es, ids, sel);
      if r.Some? {
        var k :| 0 <= k < |ids[1..]| && ids[1..][k] == r.value && Matches(es, ids[1..][k], sel)
                 && forall j :: 0 <= j < k ==> !Matches(es, ids[1..][j], sel);
        assert ids[k + 1] == r.value && Matches(es, ids[k + 1], sel);
        forall j | 0 <= j < k + 1
          ensures !Matches(es, ids[j], sel)
        {
          assert j > 0 ==> ids[j] == ids[1..][j - 1];
        }
      }
    }
  }

  /** A search along a line finds what the nearest class has that has anything. */
  lemma {:induction false} FindAlongFirst(ms: Methods, es: Entries, line: seq<Cid>, sel: Selector)
    ensures var r := FindAlong(ms, es, line, sel);
            if r.None? then forall k :: 0 <= k < |line| ==> FindOwn(ms, es, line[k], sel).None?
            else exists k :: 0 <= k < |line| && FindOwn(ms, es, line[k], sel) == r
                             && forall j :: 0 <= j < k ==> FindOwn(ms, es, line[j], sel).None?
  {
    if line != [] && FindOwn(ms, es, line[0], sel).None? {
      FindAlongFirst(ms, es, line[1..], sel);
      var r := FindAlong(ms, es, line, sel);
      if r.Some? {
        var k :| 0 <= k < |line[1..]| && FindOwn(ms, es, line[1..][k], sel) == r
                 && forall j :: 0 <= j < k ==> FindOwn(ms, es, line[1..][j], sel).None?;
        assert FindOwn(ms, es, line[k + 1], sel) == r;
        forall j | 0 <= j < k + 1
          ensures FindOwn(ms, es, line[j], sel).None?
        {
          assert j > 0 ==> line[j] == line[1..][j - 1];
        }
      }
    }
  }

  lemma {:induction false} FindInConcat(es: Entries, a: seq<Eid>, b: seq<Eid>, sel: Selector)
    ensures FindIn(es, a + b, sel) == if FindIn(es, a, sel).Some? then FindIn(es, a, sel) else FindIn(es, b, sel)
  {
    if a == [] {
      assert a + b == b;
    } else {
      assert (a + b)[1..] == a[1..] + b;
      FindInConcat(es, a[1..], b, sel);
    }
  }

  /** A search sees nothing of an entry but its selector. */
  lemma {:induction false} FindInSame(es: Entries, es': Entries, ids: seq<Eid>, sel: Selector)
    requires forall e :: e in ids ==> (Matches(es, e, sel) <==> Matches(es', e, sel))
    ensures FindIn(es, ids, sel) == FindIn(es', ids, sel)
  {
    if ids != [] {
      FindInSame(es, es', ids[1..], sel);
    }
  }

  /** A search for one selector is a search for any selector equal to it. */
  lemma {:induction false} FindInEq(es: Entries, ids: seq<Eid>, sel: Selector, sel': Selector)
    requires SelEq(sel, sel')
    ensures FindIn(es, ids, sel) == FindIn(es, ids, sel')
  {
    if ids != [] {
      FindInEq(es, ids[1..], sel, sel');
    }
  }

  lemma {:induction false} FindAlongEq(ms: Methods, es: Entries, line: seq<Cid>, sel: Selector, sel': Selector)
    requires SelEq(sel, sel')
    ensures FindAlong(ms, es, line, sel) == FindAlong(ms, es, line, sel')
  {
    if line != [] {
      FindInEq(es, ChainOf(ms, line[0]), sel, sel');
      FindAlongEq(ms, es, line[1..], sel, sel');
    }
  }

  /** Two memories agree along a line when they agree on each of its classes. */
  lemma {:induction false} FindAlongSame(ms: Methods, es: Entries, ms': Methods, es': Entries, line: seq<Cid>,
      sel: Selector)
    requires forall c :: c in line ==> FindOwn(ms, es, c, sel) == FindOwn(ms', es', c, sel)
    ensures FindAlong(ms, es, line, sel) == FindAlong(ms', es', line, sel)
  {
    if line != [] {
      FindAlongSame(ms, es, ms', es', line[1..], sel);
    }
  }

  lemma {:induction false} FindAlongConcat(ms: Methods, es: Entries, a: seq<Cid>, b: seq<Cid>, sel: Selector)
    ensures FindAlong(ms, es, a + b, sel) == if FindAlong(ms, es, a, sel).Some? then FindAlong(ms, es, a, sel)
                                             else FindAlong(ms, es, b, sel)
  {
    if a == [] {
      assert a + b == b;
    } else {
      assert (a + b)[1..] == a[1..] + b;
      FindAlongConcat(ms, es, a[1..], b, sel);
    }
  }

  lemma {:induction false} FlatConcat(a: seq<seq<Eid>>, b: seq<seq<Eid>>)
    ensures Flat(a + b) == Flat(a) + Flat(b)
  {
    if a == [] {
      assert a + b == b;
    } else {
      assert (a + b)[1..] == a[1..] + b;
      FlatConcat(a[1..], b);
    }
  }

  // ---------------------------------------------------------------- caches

  function CacheLookup(cache: seq<CacheEntry>, sel: Selector): Option<Imp> {
    if cache == [] then None
    else if SelEq(cache[0].sel, sel) then Some(cache[0].imp)
    else CacheLookup(cache[1..], sel)
  }

  /** A selector already present is left alone; a full cache is cleared first. */
  function CacheInsert(cache: seq<CacheEntry>, sel: Selector, imp: Imp): seq<CacheEntry> {
    if CacheLookup(cache, sel).Some? then cache
    else if |cache| == CACHE_CAPACITY then [CacheEntry(sel, imp)]
    else cache + [CacheEntry(sel, imp)]
  }

  lemma {:induction false} CacheLookupFinds(cache: seq<CacheEntry>, sel: Selector)
    ensures CacheLookup(cache, sel).Some? ==>
              exists k :: 0 <= k < |cache| && SelEq(cache[k].sel, sel) && CacheLookup(cache, sel) == Some(cache[k].imp)
    ensures CacheLookup(cache, sel).None? ==> forall k :: 0 <= k < |cache| ==> !SelEq(cache[k].sel, sel)
  {
    if cache != [] && !SelEq(cache[0].sel, sel) {
      CacheLookupFinds(cache[1..], sel);
      if CacheLookup(cache, sel).Some? {
        var k :| 0 <= k < |cache[1..]| && SelEq(cache[1..][k].sel, sel)
            && CacheLookup(cache, sel) == Some(cache[1..][k].imp);
        assert SelEq(cache[k + 1].sel, sel) && CacheLookup(cache, sel) == Some(cache[k + 1].imp);
      }
    }
  }

  lemma {:induction false} CacheLookupConcat(a: seq<CacheEntry>, b: seq<CacheEntry>, sel: Selector)
    ensures CacheLookup(a + b, sel) == if CacheLookup(a, sel).Some? then CacheLookup(a, sel) else CacheLookup(b, sel)
  {
    if a == [] {
      assert a + b == b;
    } else {
      assert (a + b)[1..] == a[1..] + b;
      CacheLookupConcat(a[1..], b, sel);
    }
  }

  /** After an insertion the selector is found: the IMP that was cached before, or the new one.
      Any other selector is found as before, or has been cleared away. */
  lemma InsertedIsFound(cache: seq<CacheEntry>, sel: Selector, imp: Imp, sel': Selector)
    ensures var r := CacheLookup(CacheInsert(cache, sel, imp), sel');
            if SelEq(sel', sel) then
              r == Some(if CacheLookup(cache, sel).Some? then CacheLookup(cache, sel).value else imp)
            else if CacheLookup(cache, sel).None? && |cache| == CACHE_CAPACITY then r == None
            else r == CacheLookup(cache, sel')
  {
    CacheLookupConcat(cache, [CacheEntry(sel, imp)], sel');
    if SelEq(sel', sel) {
      CacheLookupEq(cache, sel', sel);
    }
  }

  lemma {:induction false} CacheLookupEq(cache: seq<CacheEntry>, sel: Selector, sel': Selector)
    requires SelEq(sel, sel')
    ensures CacheLookup(cache, sel) == CacheLookup(cache, sel')
  {
    if cache != [] {
      CacheLookupEq(cache[1..], sel, sel');
    }
  }

  /** Selectors stay pairwise different in a cache, and it never outgrows its capacity. */
  predicate CacheOk(cache: seq<CacheEntry>) {
    && |cache| <= CACHE_CAPACITY
    && forall i, j :: 0 <= i < j < |cache| ==> !SelEq(cache[i].sel, cache[j].sel)
  }

  lemma InsertKeepsCacheOk(cache: seq<CacheEntry>, sel: Selector, imp: Imp)
    requires CacheOk(cache)
    ensures CacheOk(CacheInsert(cache, sel, imp))
    ensures forall e :: e in CacheInsert(cache, sel, imp) ==> e in cache || e == CacheEntry(sel, imp)
  {
    CacheLookupFinds(cache, sel);
  }
}
