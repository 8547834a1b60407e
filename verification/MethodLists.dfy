/**
  The method lists of a class: no selector twice, and when the lists stay where they are, so that
  handles to their entries stay good.
*/
module MethodLists {
  import opened Options
  import opened Selectors
  import opened ClassTypes
  import opened ClassForest
  import opened Dispatch
  import opened CacheCoherence
  import opened LoaderImage
  import opened LoaderStep
  import opened LoaderLaws
  import opened LoaderOrder

  /** No two entries of the method lists of a class have equal selectors. */
  predicate OwnDistinct(co: Core, c: Cid) {
    Distinct(co.entries, ChainOf(co.methods, c))
  }

  predicate Distinct(es: Entries, ids: seq<Eid>) {
    && (forall i :: 0 <= i < |ids| ==> ids[i] in es)
    && forall i, j :: 0 <= i < j < |ids| ==> !SelEq(es[ids[i]].sel, es[ids[j]].sel)
  }

  lemma DistinctAdded(es: Entries, ids: seq<Eid>, ids': seq<Eid>, e: Eid, entry: MethodEntry)
    requires Distinct(es, ids) && e !in es && FindIn(es, ids, entry.sel).None?
    requires ids' == [e] + ids || ids' == ids + [e]
    ensures Distinct(es[e := entry], ids')
  {
    FindInFinds(es, ids, entry.sel);
    var es' := es[e := entry];
    forall i | 0 <= i < |ids|
      ensures ids[i] in es' && es'[ids[i]] == es[ids[i]] && !SelEq(es[ids[i]].sel, entry.sel)
    {
      assert ids[i] in ids && !Matches(es, ids[i], entry.sel);
    }
    if ids' == [e] + ids {
      forall i, j | 0 <= i < j < |ids'|
        ensures !SelEq(es'[ids'[i]].sel, es'[ids'[j]].sel)
      {
        assert ids'[j] == ids[j - 1] && (i > 0 ==> ids'[i] == ids[i - 1]);
      }
    }
  }

  lemma DistinctSame(es: Entries, es': Entries, ids: seq<Eid>)
    requires Distinct(es, ids)
    requires forall e :: e in es ==> e in es' && es'[e].sel == es[e].sel
    ensures Distinct(es', ids)
  {
  }

  /** The lists of `a` are there in `b`, with the entries they had; others have come in front. */
  predicate Behind(a: seq<seq<Eid>>, b: seq<seq<Eid>>) {
    |a| <= |b| && b[|b| - |a|..] == a
  }

  predicate ListsStay(co: Core, co': Core, c: Cid) {
    c in co.methods && c in co'.methods && Behind(co.methods[c], co'.methods[c])
  }

  /** A method is added to a list that exists already.  The source pushes it to the vector of that
      list, which may move all entries in memory. */
  predicate GrowsInPlace(co: Core, c: Cid, sel: Selector) {
    && c in co.classes && c in co.methods && !co.classes[c].registered && co.methods[c] != []
    && FindOwn(co.methods, co.entries, c, sel).None?
  }

  /** What a run keeps of entries, wherever they are in memory: their selector and their types.
      And the lists of a registered class stay where they are. */
  ghost predicate HandlesStay(co: Core, co': Core) {
    && (forall e :: e in co.entries ==>
          e in co'.entries && co'.entries[e].sel == co.entries[e].sel && co'.entries[e].types == co.entries[e].types)
    && (forall c {:trigger RegisteredStays(co, co', c)} ::
          c in co.classes && co.classes[c].registered ==> RegisteredStays(co, co', c))
  }

  predicate RegisteredStays(co: Core, co': Core, c: Cid) {
    c in co'.classes && co'.classes[c].registered && ListsStay(co, co', c)
  }

  ghost predicate AllDistinct(co: Core) {
    forall c {:trigger OwnDistinct(co, c)} :: c in co.classes ==> OwnDistinct(co, c)
  }

  lemma HandlesStayTransitive(co0: Core, co1: Core, co2: Core)
    requires HandlesStay(co0, co1) && HandlesStay(co1, co2)
    ensures HandlesStay(co0, co2)
  {
    forall c | c in co0.classes && co0.classes[c].registered
      ensures RegisteredStays(co0, co2, c)
    {
      assert RegisteredStays(co0, co1, c) && RegisteredStays(co1, co2, c);
      SuffixOfSuffix(co0.methods[c], co1.methods[c], co2.methods[c]);
    }
  }

  lemma SuffixOfSuffix<T>(a: seq<T>, b: seq<T>, c: seq<T>)
    requires |a| <= |b| <= |c| && b[|b| - |a|..] == a && c[|c| - |b|..] == b
    ensures c[|c| - |a|..] == a
  {
  }

  /** A method is added exactly when the class has none for the selector; either way it has
      one for the selector afterwards, and asking for it returns the new one only if it was
      added. */
  lemma AddMeansAbsent(co: Core, sh: Shape, c: Cid, sel: Selector, imp: Imp, types: string)
    requires CoreOk(co, sh) && c in co.classes
    ensures var (co', added) := AddMethod(co, c, sel, imp, types);
            && (added <==> forall e :: e in ChainOf(co.methods, c) ==> !Matches(co.entries, e, sel))
            && var e := GetMethod(co', Some(c), sel);
               && e.Some? && e.value in co'.entries && SelEq(co'.entries[e.value].sel, sel)
               && (added ==> e.value !in co.entries && co'.entries[e.value] == MethodEntry(sel, imp, types))
               && (!added ==> e == GetMethod(co, Some(c), sel) && co' == co)
  {
    assert ClassOk(co, c);
    FindInFinds(co.entries, ChainOf(co.methods, c), sel);
    if FindOwn(co.methods, co.entries, c, sel).None? {
      NewEntryIsNew(co, c);
      AddFindHere(co, c, sel, imp, types, sel);
    }
  }

  /** An addition leaves the lists of every class where they are, except those of a class that is
      not registered, has a list, and gets a method that it does not have. */
  lemma AddAndLists(co: Core, sh: Shape, c: Cid, sel: Selector, imp: Imp, types: string, b: Cid)
    requires CoreOk(co, sh) && c in co.classes && b in co.classes
    ensures ListsStay(co, AddMethod(co, c, sel, imp, types).0, b) <==> !(b == c && GrowsInPlace(co, c, sel))
    ensures GrowsInPlace(co, c, sel)
            ==> |co.methods[c]| == 1
                && AddMethod(co, c, sel, imp, types).0.methods[c] == [co.methods[c][0] + [Added(c, co.next)]]
  {
    assert ClassOk(co, c) && ClassOk(co, b);
    if b == c && GrowsInPlace(co, c, sel) {
      var grown := co.methods[c][0] + [Added(c, co.next)];
      assert |grown| == |co.methods[c][0]| + 1;
    }
  }

  lemma AddKeepsLists(co: Core, c: Cid, sel: Selector, imp: Imp, types: string, b: Cid)
    requires ClassOk(co, c) && ClassOk(co, b) && Added(c, co.next) !in co.entries
    ensures var co' := AddMethod(co, c, sel, imp, types).0;
            && (OwnDistinct(co, b) ==> OwnDistinct(co', b))
            && (co.classes[b].registered ==> RegisteredStays(co, co', b))
  {
    if FindOwn(co.methods, co.entries, c, sel).None? {
      var e, entry := Added(c, co.next), MethodEntry(sel, imp, types);
      if b == c {
        ExtendedFlat(co.methods[c], e, co.classes[c].registered);
        if OwnDistinct(co, b) {
          DistinctAdded(co.entries, ChainOf(co.methods, c),
              Flat(Extended(co.methods[c], e, co.classes[c].registered)), e, entry);
        }
      } else if OwnDistinct(co, b) {
        DistinctSame(co.entries, co.entries[e := entry], ChainOf(co.methods, b));
      }
    }
  }

  lemma AddKeepsHandles(co: Core, sh: Shape, c: Cid, sel: Selector, imp: Imp, types: string)
    requires CoreOk(co, sh) && c in co.classes && AllDistinct(co)
    ensures HandlesStay(co, AddMethod(co, c, sel, imp, types).0) && AllDistinct(AddMethod(co, c, sel, imp, types).0)
  {
    var co' := AddMethod(co, c, sel, imp, types).0;
    NewEntryIsNew(co, c);
    forall b | b in co.classes
      ensures OwnDistinct(co', b) && (co.classes[b].registered ==> RegisteredStays(co, co', b))
    {
      assert ClassOk(co, c) && ClassOk(co, b) && OwnDistinct(co, b);
      AddKeepsLists(co, c, sel, imp, types, b);
    }
  }

  lemma ImpsKeepHandles(co: Core, sh: Shape, es: Entries)
    requires CoreOk(co, sh) && AllDistinct(co) && es.Keys == co.entries.Keys
    requires forall e :: e in es ==> es[e].sel == co.entries[e].sel && es[e].types == co.entries[e].types
    ensures HandlesStay(co, co.(entries := es)) && AllDistinct(co.(entries := es))
  {
    forall c | c in co.classes
      ensures OwnDistinct(co.(entries := es), c)
      ensures co.classes[c].registered ==> RegisteredStays(co, co.(entries := es), c)
    {
      assert ClassOk(co, c) && OwnDistinct(co, c);
      DistinctSame(co.entries, es, ChainOf(co.methods, c));
    }
  }

  lemma SameMethodsKeepHandles(co: Core, sh: Shape, co': Core)
    requires CoreOk(co, sh) && AllDistinct(co) && co'.entries == co.entries
    requires forall c :: c in co.classes ==>
               && c in co'.classes && (co.classes[c].registered ==> co'.classes[c].registered)
               && c in co'.methods && co'.methods[c] == co.methods[c]
    requires forall c :: c in co'.classes && c !in co.classes ==> c in co'.methods && co'.methods[c] == []
    ensures HandlesStay(co, co') && AllDistinct(co')
  {
    forall c | c in co.classes && co.classes[c].registered
      ensures RegisteredStays(co, co', c)
    {
    }
    forall c | c in co'.classes
      ensures OwnDistinct(co', c)
    {
      assert c in co.classes ==> OwnDistinct(co, c);
    }
  }

  lemma AllocateKeepsMethods(co: Core, superclass: Option<Cid>, name: string)
    requires co.next !in co.classes && co.next + 1 !in co.classes && co.methods.Keys == co.classes.Keys
    ensures var co' := Allocate(co, superclass, name).0;
            && co'.entries == co.entries
            && (forall c :: c in co.classes ==>
                  && c in co'.classes && (co.classes[c].registered ==> co'.classes[c].registered)
                  && c in co'.methods && co'.methods[c] == co.methods[c])
            && (forall c :: c in co'.classes && c !in co.classes ==> c in co'.methods && co'.methods[c] == [])
  {
  }

  lemma RegisterKeepsHandles(co: Core, sh: Shape, c: Cid)
    requires CoreOk(co, sh) && AllDistinct(co) && c in co.classes
    ensures HandlesStay(co, RegisterPair(co, c)) && AllDistinct(RegisterPair(co, c))
  {
    SameMethodsKeepHandles(co, sh, RegisterPair(co, c));
  }

  lemma AllocateKeepsHandles(co: Core, sh: Shape, superclass: Option<Cid>, name: string)
    requires CoreOk(co, sh) && AllDistinct(co)
    ensures HandlesStay(co, Allocate(co, superclass, name).0) && AllDistinct(Allocate(co, superclass, name).0)
  {
    NewClassIsNew(co, sh);
    AllocateKeepsMethods(co, superclass, name);
    SameMethodsKeepHandles(co, sh, Allocate(co, superclass, name).0);
  }

  lemma ReplaceKeepsHandles(co: Core, sh: Shape, c: Cid, sel: Selector, imp: Imp, types: string)
    requires CoreOk(co, sh) && AllDistinct(co) && c in co.classes
    ensures HandlesStay(co, ReplaceMethod(co, c, sel, imp, types).0)
            && AllDistinct(ReplaceMethod(co, c, sel, imp, types).0)
  {
    var e := FindOwn(co.methods, co.entries, c, sel);
    if e.Some? {
      ImpsKeepHandles(co, sh, SetImp(co.entries, e.value, imp));
    } else {
      AddKeepsHandles(co, sh, c, sel, imp, types);
    }
  }

  // ---------------------------------------------------------------- loading

  /** Compiled lists without duplicates. */
  predicate ListsDistinct(lists: Lists) {
    forall c, i, j :: c in lists && 0 <= i < j < |lists[c]| ==> !SelEq(lists[c][i].sel, lists[c][j].sel)
  }

  /** Compiled lists without duplicates give method lists without duplicates. */
  lemma LoadedOwnDistinct(img: Image, lay: Layout, done: seq<Cid>, c: Cid)
    requires ImageOk(img, lay) && Complete(img, done) && ListsDistinct(img.lists) && c in img.classes
    ensures OwnDistinct(CoreAfter(img, lay, done), c)
  {
    AllPatched(img, lay, done, c);
    ConvertedFlat(img, c);
    var ids, es := Flat(Converted(img, c)), EntriesAfter(img, lay, done);
    forall i | 0 <= i < |ids|
      ensures ids[i] in es && es[ids[i]] == img.lists[c][i]
    {
      EntryAfter(img, lay, done, ids[i]);
    }
  }

  lemma KnownOwnDistinct(img: Image, lay: Layout, done: seq<Cid>, c: Cid)
    requires ImageOk(img, lay) && c in img.core.classes && OwnDistinct(img.core, c)
    ensures OwnDistinct(CoreAfter(img, lay, done), c)
  {
    KnownMethods(img, lay, done, c);
    forall e | e in img.core.entries
      ensures e in EntriesAfter(img, lay, done) && EntriesAfter(img, lay, done)[e] == img.core.entries[e]
    {
      KnownEntry(img, lay, done, e);
    }
    DistinctSame(img.core.entries, EntriesAfter(img, lay, done), ChainOf(img.core.methods, c));
  }

  lemma KnownListsStay(img: Image, lay: Layout, done: seq<Cid>, c: Cid)
    requires ImageOk(img, lay) && Loadable(img, done) && c in img.core.classes && img.core.classes[c].registered
    ensures RegisteredStays(img.core, CoreAfter(img, lay, done), c)
  {
    KnownStays(img, lay, done, c);
    KnownMethods(img, lay, done, c);
  }

  lemma LoadingKeepsHandles(img: Image, lay: Layout, done: seq<Cid>)
    requires ImageOk(img, lay) && Complete(img, done) && AllDistinct(img.core)
    ensures HandlesStay(img.core, CoreAfter(img, lay, done))
    ensures ListsDistinct(img.lists) ==> AllDistinct(CoreAfter(img, lay, done))
  {
    var co' := CoreAfter(img, lay, done);
    forall e | e in img.core.entries
      ensures e in co'.entries && co'.entries[e] == img.core.entries[e]
    {
      KnownEntry(img, lay, done, e);
    }
    forall c | c in img.core.classes && img.core.classes[c].registered
      ensures RegisteredStays(img.core, co', c)
    {
      KnownListsStay(img, lay, done, c);
    }
    if ListsDistinct(img.lists) {
      forall c | c in co'.classes
        ensures OwnDistinct(co', c)
      {
        if c in img.classes {
          LoadedOwnDistinct(img, lay, done, c);
        } else {
          assert OwnDistinct(img.core, c);
          KnownOwnDistinct(img, lay, done, c);
        }
      }
    }
  }

  lemma LoadedFindsNone(img: Image, lay: Layout, done: seq<Cid>, b: Cid, sel: Selector)
    requires ImageOk(img, lay) && Complete(img, done) && b in img.lists
    requires forall k :: 0 <= k < |img.lists[b]| ==> !SelEq(img.lists[b][k].sel, sel)
    ensures FindOwn(MethodsAfter(img, lay, done), EntriesAfter(img, lay, done), b, sel) == None
  {
    var es, ids := EntriesAfter(img, lay, done), Flat(Converted(img, b));
    AllPatched(img, lay, done, b);
    ConvertedFlat(img, b);
    FindInFinds(es, ids, sel);
    forall e | e in ids
      ensures !Matches(es, e, sel)
    {
      EntryAfter(img, lay, done, e);
    }
  }

  lemma LoadedMetaList(img: Image, lay: Layout, done: seq<Cid>, mt: Cid)
    requires ImageOk(img, lay) && Complete(img, done) && mt in img.classes && img.classes[mt].meta
    requires mt in img.lists && img.lists[mt] != []
    ensures mt in ClassesAfter(img, lay, done) && !ClassesAfter(img, lay, done)[mt].registered
    ensures mt in MethodsAfter(img, lay, done) && MethodsAfter(img, lay, done)[mt] != []
  {
    AllPatched(img, lay, done, mt);
    NewClassOk(img, lay, done, mt);
    LoadedFlag(img, lay, done, mt);
  }

  /** The class methods of a loaded class are in a list whose vector is full, and metaclasses are
      never registered: a class method that is added to it grows that list in place. */
  lemma LoadedClassMethodsGrow(img: Image, lay: Layout, done: seq<Cid>, mt: Cid, sel: Selector, imp: Imp, types: string)
    requires ImageOk(img, lay) && Complete(img, done) && mt in img.classes && img.classes[mt].meta
    requires mt in img.lists && img.lists[mt] != []
    requires forall k :: 0 <= k < |img.lists[mt]| ==> !SelEq(img.lists[mt][k].sel, sel)
    ensures var co := CoreAfter(img, lay, done);
            GrowsInPlace(co, mt, sel) && !ListsStay(co, AddMethod(co, mt, sel, imp, types).0, mt)
  {
    LoadedCore(img, lay, done);
    LoadedMetaList(img, lay, done, mt);
    LoadedFindsNone(img, lay, done, mt, sel);
    AddAndLists(CoreAfter(img, lay, done), LoadedShape(img, lay, done), mt, sel, imp, types, mt);
  }
}
