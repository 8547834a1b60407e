/**
  Loading one more class takes memory from its form after some classes to its form after one
  more.
*/
module LoaderStep {
  import opened Options
  import opened ClassTypes
  import opened ClassForest
  import opened LoaderImage

  /** `c` can be loaded after `done`. */
  ghost predicate Next(img: Image, lay: Layout, done: seq<Cid>, c: Cid) {
    ImageOk(img, lay) && Loadable(img, done) && c in img.classes && !img.classes[c].meta && c !in done
  }

  lemma OwnMeta(img: Image, lay: Layout, c: Cid, mt: Cid)
    requires ImageOk(img, lay) && c in img.classes && !img.classes[c].meta && IsaOf(img, Some(c)) == Some(mt)
    ensures mt in img.classes && img.classes[mt].meta && Owner(img, lay, mt) == Some(c) && mt != c
    ensures All(img)[mt].superClass == None && Fresh(All(img)[mt]) && Fresh(All(img)[c])
  {
    assert ClassImageOk(img, lay, c) && MetaImageOk(img, lay, mt);
  }

  /** The four structs involved in loading a class that has a superclass are distinct. */
  lemma FourStructs(img: Image, lay: Layout, c: Cid, mt: Cid, s: Cid, sm: Cid)
    requires ImageOk(img, lay) && c in img.classes && !img.classes[c].meta
    requires IsaOf(img, Some(c)) == Some(mt) && SuperOf(img, c) == Some(s) && IsaOf(img, Some(s)) == Some(sm)
    ensures s in All(img) && !All(img)[s].meta && All(img)[s].isa == Some(sm)
    ensures mt in All(img) && All(img)[mt].meta && sm in All(img) && All(img)[sm].meta
    ensures Owner(img, lay, mt) == Some(c) && Owner(img, lay, sm) == Some(s)
    ensures c != mt && s != c && s != mt && sm != c && sm != mt && s != sm
  {
    LineOfClass(img, lay, c);
    ClassIsLinked(img, lay, c);
    ClassIsLinked(img, lay, s);
    OwnMeta(img, lay, c, mt);
  }

  // ---------------------------------------------------------------- before

  lemma ClassBefore(img: Image, lay: Layout, done: seq<Cid>, c: Cid)
    requires Next(img, lay, done, c)
    ensures StructAfter(img, lay, done, c) == All(img)[c].(subclassList := At(KidsAfter(img, done, c), 0))
  {
  }

  lemma MetaBefore(img: Image, lay: Layout, done: seq<Cid>, c: Cid, mt: Cid)
    requires Next(img, lay, done, c) && IsaOf(img, Some(c)) == Some(mt)
    ensures mt in All(img)
    ensures StructAfter(img, lay, done, mt) == All(img)[mt].(subclassList := At(MetaKidsAfter(img, done, mt, c), 0))
  {
    OwnMeta(img, lay, c, mt);
  }

  lemma IsaStays(img: Image, lay: Layout, done: seq<Cid>, r: Cid)
    requires r in All(img) && !All(img)[r].meta
    ensures StructAfter(img, lay, done, r).isa == All(img)[r].isa
    ensures StructAfter(img, lay, done, r).superClass == All(img)[r].superClass
  {
  }

  lemma MayLoadNext(img: Image, lay: Layout, done: seq<Cid>, c: Cid)
    requires Next(img, lay, done, c)
    ensures MayLoad(ClassesAfter(img, lay, done), c, LineOf(img, lay, c))
    ensures Root(img, lay, c).Some? && Root(img, lay, c).value in All(img)
  {
    ClassIsLinked(img, lay, c);
    RootIsTop(img, lay, c);
    IsaStays(img, lay, done, c);
  }

  // ---------------------------------------------------------------- a root class

  lemma RootClassStep(img: Image, lay: Layout, done: seq<Cid>, c: Cid)
    requires Next(img, lay, done, c) && SuperOf(img, c) == None
    ensures var k := StructAfter(img, lay, done, c);
            StructAfter(img, lay, done + [c], c) == k.(instanceSize := PatchedSize(k), registered := true)
  {
    ClassBefore(img, lay, done, c);
    assert ClassImageOk(img, lay, c);
    OneMore(img, done, c, c);
  }

  lemma RootMetaStep(img: Image, lay: Layout, done: seq<Cid>, c: Cid, mt: Cid)
    requires Next(img, lay, done, c) && SuperOf(img, c) == None && IsaOf(img, Some(c)) == Some(mt)
    ensures mt in All(img)
    ensures var k := StructAfter(img, lay, done, mt);
            StructAfter(img, lay, done + [c], mt)
            == k.(instanceSize := PatchedSize(k), isa := Some(mt), superClass := Some(c))
  {
    OwnMeta(img, lay, c, mt);
    MetaBefore(img, lay, done, c, mt);
    OneMore(img, done, c, c);
    ClassIsLinked(img, lay, c);
    assert Root(img, lay, c) == Some(c);
  }

  lemma RootStep(img: Image, lay: Layout, done: seq<Cid>, c: Cid)
    requires Next(img, lay, done, c) && SuperOf(img, c) == None
    requires MayLoad(ClassesAfter(img, lay, done), c, LineOf(img, lay, c))
    ensures LoadedClasses(ClassesAfter(img, lay, done), c, LineOf(img, lay, c)) == ClassesAfter(img, lay, done + [c])
  {
    var cs, cs' := ClassesAfter(img, lay, done), ClassesAfter(img, lay, done + [c]);
    ClassIsLinked(img, lay, c);
    var mt := IsaOf(img, Some(c)).value;
    OwnMeta(img, lay, c, mt);
    ClassBefore(img, lay, done, c);
    RootClassStep(img, lay, done, c);
    RootMetaStep(img, lay, done, c, mt);
    RestStays(img, lay, done, c);
    RootAssembles(cs, cs', c, mt, LineOf(img, lay, c));
  }

  lemma RootAssembles(cs: Classes, cs': Classes, c: Cid, mt: Cid, walk: seq<Cid>)
    requires c in cs && mt in cs && c != mt && !cs[c].meta && cs[c].isa == Some(mt) && cs[c].superClass == None
    requires MayLoad(cs, c, walk) && cs'.Keys == cs.Keys
    requires cs'[c] == cs[c].(instanceSize := PatchedSize(cs[c]), registered := true)
    requires cs'[mt] == cs[mt].(instanceSize := PatchedSize(cs[mt]), isa := Some(mt), superClass := Some(c))
    requires forall b :: b in cs && b != c && b != mt ==> cs'[b] == cs[b]
    ensures LoadedClasses(cs, c, walk) == cs'
  {
    LoadedRoot(cs, c, mt, walk);
  }

  /** All other structs stay as they are. */
  lemma RestStays(img: Image, lay: Layout, done: seq<Cid>, c: Cid)
    requires ImageOk(img, lay) && c in img.classes && !img.classes[c].meta
    ensures forall b :: b in All(img) && !Touched(img, c, b) ==>
              ClassesAfter(img, lay, done + [c])[b] == ClassesAfter(img, lay, done)[b]
  {
    forall b | b in All(img) && !Touched(img, c, b)
      ensures ClassesAfter(img, lay, done + [c])[b] == ClassesAfter(img, lay, done)[b]
    {
      UntouchedStays(img, lay, done, c, b);
    }
  }

  // ---------------------------------------------------------------- a class with a superclass

  lemma SubClassStep(img: Image, lay: Layout, done: seq<Cid>, c: Cid, s: Cid)
    requires Next(img, lay, done, c) && SuperOf(img, c) == Some(s) && s in All(img) && s != c
    requires !All(img)[s].meta
    ensures var k := StructAfter(img, lay, done, c);
            StructAfter(img, lay, done + [c], c)
            == k.(instanceSize := PatchedSize(k), registered := true,
                  siblingClass := StructAfter(img, lay, done, s).subclassList)
  {
    ClassBefore(img, lay, done, c);
    OneMore(img, done, c, c);
  }

  lemma SuperClassStep(img: Image, lay: Layout, done: seq<Cid>, c: Cid, s: Cid)
    requires SuperOf(img, c) == Some(s) && s in All(img) && s != c && !All(img)[s].meta
    ensures StructAfter(img, lay, done + [c], s) == StructAfter(img, lay, done, s).(subclassList := Some(c))
  {
    OneMore(img, done, c, s);
  }

  lemma SubMetaStep(img: Image, lay: Layout, done: seq<Cid>, c: Cid, mt: Cid, s: Cid, sm: Cid)
    requires Next(img, lay, done, c) && IsaOf(img, Some(c)) == Some(mt) && SuperOf(img, c) == Some(s)
    requires IsaOf(img, Some(s)) == Some(sm) && sm in All(img) && All(img)[sm].meta
    requires Owner(img, lay, sm) == Some(s) && s in All(img) && s != c
    ensures mt in All(img)
    ensures var k := StructAfter(img, lay, done, mt);
            StructAfter(img, lay, done + [c], mt)
            == k.(instanceSize := PatchedSize(k), isa := IsaOf(img, Root(img, lay, c)), superClass := Some(sm),
                  siblingClass := StructAfter(img, lay, done, sm).subclassList)
  {
    OwnMeta(img, lay, c, mt);
    MetaBefore(img, lay, done, c, mt);
    OneMore(img, done, c, c);
  }

  lemma SuperMetaStep(img: Image, lay: Layout, done: seq<Cid>, c: Cid, mt: Cid, s: Cid, sm: Cid)
    requires c in img.classes && IsaOf(img, Some(c)) == Some(mt) && SuperOf(img, c) == Some(s)
    requires sm in All(img) && All(img)[sm].meta && Owner(img, lay, sm) == Some(s) && s in All(img) && s != c
    ensures StructAfter(img, lay, done + [c], sm) == StructAfter(img, lay, done, sm).(subclassList := Some(mt))
  {
    OneMore(img, done, c, s);
  }

  /** The four structs before the updates. */
  predicate FourLinked(cs: Classes, c: Cid, mt: Cid, s: Cid, sm: Cid, walk: seq<Cid>, isa: Option<Cid>) {
    && c in cs && mt in cs && s in cs && sm in cs && c != mt && s != c && s != mt && sm != c && sm != mt && s != sm
    && cs[c].isa == Some(mt) && cs[c].superClass == Some(s) && cs[s].isa == Some(sm)
    && MayLoad(cs, c, walk) && walk[|walk| - 1] != mt && cs[walk[|walk| - 1]].isa == isa
  }

  /** The updates of the four structs. */
  predicate FourUpdated(cs: Classes, cs': Classes, c: Cid, mt: Cid, s: Cid, sm: Cid, isa: Option<Cid>)
    requires c in cs && mt in cs && s in cs && sm in cs
    requires c in cs' && mt in cs' && s in cs' && sm in cs'
  {
    && cs'[c] == cs[c].(instanceSize := PatchedSize(cs[c]), registered := true, siblingClass := cs[s].subclassList)
    && cs'[mt] == cs[mt].(instanceSize := PatchedSize(cs[mt]), isa := isa, superClass := Some(sm),
                          siblingClass := cs[sm].subclassList)
    && cs'[s] == cs[s].(subclassList := Some(c)) && cs'[sm] == cs[sm].(subclassList := Some(mt))
  }

  lemma SubAssembles(cs: Classes, cs': Classes, c: Cid, mt: Cid, s: Cid, sm: Cid, walk: seq<Cid>, isa: Option<Cid>)
    requires FourLinked(cs, c, mt, s, sm, walk, isa)
    requires cs'.Keys == cs.Keys && FourUpdated(cs, cs', c, mt, s, sm, isa)
    requires forall b :: b in cs && b != c && b != mt && b != s && b != sm ==> cs'[b] == cs[b]
    ensures LoadedClasses(cs, c, walk) == cs'
  {
    LoadedSub(cs, c, mt, s, sm, walk);
  }

  lemma SubStructs(img: Image, lay: Layout, done: seq<Cid>, c: Cid, mt: Cid, s: Cid, sm: Cid)
    requires Next(img, lay, done, c) && IsaOf(img, Some(c)) == Some(mt) && SuperOf(img, c) == Some(s)
    requires IsaOf(img, Some(s)) == Some(sm) && sm in All(img) && All(img)[sm].meta
    requires Owner(img, lay, sm) == Some(s) && s in All(img) && !All(img)[s].meta && s != c && mt in All(img)
    ensures FourUpdated(ClassesAfter(img, lay, done), ClassesAfter(img, lay, done + [c]), c, mt, s, sm,
                        IsaOf(img, Root(img, lay, c)))
  {
    SubClassStep(img, lay, done, c, s);
    SuperClassStep(img, lay, done, c, s);
    SubMetaStep(img, lay, done, c, mt, s, sm);
    SuperMetaStep(img, lay, done, c, mt, s, sm);
  }

  /** The links that the updates follow are those of the compiled structs. */
  lemma SubLinks(img: Image, lay: Layout, done: seq<Cid>, c: Cid, s: Cid)
    requires ImageOk(img, lay) && c in All(img) && !All(img)[c].meta && s in All(img) && !All(img)[s].meta
    ensures Root(img, lay, c).Some? && Root(img, lay, c).value in All(img) && !All(img)[Root(img, lay, c).value].meta
    ensures var cs := ClassesAfter(img, lay, done);
            && cs[c].isa == All(img)[c].isa && cs[c].superClass == All(img)[c].superClass
            && cs[s].isa == All(img)[s].isa
            && cs[Root(img, lay, c).value].isa == IsaOf(img, Root(img, lay, c))
  {
    RootIsTop(img, lay, c);
    IsaStays(img, lay, done, c);
    IsaStays(img, lay, done, s);
    IsaStays(img, lay, done, Root(img, lay, c).value);
  }

  lemma SubLinked(img: Image, lay: Layout, done: seq<Cid>, c: Cid, mt: Cid, s: Cid, sm: Cid)
    requires Next(img, lay, done, c) && IsaOf(img, Some(c)) == Some(mt) && SuperOf(img, c) == Some(s)
    requires IsaOf(img, Some(s)) == Some(sm) && s in All(img)
    requires MayLoad(ClassesAfter(img, lay, done), c, LineOf(img, lay, c))
    ensures FourLinked(ClassesAfter(img, lay, done), c, mt, s, sm, LineOf(img, lay, c), IsaOf(img, Root(img, lay, c)))
    ensures !All(img)[s].meta && All(img)[sm].meta && Owner(img, lay, sm) == Some(s)
  {
    FourStructs(img, lay, c, mt, s, sm);
    SubLinks(img, lay, done, c, s);
  }

  lemma SubStep(img: Image, lay: Layout, done: seq<Cid>, c: Cid, mt: Cid, s: Cid, sm: Cid)
    requires Next(img, lay, done, c) && IsaOf(img, Some(c)) == Some(mt) && SuperOf(img, c) == Some(s)
    requires IsaOf(img, Some(s)) == Some(sm) && s in All(img)
    requires MayLoad(ClassesAfter(img, lay, done), c, LineOf(img, lay, c))
    ensures LoadedClasses(ClassesAfter(img, lay, done), c, LineOf(img, lay, c)) == ClassesAfter(img, lay, done + [c])
  {
    SubLinked(img, lay, done, c, mt, s, sm);
    SubStructs(img, lay, done, c, mt, s, sm);
    OthersStay(img, lay, done, c, mt, s, sm);
    SubAssembles(ClassesAfter(img, lay, done), ClassesAfter(img, lay, done + [c]), c, mt, s, sm,
                 LineOf(img, lay, c), IsaOf(img, Root(img, lay, c)));
  }

  lemma OthersStay(img: Image, lay: Layout, done: seq<Cid>, c: Cid, mt: Cid, s: Cid, sm: Cid)
    requires ImageOk(img, lay) && c in img.classes && !img.classes[c].meta
    requires IsaOf(img, Some(c)) == Some(mt) && SuperOf(img, c) == Some(s) && IsaOf(img, Some(s)) == Some(sm)
    ensures ClassesAfter(img, lay, done + [c]).Keys == ClassesAfter(img, lay, done).Keys
    ensures forall b :: b in ClassesAfter(img, lay, done) && b != c && b != mt && b != s && b != sm ==>
              ClassesAfter(img, lay, done + [c])[b] == ClassesAfter(img, lay, done)[b]
  {
    RestStays(img, lay, done, c);
  }

  lemma ClassesStep(img: Image, lay: Layout, done: seq<Cid>, c: Cid)
    requires Next(img, lay, done, c)
    ensures MayLoad(ClassesAfter(img, lay, done), c, LineOf(img, lay, c))
    ensures LoadedClasses(ClassesAfter(img, lay, done), c, LineOf(img, lay, c)) == ClassesAfter(img, lay, done + [c])
  {
    MayLoadNext(img, lay, done, c);
    var s := SuperOf(img, c);
    if s.None? {
      RootStep(img, lay, done, c);
    } else {
      ClassIsLinked(img, lay, c);
      ClassIsLinked(img, lay, s.value);
      SubStep(img, lay, done, c, IsaOf(img, Some(c)).value, s.value, IsaOf(img, s).value);
    }
  }

  // ---------------------------------------------------------------- the tables

  lemma PatchedNext(img: Image, lay: Layout, done: seq<Cid>, c: Cid, mt: Cid, b: Cid)
    requires ImageOk(img, lay) && c in img.classes && !img.classes[c].meta && IsaOf(img, Some(c)) == Some(mt)
             && b in img.classes
    ensures Patched(img, lay, done + [c], b) <==> Patched(img, lay, done, b) || b == c || b == mt
  {
    OwnMeta(img, lay, c, mt);
    if img.classes[b].meta {
      assert MetaImageOk(img, lay, b);
    }
  }

  /** Exactly the class and its metaclass are patched by the next step. */
  predicate PatchesTwo(img: Image, lay: Layout, done: seq<Cid>, c: Cid, mt: Cid) {
    && c in img.classes && mt in img.classes
    && forall b :: b in img.classes ==>
         (Patched(img, lay, done + [c], b) <==> Patched(img, lay, done, b) || b == c || b == mt)
  }

  lemma NextPatchesTwo(img: Image, lay: Layout, done: seq<Cid>, c: Cid, mt: Cid)
    requires ImageOk(img, lay) && c in img.classes && !img.classes[c].meta && IsaOf(img, Some(c)) == Some(mt)
    ensures PatchesTwo(img, lay, done, c, mt)
  {
    OwnMeta(img, lay, c, mt);
    forall b | b in img.classes
      ensures Patched(img, lay, done + [c], b) <==> Patched(img, lay, done, b) || b == c || b == mt
    {
      PatchedNext(img, lay, done, c, mt, b);
    }
  }

  lemma MethodsStep(img: Image, lay: Layout, done: seq<Cid>, c: Cid, mt: Cid)
    requires PatchesTwo(img, lay, done, c, mt)
    ensures MethodsAfter(img, lay, done + [c])
            == MethodsAfter(img, lay, done)[c := Converted(img, c)][mt := Converted(img, mt)]
  {
    assert NewMethods(img, lay, done + [c])
        == NewMethods(img, lay, done)[c := Converted(img, c)][mt := Converted(img, mt)];
    MergeThenUpdate(img.core.methods, NewMethods(img, lay, done), c, Converted(img, c), mt, Converted(img, mt));
  }

  lemma MergeThenUpdate(base: Methods, ms: Methods, c: Cid, x: seq<seq<Eid>>, d: Cid, y: seq<seq<Eid>>)
    ensures base + ms[c := x][d := y] == (base + ms)[c := x][d := y]
  {
  }

  lemma CachesStep(img: Image, lay: Layout, ca: Caches, done: seq<Cid>, c: Cid, mt: Cid)
    requires PatchesTwo(img, lay, done, c, mt)
    ensures CachesAfter(img, lay, ca, done + [c]) == CachesAfter(img, lay, ca, done)[c := []][mt := []]
  {
  }

  predicate IsCompiled(img: Image, e: Eid) {
    e.Compiled? && e.cls in img.lists && e.n < |img.lists[e.cls]|
  }

  lemma InCompiled(img: Image, e: Eid)
    ensures e in CompiledEntries(img) <==> IsCompiled(img, e)
  {
  }

  lemma EntryAfter(img: Image, lay: Layout, done: seq<Cid>, e: Eid)
    ensures var es, here := EntriesAfter(img, lay, done), IsCompiled(img, e) && Patched(img, lay, done, e.cls);
            && (e in es <==> here || e in img.core.entries)
            && (here ==> es[e] == img.lists[e.cls][e.n])
            && (!here && e in es ==> es[e] == img.core.entries[e])
  {
    InCompiled(img, e);
  }

  lemma EntryConverted(img: Image, c: Cid, e: Eid)
    ensures e in ConvertedEntries(img, c) <==> IsCompiled(img, e) && e.cls == c
    ensures e in ConvertedEntries(img, c) ==> ConvertedEntries(img, c)[e] == img.lists[c][e.n]
  {
  }

  lemma EntryStep(img: Image, lay: Layout, done: seq<Cid>, c: Cid, mt: Cid, e: Eid)
    requires PatchesTwo(img, lay, done, c, mt) && img.lists.Keys <= img.classes.Keys
    ensures var l := EntriesAfter(img, lay, done + [c]);
            var r := EntriesAfter(img, lay, done) + ConvertedEntries(img, c) + ConvertedEntries(img, mt);
            (e in l <==> e in r) && (e in l ==> l[e] == r[e])
  {
    EntryAfter(img, lay, done, e);
    EntryAfter(img, lay, done + [c], e);
    EntryConverted(img, c, e);
    EntryConverted(img, mt, e);
  }

  lemma EntriesStep(img: Image, lay: Layout, done: seq<Cid>, c: Cid, mt: Cid)
    requires PatchesTwo(img, lay, done, c, mt) && img.lists.Keys <= img.classes.Keys
    ensures EntriesAfter(img, lay, done + [c])
            == EntriesAfter(img, lay, done) + ConvertedEntries(img, c) + ConvertedEntries(img, mt)
  {
    var l := EntriesAfter(img, lay, done + [c]);
    var r := EntriesAfter(img, lay, done) + ConvertedEntries(img, c) + ConvertedEntries(img, mt);
    forall e
      ensures (e in l <==> e in r) && (e in l ==> l[e] == r[e])
    {
      EntryStep(img, lay, done, c, mt, e);
    }
  }

  lemma RegistryStep(img: Image, done: seq<Cid>, c: Cid)
    requires c in img.classes
    ensures RegistryAfter(img, done + [c]) == RegistryAfter(img, done)[img.classes[c].name := c]
  {
    assert (done + [c])[..|done|] == done;
  }

  /** Loading `c` in memory as it is after `done` gives memory as it is after `done` and `c`. */
  lemma LoadStep(img: Image, lay: Layout, ca: Caches, done: seq<Cid>, c: Cid)
    requires Next(img, lay, done, c)
    ensures MayLoad(After(img, lay, ca, done).core.classes, c, LineOf(img, lay, c))
    ensures LoadOne(After(img, lay, ca, done), img, c, LineOf(img, lay, c)) == After(img, lay, ca, done + [c])
  {
    ClassesStep(img, lay, done, c);
    ClassIsLinked(img, lay, c);
    IsaStays(img, lay, done, c);
    var mt := IsaOf(img, Some(c)).value;
    NextPatchesTwo(img, lay, done, c, mt);
    MethodsStep(img, lay, done, c, mt);
    CachesStep(img, lay, ca, done, c, mt);
    EntriesStep(img, lay, done, c, mt);
    RegistryStep(img, done, c);
  }

  lemma StartIsAfterNone(img: Image, lay: Layout, ca: Caches)
    requires ImageOk(img, lay)
    ensures After(img, lay, ca, []) == Start(img, ca)
  {
    StructsAtStart(img, lay);
    TablesAtStart(img, lay, ca);
  }

  lemma StructsAtStart(img: Image, lay: Layout)
    requires ImageOk(img, lay)
    ensures ClassesAfter(img, lay, []) == All(img)
  {
    forall b | b in All(img)
      ensures StructAfter(img, lay, [], b) == All(img)[b]
    {
      UntouchedAtStart(img, lay, b);
    }
  }

  lemma TablesAtStart(img: Image, lay: Layout, ca: Caches)
    ensures MethodsAfter(img, lay, []) == img.core.methods && EntriesAfter(img, lay, []) == img.core.entries
    ensures CachesAfter(img, lay, ca, []) == ca && RegistryAfter(img, []) == img.core.registry
  {
  }

  /** A subclass list that nothing has been put in front of. */
  lemma UntouchedAtStart(img: Image, lay: Layout, b: Cid)
    requires ImageOk(img, lay) && b in All(img)
    ensures StructAfter(img, lay, [], b) == All(img)[b]
  {
    if b in img.classes {
      assert FreshIn(img, b);
      if img.classes[b].meta {
        assert MetaImageOk(img, lay, b);
      } else {
        assert ClassImageOk(img, lay, b);
      }
    } else {
      assert KidsOk(img.core.classes, img.shape, b);
    }
  }
}
