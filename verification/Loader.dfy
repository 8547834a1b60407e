/**
  The class loader in the imperative form of the source.
*/
module Loader {
  import opened Options
  import opened ClassTypes
  import opened ClassForest
  import opened Dispatch
  import opened DispatchRuns
  import opened LoaderImage
  import opened LoaderStep
  import opened ClassRegistry

  lemma ListedNext(section: seq<Option<Cid>>, k: nat)
    requires k < |section|
    ensures Listed(section[..k + 1])
            == if section[k].Some? then Listed(section[..k]) + [section[k].value] else Listed(section[..k])
  {
    assert section[..k + 1][..k] == section[..k];
  }

  lemma {:induction false} ListedPrefix(section: seq<Option<Cid>>, k: nat)
    requires k <= |section|
    ensures Listed(section[..k]) <= Listed(section)
    decreases |section| - k
  {
    if k < |section| {
      ListedNext(section, k);
      ListedPrefix(section, k + 1);
    } else {
      assert section[..k] == section;
    }
  }

  /** The next class can be loaded after those before it. */
  lemma PrefixNext(img: Image, lay: Layout, all: seq<Cid>, done: seq<Cid>, c: Cid)
    requires ImageOk(img, lay) && Loadable(img, all) && done + [c] <= all
    ensures Next(img, lay, done, c) && Loadable(img, done + [c])
  {
    assert all[|done|] == c && done == all[..|done|];
    forall k | 0 <= k < |done|
      ensures done[k] != c
    {
      assert all[k] == done[k];
    }
  }

  predicate IsaInside(cs: Classes, b: Cid) {
    b in cs && cs[b].isa.Some? ==> cs[b].isa.value in cs
  }

  /** `walk` is the superclass chain of `c`; its metaclass is not on it. */
  ghost predicate Reachable(cs: Classes, c: Cid, walk: seq<Cid>) {
    && c in cs && Walks(cs, Some(c), walk)
    && (cs[c].isa.Some? ==> cs[c].isa.value !in walk)
    && forall b {:trigger IsaInside(cs, b)} :: b in walk ==> IsaInside(cs, b)
  }

  lemma {:induction false} WalkEnds(cs: Classes, from: Option<Cid>, walk: seq<Cid>)
    requires Walks(cs, from, walk) && walk != []
    ensures walk[|walk| - 1] in cs
    decreases |walk|
  {
    if |walk| > 1 {
      WalkEnds(cs, cs[walk[0]].superClass, walk[1..]);
    }
  }

  lemma ReachableMayLoad(cs: Classes, c: Cid, walk: seq<Cid>)
    requires Reachable(cs, c, walk)
    ensures MayLoad(cs, c, walk)
  {
    WalkEnds(cs, Some(c), walk);
    assert IsaInside(cs, walk[0]);
    var rest := walk[1..];
    assert Walks(cs, cs[c].superClass, rest);
    assert rest != [] ==> rest[0] in cs;
  }

  lemma ReachableAfter(img: Image, lay: Layout, done: seq<Cid>, c: Cid)
    requires Next(img, lay, done, c)
    ensures Reachable(ClassesAfter(img, lay, done), c, LineOf(img, lay, c))
  {
    ClassWalk(img, lay, done, c);
    LineOfClass(img, lay, c);
    var cs := ClassesAfter(img, lay, done);
    NotOnItsLine(img, lay, c);
    IsaStays(img, lay, done, c);
    forall b | b in LineOf(img, lay, c)
      ensures IsaInside(cs, b)
    {
      ClassIsLinked(img, lay, b);
      IsaStays(img, lay, done, b);
    }
  }

  /** The metaclass of a class is not one of its ancestors. */
  lemma NotOnItsLine(img: Image, lay: Layout, c: Cid)
    requires ImageOk(img, lay) && c in All(img) && !All(img)[c].meta
    ensures All(img)[c].isa.Some? ==> All(img)[c].isa.value !in LineOf(img, lay, c)
  {
    ClassIsLinked(img, lay, c);
    LineOfClass(img, lay, c);
  }

  lemma {:induction false} ClassWalk(img: Image, lay: Layout, done: seq<Cid>, c: Cid)
    requires ImageOk(img, lay) && c in All(img) && !All(img)[c].meta
    ensures Walks(ClassesAfter(img, lay, done), Some(c), LineOf(img, lay, c))
    decreases |LineOf(img, lay, c)|
  {
    ClassIsLinked(img, lay, c);
    IsaStays(img, lay, done, c);
    var s := SuperOf(img, c);
    assert LineOf(img, lay, c)[1..] == if s.Some? then LineOf(img, lay, s.value) else [];
    if s.Some? {
      ClassWalk(img, lay, done, s.value);
    }
  }

  /** Loading one class after another. */
  function LoadAll(img: Image, lay: Layout, ca: Caches, ids: seq<Cid>): Memory {
    if ids == [] then Start(img, ca)
    else
      var m, c := LoadAll(img, lay, ca, ids[..|ids| - 1]), ids[|ids| - 1];
      if MayLoad(m.core.classes, c, LineOf(img, lay, c)) then LoadOne(m, img, c, LineOf(img, lay, c)) else m
  }

  /** Loading class after class never gets stuck, and memory is always as described. */
  lemma {:induction false} LoadAllIsAfter(img: Image, lay: Layout, ca: Caches, ids: seq<Cid>)
    requires ImageOk(img, lay) && Loadable(img, ids)
    ensures LoadAll(img, lay, ca, ids) == After(img, lay, ca, ids)
    decreases |ids|
  {
    if ids == [] {
      StartIsAfterNone(img, lay, ca);
    } else {
      var front, c := ids[..|ids| - 1], ids[|ids| - 1];
      assert ids == front + [c];
      PrefixNext(img, lay, ids, front, c);
      LoadAllIsAfter(img, lay, ca, front);
      LoadAllStep(img, lay, ca, front, c);
    }
  }

  lemma LoadAllStep(img: Image, lay: Layout, ca: Caches, ids: seq<Cid>, c: Cid)
    requires Next(img, lay, ids, c)
    ensures LoadAll(img, lay, ca, ids) == After(img, lay, ca, ids)
            ==> LoadAll(img, lay, ca, ids + [c]) == After(img, lay, ca, ids + [c])
  {
    if LoadAll(img, lay, ca, ids) == After(img, lay, ca, ids) {
      LoadStep(img, lay, ca, ids, c);
      LoadAllOnward(img, lay, ca, ids, c, After(img, lay, ca, ids));
    }
  }

  lemma LoadAllOnward(img: Image, lay: Layout, ca: Caches, ids: seq<Cid>, c: Cid, m: Memory)
    requires LoadAll(img, lay, ca, ids) == m && MayLoad(m.core.classes, c, LineOf(img, lay, c))
    ensures LoadAll(img, lay, ca, ids + [c]) == LoadOne(m, img, c, LineOf(img, lay, c))
  {
    assert (ids + [c])[..|ids|] == ids;
  }

  lemma LoadAllNext(img: Image, lay: Layout, ca: Caches, all: seq<Cid>, ids: seq<Cid>, c: Cid)
    requires ImageOk(img, lay) && Loadable(img, all) && ids + [c] <= all
    ensures var m := LoadAll(img, lay, ca, ids);
            && Reachable(m.core.classes, c, LineOf(img, lay, c)) && MayLoad(m.core.classes, c, LineOf(img, lay, c))
            && LoadAll(img, lay, ca, ids + [c]) == LoadOne(m, img, c, LineOf(img, lay, c))
  {
    PrefixNext(img, lay, all, ids, c);
    LoadAllIsAfter(img, lay, ca, ids);
    ReachableAfter(img, lay, ids, c);
    ReachableMayLoad(ClassesAfter(img, lay, ids), c, LineOf(img, lay, c));
    assert (ids + [c])[..|ids|] == ids;
  }

  /** The entries of the first `k` compiled methods. */
  function FirstEntries(list: seq<MethodEntry>, c: Cid, k: nat): Entries
    requires k <= |list|
  {
    map j | 0 <= j < k :: Compiled(c, j) := list[j]
  }

  lemma OneEntryMore(list: seq<MethodEntry>, c: Cid, k: nat)
    requires k < |list|
    ensures FirstEntries(list, c, k + 1) == FirstEntries(list, c, k)[Compiled(c, k) := list[k]]
  {
  }

  /** The runtime list, and its entries, of a compiled method list. */
  method ConvertMethodList(lists: Lists, ghost img: Image, c: Cid) returns (chain: seq<seq<Eid>>, es: Entries)
    requires lists == img.lists
    ensures chain == Converted(img, c) && es == ConvertedEntries(img, c)
  {
    if c !in lists || lists[c] == [] {
      return [], map[];
    }
    var list := lists[c];
    var ids: seq<Eid> := [];
    es := map[];
    var k := 0;
    while k < |list|
      invariant k <= |list| && |ids| == k && forall j: nat :: j < k ==> ids[j] == Compiled(c, j)
      invariant es == FirstEntries(list, c, k)
    {
      OneEntryMore(list, c, k);
      ids := ids + [Compiled(c, k)];
      es := es[Compiled(c, k) := list[k]];
      k := k + 1;
    }
    assert ids == Converted(img, c)[0];
    chain := [ids];
  }

  method PatchClass(rt: Runtime, lists: Lists, ghost img: Image, c: Cid)
    requires c in rt.classes && lists == img.lists
    modifies rt`classes, rt`methods, rt`entries, rt`caches
    ensures rt.Contents() == Patch(old(rt.Contents()), img, c)
  {
    if rt.classes[c].instanceSize < 0 {
      rt.classes := rt.classes[c := rt.classes[c].(instanceSize := -rt.classes[c].instanceSize)];
    }
    if rt.classes[c].instanceSize == 0 && rt.classes[c].superClass.None? {
      rt.classes := rt.classes[c := rt.classes[c].(instanceSize := OBJECT_SIZE)];
    }
    var chain, es := ConvertMethodList(lists, img, c);
    rt.methods := rt.methods[c := chain];
    rt.entries := rt.entries + es;
    rt.caches := rt.caches[c := []];
    assert rt.classes == PatchSize(old(rt.classes), c);
  }

  /** Walks the superclass links from `from` to the class that has none. */
  method RootOf(rt: Runtime, from: Cid, ghost walk: seq<Cid>) returns (root: Cid)
    requires Walks(rt.classes, Some(from), walk)
    ensures walk != [] && root == walk[|walk| - 1] && root in rt.classes
  {
    root := from;
    ghost var rest := walk;
    while rt.classes[root].superClass.Some?
      invariant Walks(rt.classes, Some(root), rest) && rest != [] && rest[|rest| - 1] == walk[|walk| - 1]
      decreases |rest|
    {
      root := rt.classes[root].superClass.value;
      rest := rest[1..];
    }
  }

  /** The links of the metaclass, once the size and the methods of both are in place. */
  method LinkMeta(rt: Runtime, c: Cid, mt: Cid, ghost walk: seq<Cid>)
    requires c in rt.classes && mt in rt.classes && Walks(rt.classes, Some(c), walk) && mt !in walk
    modifies rt`classes
    ensures walk != [] && walk[|walk| - 1] in old(rt.classes)
    ensures old(rt.classes)[c].superClass.Some? ==> old(rt.classes)[c].superClass.value in old(rt.classes)
    ensures rt.classes == FixMeta(old(rt.classes), c, mt, walk)
  {
    var s := rt.classes[c].superClass;
    if s.Some? {
      assert walk[1..] != [] && walk[1..][0] == s.value && s.value in walk;
      rt.classes := rt.classes[mt := rt.classes[mt].(superClass := rt.classes[s.value].isa)];
      WalkSame(old(rt.classes), rt.classes, s, walk[1..]);
      var root := RootOf(rt, s.value, walk[1..]);
      assert root in walk;
      rt.classes := rt.classes[mt := rt.classes[mt].(isa := rt.classes[root].isa)];
    } else {
      assert walk[1..] == [];
      rt.classes := rt.classes[mt := rt.classes[mt].(isa := Some(mt))];
      rt.classes := rt.classes[mt := rt.classes[mt].(superClass := Some(c))];
    }
  }

  /** Puts `c` in front of the subclass list of `s`. */
  method Wire(rt: Runtime, s: Cid, c: Cid)
    requires s in rt.classes && c in rt.classes
    modifies rt`classes
    ensures rt.classes == WireInFront(old(rt.classes), s, c)
  {
    rt.classes := rt.classes[c := rt.classes[c].(siblingClass := rt.classes[s].subclassList)];
    rt.classes := rt.classes[s := rt.classes[s].(subclassList := Some(c))];
  }

  method WireMetaclass(rt: Runtime, c: Cid, mt: Cid)
    requires c in rt.classes && mt in rt.classes
    requires rt.classes[mt].superClass.Some? ==> rt.classes[mt].superClass.value in rt.classes
    modifies rt`classes
    ensures rt.classes == WireMeta(old(rt.classes), c, mt)
  {
    var s := rt.classes[mt].superClass;
    if s.Some? {
      var rootMetaToRootClass := rt.classes[c].superClass.None? && !rt.classes[s.value].meta;
      if !rootMetaToRootClass {
        Wire(rt, s.value, mt);
      }
    }
  }

  /** One class of the section, and its metaclass. */
  method LoadClass(rt: Runtime, lists: Lists, ghost img: Image, c: Cid, ghost walk: seq<Cid>)
    requires Reachable(rt.classes, c, walk) && lists == img.lists
    modifies rt`classes, rt`methods, rt`entries, rt`caches, rt`registry
    ensures MayLoad(old(rt.classes), c, walk)
    ensures rt.Contents() == LoadOne(old(rt.Contents()), img, c, walk)
  {
    ghost var m := rt.Contents();
    ReachableMayLoad(rt.classes, c, walk);
    var mt := rt.classes[c].isa;
    PatchClass(rt, lists, img, c);
    if mt.Some? {
      PatchClass(rt, lists, img, mt.value);
      WalkSame(m.core.classes, rt.classes, Some(c), walk);
      LinkMeta(rt, c, mt.value, walk);
    }
    var s := rt.classes[c].superClass;
    if s.Some? {
      Wire(rt, s.value, c);
    }
    if mt.Some? {
      assert s.Some? ==> s.value in walk && IsaInside(m.core.classes, s.value);
      WireMetaclass(rt, c, mt.value);
    }
    rt.RegisterLoadedClass(c);
  }

  /** The loop over a section; null sentinels are skipped. */
  method LoadListed(rt: Runtime, lists: Lists, ghost img: Image, section: seq<Option<Cid>>, ghost lay: Layout)
    requires ImageOk(img, lay) && Loadable(img, Listed(section)) && rt.Contents() == Start(img, rt.caches)
    requires lists == img.lists
    modifies rt`classes, rt`methods, rt`entries, rt`caches, rt`registry
    ensures rt.Contents() == LoadAll(img, lay, old(rt.caches), Listed(section))
  {
    var k := 0;
    while k < |section|
      invariant k <= |section|
      invariant rt.Contents() == LoadAll(img, lay, old(rt.caches), Listed(section[..k]))
    {
      ListedNext(section, k);
      ListedPrefix(section, k + 1);
      if section[k].Some? {
        LoadAllNext(img, lay, old(rt.caches), Listed(section), Listed(section[..k]), section[k].value);
        LoadClass(rt, lists, img, section[k].value, LineOf(img, lay, section[k].value));
      }
      k := k + 1;
    }
    assert section[..k] == section;
  }

  /** Loads the classes of a module into a runtime in use.  The first step stands for the dynamic
      linker, which maps the compiled structs into memory. */
  method LoadModule(rt: Runtime, classes: Classes, lists: Lists, next: nat,
                    section: seq<Option<Cid>>, ghost lay: Layout)
    requires rt.Ok() && Contract(rt.Contents().core, rt.shape, Loads(classes, lists, next, lay, section))
    modifies rt
    ensures rt.Contents() == Cached(old(rt.Contents()), old(rt.shape), Loads(classes, lists, next, lay, section)).0
    ensures rt.shape == ShapeAfter(old(rt.Contents().core), old(rt.shape), Loads(classes, lists, next, lay, section))
    ensures rt.Ok()
  {
    ghost var m, call := rt.Contents(), Loads(classes, lists, next, lay, section);
    ghost var shape := ShapeAfter(m.core, rt.shape, call);
    StepRefines(m, rt.shape, call);
    LoadAllIsAfter(ModuleOf(m.core, rt.shape, call), lay, m.caches, Listed(section));
    MapAndLoad(rt, classes, lists, next, section, lay);
    rt.shape := shape;
  }

  method MapAndLoad(rt: Runtime, classes: Classes, lists: Lists, next: nat,
                    section: seq<Option<Cid>>, ghost lay: Layout)
    requires ImageOk(Image(rt.Contents().core, rt.shape, classes, lists, next), lay)
    requires Loadable(Image(rt.Contents().core, rt.shape, classes, lists, next), Listed(section))
    modifies rt`classes, rt`methods, rt`entries, rt`caches, rt`registry, rt`next
    ensures var img := Image(old(rt.Contents().core), rt.shape, classes, lists, next);
            rt.Contents() == LoadAll(img, lay, old(rt.caches), Listed(section))
  {
    ghost var img := Image(rt.Contents().core, rt.shape, classes, lists, next);
    rt.classes := rt.classes + classes;
    rt.next := next;
    LoadListed(rt, lists, img, section, lay);
  }
}
