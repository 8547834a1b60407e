/**
  Loading a whole module: the selectors first, then the classes, whose method lists refer to the
  selectors by address.
*/
module ModuleLoad {
  import opened Options
  import opened Selectors
  import opened ClassTypes
  import opened ClassForest
  import opened Dispatch
  import opened LoaderImage
  import opened LoaderStep
  import opened LoaderLaws
  import opened LoaderOrder

  datatype CompiledMethod = CompiledMethod(imp: Imp, sel: SelPtr, types: string)

  type CompiledLists = map<Cid, seq<CompiledMethod>>

  /** Every selector a list refers to is in the selector section and has a name. */
  predicate Refers(st: Store, section: seq<SelPtr>, lists: CompiledLists) {
    forall c, k :: c in lists && 0 <= k < |lists[c]| ==> lists[c][k].sel in section && Named(st, lists[c][k].sel)
  }

  function ResolvedEntry(st: Store, cm: CompiledMethod): MethodEntry
    requires cm.sel in st.selectors
  {
    MethodEntry(st.selectors[cm.sel], cm.imp, cm.types)
  }

  /** The image's lists are the compiled lists, with the selectors that `st` has at their
      addresses. */
  predicate Resolves(img: Image, st: Store, lists: CompiledLists) {
    && img.lists.Keys == lists.Keys
    && (forall c, k :: c in lists && 0 <= k < |lists[c]| ==> lists[c][k].sel in st.selectors)
    && (forall c :: c in lists ==> |img.lists[c]| == |lists[c]|)
    && (forall c, k :: c in lists && 0 <= k < |lists[c]| ==> img.lists[c][k] == ResolvedEntry(st, lists[c][k]))
  }

  /** A compiled method matches a selector registered by name, at any later time, exactly when
      that is the method's name. */
  lemma CompiledMatches(st: Store, section: seq<SelPtr>, lists: CompiledLists, img: Image,
                        c: Cid, k: nat, events: seq<Event>, name: string)
    requires TablesOk(st) && Refers(st, section, lists) && Resolves(img, LoadSelectors(st, section), lists)
    requires c in lists && k < |lists[c]|
    ensures var (st', s) := Register(HappenAll(LoadSelectors(st, section), events), name);
            s in st'.selectors && (SelEq(img.lists[c][k].sel, st'.selectors[s])
                <==> NameOf(st, lists[c][k].sel) == name)
  {
    var p := lists[c][k].sel;
    var st1 := LoadSelectors(st, section);
    var st2 := HappenAll(st1, events);
    LoadExtends(st, section);
    RunsExtend(st1, events);
    RegisterExtends(st2, name);
    CompiledMeetsRegistered(st, section, p, events, name);
    assert Interned(st1, p) && Interned(st2, p);
    assert img.lists[c][k] == ResolvedEntry(st1, lists[c][k]);
  }

  /** `r` is the first of the compiled methods of `c` that is called `name`. */
  predicate FirstNamed(st: Store, raw: seq<CompiledMethod>, c: Cid, name: string, r: Option<Eid>)
    requires forall k :: 0 <= k < |raw| ==> Named(st, raw[k].sel)
  {
    if r.None? then forall k :: 0 <= k < |raw| ==> NameOf(st, raw[k].sel) != name
    else
      && r.value.Compiled? && r.value.cls == c && r.value.n < |raw| && NameOf(st, raw[r.value.n].sel) == name
      && forall j :: 0 <= j < r.value.n ==> NameOf(st, raw[j].sel) != name
  }

  lemma FirstMatchIsFirstNamed(st: Store, raw: seq<CompiledMethod>, c: Cid, name: string,
                               es: Entries, ids: seq<Eid>, sel: Selector)
    requires |ids| == |raw| && forall k :: 0 <= k < |raw| ==> Named(st, raw[k].sel)
    requires forall k: nat :: k < |raw| ==> ids[k] == Compiled(c, k)
    requires forall k :: 0 <= k < |raw| ==> (Matches(es, ids[k], sel) <==> NameOf(st, raw[k].sel) == name)
    ensures FirstNamed(st, raw, c, name, FindIn(es, ids, sel))
  {
    FindInFirst(es, ids, sel);
    if FindIn(es, ids, sel).None? {
      forall k | 0 <= k < |raw|
        ensures NameOf(st, raw[k].sel) != name
      {
        assert !Matches(es, ids[k], sel);
      }
    } else {
      var k :| 0 <= k < |ids| && ids[k] == FindIn(es, ids, sel).value && Matches(es, ids[k], sel)
               && forall j :: 0 <= j < k ==> !Matches(es, ids[j], sel);
      forall j | 0 <= j < k
        ensures NameOf(st, raw[j].sel) != name
      {
        assert !Matches(es, ids[j], sel);
      }
    }
  }

  lemma LoadedEntryMatches(st: Store, section: seq<SelPtr>, lists: CompiledLists, img: Image, lay: Layout,
                           done: seq<Cid>, c: Cid, k: nat, events: seq<Event>, name: string)
    requires TablesOk(st) && Refers(st, section, lists) && Resolves(img, LoadSelectors(st, section), lists)
    requires ImageOk(img, lay) && Complete(img, done) && c in lists && k < |lists[c]|
    ensures var (st', s) := Register(HappenAll(LoadSelectors(st, section), events), name);
            s in st'.selectors
            && (Matches(EntriesAfter(img, lay, done), Compiled(c, k), st'.selectors[s])
               <==> NameOf(st, lists[c][k].sel) == name)
  {
    CompiledMatches(st, section, lists, img, c, k, events, name);
    LoadedEntry(img, lay, done, c, k);
  }

  lemma LoadedEntry(img: Image, lay: Layout, done: seq<Cid>, c: Cid, k: nat)
    requires ImageOk(img, lay) && Complete(img, done) && c in img.lists && k < |img.lists[c]|
    ensures Compiled(c, k) in EntriesAfter(img, lay, done)
    ensures EntriesAfter(img, lay, done)[Compiled(c, k)] == img.lists[c][k]
  {
    AllPatched(img, lay, done, c);
    EntryAfter(img, lay, done, Compiled(c, k));
  }

  /** After a module has been loaded, the method found in a class for a selector registered by
      name is the first compiled method with that name, whatever was registered and loaded in
      between, and none if there is no such method. */
  lemma MethodsAnswerToTheirNames(st: Store, section: seq<SelPtr>, lists: CompiledLists, img: Image, lay: Layout,
                                  done: seq<Cid>, c: Cid, events: seq<Event>, name: string)
    requires TablesOk(st) && Refers(st, section, lists) && Resolves(img, LoadSelectors(st, section), lists)
    requires ImageOk(img, lay) && Complete(img, done) && c in lists
    ensures var (st', s) := Register(HappenAll(LoadSelectors(st, section), events), name);
            s in st'.selectors
            && FirstNamed(st, lists[c], c, name,
                          FindOwn(MethodsAfter(img, lay, done), EntriesAfter(img, lay, done), c, st'.selectors[s]))
  {
    var st2 := HappenAll(LoadSelectors(st, section), events);
    var (st', s) := Register(st2, name);
    LoadExtends(st, section);
    RunsExtend(LoadSelectors(st, section), events);
    RegisterExtends(st2, name);
    OwnChain(img, lay, done, c);
    ConvertedFlat(img, c);
    var es, ids := EntriesAfter(img, lay, done), Flat(Converted(img, c));
    forall k: nat | k < |lists[c]|
      ensures Matches(es, ids[k], st'.selectors[s]) <==> NameOf(st, lists[c][k].sel) == name
    {
      LoadedEntryMatches(st, section, lists, img, lay, done, c, k, events, name);
    }
    FirstMatchIsFirstNamed(st, lists[c], c, name, es, ids, st'.selectors[s]);
  }

  lemma OwnChain(img: Image, lay: Layout, done: seq<Cid>, c: Cid)
    requires ImageOk(img, lay) && Complete(img, done) && c in img.classes
    ensures ChainOf(MethodsAfter(img, lay, done), c) == Flat(Converted(img, c))
  {
    AllPatched(img, lay, done, c);
  }

  /** The entry made of a compiled method has its IMP and its types. */
  lemma EntryOfMethod(st: Store, section: seq<SelPtr>, lists: CompiledLists, img: Image, lay: Layout,
                      done: seq<Cid>, c: Cid, k: nat)
    requires Resolves(img, LoadSelectors(st, section), lists)
    requires ImageOk(img, lay) && Complete(img, done) && c in lists && k < |lists[c]|
    ensures var es := EntriesAfter(img, lay, done);
            && Compiled(c, k) in es
            && es[Compiled(c, k)].imp == lists[c][k].imp && es[Compiled(c, k)].types == lists[c][k].types
  {
    LoadedEntry(img, lay, done, c, k);
    assert img.lists[c][k] == ResolvedEntry(LoadSelectors(st, section), lists[c][k]);
  }

  /** What a message calls whose receiver's isa is `c`, a loaded class or metaclass: the first
      compiled method of `c` that has the name, with its own IMP and types, and if there is none
      what is found further up. */
  predicate Calls(st: Store, raw: seq<CompiledMethod>, ms: Methods, es: Entries, walk: seq<Cid>, name: string,
                  sel: Selector)
    requires walk != [] && forall k :: 0 <= k < |raw| ==> Named(st, raw[k].sel)
  {
    var found := FindAlong(ms, es, walk, sel);
    && (forall k :: 0 <= k < |raw| && NameOf(st, raw[k].sel) == name
                    && (forall j :: 0 <= j < k ==> NameOf(st, raw[j].sel) != name) ==>
          && found.Some? && found.value in es
          && es[found.value].imp == raw[k].imp && es[found.value].types == raw[k].types
          && LookupAlong(ms, es, walk, sel) == Some(raw[k].imp))
    && ((forall k :: 0 <= k < |raw| ==> NameOf(st, raw[k].sel) != name) ==>
          found == FindAlong(ms, es, walk[1..], sel))
  }

  lemma FirstNamedIsCalled(st: Store, raw: seq<CompiledMethod>, c: Cid, ms: Methods, es: Entries, walk: seq<Cid>,
                           name: string, sel: Selector)
    requires walk != [] && walk[0] == c && forall k :: 0 <= k < |raw| ==> Named(st, raw[k].sel)
    requires FirstNamed(st, raw, c, name, FindOwn(ms, es, c, sel))
    requires forall k: nat :: k < |raw| ==>
               Compiled(c, k) in es && es[Compiled(c, k)].imp == raw[k].imp && es[Compiled(c, k)].types == raw[k].types
    ensures Calls(st, raw, ms, es, walk, name, sel)
  {
    var own := FindOwn(ms, es, c, sel);
    forall k | 0 <= k < |raw| && NameOf(st, raw[k].sel) == name
               && forall j :: 0 <= j < k ==> NameOf(st, raw[j].sel) != name
      ensures own == Some(Compiled(c, k))
    {
      assert own.Some?;
      assert own.value.n == k;
    }
  }

  /** So after a module has been loaded, into whatever runtime, a message by name calls the compiled
      method of that name. */
  lemma MessagesCallTheirMethods(st: Store, section: seq<SelPtr>, lists: CompiledLists, img: Image, lay: Layout,
                                 done: seq<Cid>, c: Cid, events: seq<Event>, name: string, walk: seq<Cid>)
    requires TablesOk(st) && Refers(st, section, lists) && Resolves(img, LoadSelectors(st, section), lists)
    requires ImageOk(img, lay) && Complete(img, done) && c in lists
    requires Walks(ClassesAfter(img, lay, done), Some(c), walk)
    ensures walk != []
    ensures var (st', s) := Register(HappenAll(LoadSelectors(st, section), events), name);
            && s in st'.selectors
            && Calls(st, lists[c], MethodsAfter(img, lay, done), EntriesAfter(img, lay, done), walk, name,
                     st'.selectors[s])
  {
    var (st', s) := Register(HappenAll(LoadSelectors(st, section), events), name);
    MethodsAnswerToTheirNames(st, section, lists, img, lay, done, c, events, name);
    forall k: nat | k < |lists[c]|
      ensures var es := EntriesAfter(img, lay, done);
              Compiled(c, k) in es && es[Compiled(c, k)].imp == lists[c][k].imp
              && es[Compiled(c, k)].types == lists[c][k].types
    {
      EntryOfMethod(st, section, lists, img, lay, done, c, k);
    }
    FirstNamedIsCalled(st, lists[c], c, MethodsAfter(img, lay, done), EntriesAfter(img, lay, done), walk, name,
                       st'.selectors[s]);
  }
}
