/**
  Selector interning: the name table, the selector table, and the loader's fix-up of compiled
  selectors, on an explicit memory of C strings and selector structs.
*/
module Selectors {
  import opened Options

  /** Address of a C string. */
  type NamePtr = nat
  /** Address of a selector struct. */
  type SelPtr = nat

  /** A selector struct; `name` is null only in the sentinels of a compiled section. */
  datatype Selector = Selector(name: Option<NamePtr>, types: Option<string>)

  /** Selectors are compared by their name pointers. */
  predicate SelEq(a: Selector, b: Selector) {
    a.name == b.name
  }

  datatype Store = Store(
    cstrings: map<NamePtr, string>,
    selectors: map<SelPtr, Selector>,
    names: map<string, NamePtr>,
    sels: map<string, SelPtr>,
    next: nat)

  // ---------------------------------------------------------------- the operations as functions

  function Intern(st: Store, name: string): (Store, NamePtr) {
    if name in st.names then (st, st.names[name])
    else
      (st.(cstrings := st.cstrings[st.next := name], names := st.names[name := st.next], next := st.next + 1),
       st.next)
  }

  function Register(st: Store, name: string): (Store, SelPtr) {
    if name in st.sels then (st, st.sels[name])
    else
      var (st1, p) := Intern(st, name);
      (AddSelector(st1, name, p), st1.next)
  }

  /** A selector struct whose name can be read. */
  predicate Named(st: Store, s: SelPtr) {
    s in st.selectors && st.selectors[s].name.Some? && st.selectors[s].name.value in st.cstrings
  }

  function NameOf(st: Store, s: SelPtr): string
    requires Named(st, s)
  {
    st.cstrings[st.selectors[s].name.value]
  }

  /** Null sentinels are skipped; the name pointer of any other selector is replaced by the
      interned one. */
  function FixUp(st: Store, s: SelPtr): Store {
    if !Named(st, s) then st
    else
      var (st1, p) := Intern(st, NameOf(st, s));
      st1.(selectors := st1.selectors[s := st1.selectors[s].(name := Some(p))])
  }

  function LoadSelectors(st: Store, section: seq<SelPtr>): Store
    decreases |section|
  {
    if section == [] then st else LoadSelectors(FixUp(st, section[0]), section[1..])
  }

  // ---------------------------------------------------------------- invariant

  ghost predicate TablesOk(st: Store) {
    && (forall p :: p in st.cstrings ==> p < st.next)
    && (forall s :: s in st.selectors ==> s < st.next && (st.selectors[s].name.Some? ==> Named(st, s)))
    && (forall n :: n in st.names ==> st.names[n] in st.cstrings && st.cstrings[st.names[n]] == n)
    && (forall n :: n in st.sels ==> Interned(st, st.sels[n]) && NameOf(st, st.sels[n]) == n)
  }

  /** The selector carries the one pointer of its name. */
  predicate Interned(st: Store, s: SelPtr) {
    Named(st, s) && NameOf(st, s) in st.names && st.names[NameOf(st, s)] == st.selectors[s].name.value
  }

  /** Interned selectors are equal exactly when their names are equal strings, whatever their
      types. */
  lemma EqualIffSameName(st: Store, a: SelPtr, b: SelPtr)
    requires TablesOk(st) && Interned(st, a) && Interned(st, b)
    ensures SelEq(st.selectors[a], st.selectors[b]) <==> NameOf(st, a) == NameOf(st, b)
  {
  }

  /** What every operation preserves: interned pointers and names, selector tables and the
      selectors that are interned already; other selectors keep their names. */
  ghost predicate Extends(st: Store, st': Store) {
    && (forall n :: n in st.names ==> n in st'.names && st'.names[n] == st.names[n])
    && (forall n :: n in st.sels ==> n in st'.sels && st'.sels[n] == st.sels[n])
    && (forall s :: s in st.selectors ==> s in st'.selectors && st'.selectors[s].types == st.selectors[s].types)
    && (forall s :: Named(st, s) ==> Named(st', s) && NameOf(st', s) == NameOf(st, s))
    && (forall s :: Interned(st, s) ==> Interned(st', s) && st'.selectors[s] == st.selectors[s])
  }

  lemma InternExtends(st: Store, name: string)
    requires TablesOk(st)
    ensures var (st', p) := Intern(st, name);
            && TablesOk(st') && Extends(st, st') && name in st'.names && st'.names[name] == p
            && st'.selectors == st.selectors && st'.sels == st.sels
  {
  }

  /** A fresh selector struct with an interned name, entered in the selector table. */
  function AddSelector(st: Store, name: string, p: NamePtr): Store {
    st.(selectors := st.selectors[st.next := Selector(Some(p), None)], sels := st.sels[name := st.next],
        next := st.next + 1)
  }

  lemma AddSelectorExtends(st: Store, name: string)
    requires TablesOk(st) && name in st.names && name !in st.sels
    ensures Extends(st, AddSelector(st, name, st.names[name]))
  {
    assert st.next !in st.selectors;
  }

  lemma AddSelectorValid(st: Store, name: string)
    requires TablesOk(st) && name in st.names && name !in st.sels
    ensures var st' := AddSelector(st, name, st.names[name]);
            TablesOk(st') && Interned(st', st.next) && NameOf(st', st.next) == name
  {
    var st' := AddSelector(st, name, st.names[name]);
    AddSelectorExtends(st, name);
    assert Interned(st', st.next);
    forall n | n in st'.sels
      ensures Interned(st', st'.sels[n]) && NameOf(st', st'.sels[n]) == n
    {
      if n != name {
        assert Interned(st, st.sels[n]);
      }
    }
  }

  lemma RegisterExtends(st: Store, name: string)
    requires TablesOk(st)
    ensures var (st', s) := Register(st, name);
            && TablesOk(st') && Extends(st, st')
            && Interned(st', s) && NameOf(st', s) == name && name in st'.sels && st'.sels[name] == s
  {
    if name !in st.sels {
      var st1 := Intern(st, name).0;
      InternExtends(st, name);
      AddSelectorExtends(st1, name);
      AddSelectorValid(st1, name);
      ExtendsTransitive(st, st1, Register(st, name).0);
    }
  }

  /** Registering a name that has no selector yet makes one, without types; for any other name it
      changes nothing. */
  lemma RegisterMakesOne(st: Store, name: string)
    requires TablesOk(st)
    ensures var (st', s) := Register(st, name);
            && (name in st.sels ==> st' == st && s == st.sels[name])
            && (name !in st.sels ==>
                  && s !in st.selectors && st'.selectors.Keys == st.selectors.Keys + {s}
                  && st'.selectors[s].types == None && st'.sels.Keys == st.sels.Keys + {name}
                  && Named(st', s) && NameOf(st', s) == name)
  {
    RegisterExtends(st, name);
    if name !in st.sels {
      InternExtends(st, name);
    }
  }

  lemma FixUpExtends(st: Store, s: SelPtr)
    requires TablesOk(st)
    ensures var st' := FixUp(st, s);
            && TablesOk(st') && Extends(st, st') && (Named(st, s) ==> Interned(st', s))
  {
    if Named(st, s) {
      var (st1, p) := Intern(st, NameOf(st, s));
      InternExtends(st, NameOf(st, s));
      RenameExtends(st1, s, p);
      ExtendsTransitive(st, st1, FixUp(st, s));
    }
  }

  /** Giving a selector the interned pointer of the name it has. */
  lemma RenameExtends(st: Store, s: SelPtr, p: NamePtr)
    requires TablesOk(st) && Named(st, s) && NameOf(st, s) in st.names && st.names[NameOf(st, s)] == p
    ensures var st' := st.(selectors := st.selectors[s := st.selectors[s].(name := Some(p))]);
            TablesOk(st') && Extends(st, st') && Interned(st', s)
  {
  }

  lemma ExtendsTransitive(st0: Store, st1: Store, st2: Store)
    requires Extends(st0, st1) && Extends(st1, st2)
    ensures Extends(st0, st2)
  {
  }

  /** After the fix-up every selector of the section is interned under the name it had. */
  lemma {:induction false} LoadExtends(st: Store, section: seq<SelPtr>)
    requires TablesOk(st)
    ensures var st' := LoadSelectors(st, section);
            && TablesOk(st') && Extends(st, st')
            && forall s :: s in section && Named(st, s) ==> Interned(st', s)
    decreases |section|
  {
    if section != [] {
      var st1 := FixUp(st, section[0]);
      FixUpExtends(st, section[0]);
      LoadExtends(st1, section[1..]);
      ExtendsTransitive(st, st1, LoadSelectors(st, section));
      assert section == [section[0]] + section[1..];
    }
  }

  /** The fix-up makes no selector, enters none in the selector table, and leaves those that are not
      in the section and the sentinels as they are; of the others it changes the name pointer only. */
  lemma {:induction false} LoadTouchesItsSection(st: Store, section: seq<SelPtr>)
    requires TablesOk(st)
    ensures var st' := LoadSelectors(st, section);
            && st'.sels == st.sels && st'.selectors.Keys == st.selectors.Keys
            && forall s :: s in st.selectors ==>
                 && st'.selectors[s] == st.selectors[s].(name := st'.selectors[s].name)
                 && (s !in section || !Named(st, s) ==> st'.selectors[s] == st.selectors[s])
    decreases |section|
  {
    if section != [] {
      var st1 := FixUp(st, section[0]);
      FixUpExtends(st, section[0]);
      LoadTouchesItsSection(st1, section[1..]);
      assert section == [section[0]] + section[1..];
      forall s | s in st.selectors && !Named(st, s)
        ensures !Named(st1, s)
      {
      }
    }
  }

  lemma {:induction false} LoadOfInterned(st: Store, section: seq<SelPtr>)
    requires forall s :: s in section && Named(st, s) ==> Interned(st, s)
    ensures LoadSelectors(st, section) == st
    decreases |section|
  {
    if section != [] {
      var s := section[0];
      if Named(st, s) {
        assert Interned(st, s);
        assert st.selectors[s := st.selectors[s]] == st.selectors;
      }
      LoadOfInterned(st, section[1..]);
    }
  }

  lemma {:induction false} SentinelsStay(st: Store, section: seq<SelPtr>, s: SelPtr)
    requires TablesOk(st) && !Named(st, s)
    ensures !Named(LoadSelectors(st, section), s)
    decreases |section|
  {
    if section != [] {
      FixUpExtends(st, section[0]);
      assert !Named(FixUp(st, section[0]), s);
      SentinelsStay(FixUp(st, section[0]), section[1..], s);
    }
  }

  /** Fixing up a section a second time changes nothing. */
  lemma LoadIsIdempotent(st: Store, section: seq<SelPtr>)
    requires TablesOk(st)
    ensures LoadSelectors(LoadSelectors(st, section), section) == LoadSelectors(st, section)
  {
    var st' := LoadSelectors(st, section);
    LoadExtends(st, section);
    forall s | s in section && Named(st', s)
      ensures Interned(st', s)
    {
      if !Named(st, s) {
        SentinelsStay(st, section, s);
      }
    }
    LoadOfInterned(st', section);
  }

  // ---------------------------------------------------------------- runs

  datatype Event = Interns(name: string) | FixesUp(section: seq<SelPtr>)

  function Happen(st: Store, e: Event): Store {
    match e
    case Interns(name) => Register(st, name).0
    case FixesUp(section) => LoadSelectors(st, section)
  }

  function HappenAll(st: Store, events: seq<Event>): Store
    decreases |events|
  {
    if events == [] then st else HappenAll(Happen(st, events[0]), events[1..])
  }

  lemma {:induction false} RunsExtend(st: Store, events: seq<Event>)
    requires TablesOk(st)
    ensures TablesOk(HappenAll(st, events)) && Extends(st, HappenAll(st, events))
    decreases |events|
  {
    if events != [] {
      var st1 := Happen(st, events[0]);
      match events[0] {
        case Interns(name) => RegisterExtends(st, name);
        case FixesUp(section) => LoadExtends(st, section);
      }
      RunsExtend(st1, events[1..]);
      ExtendsTransitive(st, st1, HappenAll(st, events));
    }
  }

  /** Registering a name again, after any mix of registrations and module loads, returns the
      pointer of the first time. */
  lemma RegisterIsStable(st: Store, name: string, events: seq<Event>)
    requires TablesOk(st)
    ensures var (st1, s) := Register(st, name);
            Register(HappenAll(st1, events), name).1 == s
  {
    RegisterExtends(st, name);
    RunsExtend(Register(st, name).0, events);
  }

  /** A selector compiled into a module and one registered by name at any later time are equal
      exactly when the names are, even though only the compiled one has types. */
  lemma CompiledMeetsRegistered(st: Store, section: seq<SelPtr>, c: SelPtr, events: seq<Event>, name: string)
    requires TablesOk(st) && c in section && Named(st, c)
    ensures var st1 := HappenAll(LoadSelectors(st, section), events);
            var (st2, s) := Register(st1, name);
            && c in st2.selectors && s in st2.selectors
            && (SelEq(st2.selectors[c], st2.selectors[s]) <==> NameOf(st, c) == name)
  {
    LoadExtends(st, section);
    RunsExtend(LoadSelectors(st, section), events);
    var st1 := HappenAll(LoadSelectors(st, section), events);
    RegisterExtends(st1, name);
    var (st2, s) := Register(st1, name);
    EqualIffSameName(st2, c, s);
  }
}

/**
  The selector tables in the imperative form of the source.
*/
module SelectorTable {
  import opened Options
  import opened Selectors

  class Table {
    var cstrings: map<NamePtr, string>
    var selectors: map<SelPtr, Selector>
    var names: map<string, NamePtr>
    var sels: map<string, SelPtr>
    var next: nat

    function Contents(): Store
      reads this
    {
      Store(cstrings, selectors, names, sels, next)
    }

    method InternSelectorName(name: string) returns (p: NamePtr)
      modifies this
      ensures (Contents(), p) == Intern(old(Contents()), name)
    {
      if name !in names {
        cstrings := cstrings[next := name];
        names := names[name := next];
        next := next + 1;
      }
      return names[name];
    }

    method RegisterName(name: string) returns (s: SelPtr)
      modifies this
      ensures (Contents(), s) == Register(old(Contents()), name)
    {
      if name !in sels {
        var p := InternSelectorName(name);
        selectors := selectors[next := Selector(Some(p), None)];
        sels := sels[name := next];
        next := next + 1;
      }
      return sels[name];
    }

    method FixUpEntry(s: SelPtr)
      requires s in selectors && (selectors[s].name.Some? ==> selectors[s].name.value in cstrings)
      modifies this
      ensures Contents() == FixUp(old(Contents()), s)
    {
      if selectors[s].name.Some? {
        var p := InternSelectorName(cstrings[selectors[s].name.value]);
        selectors := selectors[s := selectors[s].(name := Some(p))];
      }
    }

    method LoadSection(section: seq<SelPtr>)
      requires TablesOk(Contents()) && forall s :: s in section ==> s in selectors
      modifies this
      ensures Contents() == LoadSelectors(old(Contents()), section)
    {
      var k := 0;
      while k < |section|
        invariant k <= |section|
        invariant forall s :: s in section ==> s in selectors
        invariant TablesOk(Contents())
        invariant LoadSelectors(Contents(), section[k..]) == LoadSelectors(old(Contents()), section)
      {
        FixUpExtends(Contents(), section[k]);
        FixUpEntry(section[k]);
        k := k + 1;
      }
    }
  }
}
