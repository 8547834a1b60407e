/**
  Compiled classes, what loading one of them does to memory, and what memory looks like once
  some of them have been loaded.
*/
module LoaderImage {
  import opened Options
  import opened Sequences
  import opened ClassTypes
  import opened ClassForest
  import opened Dispatch

  /** Compiled method lists, with their selectors fixed up; a class that is absent has none. */
  type Lists = map<Cid, seq<MethodEntry>>

  /** Class structs as the compiler emits them, the compiled method lists they point to, for those
      that have one, with the selectors fixed up already, and the runtime that they are loaded
      into, of which the shape is the witness. */
  datatype Image = Image(
    core: Core,
    shape: Shape,
    classes: Classes,
    lists: Lists,
    next: nat)

  /** Witnesses: the superclass chain of each compiled class, the class itself first, and the
      class that each compiled metaclass belongs to. */
  datatype Layout = Layout(line: map<Cid, seq<Cid>>, owner: map<Cid, Cid>)

  /** The structs of the runtime and the compiled ones. */
  function All(img: Image): Classes {
    img.core.classes + img.classes
  }

  function LineOf(img: Image, lay: Layout, c: Cid): seq<Cid> {
    if c in lay.line then lay.line[c] else Line(img.shape, c)
  }

  function Owner(img: Image, lay: Layout, b: Cid): Option<Cid> {
    if b in lay.owner then Some(lay.owner[b]) else if b in img.shape.owner then Some(img.shape.owner[b]) else None
  }

  function Root(img: Image, lay: Layout, c: Cid): Option<Cid> {
    Last(LineOf(img, lay, c))
  }

  function SuperOf(img: Image, c: Cid): Option<Cid> {
    if c in All(img) then All(img)[c].superClass else None
  }

  function IsaOf(img: Image, c: Option<Cid>): Option<Cid> {
    if c.Some? && c.value in All(img) then All(img)[c.value].isa else None
  }

  predicate Fresh(k: ObjcClass) {
    !k.registered && k.subclassList == None && k.siblingClass == None
  }

  /** A superclass is one of the compiled classes, or a class that is registered already. */
  predicate MayExtend(img: Image, s: Cid) {
    if s in img.classes then !img.classes[s].meta
    else s in img.core.classes && !img.core.classes[s].meta && img.core.classes[s].registered
  }

  /** A compiled class: its superclass chain is linked and ends, and its metaclass is its own. */
  predicate ClassImageOk(img: Image, lay: Layout, c: Cid) {
    && c in img.classes && !img.classes[c].meta && Fresh(img.classes[c])
    && (var mt := img.classes[c].isa;
        mt.Some? && mt.value in img.classes && img.classes[mt.value].meta && mt.value in lay.owner
            && lay.owner[mt.value] == c)
    && (var s := img.classes[c].superClass;
        && (s.Some? ==> MayExtend(img, s.value))
        && c in lay.line
        && lay.line[c] == [c] + if s.Some? then LineOf(img, lay, s.value) else [])
  }

  /** A compiled metaclass: its links are null, and it is the metaclass of some class. */
  predicate MetaImageOk(img: Image, lay: Layout, b: Cid) {
    && b in img.classes && img.classes[b].meta && Fresh(img.classes[b])
    && img.classes[b].isa == None && img.classes[b].superClass == None
    && b in lay.owner && lay.owner[b] in img.classes
    && !img.classes[lay.owner[b]].meta && img.classes[lay.owner[b]].isa == Some(b)
  }

  predicate SameName(k: ObjcClass, l: ObjcClass) {
    !k.meta && !l.meta && k.name == l.name
  }

  /** The compiled structs are fresh, and no two classes have one name. */
  predicate FreshIn(img: Image, c: Cid) {
    && c in img.classes && c !in img.core.classes && c < img.next
    && (!img.classes[c].meta ==> img.classes[c].name !in img.core.registry)
  }

  /** What loading asks of a section. */
  ghost predicate CanLoad(img: Image, lay: Layout) {
    && (forall c {:trigger ClassImageOk(img, lay, c)} ::
          c in img.classes && !img.classes[c].meta ==> ClassImageOk(img, lay, c))
    && (forall b {:trigger MetaImageOk(img, lay, b)} ::
          b in img.classes && img.classes[b].meta ==> MetaImageOk(img, lay, b))
    && (forall b {:trigger FreshIn(img, b)} :: b in img.classes ==> FreshIn(img, b))
    && img.core.next <= img.next
    && img.lists.Keys <= img.classes.Keys && lay.line.Keys <= img.classes.Keys && lay.owner.Keys <= img.classes.Keys
    && (forall c, d {:trigger SameName(img.classes[c], img.classes[d])} ::
          c in img.classes && d in img.classes && SameName(img.classes[c], img.classes[d]) ==> c == d)
  }

  ghost predicate ImageOk(img: Image, lay: Layout) {
    CoreOk(img.core, img.shape) && CanLoad(img, lay)
  }

  /** Memory before loading: the structs are there, but nothing points to them yet. */
  function Start(img: Image, ca: Caches): Memory {
    Memory(img.core.(classes := All(img), next := img.next), ca)
  }

  /** The classes of a section, without its null sentinels. */
  function Listed(section: seq<Option<Cid>>): seq<Cid> {
    if section == [] then []
    else
      var last := section[|section| - 1];
      Listed(section[..|section| - 1]) + if last.Some? then [last.value] else []
  }

  // ---------------------------------------------------------------- loading one class

  function PatchedSize(k: ObjcClass): int {
    var size := if k.instanceSize < 0 then -k.instanceSize else k.instanceSize;
    if size == 0 && k.superClass.None? then OBJECT_SIZE else size
  }

  /** A compiled list becomes one method list; none, or an empty one, becomes none. */
  function Converted(img: Image, c: Cid): seq<seq<Eid>> {
    if c in img.lists && img.lists[c] != [] then [seq(|img.lists[c]|, (k: nat) => Compiled(c, k))] else []
  }

  function ConvertedEntries(img: Image, c: Cid): Entries {
    if c in img.lists then map k | 0 <= k < |img.lists[c]| :: Compiled(c, k) := img.lists[c][k] else map[]
  }

  function PatchSize(cs: Classes, c: Cid): Classes
    requires c in cs
  {
    cs[c := cs[c].(instanceSize := PatchedSize(cs[c]))]
  }

  function Patch(m: Memory, img: Image, c: Cid): Memory
    requires c in m.core.classes
  {
    Memory(m.core.(classes := PatchSize(m.core.classes, c),
                   methods := m.core.methods[c := Converted(img, c)],
                   entries := m.core.entries + ConvertedEntries(img, c)),
           m.caches[c := []])
  }

  /** The links of a metaclass; `walk` is the superclass chain of its class. */
  function FixMeta(cs: Classes, c: Cid, mt: Cid, walk: seq<Cid>): Classes
    requires c in cs && mt in cs && walk != [] && walk[|walk| - 1] in cs
    requires cs[c].superClass.Some? ==> cs[c].superClass.value in cs
  {
    var s := cs[c].superClass;
    if s.Some? then cs[mt := cs[mt].(superClass := cs[s.value].isa, isa := cs[walk[|walk| - 1]].isa)]
    else cs[mt := cs[mt].(superClass := Some(c), isa := Some(mt))]
  }

  function WireInFront(cs: Classes, s: Cid, c: Cid): Classes
    requires s in cs && c in cs
  {
    var cs1 := cs[c := cs[c].(siblingClass := cs[s].subclassList)];
    cs1[s := cs1[s].(subclassList := Some(c))]
  }

  function WireClass(cs: Classes, c: Cid): Classes
    requires c in cs
  {
    var s := cs[c].superClass;
    if s.Some? && s.value in cs then WireInFront(cs, s.value, c) else cs
  }

  /** The metaclass of a root class is not put on the subclass list of its superclass, the root
      class. */
  function WireMeta(cs: Classes, c: Cid, mt: Cid): Classes
    requires c in cs && mt in cs
  {
    var s := cs[mt].superClass;
    if s.Some? && s.value in cs && !(cs[c].superClass.None? && !cs[s.value].meta)
    then WireInFront(cs, s.value, mt)
    else cs
  }

  /** The pointers that the updates follow. */
  predicate MayLoad(cs: Classes, c: Cid, walk: seq<Cid>) {
    && c in cs && walk != [] && walk[|walk| - 1] in cs
    && (cs[c].superClass.Some? ==> cs[c].superClass.value in cs)
    && (cs[c].isa.Some? ==> cs[c].isa.value in cs)
  }

  /** The struct updates of one class. */
  function LoadedClasses(cs: Classes, c: Cid, walk: seq<Cid>): Classes
    requires MayLoad(cs, c, walk)
  {
    var mt := cs[c].isa;
    var cs1 := PatchSize(cs, c);
    var cs2 := if mt.Some? then FixMeta(PatchSize(cs1, mt.value), c, mt.value, walk) else cs1;
    var cs3 := WireClass(cs2, c);
    var cs4 := if mt.Some? then WireMeta(cs3, c, mt.value) else cs3;
    MarkRegistered(cs4, c)
  }

  function LoadOne(m: Memory, img: Image, c: Cid, walk: seq<Cid>): Memory
    requires MayLoad(m.core.classes, c, walk)
  {
    var co := m.core;
    var mt := co.classes[c].isa;
    var m1 := Patch(m, img, c);
    var m2 := if mt.Some? then Patch(m1, img, mt.value) else m1;
    m2.(core := m2.core.(
      classes := LoadedClasses(co.classes, c, walk), registry := co.registry[co.classes[c].name := c]))
  }

  // ---------------------------------------------------------------- memory after some classes

  /** The metaclasses of a list of classes. */
  function Metas(img: Image, list: seq<Cid>): seq<Cid> {
    if list == [] then []
    else if IsaOf(img, Some(list[0])).Some? then [IsaOf(img, Some(list[0])).value] + Metas(img, list[1..])
    else Metas(img, list[1..])
  }

  /** The classes of `done` with the superclass `c`, the last one first. */
  function NewKids(img: Image, done: seq<Cid>, c: Cid): seq<Cid> {
    if done == [] then []
    else
      var last := done[|done| - 1];
      var rest := NewKids(img, done[..|done| - 1], c);
      if SuperOf(img, last) == Some(c) then [last] + rest else rest
  }

  /** The subclass list of `c` when the classes of `done` have been loaded, in that order: they
      stand in front of those that were there before. */
  function KidsAfter(img: Image, done: seq<Cid>, c: Cid): seq<Cid> {
    NewKids(img, done, c) + Kids(img.shape, c)
  }

  /** The same for the metaclass `b` of `c`. */
  function MetaKidsAfter(img: Image, done: seq<Cid>, b: Cid, c: Cid): seq<Cid> {
    Metas(img, NewKids(img, done, c)) + Kids(img.shape, b)
  }

  /** The next sibling of `c`: the head of the subclass list of its superclass when `c` was
      loaded. */
  function SiblingAfter(img: Image, done: seq<Cid>, c: Cid): Option<Cid> {
    if done == [] then None
    else
      var front := done[..|done| - 1];
      if done[|done| - 1] != c then SiblingAfter(img, front, c)
      else if SuperOf(img, c).Some? then At(KidsAfter(img, front, SuperOf(img, c).value), 0)
      else None
  }

  /** The next sibling of the metaclass of `c`. */
  function MetaSiblingAfter(img: Image, done: seq<Cid>, c: Cid): Option<Cid> {
    if done == [] then None
    else
      var front, s := done[..|done| - 1], SuperOf(img, c);
      if done[|done| - 1] != c then MetaSiblingAfter(img, front, c)
      else if IsaOf(img, s).Some? then At(MetaKidsAfter(img, front, IsaOf(img, s).value, s.value), 0)
      else None
  }

  function ClassAfter(img: Image, done: seq<Cid>, c: Cid): ObjcClass
    requires c in All(img)
  {
    var k := All(img)[c].(subclassList := At(KidsAfter(img, done, c), 0));
    if c !in done then k
    else k.(registered := true, instanceSize := PatchedSize(k), siblingClass := SiblingAfter(img, done, c))
  }

  /** The metaclass of `c`: its super is the metaclass of the superclass, or the class itself for
      a root class; its isa is the metaclass of the root; its subclasses are the metaclasses of
      the loaded subclasses. */
  function MetaAfter(img: Image, lay: Layout, done: seq<Cid>, b: Cid, c: Cid): ObjcClass
    requires b in All(img)
  {
    var k := All(img)[b].(subclassList := At(MetaKidsAfter(img, done, b, c), 0));
    if c !in done then k
    else k.(isa := IsaOf(img, Root(img, lay, c)),
            superClass := if SuperOf(img, c).Some? then IsaOf(img, SuperOf(img, c)) else Some(c),
            instanceSize := PatchedSize(k),
            siblingClass := MetaSiblingAfter(img, done, c))
  }

  function StructAfter(img: Image, lay: Layout, done: seq<Cid>, b: Cid): ObjcClass
    requires b in All(img)
  {
    if All(img)[b].meta && Owner(img, lay, b).Some? then MetaAfter(img, lay, done, b, Owner(img, lay, b).value)
    else ClassAfter(img, done, b)
  }

  /** Has been patched: a class that is loaded, or the metaclass of one. */
  predicate Patched(img: Image, lay: Layout, done: seq<Cid>, b: Cid) {
    b in img.classes && if img.classes[b].meta then b in lay.owner && lay.owner[b] in done else b in done
  }

  function CompiledEntries(img: Image): set<Eid> {
    set b, k | b in img.lists && 0 <= k < |img.lists[b]| :: Compiled(b, k)
  }

  function RegistryAfter(img: Image, done: seq<Cid>): Registry {
    if done == [] then img.core.registry
    else
      var last, rest := done[|done| - 1], RegistryAfter(img, done[..|done| - 1]);
      if last in img.classes then rest[img.classes[last].name := last] else rest
  }

  function ClassesAfter(img: Image, lay: Layout, done: seq<Cid>): Classes {
    map b | b in All(img) :: StructAfter(img, lay, done, b)
  }

  function NewMethods(img: Image, lay: Layout, done: seq<Cid>): Methods {
    map b | b in img.classes && Patched(img, lay, done, b) :: Converted(img, b)
  }

  function MethodsAfter(img: Image, lay: Layout, done: seq<Cid>): Methods {
    img.core.methods + NewMethods(img, lay, done)
  }

  function EntriesAfter(img: Image, lay: Layout, done: seq<Cid>): Entries {
    img.core.entries + map e | e in CompiledEntries(img) && Patched(img, lay, done, e.cls) :: img.lists[e.cls][e.n]
  }

  function CachesAfter(img: Image, lay: Layout, ca: Caches, done: seq<Cid>): Caches {
    ca + map b | b in img.classes && Patched(img, lay, done, b) :: []
  }

  function CoreAfter(img: Image, lay: Layout, done: seq<Cid>): Core {
    Core(ClassesAfter(img, lay, done), MethodsAfter(img, lay, done), EntriesAfter(img, lay, done),
         RegistryAfter(img, done), img.next)
  }

  function After(img: Image, lay: Layout, ca: Caches, done: seq<Cid>): Memory {
    Memory(CoreAfter(img, lay, done), CachesAfter(img, lay, ca, done))
  }

  // ---------------------------------------------------------------- all classes alike

  /** What holds of every class, compiled or not. */
  predicate ClassLinked(img: Image, lay: Layout, c: Cid) {
    && c in All(img) && !All(img)[c].meta
    && (var mt := IsaOf(img, Some(c));
        mt.Some? && mt.value in All(img) && All(img)[mt.value].meta && Owner(img, lay, mt.value) == Some(c))
    && (var s := SuperOf(img, c);
        && (s.Some? ==> s.value in All(img) && !All(img)[s.value].meta)
        && LineOf(img, lay, c) == [c] + if s.Some? then LineOf(img, lay, s.value) else [])
  }

  lemma ClassIsLinked(img: Image, lay: Layout, c: Cid)
    requires ImageOk(img, lay) && c in All(img) && !All(img)[c].meta
    ensures ClassLinked(img, lay, c)
  {
    if c in img.classes {
      assert ClassImageOk(img, lay, c);
      var s := SuperOf(img, c);
      if s.Some? && s.value in img.classes {
        assert FreshIn(img, s.value);
      }
    } else {
      assert PairOk(img.core.classes, img.shape, c) && LineOk(img.core.classes, img.shape, c);
      KnownIsLinked(img, lay, c);
    }
  }

  /** A class of the runtime; its links stay within the runtime. */
  lemma KnownIsLinked(img: Image, lay: Layout, c: Cid)
    requires CanLoad(img, lay) && c in img.core.classes && !img.core.classes[c].meta && c !in img.classes
    requires PairOk(img.core.classes, img.shape, c) && LineOk(img.core.classes, img.shape, c)
    ensures ClassLinked(img, lay, c)
  {
    var mt, s := img.core.classes[c].isa.value, img.core.classes[c].superClass;
    assert mt in img.classes ==> FreshIn(img, mt);
    assert s.Some? && s.value in img.classes ==> FreshIn(img, s.value);
  }

  /** A metaclass belongs to a class. */
  lemma MetaIsOwned(img: Image, lay: Layout, b: Cid)
    requires ImageOk(img, lay) && b in All(img) && All(img)[b].meta
    ensures var c := Owner(img, lay, b);
            c.Some? && c.value in All(img) && !All(img)[c.value].meta && IsaOf(img, c) == Some(b)
  {
    if b in img.classes {
      assert MetaImageOk(img, lay, b);
    } else {
      assert PairOk(img.core.classes, img.shape, b);
      var c := img.shape.owner[b];
      assert c in img.classes ==> FreshIn(img, c);
    }
  }

  // ---------------------------------------------------------------- one more class

  /** Classes of the section, each at most once. */
  predicate Loadable(img: Image, done: seq<Cid>) {
    NoRepeats(done) && forall c :: c in done ==> c in img.classes && !img.classes[c].meta
  }

  lemma OneMore(img: Image, done: seq<Cid>, c: Cid, b: Cid)
    ensures NewKids(img, done + [c], b) == (if SuperOf(img, c) == Some(b) then [c] else []) + NewKids(img, done, b)
    ensures SiblingAfter(img, done + [c], b)
            == if b != c then SiblingAfter(img, done, b)
               else if SuperOf(img, c).Some? then At(KidsAfter(img, done, SuperOf(img, c).value), 0)
               else None
    ensures MetaSiblingAfter(img, done + [c], b)
            == if b != c then MetaSiblingAfter(img, done, b)
               else if IsaOf(img, SuperOf(img, c)).Some?
                    then At(MetaKidsAfter(img, done, IsaOf(img, SuperOf(img, c)).value, SuperOf(img, c).value), 0)
               else None
  {
    assert (done + [c])[..|done|] == done;
  }

  lemma {:induction false} LineOfClass(img: Image, lay: Layout, c: Cid)
    requires ImageOk(img, lay) && c in All(img) && !All(img)[c].meta
    ensures LineOf(img, lay, c) != [] && LineOf(img, lay, c)[0] == c
    ensures forall b :: b in LineOf(img, lay, c) ==>
              b in All(img) && !All(img)[b].meta && |LineOf(img, lay, b)| <= |LineOf(img, lay, c)|
    ensures SuperOf(img, c) != Some(c)
    decreases |LineOf(img, lay, c)|
  {
    ClassIsLinked(img, lay, c);
    if SuperOf(img, c).Some? {
      LineOfClass(img, lay, SuperOf(img, c).value);
    }
  }

  /** The root of a chain has no superclass, and the superclass of a class has the same root. */
  lemma {:induction false} RootIsTop(img: Image, lay: Layout, c: Cid)
    requires ImageOk(img, lay) && c in All(img) && !All(img)[c].meta
    ensures var r := Root(img, lay, c);
            r.Some? && r.value in All(img) && !All(img)[r.value].meta && SuperOf(img, r.value) == None
    ensures SuperOf(img, c).Some? ==> Root(img, lay, SuperOf(img, c).value) == Root(img, lay, c)
    decreases |LineOf(img, lay, c)|
  {
    ClassIsLinked(img, lay, c);
    var s := SuperOf(img, c);
    if s.Some? {
      LineOfClass(img, lay, s.value);
      RootIsTop(img, lay, s.value);
    }
  }

  /** The four structs that the updates for `c` touch. */
  predicate Touched(img: Image, c: Cid, b: Cid) {
    b == c || Some(b) == IsaOf(img, Some(c)) || Some(b) == SuperOf(img, c) || Some(b) == IsaOf(img, SuperOf(img, c))
  }

  lemma UntouchedStays(img: Image, lay: Layout, done: seq<Cid>, c: Cid, b: Cid)
    requires ImageOk(img, lay) && c in img.classes && !img.classes[c].meta && b in All(img) && !Touched(img, c, b)
    ensures StructAfter(img, lay, done + [c], b) == StructAfter(img, lay, done, b)
  {
    if All(img)[b].meta {
      MetaIsOwned(img, lay, b);
      OneMore(img, done, c, Owner(img, lay, b).value);
    } else {
      OneMore(img, done, c, b);
    }
  }

  // -- the struct updates, in closed form

  lemma LoadedRoot(cs: Classes, c: Cid, mt: Cid, walk: seq<Cid>)
    requires c in cs && mt in cs && c != mt && !cs[c].meta && cs[c].isa == Some(mt) && cs[c].superClass == None
    requires walk != [] && walk[|walk| - 1] in cs
    ensures LoadedClasses(cs, c, walk)
            == cs[c := cs[c].(instanceSize := PatchedSize(cs[c]), registered := true)]
                 [mt := cs[mt].(instanceSize := PatchedSize(cs[mt]), isa := Some(mt), superClass := Some(c))]
  {
  }

  lemma LoadedSub(cs: Classes, c: Cid, mt: Cid, s: Cid, sm: Cid, walk: seq<Cid>)
    requires c in cs && mt in cs && s in cs && sm in cs && c != mt && s != c && s != mt && sm != c && sm != mt
             && s != sm
    requires cs[c].isa == Some(mt) && cs[c].superClass == Some(s) && cs[s].isa == Some(sm)
    requires walk != [] && walk[|walk| - 1] in cs && walk[|walk| - 1] != mt
    ensures LoadedClasses(cs, c, walk)
            == cs[c := cs[c].(
                    instanceSize := PatchedSize(cs[c]), registered := true, siblingClass := cs[s].subclassList)]
                 [mt := cs[mt].(instanceSize := PatchedSize(cs[mt]), isa := cs[walk[|walk| - 1]].isa,
                                superClass := Some(sm), siblingClass := cs[sm].subclassList)]
                 [s := cs[s].(subclassList := Some(c))]
                 [sm := cs[sm].(subclassList := Some(mt))]
  {
  }
}
