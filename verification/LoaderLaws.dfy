/**
  What loading achieves for the class graph: the threaded forest that dispatch relies on, the
  links of the metaclasses, and sizes.
*/
module LoaderLaws {
  import opened Options
  import opened Sequences
  import opened ClassTypes
  import opened ClassForest
  import opened Dispatch
  import opened MetaChains
  import opened LoaderImage
  import opened LoaderStep

  /** Every class of the section has been loaded, and only once. */
  predicate Complete(img: Image, done: seq<Cid>) {
    Loadable(img, done) && forall c :: c in img.classes && !img.classes[c].meta ==> c in done
  }

  // ---------------------------------------------------------------- subclass lists

  lemma {:induction false} NewKidsMembers(img: Image, done: seq<Cid>, c: Cid)
    ensures forall b :: b in NewKids(img, done, c) <==> b in done && SuperOf(img, b) == Some(c)
  {
    if done != [] {
      NewKidsMembers(img, done[..|done| - 1], c);
      assert done == done[..|done| - 1] + [done[|done| - 1]];
    }
  }

  lemma {:induction false} NewKidsDistinct(img: Image, done: seq<Cid>, c: Cid)
    requires NoRepeats(done)
    ensures NoRepeats(NewKids(img, done, c))
  {
    if done != [] {
      var front := done[..|done| - 1];
      NewKidsDistinct(img, front, c);
      NewKidsMembers(img, front, c);
    }
  }

  /** The sibling link of each new class leads to the next one on the subclass list. */
  lemma {:induction false} NewKidsThreaded(img: Image, done: seq<Cid>, c: Cid, k: nat)
    requires NoRepeats(done) && k < |NewKids(img, done, c)|
    ensures SiblingAfter(img, done, NewKids(img, done, c)[k]) == At(KidsAfter(img, done, c), k + 1)
  {
    var front, last := done[..|done| - 1], done[|done| - 1];
    NewKidsMembers(img, front, c);
    if SuperOf(img, last) != Some(c) {
      NewKidsThreaded(img, front, c, k);
    } else if k > 0 {
      NewKidsThreaded(img, front, c, k - 1);
    }
  }

  lemma {:induction false} MetasAt(img: Image, list: seq<Cid>)
    requires HaveMetas(img, list)
    ensures |Metas(img, list)| == |list|
    ensures forall k :: 0 <= k < |list| ==> Some(Metas(img, list)[k]) == IsaOf(img, Some(list[k]))
  {
    if list != [] {
      MetasAt(img, list[1..]);
    }
  }

  predicate HaveMetas(img: Image, list: seq<Cid>) {
    forall b :: b in list ==> IsaOf(img, Some(b)).Some?
  }

  lemma ClassesHaveMetas(img: Image, lay: Layout, list: seq<Cid>)
    requires ImageOk(img, lay) && forall b :: b in list ==> b in img.classes && !img.classes[b].meta
    ensures HaveMetas(img, list)
  {
    forall b | b in list
      ensures IsaOf(img, Some(b)).Some?
    {
      assert ClassImageOk(img, lay, b);
    }
  }

  /** The same on the class side. */
  lemma {:induction false} NewMetasThreaded(img: Image, done: seq<Cid>, c: Cid, mt: Cid, k: nat)
    requires NoRepeats(done) && HaveMetas(img, done) && IsaOf(img, Some(c)) == Some(mt) && k < |NewKids(img, done, c)|
    ensures MetaSiblingAfter(img, done, NewKids(img, done, c)[k]) == At(MetaKidsAfter(img, done, mt, c), k + 1)
    decreases |done|
  {
    var front, last := done[..|done| - 1], done[|done| - 1];
    NewKidsMembers(img, front, c);
    if SuperOf(img, last) != Some(c) {
      NewMetasThreaded(img, front, c, mt, k);
    } else {
      var kids := NewKids(img, done, c);
      assert kids[1..] == NewKids(img, front, c);
      assert Metas(img, kids) == [IsaOf(img, Some(last)).value] + Metas(img, kids[1..]);
      if k > 0 {
        NewMetasThreaded(img, front, c, mt, k - 1);
      }
    }
  }

  // ---------------------------------------------------------------- the forest

  /** The line of the metaclass of the first class of `list`: metaclasses of compiled classes, and
      then the line that the metaclass of a known class has already. */
  function MetaLine(img: Image, list: seq<Cid>): seq<Cid> {
    if list == [] || IsaOf(img, Some(list[0])).None? then []
    else if list[0] in img.classes then [IsaOf(img, Some(list[0])).value] + MetaLine(img, list[1..])
    else Line(img.shape, IsaOf(img, Some(list[0])).value)
  }

  function LoadedLine(img: Image, lay: Layout, b: Cid): seq<Cid>
    requires b in img.classes
  {
    if img.classes[b].meta && b in lay.owner then MetaLine(img, LineOf(img, lay, lay.owner[b]))
    else LineOf(img, lay, b)
  }

  function LoadedKids(img: Image, lay: Layout, done: seq<Cid>, b: Cid): seq<Cid>
    requires b in All(img)
  {
    if All(img)[b].meta && Owner(img, lay, b).Some? then MetaKidsAfter(img, done, b, Owner(img, lay, b).value)
    else KidsAfter(img, done, b)
  }

  /** The witnesses of the class graph after loading. */
  function LoadedShape(img: Image, lay: Layout, done: seq<Cid>): Shape {
    Shape(img.shape.line + map b | b in img.classes :: LoadedLine(img, lay, b),
          map b | b in All(img) :: LoadedKids(img, lay, done, b),
          img.shape.owner + lay.owner)
  }

  lemma LoadedLines(img: Image, lay: Layout, done: seq<Cid>, b: Cid)
    requires img.shape.line.Keys == img.core.classes.Keys
    ensures b in img.classes ==> Line(LoadedShape(img, lay, done), b) == LoadedLine(img, lay, b)
    ensures b !in img.classes ==> Line(LoadedShape(img, lay, done), b) == Line(img.shape, b)
    ensures b in All(img) ==> Kids(LoadedShape(img, lay, done), b) == LoadedKids(img, lay, done, b)
  {
  }

  /** A new kid is a loaded class. */
  lemma NewKidIsLoaded(img: Image, done: seq<Cid>, c: Cid, d: Cid)
    requires Loadable(img, done) && d in NewKids(img, done, c)
    ensures d in done && d in img.classes && !img.classes[d].meta && img.classes[d].superClass == Some(c)
  {
    NewKidsMembers(img, done, c);
  }

  /** Two threaded lists, one after the other. */
  lemma ThreadsConcat(cs: Classes, a: seq<Cid>, b: seq<Cid>)
    requires forall k :: 0 <= k < |a| ==> a[k] in cs && cs[a[k]].siblingClass == At(a + b, k + 1)
    requires Threads(cs, At(b, 0), b) && NoRepeats(a) && NoRepeats(b) && forall x :: x in a ==> x !in b
    ensures Threads(cs, At(a + b, 0), a + b) && NoRepeats(a + b)
  {
    var l := a + b;
    forall k | 0 <= k < |l|
      ensures l[k] in cs && cs[l[k]].siblingClass == At(l, k + 1)
    {
      if k >= |a| {
        assert l[k] == b[k - |a|];
      }
    }
    forall i, j | 0 <= i < j < |l|
      ensures l[i] != l[j]
    {
      if i < |a| <= j {
        assert a[i] in a && l[j] in b;
      }
    }
  }

  /** A struct that was there keeps all but the head of its subclass list. */
  lemma KnownStays(img: Image, lay: Layout, done: seq<Cid>, d: Cid)
    requires ImageOk(img, lay) && Loadable(img, done) && d in img.core.classes
    ensures d in All(img) && d !in img.classes
    ensures var k := ClassesAfter(img, lay, done)[d]; k == img.core.classes[d].(subclassList := k.subclassList)
  {
    assert d in img.classes ==> FreshIn(img, d);
    if All(img)[d].meta {
      assert PairOk(img.core.classes, img.shape, d);
      var c := img.shape.owner[d];
      assert c in img.classes ==> FreshIn(img, c);
      assert d !in lay.owner;
    }
  }

  /** The classes that were on a subclass list before. */
  lemma OldKidsThreaded(img: Image, lay: Layout, done: seq<Cid>, b: Cid)
    requires ImageOk(img, lay) && Loadable(img, done) && b in All(img)
    ensures var cs, old_ := ClassesAfter(img, lay, done), Kids(img.shape, b);
            && Threads(cs, At(old_, 0), old_) && NoRepeats(old_)
            && forall d :: d in old_ ==>
                 d in img.core.classes && d in cs && cs[d].superClass == Some(b) && cs[d].meta == All(img)[b].meta
  {
    if b in img.core.classes {
      KnownStays(img, lay, done, b);
      assert KidsOk(img.core.classes, img.shape, b);
      forall d | d in Kids(img.shape, b)
        ensures d in All(img)
        ensures ClassesAfter(img, lay, done)[d]
                == img.core.classes[d].(subclassList := ClassesAfter(img, lay, done)[d].subclassList)
      {
        KnownStays(img, lay, done, d);
      }
    }
  }

  lemma NewIsNotOld(img: Image, lay: Layout, x: Cid)
    requires ImageOk(img, lay) && x in img.classes
    ensures x !in img.core.classes
  {
    assert FreshIn(img, x);
  }

  lemma ClassKidsOk(img: Image, lay: Layout, done: seq<Cid>, c: Cid)
    requires ImageOk(img, lay) && Loadable(img, done) && c in All(img) && !All(img)[c].meta
    ensures KidsOk(ClassesAfter(img, lay, done), LoadedShape(img, lay, done), c)
  {
    var cs, kids := ClassesAfter(img, lay, done), NewKids(img, done, c);
    NewKidsDistinct(img, done, c);
    OldKidsThreaded(img, lay, done, c);
    forall k | 0 <= k < |kids|
      ensures kids[k] in cs && cs[kids[k]].siblingClass == At(KidsAfter(img, done, c), k + 1)
      ensures cs[kids[k]].superClass == Some(c) && !cs[kids[k]].meta && kids[k] !in img.core.classes
    {
      NewKidIsLoaded(img, done, c, kids[k]);
      NewKidsThreaded(img, done, c, k);
      NewIsNotOld(img, lay, kids[k]);
    }
    ThreadsConcat(cs, kids, Kids(img.shape, c));
    LoadedLines(img, lay, done, c);
  }

  /** What a new kid of a metaclass is. */
  lemma NewMetaKid(img: Image, lay: Layout, done: seq<Cid>, c: Cid, mt: Cid, k: nat)
    requires ImageOk(img, lay) && Loadable(img, done) && HaveMetas(img, done)
    requires c in All(img) && IsaOf(img, Some(c)) == Some(mt)
    requires k < |NewKids(img, done, c)| && k < |Metas(img, NewKids(img, done, c))|
             && HaveMetas(img, NewKids(img, done, c))
    ensures var cs, metas := ClassesAfter(img, lay, done), Metas(img, NewKids(img, done, c));
            && metas[k] in cs && cs[metas[k]].siblingClass == At(MetaKidsAfter(img, done, mt, c), k + 1)
            && cs[metas[k]].superClass == Some(mt) && cs[metas[k]].meta && metas[k] in img.classes
  {
    var kids := NewKids(img, done, c);
    MetasAt(img, kids);
    NewKidIsLoaded(img, done, c, kids[k]);
    OwnMeta(img, lay, kids[k], Metas(img, kids)[k]);
    NewMetasThreaded(img, done, c, mt, k);
  }

  lemma MetasDistinct(img: Image, lay: Layout, list: seq<Cid>)
    requires ImageOk(img, lay) && NoRepeats(list)
    requires forall b :: b in list ==> b in img.classes && !img.classes[b].meta
    ensures NoRepeats(Metas(img, list))
  {
    ClassesHaveMetas(img, lay, list);
    MetasAt(img, list);
    forall i, j | 0 <= i < j < |list|
      ensures Metas(img, list)[i] != Metas(img, list)[j]
    {
      assert ClassImageOk(img, lay, list[i]) && ClassImageOk(img, lay, list[j]);
    }
  }

  lemma MetaKidsOk(img: Image, lay: Layout, done: seq<Cid>, b: Cid)
    requires ImageOk(img, lay) && Loadable(img, done) && b in All(img) && All(img)[b].meta
    ensures KidsOk(ClassesAfter(img, lay, done), LoadedShape(img, lay, done), b)
  {
    MetaIsOwned(img, lay, b);
    var c := Owner(img, lay, b).value;
    var kids := NewKids(img, done, c);
    var cs, metas := ClassesAfter(img, lay, done), Metas(img, kids);
    forall d | d in kids
      ensures d in img.classes && !img.classes[d].meta
    {
      NewKidIsLoaded(img, done, c, d);
    }
    NewKidsDistinct(img, done, c);
    MetasDistinct(img, lay, kids);
    ClassesHaveMetas(img, lay, kids);
    ClassesHaveMetas(img, lay, done);
    MetasAt(img, kids);
    OldKidsThreaded(img, lay, done, b);
    forall k | 0 <= k < |metas|
      ensures metas[k] in cs && cs[metas[k]].siblingClass == At(MetaKidsAfter(img, done, b, c), k + 1)
      ensures cs[metas[k]].superClass == Some(b) && cs[metas[k]].meta && metas[k] !in img.core.classes
    {
      NewMetaKid(img, lay, done, c, b, k);
      NewIsNotOld(img, lay, metas[k]);
    }
    ThreadsConcat(cs, metas, Kids(img.shape, b));
    LoadedLines(img, lay, done, b);
  }

  // -- lines

  lemma NewClassLineOk(img: Image, lay: Layout, done: seq<Cid>, c: Cid)
    requires ImageOk(img, lay) && Complete(img, done) && c in img.classes && !img.classes[c].meta
    ensures LineOk(ClassesAfter(img, lay, done), LoadedShape(img, lay, done), c)
  {
    var cs, sh := ClassesAfter(img, lay, done), LoadedShape(img, lay, done);
    ClassIsLinked(img, lay, c);
    assert ClassImageOk(img, lay, c);
    LoadedLines(img, lay, done, c);
    var s := SuperOf(img, c);
    if s.Some? {
      NewKidsMembers(img, done, s.value);
      LoadedLines(img, lay, done, s.value);
      ClassLine(img, lay, s.value);
      assert c in LoadedKids(img, lay, done, s.value);
      assert ThreadedUnder(cs, sh, c);
    }
  }

  lemma ClassLine(img: Image, lay: Layout, s: Cid)
    requires ImageOk(img, lay) && s in All(img) && !All(img)[s].meta
    ensures s in img.classes ==> LoadedLine(img, lay, s) == LineOf(img, lay, s)
    ensures s !in img.classes ==> Line(img.shape, s) == LineOf(img, lay, s)
  {
  }

  /** A class that was there is on the same subclass list, if it is on one. */
  lemma KnownLineOk(img: Image, lay: Layout, done: seq<Cid>, d: Cid)
    requires ImageOk(img, lay) && Complete(img, done) && d in img.core.classes
    ensures LineOk(ClassesAfter(img, lay, done), LoadedShape(img, lay, done), d)
  {
    var cs, sh := ClassesAfter(img, lay, done), LoadedShape(img, lay, done);
    KnownStays(img, lay, done, d);
    assert LineOk(img.core.classes, img.shape, d) && PairOk(img.core.classes, img.shape, d);
    LoadedLines(img, lay, done, d);
    if img.core.classes[d].superClass.Some? {
      var s := img.core.classes[d].superClass.value;
      KnownStays(img, lay, done, s);
      LoadedLines(img, lay, done, s);
      KnownKid(img, lay, done, s, d);
    }
  }

  lemma KnownKid(img: Image, lay: Layout, done: seq<Cid>, s: Cid, d: Cid)
    requires ImageOk(img, lay) && Complete(img, done) && d in img.core.classes && s in All(img)
    ensures d in LoadedKids(img, lay, done, s) <==> d in Kids(img.shape, s)
  {
    if All(img)[s].meta && Owner(img, lay, s).Some? {
      var kids := NewKids(img, done, Owner(img, lay, s).value);
      NotAMetaOfNew(img, lay, done, kids, d);
    } else {
      NewKidsMembers(img, done, s);
      assert d in done ==> FreshIn(img, d);
    }
  }

  lemma NotAMetaOfNew(img: Image, lay: Layout, done: seq<Cid>, kids: seq<Cid>, d: Cid)
    requires ImageOk(img, lay) && Loadable(img, done) && d in img.core.classes
    requires exists c :: kids == NewKids(img, done, c)
    ensures d !in Metas(img, kids)
  {
    var c :| kids == NewKids(img, done, c);
    NewKidsMembers(img, done, c);
    ClassesHaveMetas(img, lay, kids);
    MetasAt(img, kids);
    forall k | 0 <= k < |kids|
      ensures Metas(img, kids)[k] != d
    {
      assert ClassImageOk(img, lay, kids[k]);
      NewIsNotOld(img, lay, Metas(img, kids)[k]);
    }
  }

  lemma NewMetaLineOk(img: Image, lay: Layout, done: seq<Cid>, b: Cid)
    requires ImageOk(img, lay) && Complete(img, done) && b in img.classes && img.classes[b].meta
    ensures LineOk(ClassesAfter(img, lay, done), LoadedShape(img, lay, done), b)
  {
    assert MetaImageOk(img, lay, b);
    var c := lay.owner[b];
    assert ClassImageOk(img, lay, c);
    if SuperOf(img, c).Some? {
      SubMetaLineOk(img, lay, done, c, b, SuperOf(img, c).value);
    } else {
      RootMetaLineOk(img, lay, done, c, b);
    }
  }

  /** What became of a compiled metaclass. */
  lemma MetaLinks(img: Image, lay: Layout, done: seq<Cid>, c: Cid, mt: Cid)
    requires ImageOk(img, lay) && c in img.classes && !img.classes[c].meta && c in done
             && IsaOf(img, Some(c)) == Some(mt)
    ensures mt in All(img)
    ensures var k := ClassesAfter(img, lay, done)[mt];
            && k.isa == IsaOf(img, Root(img, lay, c)) && k.meta
            && k.superClass == if SuperOf(img, c).Some? then IsaOf(img, SuperOf(img, c)) else Some(c)
  {
    OwnMeta(img, lay, c, mt);
  }

  lemma SubMetaLineOk(img: Image, lay: Layout, done: seq<Cid>, c: Cid, b: Cid, s: Cid)
    requires ImageOk(img, lay) && Complete(img, done) && c in img.classes && !img.classes[c].meta
    requires SuperOf(img, c) == Some(s) && IsaOf(img, Some(c)) == Some(b)
    ensures LineOk(ClassesAfter(img, lay, done), LoadedShape(img, lay, done), b)
  {
    var cs, sh := ClassesAfter(img, lay, done), LoadedShape(img, lay, done);
    MetaLinks(img, lay, done, c, b);
    OwnMeta(img, lay, c, b);
    MetaIsAKid(img, lay, done, c, b, s);
    var sm := IsaOf(img, Some(s)).value;
    LoadedLines(img, lay, done, sm);
    LoadedLines(img, lay, done, b);
    assert ThreadedUnder(cs, sh, b);
    MetaLineGoesOn(img, lay, done, c, b, s, sm);
  }

  /** The line of a compiled metaclass goes on with the line of the metaclass above it. */
  lemma MetaLineGoesOn(img: Image, lay: Layout, done: seq<Cid>, c: Cid, b: Cid, s: Cid, sm: Cid)
    requires ImageOk(img, lay) && c in img.classes && !img.classes[c].meta
    requires SuperOf(img, c) == Some(s) && IsaOf(img, Some(c)) == Some(b) && IsaOf(img, Some(s)) == Some(sm)
    ensures Line(LoadedShape(img, lay, done), b) == [b] + Line(LoadedShape(img, lay, done), sm)
  {
    OwnMeta(img, lay, c, b);
    ClassIsLinked(img, lay, c);
    ClassIsLinked(img, lay, s);
    assert MetaImageOk(img, lay, b) && lay.owner[b] == c;
    LoadedLines(img, lay, done, sm);
    LoadedLines(img, lay, done, b);
    assert LineOf(img, lay, c)[1..] == LineOf(img, lay, s);
    assert MetaLine(img, LineOf(img, lay, c)) == [b] + MetaLine(img, LineOf(img, lay, s));
    MetaLineAbove(img, lay, s, sm);
  }

  lemma MetaLineAbove(img: Image, lay: Layout, s: Cid, sm: Cid)
    requires ImageOk(img, lay) && s in All(img) && !All(img)[s].meta && IsaOf(img, Some(s)) == Some(sm)
    ensures MetaLine(img, LineOf(img, lay, s))
            == if sm in img.classes then LoadedLine(img, lay, sm) else Line(img.shape, sm)
  {
    ClassIsLinked(img, lay, s);
    assert LineOf(img, lay, s)[0] == s;
    if s in img.classes {
      assert ClassImageOk(img, lay, s) && MetaImageOk(img, lay, sm);
    } else {
      assert PairOk(img.core.classes, img.shape, s);
      assert sm in img.classes ==> FreshIn(img, sm);
    }
  }

  /** The metaclass of a class is on the subclass list of the metaclass of its superclass. */
  lemma MetaIsAKid(img: Image, lay: Layout, done: seq<Cid>, c: Cid, b: Cid, s: Cid)
    requires ImageOk(img, lay) && Complete(img, done) && c in img.classes && !img.classes[c].meta
    requires IsaOf(img, Some(c)) == Some(b) && SuperOf(img, c) == Some(s)
    ensures IsaOf(img, Some(s)).Some?
    ensures var sm := IsaOf(img, Some(s)).value;
            sm in All(img) && All(img)[sm].meta && b in LoadedKids(img, lay, done, sm)
  {
    ClassIsLinked(img, lay, c);
    ClassIsLinked(img, lay, s);
    NewKidsMembers(img, done, s);
    var kids := NewKids(img, done, s);
    ClassesHaveMetas(img, lay, kids);
    MetasAt(img, kids);
    var k :| 0 <= k < |kids| && kids[k] == c;
    assert Metas(img, kids)[k] == b;
  }

  /** The metaclass of a root class is not on the subclass list of the root class, which is its
      superclass. */
  lemma RootMetaIsNoKid(img: Image, lay: Layout, done: seq<Cid>, c: Cid, b: Cid)
    requires ImageOk(img, lay) && Complete(img, done) && c in img.classes && !img.classes[c].meta
    requires b in img.classes && img.classes[b].meta
    ensures b !in LoadedKids(img, lay, done, c)
  {
    NewKidsMembers(img, done, c);
    assert FreshIn(img, c);
  }

  lemma RootMetaLineOk(img: Image, lay: Layout, done: seq<Cid>, c: Cid, b: Cid)
    requires ImageOk(img, lay) && Complete(img, done) && c in img.classes && !img.classes[c].meta
    requires SuperOf(img, c) == None && IsaOf(img, Some(c)) == Some(b)
    ensures LineOk(ClassesAfter(img, lay, done), LoadedShape(img, lay, done), b)
  {
    var cs, sh := ClassesAfter(img, lay, done), LoadedShape(img, lay, done);
    MetaLinks(img, lay, done, c, b);
    OwnMeta(img, lay, c, b);
    RootMetaIsNoKid(img, lay, done, c, b);
    LoadedLines(img, lay, done, c);
    LoadedLines(img, lay, done, b);
    assert !ThreadedUnder(cs, sh, b);
    RootMetaLine(img, lay, c, b);
  }

  lemma RootMetaLine(img: Image, lay: Layout, c: Cid, b: Cid)
    requires ImageOk(img, lay) && c in img.classes && !img.classes[c].meta
    requires SuperOf(img, c) == None && IsaOf(img, Some(c)) == Some(b) && b in img.classes
    ensures LoadedLine(img, lay, b) == [b]
  {
    assert ClassImageOk(img, lay, c) && MetaImageOk(img, lay, b);
    assert LineOf(img, lay, c) == [c];
    assert MetaLine(img, [c]) == [b] + MetaLine(img, [c][1..]);
  }

  lemma ShapeKeys(img: Image, lay: Layout, done: seq<Cid>)
    requires ImageOk(img, lay)
    ensures LoadedShape(img, lay, done).line.Keys == ClassesAfter(img, lay, done).Keys
    ensures LoadedShape(img, lay, done).kids.Keys == ClassesAfter(img, lay, done).Keys
  {
  }

  /** Loading extends the forest, whatever has been loaded and allocated before. */
  lemma LoadedForest(img: Image, lay: Layout, done: seq<Cid>)
    requires ImageOk(img, lay) && Complete(img, done)
    ensures Forest(ClassesAfter(img, lay, done), LoadedShape(img, lay, done))
  {
    var cs, sh := ClassesAfter(img, lay, done), LoadedShape(img, lay, done);
    ShapeKeys(img, lay, done);
    assert forall b :: b in cs ==> KidsOk(cs, sh, b) by {
      forall b | b in cs
        ensures KidsOk(cs, sh, b)
      {
        if All(img)[b].meta {
          MetaKidsOk(img, lay, done, b);
        } else {
          ClassKidsOk(img, lay, done, b);
        }
      }
    }
    assert forall b :: b in cs ==> LineOk(cs, sh, b) by {
      forall b | b in cs
        ensures LineOk(cs, sh, b)
      {
        if b !in img.classes {
          KnownLineOk(img, lay, done, b);
        } else if img.classes[b].meta {
          NewMetaLineOk(img, lay, done, b);
        } else {
          NewClassLineOk(img, lay, done, b);
        }
      }
    }
  }

  // ---------------------------------------------------------------- the class side

  /** Loading leaves links and lines of the classes that were there. */
  lemma LoadingKeepsLinks(img: Image, lay: Layout, done: seq<Cid>)
    requires ImageOk(img, lay) && Loadable(img, done)
    ensures LinksStay(img.core.classes, img.shape, ClassesAfter(img, lay, done), LoadedShape(img, lay, done))
  {
    forall b | b in img.core.classes
      ensures LinkKept(img.core.classes, img.shape, ClassesAfter(img, lay, done), LoadedShape(img, lay, done), b)
    {
      KnownStays(img, lay, done, b);
      LoadedLines(img, lay, done, b);
    }
  }

  /** The classes that the links of a metaclass are taken from keep their isa. */
  lemma IsaAround(img: Image, lay: Layout, done: seq<Cid>, c: Cid)
    requires ImageOk(img, lay) && c in All(img) && !All(img)[c].meta
    ensures var cs := ClassesAfter(img, lay, done);
            && cs[c].isa == IsaOf(img, Some(c)) && cs[c].superClass == SuperOf(img, c) && !cs[c].meta
            && IsaIn(cs, SuperOf(img, c)) == IsaOf(img, SuperOf(img, c))
            && IsaIn(cs, Root(img, lay, c)) == IsaOf(img, Root(img, lay, c))
  {
    ClassIsLinked(img, lay, c);
    RootIsTop(img, lay, c);
    IsaStays(img, lay, done, c);
    IsaStays(img, lay, done, Root(img, lay, c).value);
    if SuperOf(img, c).Some? {
      IsaStays(img, lay, done, SuperOf(img, c).value);
    }
  }

  /** The metaclass of a loaded class has the links of the Objective-C class model. */
  lemma LoadedLinks(img: Image, lay: Layout, done: seq<Cid>, c: Cid)
    requires ImageOk(img, lay) && Complete(img, done) && c in img.classes && !img.classes[c].meta
    ensures LinksOk(ClassesAfter(img, lay, done), LoadedShape(img, lay, done), c)
  {
    IsaAround(img, lay, done, c);
    assert ClassImageOk(img, lay, c);
    MetaLinks(img, lay, done, c, img.classes[c].isa.value);
    LoadedLines(img, lay, done, c);
    ClassLine(img, lay, c);
  }

  /** The ancestors of `c` that are known already have complete links. */
  ghost predicate KnownLinked(img: Image, lay: Layout, c: Cid) {
    forall b {:trigger LinksOk(img.core.classes, img.shape, b)} ::
      b in LineOf(img, lay, c) && b in img.core.classes ==> LinksOk(img.core.classes, img.shape, b)
  }

  /** So its chain is complete if and only if those of its known ancestors are; a chain that starts
      from a root class of the section always is. */
  lemma LoadedChain(img: Image, lay: Layout, done: seq<Cid>, c: Cid)
    requires ImageOk(img, lay) && Complete(img, done) && c in img.classes && !img.classes[c].meta
    ensures Chained(ClassesAfter(img, lay, done), LoadedShape(img, lay, done), c) <==> KnownLinked(img, lay, c)
  {
    var cs, sh := ClassesAfter(img, lay, done), LoadedShape(img, lay, done);
    LoadedLines(img, lay, done, c);
    ClassLine(img, lay, c);
    LineOfClass(img, lay, c);
    LoadingKeepsLinks(img, lay, done);
    forall b | b in Line(sh, c)
      ensures LinksOk(cs, sh, b) <==> (b in img.core.classes ==> LinksOk(img.core.classes, img.shape, b))
    {
      if b in img.classes {
        LoadedLinks(img, lay, done, b);
        assert FreshIn(img, b);
      } else {
        KnownLinkKept(img, lay, done, b);
      }
    }
  }

  /** The links of a class that was there are complete after loading if and only if they were. */
  lemma KnownLinkKept(img: Image, lay: Layout, done: seq<Cid>, b: Cid)
    requires ImageOk(img, lay) && Loadable(img, done) && b in img.core.classes && !img.core.classes[b].meta
    ensures LinksOk(ClassesAfter(img, lay, done), LoadedShape(img, lay, done), b)
            <==> LinksOk(img.core.classes, img.shape, b)
  {
    LoadingKeepsLinks(img, lay, done);
    LineOnward(img.core.classes, img.shape, b);
    LineMembers(img.core.classes, img.shape, b);
    assert PairOk(img.core.classes, img.shape, b);
    LinksStaySame(img.core.classes, img.shape, ClassesAfter(img, lay, done), LoadedShape(img, lay, done), b);
  }

  // ---------------------------------------------------------------- sizes

  /** No loaded class or metaclass has a negative size; a size other than 0 is kept up to its
      sign, and 0 is left to classes that have a superclass. */
  lemma SizesPatched(img: Image, lay: Layout, done: seq<Cid>, b: Cid)
    requires ImageOk(img, lay) && Complete(img, done) && b in img.classes
    ensures var was, size := img.classes[b].instanceSize, ClassesAfter(img, lay, done)[b].instanceSize;
            && size >= 0 && (was != 0 ==> size == was || size == -was)
            && (size == 0 <==> was == 0 && !img.classes[b].meta && SuperOf(img, b).Some?)
            && (was == 0 && size != 0 ==> size == OBJECT_SIZE)
  {
    if img.classes[b].meta {
      assert MetaImageOk(img, lay, b);
    }
  }
}
