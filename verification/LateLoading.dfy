/**
  A message to an instance of a class some of whose ancestors have not been loaded yet.

  The contract of `DispatchRuns` rules this out, because a module is loaded as a whole and below
  classes that are registered.  The source neither checks for it nor flushes a cache while loading.
  Until a struct is loaded its list of methods is the compiled one, in another format than the walk
  expects, so a walk that comes to such a list reads what it must not read.
*/
module LateLoading {
  import opened Options
  import opened Selectors
  import opened ClassTypes
  import opened ClassForest
  import opened Dispatch
  import opened LoaderImage
  import opened LoaderStep
  import opened LoaderLaws
  import opened LoaderOrder
  import opened DispatchRuns

  /** The struct of `b` still points to its compiled list, even if that list is empty. */
  predicate Raw(img: Image, lay: Layout, done: seq<Cid>, b: Cid) {
    b in img.classes && !Patched(img, lay, done, b) && b in img.lists
  }

  datatype Reading = Unreadable | Found(e: Option<Eid>)

  /** The search along a line when the classes of `done` have been loaded. */
  function ReadAlong(img: Image, lay: Layout, done: seq<Cid>, line: seq<Cid>, sel: Selector): Reading {
    if line == [] then Found(None)
    else if Raw(img, lay, done, line[0]) then Unreadable
    else
      var own := FindOwn(MethodsAfter(img, lay, done), EntriesAfter(img, lay, done), line[0], sel);
      if own.Some? then Found(own) else ReadAlong(img, lay, done, line[1..], sel)
  }

  /** Every compiled list on the line stands behind a class that has a method for the selector. */
  predicate Readable(img: Image, lay: Layout, done: seq<Cid>, line: seq<Cid>, sel: Selector) {
    forall k :: 0 <= k < |line| && Raw(img, lay, done, line[k]) ==> Answered(img, lay, done, line[..k], sel)
  }

  predicate Answered(img: Image, lay: Layout, done: seq<Cid>, line: seq<Cid>, sel: Selector) {
    var ms, es := MethodsAfter(img, lay, done), EntriesAfter(img, lay, done);
    exists j :: 0 <= j < |line| && FindOwn(ms, es, line[j], sel).Some?
  }

  /** What has been loaded is searched as it is when everything has been; what has not been, and has
      no compiled list, has no methods in either state. */
  lemma SearchedAlike(img: Image, lay: Layout, done: seq<Cid>, done': seq<Cid>, b: Cid, sel: Selector)
    requires ImageOk(img, lay) && Complete(img, done') && b in All(img) && !Raw(img, lay, done, b)
    ensures FindOwn(MethodsAfter(img, lay, done'), EntriesAfter(img, lay, done'), b, sel)
            == FindOwn(MethodsAfter(img, lay, done), EntriesAfter(img, lay, done), b, sel)
  {
    if b !in img.classes {
      OwnFoundKnown(img, lay, done, b, sel);
      OwnFoundKnown(img, lay, done', b, sel);
    } else {
      AllPatched(img, lay, done', b);
      ConvertedFlat(img, b);
      if Patched(img, lay, done, b) {
        PatchedAlike(img, lay, done, done', b, sel);
      } else {
        assert FreshIn(img, b);
        assert b !in MethodsAfter(img, lay, done);
      }
    }
  }

  lemma PatchedAlike(img: Image, lay: Layout, done: seq<Cid>, done': seq<Cid>, b: Cid, sel: Selector)
    requires ImageOk(img, lay) && Patched(img, lay, done, b) && Patched(img, lay, done', b)
    ensures FindOwn(MethodsAfter(img, lay, done'), EntriesAfter(img, lay, done'), b, sel)
            == FindOwn(MethodsAfter(img, lay, done), EntriesAfter(img, lay, done), b, sel)
  {
    var es, es', ids := EntriesAfter(img, lay, done), EntriesAfter(img, lay, done'), Flat(Converted(img, b));
    ConvertedFlat(img, b);
    forall e | e in ids
      ensures Matches(es, e, sel) <==> Matches(es', e, sel)
    {
      EntryAfter(img, lay, done, e);
      EntryAfter(img, lay, done', e);
    }
    FindInSame(es, es', ids, sel);
  }

  /** A walk can be read if and only if every class up to the one that answers has been loaded or
      has no compiled list.  What it finds then is what the search finds when everything has been
      loaded. */
  lemma {:induction false} ReadsAlike(img: Image, lay: Layout, done: seq<Cid>, done': seq<Cid>, line: seq<Cid>,
                                      sel: Selector)
    requires ImageOk(img, lay) && Complete(img, done') && forall b :: b in line ==> b in All(img)
    ensures var r := ReadAlong(img, lay, done, line, sel);
            && (r.Found? <==> Readable(img, lay, done, line, sel))
            && (r.Found? ==> FindAlong(MethodsAfter(img, lay, done'), EntriesAfter(img, lay, done'), line, sel) == r.e)
    decreases |line|
  {
    if line != [] {
      var b, rest := line[0], line[1..];
      ReadsAlike(img, lay, done, done', rest, sel);
      ReadableOnward(img, lay, done, line, sel);
      if !Raw(img, lay, done, b) {
        SearchedAlike(img, lay, done, done', b, sel);
      }
    }
  }

  lemma ReadableOnward(img: Image, lay: Layout, done: seq<Cid>, line: seq<Cid>, sel: Selector)
    requires line != []
    ensures Readable(img, lay, done, line, sel)
            <==> !Raw(img, lay, done, line[0])
                 && (FindOwn(MethodsAfter(img, lay, done), EntriesAfter(img, lay, done), line[0], sel).Some?
                     || Readable(img, lay, done, line[1..], sel))
  {
    var b, rest := line[0], line[1..];
    var answers := FindOwn(MethodsAfter(img, lay, done), EntriesAfter(img, lay, done), b, sel).Some?;
    assert line[..0] == [] && !Answered(img, lay, done, [], sel);
    forall k | 0 < k < |line|
      ensures Answered(img, lay, done, line[..k], sel) <==> answers || Answered(img, lay, done, rest[..k - 1], sel)
    {
      assert line[..k] == [b] + rest[..k - 1];
      AnsweredOnward(img, lay, done, b, rest[..k - 1], sel);
    }
    assert forall k :: 0 <= k < |rest| ==> rest[k] == line[k + 1];
    if Readable(img, lay, done, line, sel) && !answers {
      forall k | 0 <= k < |rest| && Raw(img, lay, done, rest[k])
        ensures Answered(img, lay, done, rest[..k], sel)
      {
        assert Raw(img, lay, done, line[k + 1]) && line[..k + 1] == [b] + rest[..k];
        AnsweredOnward(img, lay, done, b, rest[..k], sel);
      }
    }
  }

  lemma AnsweredOnward(img: Image, lay: Layout, done: seq<Cid>, b: Cid, rest: seq<Cid>, sel: Selector)
    ensures Answered(img, lay, done, [b] + rest, sel)
            <==> FindOwn(MethodsAfter(img, lay, done), EntriesAfter(img, lay, done), b, sel).Some?
                 || Answered(img, lay, done, rest, sel)
  {
    var line := [b] + rest;
    assert line[0] == b && forall j :: 0 <= j < |rest| ==> line[j + 1] == rest[j];
    if Answered(img, lay, done, rest, sel) {
      var ms, es := MethodsAfter(img, lay, done), EntriesAfter(img, lay, done);
      var j :| 0 <= j < |rest| && FindOwn(ms, es, rest[j], sel).Some?;
      assert line[j + 1] == rest[j];
    }
  }

  // ---------------------------------------------------------------- messages

  /** A message to an instance of `d` while part of a module is loaded: if its walk can be read, it
      finds the entry, and calls the IMP, that it does when everything is loaded.  So a hit cached
      in between stays right although loading flushes nothing. */
  lemma OrderOfLoadAndSend(img: Image, lay: Layout, done: seq<Cid>, done': seq<Cid>, d: Cid, sel: Selector)
    requires ImageOk(img, lay) && Complete(img, done') && d in All(img) && !All(img)[d].meta
    ensures var r, line := ReadAlong(img, lay, done, LineOf(img, lay, d), sel), LineOf(img, lay, d);
            && (r.Found? <==> Readable(img, lay, done, line, sel))
            && (r.Found? ==>
                  && FindAlong(MethodsAfter(img, lay, done'), EntriesAfter(img, lay, done'), line, sel) == r.e
                  && LookupAlong(MethodsAfter(img, lay, done'), EntriesAfter(img, lay, done'), line, sel)
                     == ImpOf(EntriesAfter(img, lay, done), r.e))
  {
    LineOfClass(img, lay, d);
    ReadsAlike(img, lay, done, done', LineOf(img, lay, d), sel);
    ReadsSameImp(img, lay, done, done', LineOf(img, lay, d), sel);
  }

  lemma ReadsSameImp(img: Image, lay: Layout, done: seq<Cid>, done': seq<Cid>, line: seq<Cid>, sel: Selector)
    requires ImageOk(img, lay) && Complete(img, done')
    ensures var r := ReadAlong(img, lay, done, line, sel);
            r.Found? ==> ImpOf(EntriesAfter(img, lay, done'), r.e) == ImpOf(EntriesAfter(img, lay, done), r.e)
  {
    var r := ReadAlong(img, lay, done, line, sel);
    if r.Found? && r.e.Some? {
      ReadingFinds(img, lay, done, line, sel);
      SameEntry(img, lay, done, done', r.e.value);
    }
  }

  lemma SameEntry(img: Image, lay: Layout, done: seq<Cid>, done': seq<Cid>, e: Eid)
    requires ImageOk(img, lay) && Complete(img, done') && e in EntriesAfter(img, lay, done)
    ensures e in EntriesAfter(img, lay, done') && EntriesAfter(img, lay, done')[e] == EntriesAfter(img, lay, done)[e]
  {
    EntryAfter(img, lay, done, e);
    EntryAfter(img, lay, done', e);
    if IsCompiled(img, e) {
      AllPatched(img, lay, done', e.cls);
    }
    if e in img.core.entries {
      assert EntryOk(img.core, e);
      assert e.cls in img.classes ==> FreshIn(img, e.cls);
    }
  }

  lemma {:induction false} ReadingFinds(img: Image, lay: Layout, done: seq<Cid>, line: seq<Cid>, sel: Selector)
    ensures var r := ReadAlong(img, lay, done, line, sel);
            r.Found? && r.e.Some? ==> Matches(EntriesAfter(img, lay, done), r.e.value, sel)
    decreases |line|
  {
    if line != [] {
      FindInFinds(EntriesAfter(img, lay, done), ChainOf(MethodsAfter(img, lay, done), line[0]), sel);
      ReadingFinds(img, lay, done, line[1..], sel);
    }
  }

  // ---------------------------------------------------------------- inputs

  function Struct(isa: Option<Cid>, superClass: Option<Cid>, name: string, meta: bool): ObjcClass {
    ObjcClass(isa, superClass, name, meta, false, 0, None, None)
  }

  /** Class 1 with one method, and its subclass 3. */
  function TwoClasses(entry: MethodEntry): Image {
    Image(EMPTY_MEMORY.core, EMPTY_SHAPE,
          map[1 := Struct(Some(2), None, "A", false), 2 := Struct(None, None, "A", true),
              3 := Struct(Some(4), Some(1), "B", false), 4 := Struct(None, None, "B", true)],
          map[1 := [entry]], 5)
  }

  const TWO_CLASSES_LAYOUT := Layout(map[1 := [1], 3 := [3, 1]], map[2 := 1, 4 := 3])

  lemma TwoClassesOk(entry: MethodEntry)
    ensures ImageOk(TwoClasses(entry), TWO_CLASSES_LAYOUT)
    ensures Complete(TwoClasses(entry), [3, 1])
  {
    EmptyIsValid();
    var img, lay := TwoClasses(entry), TWO_CLASSES_LAYOUT;
    assert [3] + [1] == [3, 1];
    assert ClassImageOk(img, lay, 1) && ClassImageOk(img, lay, 3);
    assert MetaImageOk(img, lay, 2) && MetaImageOk(img, lay, 4);
    assert FreshIn(img, 1) && FreshIn(img, 2) && FreshIn(img, 3) && FreshIn(img, 4);
  }

  lemma ReadsOne(img: Image, lay: Layout, done: seq<Cid>, a: Cid, b: Cid, sel: Selector)
    requires !Raw(img, lay, done, a) && a !in img.lists && a in img.classes && a !in img.core.methods
    ensures ReadAlong(img, lay, done, [a, b], sel) == ReadAlong(img, lay, done, [b], sel)
  {
    assert ChainOf(MethodsAfter(img, lay, done), a) == [];
    assert [a, b][1..] == [b];
  }

  /** The section lists the subclass first.  Once that is loaded, and its superclass is not, no
      message to one of its instances can be looked up; it can as soon as both are. */
  lemma SubclassFirst(entry: MethodEntry, sel: Selector)
    ensures ImageOk(TwoClasses(entry), TWO_CLASSES_LAYOUT) && Complete(TwoClasses(entry), [3, 1])
    ensures LineOf(TwoClasses(entry), TWO_CLASSES_LAYOUT, 3) == [3, 1]
    ensures ReadAlong(TwoClasses(entry), TWO_CLASSES_LAYOUT, [3], [3, 1], sel) == Unreadable
    ensures ReadAlong(TwoClasses(entry), TWO_CLASSES_LAYOUT, [3, 1], [3, 1], sel).Found?
  {
    var img, lay := TwoClasses(entry), TWO_CLASSES_LAYOUT;
    TwoClassesOk(entry);
    assert Raw(img, lay, [3], 1) && !Raw(img, lay, [3], 3);
    ReadsOne(img, lay, [3], 3, 1, sel);
    assert !Raw(img, lay, [3, 1], 1) && !Raw(img, lay, [3, 1], 3);
    ReadsAlike(img, lay, [3, 1], [3, 1], [3, 1], sel);
  }

  /** A metaclass that has not been loaded has no superclass yet, so a message to a class ends
      there. */
  lemma ClassSideEnds(img: Image, lay: Layout, done: seq<Cid>, c: Cid)
    requires ImageOk(img, lay) && c in img.classes && !img.classes[c].meta && c !in done
    ensures var cs := ClassesAfter(img, lay, done);
            c in cs && cs[c].isa.Some? && Walks(cs, cs[c].isa, [cs[c].isa.value])
  {
    assert ClassImageOk(img, lay, c);
    var mt := img.classes[c].isa.value;
    assert MetaImageOk(img, lay, mt);
    assert [mt][1..] == [];
  }
}
