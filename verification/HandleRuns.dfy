/**
  Handles over whole runs: a pointer to a method entry stays good as long as the list it points into
  is not added to in place.
*/
module HandleRuns {
  import opened Options
  import opened Selectors
  import opened ClassTypes
  import opened ClassForest
  import opened Dispatch
  import opened CacheCoherence
  import opened MetaChains
  import opened LoaderImage
  import opened LoaderLaws
  import opened LoaderOrder
  import opened MethodLists
  import opened DispatchRuns

  /** The call adds a method to a list of `b` in place. */
  predicate Grows(co: Core, call: Call, b: Cid) {
    match call
    case Adds(c, sel, _, _) => c == b && GrowsInPlace(co, c, sel)
    case Replaces(c, sel, _, _) => c == b && GrowsInPlace(co, c, sel)
    case _ => false
  }

  /** Some call of the run does. */
  predicate GrowsOver(co: Core, sh: Shape, calls: seq<Call>, b: Cid)
    requires Contracts(co, sh, calls)
    decreases |calls|
  {
    calls != [] &&
    (Grows(co, calls[0], b) || GrowsOver(Plain(co, sh, calls[0]).0, ShapeAfter(co, sh, calls[0]), calls[1..], b))
  }

  /** The length of the list that a class had first. */
  function Oldest(co: Core, b: Cid): nat {
    if b in co.methods && co.methods[b] != [] then |co.methods[b][|co.methods[b]| - 1]| else 0
  }

  // ---------------------------------------------------------------- one call

  lemma KnownClassLists(co: Core, sh: Shape, call: Call, b: Cid)
    requires CoreOk(co, sh) && Contract(co, sh, call) && b in co.classes && !call.Adds? && !call.Replaces?
    ensures var co' := Plain(co, sh, call).0;
            b in co.methods && b in co'.methods && co'.methods[b] == co.methods[b]
  {
    assert ClassOk(co, b);
    match call {
      case Allocates(superclass, name) => NewClassIsNew(co, sh);
      case Loads(_, _, _, lay, section) => KnownMethods(ModuleOf(co, sh, call), lay, Listed(section), b);
      case _ =>
    }
  }

  lemma GrownIsLonger(co: Core, sh: Shape, c: Cid, sel: Selector, imp: Imp, types: string)
    requires CoreOk(co, sh) && GrowsInPlace(co, c, sel)
    ensures Oldest(AddMethod(co, c, sel, imp, types).0, c) == Oldest(co, c) + 1
  {
    AddAndLists(co, sh, c, sel, imp, types, c);
  }

  lemma AdditionAndLists(co: Core, sh: Shape, c: Cid, sel: Selector, imp: Imp, types: string, b: Cid)
    requires CoreOk(co, sh) && c in co.classes && b in co.classes
    ensures c in co.methods
    ensures ListsStay(co, AddMethod(co, c, sel, imp, types).0, b) <==> !(c == b && GrowsInPlace(co, c, sel))
    ensures ListsStay(co, ReplaceMethod(co, c, sel, imp, types).0, b) <==> !(c == b && GrowsInPlace(co, c, sel))
    ensures c == b && GrowsInPlace(co, c, sel) ==>
              && Oldest(AddMethod(co, c, sel, imp, types).0, b) == Oldest(co, b) + 1
              && Oldest(ReplaceMethod(co, c, sel, imp, types).0, b) == Oldest(co, b) + 1
  {
    assert ClassOk(co, c) && ClassOk(co, b);
    AddAndLists(co, sh, c, sel, imp, types, b);
    if c == b && GrowsInPlace(co, c, sel) {
      GrownIsLonger(co, sh, c, sel, imp, types);
    }
  }

  /** In one call the lists of a class stay where they are if and only if it does not grow one in
      place.  If it does, that one is longer. */
  lemma StepAndLists(co: Core, sh: Shape, call: Call, b: Cid)
    requires CoreOk(co, sh) && Contract(co, sh, call) && b in co.classes
    ensures ListsStay(co, Plain(co, sh, call).0, b) <==> !Grows(co, call, b)
    ensures Grows(co, call, b) ==> Oldest(Plain(co, sh, call).0, b) == Oldest(co, b) + 1
  {
    if call.Adds? || call.Replaces? {
      AdditionAndLists(co, sh, call.c, call.sel, call.imp, call.types, b);
    } else {
      KnownClassLists(co, sh, call, b);
    }
  }

  lemma SameOldest(co: Core, co': Core, b: Cid)
    requires ListsStay(co, co', b) && co.methods[b] != []
    ensures co'.methods[b] != [] && Oldest(co', b) == Oldest(co, b)
  {
    var l, l' := co.methods[b], co'.methods[b];
    assert l'[|l'| - |l|..][|l| - 1] == l[|l| - 1];
  }

  // ---------------------------------------------------------------- runs

  lemma {:induction false} RunAndOldest(m: Memory, sh: Shape, calls: seq<Call>, b: Cid)
    requires Valid(m, sh) && Contracts(m.core, sh, calls) && b in m.core.classes
    requires b in m.core.methods && m.core.methods[b] != []
    ensures var co' := PlainRun(m.core, sh, calls).0;
            if GrowsOver(m.core, sh, calls, b) then Oldest(co', b) > Oldest(m.core, b)
            else ListsStay(m.core, co', b)
    decreases |calls|
  {
    if calls != [] {
      var co1, sh1 := Plain(m.core, sh, calls[0]).0, ShapeAfter(m.core, sh, calls[0]);
      StepRefines(m, sh, calls[0]);
      StepAndLists(m.core, sh, calls[0], b);
      StepKeepsLinks(m.core, sh, calls[0]);
      assert LinkKept(m.core.classes, sh, co1.classes, sh1, b) && ClassOk(co1, b);
      if !Grows(m.core, calls[0], b) {
        SameOldest(m.core, co1, b);
      }
      RunAndOldest(Cached(m, sh, calls[0]).0, sh1, calls[1..], b);
      OldestOnward(m.core, co1, PlainRun(m.core, sh, calls).0, b, Grows(m.core, calls[0], b),
                   GrowsOver(co1, sh1, calls[1..], b));
    }
  }

  lemma OldestOnward(co0: Core, co1: Core, co2: Core, b: Cid, grows: bool, later: bool)
    requires b in co0.methods && co0.methods[b] != []
    requires if grows then Oldest(co1, b) == Oldest(co0, b) + 1 else ListsStay(co0, co1, b)
    requires if later then Oldest(co2, b) > Oldest(co1, b) else ListsStay(co1, co2, b)
    ensures if grows || later then Oldest(co2, b) > Oldest(co0, b) else ListsStay(co0, co2, b)
  {
    if !grows {
      SameOldest(co0, co1, b);
    }
    if !later && co1.methods[b] != [] {
      SameOldest(co1, co2, b);
    }
    if !grows && !later {
      SuffixOfSuffix(co0.methods[b], co1.methods[b], co2.methods[b]);
    }
  }

  /** Over a run the entries of a class stay where they are, and handles to them good, if and only
      if no call adds to the class, while it is not registered, a method that it does not have. */
  lemma RunAndLists(m: Memory, sh: Shape, calls: seq<Call>, b: Cid)
    requires Valid(m, sh) && Contracts(m.core, sh, calls) && b in m.core.classes
    requires b in m.core.methods && m.core.methods[b] != []
    ensures ListsStay(m.core, PlainRun(m.core, sh, calls).0, b) <==> !GrowsOver(m.core, sh, calls, b)
  {
    RunAndOldest(m, sh, calls, b);
    var co' := PlainRun(m.core, sh, calls).0;
    if ListsStay(m.core, co', b) {
      SameOldest(m.core, co', b);
    }
  }

  lemma StaysRegistered(co: Core, sh: Shape, call: Call, b: Cid)
    requires CoreOk(co, sh) && Contract(co, sh, call) && b in co.classes && co.classes[b].registered
    ensures var cs' := Plain(co, sh, call).0.classes; b in cs' && cs'[b].registered
  {
    if call.Allocates? {
      NewClassIsNew(co, sh);
      AllocateOld(co, call.superclass, call.name, b);
    } else if call.Loads? {
      KnownStays(ModuleOf(co, sh, call), call.lay, Listed(call.section), b);
    } else if !call.Registers? {
      SameClasses(co, sh, call);
    }
  }

  lemma StaysMeta(co: Core, sh: Shape, co': Core, sh': Shape, b: Cid)
    requires LinksStay(co.classes, sh, co'.classes, sh') && CoreOk(co', sh') && b in co.classes
    ensures b in co'.classes && (co.classes[b].meta ==> co'.classes[b].meta && !co'.classes[b].registered)
  {
    assert LinkKept(co.classes, sh, co'.classes, sh', b);
    assert ClassOk(co', b);
  }

  /** The lists of a registered class never grow in place.  A metaclass is never registered, so
      those of a metaclass may at any time. */
  lemma {:induction false} RegisteredNeverGrows(m: Memory, sh: Shape, calls: seq<Call>, b: Cid)
    requires Valid(m, sh) && Contracts(m.core, sh, calls) && b in m.core.classes
    ensures m.core.classes[b].registered ==> !GrowsOver(m.core, sh, calls, b)
    ensures var co' := PlainRun(m.core, sh, calls).0;
            b in co'.classes && (m.core.classes[b].meta ==> co'.classes[b].meta && !co'.classes[b].registered)
    decreases |calls|
  {
    assert ClassOk(m.core, b);
    if calls != [] {
      StepRefines(m, sh, calls[0]);
      StepKeepsLinks(m.core, sh, calls[0]);
      StaysMeta(m.core, sh, Plain(m.core, sh, calls[0]).0, ShapeAfter(m.core, sh, calls[0]), b);
      if m.core.classes[b].registered {
        StaysRegistered(m.core, sh, calls[0], b);
      }
      RegisteredNeverGrows(Cached(m, sh, calls[0]).0, ShapeAfter(m.core, sh, calls[0]), calls[1..], b);
    }
  }
}
