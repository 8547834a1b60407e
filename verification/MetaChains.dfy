/**
  The class side: the metaclass chain of a class, in any state of the runtime.
*/
module MetaChains {
  import opened Options
  import opened Sequences
  import opened Selectors
  import opened ClassTypes
  import opened ClassForest
  import opened Dispatch

  function IsaIn(cs: Classes, c: Option<Cid>): Option<Cid> {
    if c.Some? && c.value in cs then cs[c.value].isa else None
  }

  /** The metaclass of `c` has the links of the Objective-C class model: its super is the
      metaclass of the superclass, or the class itself for a root class; its isa is the metaclass
      of the root class. */
  predicate LinksOk(cs: Classes, sh: Shape, c: Cid) {
    && c in cs && !cs[c].meta && cs[c].isa.Some? && cs[c].isa.value in cs
    && var mk := cs[cs[c].isa.value];
       && mk.superClass == (if cs[c].superClass.Some? then IsaIn(cs, cs[c].superClass) else Some(c))
       && mk.isa == IsaIn(cs, Last(Line(sh, c)))
  }

  /** So do those of all its ancestors. */
  ghost predicate Chained(cs: Classes, sh: Shape, c: Cid) {
    forall b {:trigger LinksOk(cs, sh, b)} :: b in Line(sh, c) ==> LinksOk(cs, sh, b)
  }

  /** The metaclasses of a list of classes. */
  function MetasOf(cs: Classes, list: seq<Cid>): seq<Cid> {
    if list == [] then []
    else if IsaIn(cs, Some(list[0])).Some? then [IsaIn(cs, Some(list[0])).value] + MetasOf(cs, list[1..])
    else MetasOf(cs, list[1..])
  }

  /** The line of a class on the instance side, step by step. */
  lemma LineOnward(cs: Classes, sh: Shape, c: Cid)
    requires Forest(cs, sh) && c in cs && !cs[c].meta
    ensures Line(sh, c) != [] && Line(sh, c)[0] == c
    ensures var up := cs[c].superClass;
            && Line(sh, c)[1..] == (if up.Some? then Line(sh, up.value) else [])
            && (up.Some? ==> up.value in cs && !cs[up.value].meta && |Line(sh, up.value)| < |Line(sh, c)|
                             && Line(sh, up.value) != [] && Last(Line(sh, c)) == Last(Line(sh, up.value)))
  {
    assert LineOk(cs, sh, c);
    if cs[c].superClass.Some? {
      SelfAtStart(cs, sh, cs[c].superClass.value);
    }
  }

  /** The ancestors of the metaclass of a class are the metaclasses of the ancestors of the class,
      in the same order, and then the root class. */
  lemma {:induction false} ChainWalk(cs: Classes, sh: Shape, c: Cid)
    requires Forest(cs, sh) && c in cs && !cs[c].meta && Chained(cs, sh, c)
    ensures Line(sh, c) != []
    ensures Walks(cs, cs[c].isa, MetasOf(cs, Line(sh, c)) + [Last(Line(sh, c)).value])
    decreases |Line(sh, c)|
  {
    LineOnward(cs, sh, c);
    assert LinksOk(cs, sh, c);
    var up := cs[c].superClass;
    var above := MetasOf(cs, Line(sh, c)[1..]) + [Last(Line(sh, c)).value];
    assert (MetasOf(cs, Line(sh, c)) + [Last(Line(sh, c)).value])[1..] == above;
    if up.Some? {
      ChainAbove(cs, sh, c, up.value);
      ChainWalk(cs, sh, up.value);
    } else {
      assert above == [c];
    }
  }

  lemma ChainAbove(cs: Classes, sh: Shape, c: Cid, s: Cid)
    requires Chained(cs, sh, c) && Line(sh, c) != [] && Line(sh, c)[1..] == Line(sh, s)
    ensures Chained(cs, sh, s)
  {
    assert Line(sh, c) == [Line(sh, c)[0]] + Line(sh, s);
  }

  /** The isa of every metaclass of a chain is the metaclass of the root class, and that one's
      isa is itself. */
  lemma {:induction false} ChainIsa(cs: Classes, sh: Shape, c: Cid)
    requires Forest(cs, sh) && c in cs && !cs[c].meta && Chained(cs, sh, c)
    ensures var rm := IsaIn(cs, Last(Line(sh, c)));
            && rm.Some? && rm.value in cs && cs[rm.value].isa == rm
            && forall b :: b in Line(sh, c) ==>
                 IsaIn(cs, Some(b)).Some? && IsaIn(cs, IsaIn(cs, Some(b))) == rm
    decreases |Line(sh, c)|
  {
    LineOnward(cs, sh, c);
    assert LinksOk(cs, sh, c);
    if cs[c].superClass.Some? {
      ChainAbove(cs, sh, c, cs[c].superClass.value);
      ChainIsa(cs, sh, cs[c].superClass.value);
    }
    forall b | b in Line(sh, c)
      ensures IsaIn(cs, Some(b)).Some? && IsaIn(cs, IsaIn(cs, Some(b))) == IsaIn(cs, Last(Line(sh, c)))
    {
      if b != c {
        assert b in Line(sh, c)[1..];
      }
    }
  }

  /** A message to a class finds the first class method along the ancestors of the class and, if
      there is none, the instance method of the root class. */
  lemma ClassSideLookup(co: Core, sh: Shape, c: Cid, walk: seq<Cid>, sel: Selector)
    requires Forest(co.classes, sh) && c in co.classes && !co.classes[c].meta && Chained(co.classes, sh, c)
    requires Walks(co.classes, co.classes[c].isa, walk)
    ensures Line(sh, c) != []
    ensures var onMetas := FindAlong(co.methods, co.entries, MetasOf(co.classes, Line(sh, c)), sel);
            FindAlong(co.methods, co.entries, walk, sel)
            == if onMetas.Some? then onMetas else FindOwn(co.methods, co.entries, Last(Line(sh, c)).value, sel)
  {
    ChainWalk(co.classes, sh, c);
    var r := Last(Line(sh, c)).value;
    WalkUnique(co.classes, co.classes, co.classes[c].isa, walk, MetasOf(co.classes, Line(sh, c)) + [r]);
    FindAlongConcat(co.methods, co.entries, MetasOf(co.classes, Line(sh, c)), [r], sel);
    assert [r][1..] == [];
  }

  // ---------------------------------------------------------------- the walk of every class

  /** What comes after the last metaclass: the root class `r` if it was loaded, nothing if it was
      allocated. */
  function AboveRoot(cs: Classes, r: Cid): seq<Cid> {
    var mt := IsaIn(cs, Some(r));
    if mt.Some? && mt.value in cs && cs[mt.value].superClass == Some(r) then [r] else []
  }

  /** The walk of a message to the class `c`: the metaclasses of its ancestors, and what comes
      after them. */
  function ClassWalk(cs: Classes, sh: Shape, c: Cid): seq<Cid> {
    var root := Last(Line(sh, c));
    MetasOf(cs, Line(sh, c)) + if root.Some? then AboveRoot(cs, root.value) else []
  }

  /** The links above one metaclass, in a runtime whose classes are paired. */
  lemma WalkOnward(cs: Classes, sh: Shape, c: Cid)
    requires Forest(cs, sh) && PairsOk(cs, sh) && c in cs && !cs[c].meta
    ensures cs[c].isa.Some? && cs[c].isa.value in cs && ClassWalk(cs, sh, c) != []
    ensures var walk := ClassWalk(cs, sh, c);
            && walk[0] == cs[c].isa.value
            && walk[1..] == if cs[c].superClass.Some? then ClassWalk(cs, sh, cs[c].superClass.value)
                            else AboveRoot(cs, c)
  {
    assert PairOk(cs, sh, c);
    LineOnward(cs, sh, c);
    var mt, rest := cs[c].isa.value, MetasOf(cs, Line(sh, c)[1..]);
    assert MetasOf(cs, Line(sh, c)) == [mt] + rest;
    var above := ClassWalk(cs, sh, c)[1..];
    assert above == rest + AboveRoot(cs, Last(Line(sh, c)).value);
  }

  /** The class-side walk of every class ends, however its ancestors came to be there. */
  lemma {:induction false} ClassWalkEnds(cs: Classes, sh: Shape, c: Cid)
    requires Forest(cs, sh) && PairsOk(cs, sh) && c in cs && !cs[c].meta
    ensures Walks(cs, cs[c].isa, ClassWalk(cs, sh, c))
    decreases |Line(sh, c)|
  {
    assert PairOk(cs, sh, c);
    LineOnward(cs, sh, c);
    WalkOnward(cs, sh, c);
    var up := cs[c].superClass;
    if up.Some? {
      ClassWalkEnds(cs, sh, up.value);
    } else if AboveRoot(cs, c) != [] {
      assert [c][1..] == [];
    }
  }

  /** Every struct, class or metaclass, has a walk. */
  lemma EveryWalkEnds(cs: Classes, sh: Shape, b: Cid)
    requires Forest(cs, sh) && PairsOk(cs, sh) && b in cs
    ensures exists walk :: Walks(cs, Some(b), walk)
  {
    if cs[b].meta {
      assert PairOk(cs, sh, b);
      ClassWalkEnds(cs, sh, sh.owner[b]);
    } else {
      LineIsWalk(cs, sh, b);
    }
  }

  /** A message to any class finds the first class method along the ancestors of the class; if
      there is none, the instance method of the root class if that was loaded. */
  lemma ClassMessageFinds(co: Core, sh: Shape, c: Cid, walk: seq<Cid>, sel: Selector)
    requires Forest(co.classes, sh) && PairsOk(co.classes, sh) && c in co.classes && !co.classes[c].meta
    requires Walks(co.classes, co.classes[c].isa, walk)
    ensures Line(sh, c) != []
    ensures var onMetas := FindAlong(co.methods, co.entries, MetasOf(co.classes, Line(sh, c)), sel);
            var root := Last(Line(sh, c)).value;
            FindAlong(co.methods, co.entries, walk, sel)
            == if onMetas.Some? then onMetas
               else if AboveRoot(co.classes, root) == [root] then FindOwn(co.methods, co.entries, root, sel)
               else None
  {
    ClassWalkEnds(co.classes, sh, c);
    LineOnward(co.classes, sh, c);
    WalkUnique(co.classes, co.classes, co.classes[c].isa, walk, ClassWalk(co.classes, sh, c));
    var r := Last(Line(sh, c)).value;
    FindAlongConcat(co.methods, co.entries, MetasOf(co.classes, Line(sh, c)), AboveRoot(co.classes, r), sel);
    assert [r][1..] == [];
  }

  /** In a chain as the loader makes it, the walk ends with the root class. */
  lemma ChainedWalk(cs: Classes, sh: Shape, c: Cid)
    requires Forest(cs, sh) && c in cs && !cs[c].meta && Chained(cs, sh, c)
    ensures Line(sh, c) != [] && ClassWalk(cs, sh, c) == MetasOf(cs, Line(sh, c)) + [Last(Line(sh, c)).value]
  {
    LineOnward(cs, sh, c);
    RootIsRoot(cs, sh, c);
    assert LinksOk(cs, sh, Last(Line(sh, c)).value);
  }

  lemma {:induction false} RootIsRoot(cs: Classes, sh: Shape, c: Cid)
    requires Forest(cs, sh) && c in cs && !cs[c].meta
    ensures var r := Last(Line(sh, c));
            && r.Some? && r.value in cs && r.value in Line(sh, c)
            && !cs[r.value].meta && cs[r.value].superClass == None
    decreases |Line(sh, c)|
  {
    LineOnward(cs, sh, c);
    if cs[c].superClass.Some? {
      RootIsRoot(cs, sh, cs[c].superClass.value);
      assert Line(sh, c) == [c] + Line(sh, cs[c].superClass.value);
    }
  }

  // ---------------------------------------------------------------- growth

  /** The classes that were there keep their links and their lines. */
  predicate LinkKept(cs: Classes, sh: Shape, cs': Classes, sh': Shape, b: Cid) {
    && b in cs && b in cs' && cs'[b].isa == cs[b].isa && cs'[b].superClass == cs[b].superClass
    && cs'[b].meta == cs[b].meta && Line(sh', b) == Line(sh, b)
  }

  ghost predicate LinksStay(cs: Classes, sh: Shape, cs': Classes, sh': Shape) {
    forall b {:trigger LinkKept(cs, sh, cs', sh', b)} :: b in cs ==> LinkKept(cs, sh, cs', sh', b)
  }

  lemma LinksStaySame(cs: Classes, sh: Shape, cs': Classes, sh': Shape, b: Cid)
    requires LinksStay(cs, sh, cs', sh') && b in cs && cs[b].isa.Some? && cs[b].isa.value in cs
    requires cs[b].superClass.Some? ==> cs[b].superClass.value in cs
    requires Last(Line(sh, b)).Some? ==> Last(Line(sh, b)).value in cs
    ensures LinksOk(cs', sh', b) <==> LinksOk(cs, sh, b)
  {
    assert LinkKept(cs, sh, cs', sh', b) && LinkKept(cs, sh, cs', sh', cs[b].isa.value);
    assert cs[b].superClass.Some? ==> LinkKept(cs, sh, cs', sh', cs[b].superClass.value);
    assert Last(Line(sh, b)).Some? ==> LinkKept(cs, sh, cs', sh', Last(Line(sh, b)).value);
  }

  /** A chain that is there stays there. */
  lemma ChainStays(cs: Classes, sh: Shape, cs': Classes, sh': Shape, c: Cid)
    requires Forest(cs, sh) && c in cs && !cs[c].meta && Chained(cs, sh, c) && LinksStay(cs, sh, cs', sh')
    ensures Chained(cs', sh', c)
  {
    assert LinkKept(cs, sh, cs', sh', c);
    LineMembers(cs, sh, c);
    forall b | b in Line(sh, c)
      ensures LinksOk(cs', sh', b)
    {
      assert LinksOk(cs, sh, b);
      LineOnward(cs, sh, b);
      LineMembers(cs, sh, b);
      LinksStaySame(cs, sh, cs', sh', b);
    }
  }
}
