/**
  The forest of classes: the subclass lists threaded through the class structs, and the line
  of ancestors of each class.
*/
module ClassForest {
  import opened Options
  import opened Sequences
  import opened ClassTypes

  /** The shape of the class graph, as witnesses that its pointer chains end: the line of a
      class is the class itself and its ancestors along the links that are threaded into
      subclass lists, nearest first; its kids are the classes on its subclass list; the owner
      of a metaclass is the class it belongs to. */
  datatype Shape = Shape(line: map<Cid, seq<Cid>>, kids: map<Cid, seq<Cid>>, owner: map<Cid, Cid>)

  function Line(sh: Shape, c: Cid): seq<Cid> {
    if c in sh.line then sh.line[c] else []
  }

  function Kids(sh: Shape, c: Cid): seq<Cid> {
    if c in sh.kids then sh.kids[c] else []
  }

  function At(list: seq<Cid>, k: nat): Option<Cid> {
    if k < |list| then Some(list[k]) else None
  }

  /** The pointer chain from `first` through the sibling links is `list`. */
  predicate Threads(cs: Classes, first: Option<Cid>, list: seq<Cid>) {
    && first == At(list, 0)
    && forall k :: 0 <= k < |list| ==> list[k] in cs && cs[list[k]].siblingClass == At(list, k + 1)
  }

  predicate ThreadedUnder(cs: Classes, sh: Shape, d: Cid) {
    d in cs && cs[d].superClass.Some? && d in Kids(sh, cs[d].superClass.value)
  }

  predicate KidsOk(cs: Classes, sh: Shape, c: Cid) {
    && c in cs
    && Threads(cs, cs[c].subclassList, Kids(sh, c))
    && NoRepeats(Kids(sh, c))
    && forall d :: d in Kids(sh, c) ==> d in cs && cs[d].superClass == Some(c) && cs[d].meta == cs[c].meta
  }

  predicate LineOk(cs: Classes, sh: Shape, d: Cid) {
    && d in cs
    && Line(sh, d) == [d] + (if ThreadedUnder(cs, sh, d) then Line(sh, cs[d].superClass.value) else [])
    && (!cs[d].meta && cs[d].superClass.Some? ==>
          ThreadedUnder(cs, sh, d) && cs[d].superClass.value in cs && !cs[cs[d].superClass.value].meta)
  }

  ghost predicate Forest(cs: Classes, sh: Shape) {
    && sh.line.Keys == cs.Keys && sh.kids.Keys == cs.Keys
    && (forall c {:trigger KidsOk(cs, sh, c)} :: c in cs ==> KidsOk(cs, sh, c))
    && (forall d {:trigger LineOk(cs, sh, d)} :: d in cs ==> LineOk(cs, sh, d))
  }

  // ---------------------------------------------------------------- lines

  lemma {:induction false} LineMembers(cs: Classes, sh: Shape, d: Cid)
    requires Forest(cs, sh) && d in cs
    ensures forall c :: c in Line(sh, d) ==> c in cs && cs[c].meta == cs[d].meta && |Line(sh, c)| <= |Line(sh, d)|
    decreases |Line(sh, d)|
  {
    assert LineOk(cs, sh, d);
    if ThreadedUnder(cs, sh, d) {
      var s := cs[d].superClass.value;
      assert s in sh.kids && KidsOk(cs, sh, s);
      LineMembers(cs, sh, s);
    }
  }

  /** A class is on its own line, at the start only. */
  lemma SelfAtStart(cs: Classes, sh: Shape, d: Cid)
    requires Forest(cs, sh) && d in cs
    ensures Line(sh, d) != [] && Line(sh, d)[0] == d && d !in Line(sh, d)[1..]
  {
    assert LineOk(cs, sh, d);
    if ThreadedUnder(cs, sh, d) {
      var s := cs[d].superClass.value;
      assert s in sh.kids && KidsOk(cs, sh, s);
      LineMembers(cs, sh, s);
      assert Line(sh, d)[1..] == Line(sh, s);
    }
  }

  /** The classes with one of `roots` on their line. */
  function Under(sh: Shape, roots: set<Cid>): set<Cid> {
    set d | d in sh.line && exists r :: r in roots && r in sh.line[d]
  }

  function Descendants(sh: Shape, c: Cid): set<Cid> {
    set d | d in sh.line && c in sh.line[d]
  }

  function KidSet(sh: Shape, c: Cid): set<Cid> {
    set k | k in Kids(sh, c)
  }

  /** Below `c` means under one of its kids. */
  lemma {:induction false} BelowAKid(cs: Classes, sh: Shape, c: Cid, d: Cid)
    requires Forest(cs, sh) && c in cs && d in cs && c in Line(sh, d) && c != d
    ensures exists k :: k in Kids(sh, c) && k in Line(sh, d)
    decreases |Line(sh, d)|
  {
    assert LineOk(cs, sh, d);
    var s := cs[d].superClass.value;
    assert s in sh.kids && KidsOk(cs, sh, s);
    if s == c {
      assert d in Kids(sh, c) && d in Line(sh, d);
    } else {
      LineMembers(cs, sh, d);
      BelowAKid(cs, sh, c, s);
    }
  }

  lemma BelowMeansUnderKids(cs: Classes, sh: Shape, c: Cid, d: Cid)
    requires Forest(cs, sh) && c in cs && d in cs
    ensures c in Line(sh, d) <==> d == c || exists k :: k in Kids(sh, c) && k in Line(sh, d)
  {
    SelfAtStart(cs, sh, c);
    if c in Line(sh, d) && d != c {
      BelowAKid(cs, sh, c, d);
    }
    if k :| k in Kids(sh, c) && k in Line(sh, d) {
      KidAbove(cs, sh, c, k, d);
    }
  }

  lemma UnderKids(sh: Shape, c: Cid, d: Cid)
    ensures d in Under(sh, KidSet(sh, c)) <==> d in sh.line && exists k :: k in Kids(sh, c) && k in Line(sh, d)
  {
    if d in sh.line {
      if k :| k in Kids(sh, c) && k in Line(sh, d) {
        assert k in KidSet(sh, c) && k in sh.line[d];
      }
    }
  }

  /** Reachability through the subclass lists is the inverse of the walk to the ancestors: the
      classes with `c` on their line are `c` and the classes under its kids. */
  lemma BelowIsUnder(cs: Classes, sh: Shape, c: Cid, d: Cid)
    requires Forest(cs, sh) && c in cs
    ensures d in Descendants(sh, c) <==> d == c || d in Under(sh, KidSet(sh, c))
  {
    UnderKids(sh, c, d);
    SelfAtStart(cs, sh, c);
    if d in cs {
      BelowMeansUnderKids(cs, sh, c, d);
    }
  }

  /** Whoever has a kid of `c` on the line has `c` there too. */
  lemma {:induction false} KidAbove(cs: Classes, sh: Shape, c: Cid, k: Cid, d: Cid)
    requires Forest(cs, sh) && c in cs && k in Kids(sh, c) && d in cs && k in Line(sh, d)
    ensures c in Line(sh, d)
    decreases |Line(sh, d)|
  {
    assert LineOk(cs, sh, d) && KidsOk(cs, sh, c);
    if d == k {
      SelfAtStart(cs, sh, c);
    } else {
      var s := cs[d].superClass.value;
      assert s in sh.kids && KidsOk(cs, sh, s);
      KidAbove(cs, sh, c, k, s);
    }
  }

  /** The trees of two kids of one class are disjoint, and none contains the class, so a walk
      down the subclass lists meets each class once. */
  lemma {:induction false} KidsTreesDisjoint(cs: Classes, sh: Shape, c: Cid, k: Cid, k': Cid, d: Cid)
    requires Forest(cs, sh) && c in cs && k in Kids(sh, c) && k' in Kids(sh, c)
    requires d in cs && k in Line(sh, d) && k' in Line(sh, d)
    ensures k == k' && d != c
    decreases |Line(sh, d)|
  {
    assert LineOk(cs, sh, d) && KidsOk(cs, sh, c) && LineOk(cs, sh, k) && LineOk(cs, sh, k');
    LineMembers(cs, sh, d);
    if ThreadedUnder(cs, sh, d) {
      var s := cs[d].superClass.value;
      assert s in sh.kids && KidsOk(cs, sh, s);
      if d != k && d != k' {
        KidsTreesDisjoint(cs, sh, c, k, k', s);
      } else if d == k && d != k' {
        LineMembers(cs, sh, c);
      } else if d == k' && d != k {
        LineMembers(cs, sh, c);
      }
    }
  }

  lemma KidsTreeShrinks(cs: Classes, sh: Shape, c: Cid, k: Cid)
    requires Forest(cs, sh) && c in cs && k in Kids(sh, c)
    ensures Descendants(sh, k) < Descendants(sh, c)
  {
    forall d | d in Descendants(sh, k)
      ensures d in Descendants(sh, c)
    {
      KidAbove(cs, sh, c, k, d);
    }
    SelfAtStart(cs, sh, c);
    assert KidsOk(cs, sh, c) && LineOk(cs, sh, k);
    LineMembers(cs, sh, c);
    assert c in Descendants(sh, c) && c !in Descendants(sh, k);
  }

  // ---------------------------------------------------------------- walks

  /** Following the superclass links from `from` meets the classes of `walk` and then ends. */
  predicate Walks(cs: Classes, from: Option<Cid>, walk: seq<Cid>)
    decreases |walk|
  {
    if walk == [] then from == None
    else from == Some(walk[0]) && walk[0] in cs && Walks(cs, cs[walk[0]].superClass, walk[1..])
  }

  /** On the instance side the walk is the line. */
  lemma {:induction false} LineIsWalk(cs: Classes, sh: Shape, c: Cid)
    requires Forest(cs, sh) && c in cs && !cs[c].meta
    ensures Walks(cs, Some(c), Line(sh, c))
    decreases |Line(sh, c)|
  {
    assert LineOk(cs, sh, c);
    var up := cs[c].superClass;
    assert Line(sh, c)[1..] == if up.Some? then Line(sh, up.value) else [];
    if up.Some? {
      LineIsWalk(cs, sh, up.value);
    }
  }

  /** There is only one walk, and it depends on the superclass links only. */
  lemma {:induction false} WalkUnique(cs: Classes, cs': Classes, from: Option<Cid>, walk: seq<Cid>, walk': seq<Cid>)
    requires Walks(cs, from, walk) && Walks(cs', from, walk')
    requires forall b :: b in cs && b in cs' ==> cs'[b].superClass == cs[b].superClass
    ensures walk == walk'
    decreases |walk|
  {
    if walk != [] {
      assert walk' != [] && walk'[0] == walk[0] && cs'[walk[0]].superClass == cs[walk[0]].superClass;
      WalkUnique(cs, cs', cs[walk[0]].superClass, walk[1..], walk'[1..]);
      assert walk == [walk[0]] + walk[1..] && walk' == [walk'[0]] + walk'[1..];
    }
  }

  /** On the instance side, the classes that a flush from `c` visits are those whose superclass
      chain contains `c`. */
  lemma FlushSetIsInverse(cs: Classes, sh: Shape, c: Cid, d: Cid, walk: seq<Cid>)
    requires Forest(cs, sh) && d in cs && !cs[d].meta && Walks(cs, Some(d), walk)
    ensures d in Descendants(sh, c) <==> c in walk
  {
    LineIsWalk(cs, sh, d);
    WalkUnique(cs, cs, Some(d), walk, Line(sh, d));
  }

  /** A pointer chain threads one list only. */
  lemma {:induction false} ThreadsUnique(cs: Classes, first: Option<Cid>, a: seq<Cid>, b: seq<Cid>, k: nat)
    requires Threads(cs, first, a) && Threads(cs, first, b) && k <= |a|
    ensures k <= |b| && a[..k] == b[..k] && At(a, k) == At(b, k)
  {
    if k > 0 {
      ThreadsUnique(cs, first, a, b, k - 1);
      assert a[k - 1] == b[k - 1];
      assert a[..k] == a[..k - 1] + [a[k - 1]] && b[..k] == b[..k - 1] + [b[k - 1]];
    }
  }

  lemma OneThread(cs: Classes, first: Option<Cid>, a: seq<Cid>, b: seq<Cid>)
    requires Threads(cs, first, a) && Threads(cs, first, b)
    ensures a == b
  {
    ThreadsUnique(cs, first, a, b, |a|);
  }

  /** The subclass list of a class, read off its pointers, has exactly its direct subclasses,
      each once; on the instance side every class with that superclass is there. */
  lemma SubclassListIsExact(cs: Classes, sh: Shape, c: Cid, list: seq<Cid>, d: Cid)
    requires Forest(cs, sh) && c in cs && !cs[c].meta && Threads(cs, cs[c].subclassList, list)
    ensures NoRepeats(list)
    ensures d in list <==> d in cs && !cs[d].meta && cs[d].superClass == Some(c)
  {
    assert KidsOk(cs, sh, c);
    OneThread(cs, cs[c].subclassList, list, Kids(sh, c));
    if d in cs {
      assert LineOk(cs, sh, d);
    }
  }

  /** A walk depends on the superclass links of its classes. */
  lemma {:induction false} WalkSame(cs: Classes, cs': Classes, from: Option<Cid>, walk: seq<Cid>)
    requires Walks(cs, from, walk)
    requires forall b :: b in cs ==> b in cs' && (b in walk ==> cs'[b].superClass == cs[b].superClass)
    ensures Walks(cs', from, walk)
    decreases |walk|
  {
    if walk != [] {
      WalkSame(cs, cs', cs[walk[0]].superClass, walk[1..]);
    }
  }

  lemma {:induction false} WalkInside(cs: Classes, from: Option<Cid>, walk: seq<Cid>)
    requires Walks(cs, from, walk)
    ensures forall b :: b in walk ==> b in cs
    decreases |walk|
  {
    if walk != [] {
      WalkInside(cs, cs[walk[0]].superClass, walk[1..]);
    }
  }

  // ---------------------------------------------------------------- frames

  predicate SameLinks(a: ObjcClass, b: ObjcClass) {
    && a.superClass == b.superClass
    && a.meta == b.meta
    && a.subclassList == b.subclassList
    && a.siblingClass == b.siblingClass
  }

  /** The forest depends on the links of the class structs only. */
  lemma ForestSameLinks(cs: Classes, cs': Classes, sh: Shape)
    requires Forest(cs, sh) && cs'.Keys == cs.Keys
    requires forall c :: c in cs ==> SameLinks(cs[c], cs'[c])
    ensures Forest(cs', sh)
  {
    forall c | c in cs'
      ensures KidsOk(cs', sh, c) && LineOk(cs', sh, c)
    {
      assert KidsOk(cs, sh, c) && LineOk(cs, sh, c);
      assert SameLinks(cs[c], cs'[c]);
      forall d | d in Kids(sh, c)
        ensures SameLinks(cs[d], cs'[d])
      {
      }
    }
  }

  // ---------------------------------------------------------------- growth

  /** A subclass list whose classes keep their sibling links is still threaded. */
  lemma ThreadsSame(cs: Classes, cs': Classes, first: Option<Cid>, list: seq<Cid>)
    requires Threads(cs, first, list)
    requires forall d :: d in list ==> d in cs' && cs'[d].siblingClass == cs[d].siblingClass
    ensures Threads(cs', first, list)
  {
  }

  /** Putting a class in front of a subclass list. */
  lemma ThreadsInFront(cs: Classes, first: Option<Cid>, list: seq<Cid>, c: Cid)
    requires Threads(cs, first, list) && c in cs && cs[c].siblingClass == first && c !in list
    requires NoRepeats(list)
    ensures Threads(cs, Some(c), [c] + list) && NoRepeats([c] + list)
  {
    var l := [c] + list;
    forall k | 0 <= k < |l|
      ensures l[k] in cs && cs[l[k]].siblingClass == At(l, k + 1)
    {
      if k > 0 {
        assert l[k] == list[k - 1];
      }
    }
  }

  /** `cs'` is `cs` with a fresh metaclass outside the forest and a fresh class `c` at the front
      of the subclass list of `superclass`, if there is one. */
  ghost predicate Grafted(cs: Classes, cs': Classes, meta: Cid, c: Cid, superclass: Option<Cid>) {
    && meta !in cs && c !in cs && meta != c && cs'.Keys == cs.Keys + {meta, c}
    && (superclass.Some? ==> superclass.value in cs && !cs[superclass.value].meta)
    && (forall b :: b in cs ==>
          && cs'[b].superClass == cs[b].superClass && cs'[b].meta == cs[b].meta
          && cs'[b].siblingClass == cs[b].siblingClass
          && cs'[b].subclassList == if superclass == Some(b) then Some(c) else cs[b].subclassList)
    && cs'[c].superClass == superclass && !cs'[c].meta && cs'[c].subclassList == None
    && cs'[c].siblingClass == (if superclass.Some? then cs[superclass.value].subclassList else None)
    && cs'[meta].meta && cs'[meta].subclassList == None
  }

  /** The witnesses after a graft. */
  function Sprout(sh: Shape, meta: Cid, c: Cid, superclass: Option<Cid>): Shape {
    if superclass.None? then
      Shape(sh.line[meta := [meta]][c := [c]], sh.kids[meta := []][c := []], sh.owner[meta := c])
    else
      Shape(sh.line[meta := [meta]][c := [c] + Line(sh, superclass.value)],
            sh.kids[meta := []][c := []][superclass.value := [c] + Kids(sh, superclass.value)],
            sh.owner[meta := c])
  }

  lemma GraftedKidsElsewhere(cs: Classes, cs': Classes, sh: Shape, meta: Cid, c: Cid, superclass: Option<Cid>, b: Cid)
    requires Grafted(cs, cs', meta, c, superclass) && b in cs && KidsOk(cs, sh, b) && superclass != Some(b)
    ensures KidsOk(cs', Sprout(sh, meta, c, superclass), b)
  {
    ThreadsSame(cs, cs', cs[b].subclassList, Kids(sh, b));
  }

  lemma GraftedKidsOfSuper(cs: Classes, cs': Classes, sh: Shape, meta: Cid, c: Cid, b: Cid)
    requires Grafted(cs, cs', meta, c, Some(b)) && KidsOk(cs, sh, b)
    ensures KidsOk(cs', Sprout(sh, meta, c, Some(b)), b)
  {
    ThreadsSame(cs, cs', cs[b].subclassList, Kids(sh, b));
    ThreadsInFront(cs', cs[b].subclassList, Kids(sh, b), c);
  }

  lemma GraftedKids(cs: Classes, cs': Classes, sh: Shape, meta: Cid, c: Cid, superclass: Option<Cid>, b: Cid)
    requires Grafted(cs, cs', meta, c, superclass) && b in cs' && (b in cs ==> KidsOk(cs, sh, b))
    ensures KidsOk(cs', Sprout(sh, meta, c, superclass), b)
  {
    if superclass == Some(b) {
      GraftedKidsOfSuper(cs, cs', sh, meta, c, b);
    } else if b in cs {
      GraftedKidsElsewhere(cs, cs', sh, meta, c, superclass, b);
    }
  }

  lemma GraftedLineOld(cs: Classes, cs': Classes, sh: Shape, meta: Cid, c: Cid, superclass: Option<Cid>, d: Cid)
    requires Grafted(cs, cs', meta, c, superclass) && LineOk(cs, sh, d)
    requires sh.kids.Keys == cs.Keys
    ensures LineOk(cs', Sprout(sh, meta, c, superclass), d)
  {
  }

  lemma NotAKidYet(cs: Classes, sh: Shape, x: Cid, b: Cid)
    requires sh.kids.Keys == cs.Keys && (b in cs ==> KidsOk(cs, sh, b)) && x !in cs
    ensures x !in Kids(sh, b)
  {
  }

  lemma GraftedLineNew(cs: Classes, cs': Classes, sh: Shape, meta: Cid, c: Cid, superclass: Option<Cid>)
    requires Grafted(cs, cs', meta, c, superclass)
    requires forall b :: meta !in Kids(sh, b)
    ensures LineOk(cs', Sprout(sh, meta, c, superclass), c)
    ensures LineOk(cs', Sprout(sh, meta, c, superclass), meta)
  {
    var sh' := Sprout(sh, meta, c, superclass);
    forall b
      ensures meta !in Kids(sh', b)
    {
      assert meta !in Kids(sh, b);
    }
  }

  lemma SproutKeys(cs: Classes, cs': Classes, sh: Shape, meta: Cid, c: Cid, superclass: Option<Cid>)
    requires sh.line.Keys == cs.Keys && sh.kids.Keys == cs.Keys && Grafted(cs, cs', meta, c, superclass)
    ensures Sprout(sh, meta, c, superclass).line.Keys == cs'.Keys
    ensures Sprout(sh, meta, c, superclass).kids.Keys == cs'.Keys
  {
  }

  lemma GraftKeepsForest(cs: Classes, cs': Classes, sh: Shape, meta: Cid, c: Cid, superclass: Option<Cid>)
    requires Forest(cs, sh) && Grafted(cs, cs', meta, c, superclass)
    ensures Forest(cs', Sprout(sh, meta, c, superclass))
  {
    var sh' := Sprout(sh, meta, c, superclass);
    SproutKeys(cs, cs', sh, meta, c, superclass);
    assert forall b :: b in cs' ==> KidsOk(cs', sh', b) by {
      forall b | b in cs'
        ensures KidsOk(cs', sh', b)
      {
        GraftedKids(cs, cs', sh, meta, c, superclass, b);
      }
    }
    assert forall b :: b in cs' ==> LineOk(cs', sh', b) by {
      forall b | b in cs'
        ensures LineOk(cs', sh', b)
      {
        GraftedLine(cs, cs', sh, meta, c, superclass, b);
      }
    }
  }

  lemma GraftedLine(cs: Classes, cs': Classes, sh: Shape, meta: Cid, c: Cid, superclass: Option<Cid>, d: Cid)
    requires Forest(cs, sh) && Grafted(cs, cs', meta, c, superclass) && d in cs'
    ensures LineOk(cs', Sprout(sh, meta, c, superclass), d)
  {
    if d in cs {
      GraftedLineOld(cs, cs', sh, meta, c, superclass, d);
    } else {
      forall b
        ensures meta !in Kids(sh, b)
      {
        NotAKidYet(cs, sh, meta, b);
      }
      GraftedLineNew(cs, cs', sh, meta, c, superclass);
    }
  }
}
