/**
  Autorelease pools: the releases that popping a pool performs, and what they do to the counts.
*/
module PoolLaws {
  import opened Options
  import opened SideTable
  import opened RefHeap

  type Pools = seq<seq<Obj>>

  function Flatten(pools: Pools): seq<Obj> {
    if pools == [] then [] else pools[0] + Flatten(pools[1..])
  }

  function Reversed(objs: seq<Obj>): (r: seq<Obj>)
    ensures |r| == |objs|
  {
    if objs == [] then [] else Reversed(objs[1..]) + [objs[0]]
  }

  /** The objects released one after the other. */
  function ReleaseAll(h: Heap, objs: seq<Obj>): Heap
    decreases |objs|
  {
    if objs == [] then h else ReleaseAll(Release(h, Some(objs[0])), objs[1..])
  }

  /** What popping to `token` releases: everything added since, the latest first. */
  function Drained(pools: Pools, token: nat): seq<Obj> {
    if token <= |pools| then Reversed(Flatten(pools[token..])) else []
  }

  function Below(pools: Pools, token: nat): Pools {
    if token <= |pools| then pools[..token] else pools
  }

  /** An object joins the innermost pool; with no pool active it is leaked. */
  function Added(pools: Pools, o: Obj): Pools {
    if pools == [] then [] else pools[..|pools| - 1] + [pools[|pools| - 1] + [o]]
  }

  lemma {:induction false} ReleaseAllConcat(h: Heap, a: seq<Obj>, b: seq<Obj>)
    ensures ReleaseAll(h, a + b) == ReleaseAll(ReleaseAll(h, a), b)
    decreases |a|
  {
    if a == [] {
      assert a + b == b;
    } else {
      assert (a + b)[1..] == a[1..] + b;
      ReleaseAllConcat(Release(h, Some(a[0])), a[1..], b);
    }
  }

  lemma {:induction false} ReversedConcat(a: seq<Obj>, b: seq<Obj>)
    ensures Reversed(a + b) == Reversed(b) + Reversed(a)
  {
    if a == [] {
      assert a + b == b;
    } else {
      assert (a + b)[1..] == a[1..] + b;
      ReversedConcat(a[1..], b);
    }
  }

  lemma {:induction false} FlattenConcat(p: Pools, q: Pools)
    ensures Flatten(p + q) == Flatten(p) + Flatten(q)
  {
    if p == [] {
      assert p + q == q;
    } else {
      assert (p + q)[1..] == p[1..] + q;
      FlattenConcat(p[1..], q);
    }
  }

  lemma {:induction false} ReversedIsPermutation(objs: seq<Obj>)
    ensures multiset(Reversed(objs)) == multiset(objs)
  {
    if objs != [] {
      ReversedIsPermutation(objs[1..]);
      assert objs == [objs[0]] + objs[1..];
    }
  }

  lemma {:induction false} ReversedAt(objs: seq<Obj>, k: nat)
    requires k < |objs|
    ensures Reversed(objs)[k] == objs[|objs| - 1 - k]
  {
    if k < |objs| - 1 {
      ReversedAt(objs[1..], k);
    }
  }

  // ---------------------------------------------------------------- nested drain

  /** One drain in two parts: the pools from `inner` up first, then the rest down to `outer`. */
  lemma DrainedSplit(pools: Pools, outer: nat, inner: nat)
    requires outer <= inner
    ensures Drained(pools, outer) == Drained(pools, inner) + Drained(Below(pools, inner), outer)
    ensures Below(Below(pools, inner), outer) == Below(pools, outer)
  {
    if inner <= |pools| {
      assert pools[outer..] == pools[outer..inner] + pools[inner..];
      FlattenConcat(pools[outer..inner], pools[inner..]);
      ReversedConcat(Flatten(pools[outer..inner]), Flatten(pools[inner..]));
      assert pools[..inner][outer..] == pools[outer..inner];
      assert pools[..inner][..outer] == pools[..outer];
    }
  }

  /** Popping an outer token is popping any inner token first and then the outer one. */
  lemma NestedDrain(h: Heap, pools: Pools, outer: nat, inner: nat)
    requires outer <= inner
    ensures ReleaseAll(h, Drained(pools, outer))
            == ReleaseAll(ReleaseAll(h, Drained(pools, inner)), Drained(Below(pools, inner), outer))
    ensures Below(pools, outer) == Below(Below(pools, inner), outer)
  {
    DrainedSplit(pools, outer, inner);
    ReleaseAllConcat(h, Drained(pools, inner), Drained(Below(pools, inner), outer));
  }

  // ---------------------------------------------------------------- scopes

  datatype Event = Push | Pop(token: nat) | Autorelease(o: Obj)

  /** The pool stack, and every release made so far. */
  datatype Log = Log(pools: Pools, released: seq<Obj>)

  function Happen(l: Log, e: Event): Log {
    match e
    case Push => l.(pools := l.pools + [[]])
    case Pop(token) => Log(Below(l.pools, token), l.released + Drained(l.pools, token))
    case Autorelease(o) => l.(pools := Added(l.pools, o))
  }

  function HappenAll(l: Log, events: seq<Event>): Log
    decreases |events|
  {
    if events == [] then l else HappenAll(Happen(l, events[0]), events[1..])
  }

  function Autoreleased(events: seq<Event>): multiset<Obj> {
    if events == [] then multiset{}
    else AutoreleasedBy(events[0]) + Autoreleased(events[1..])
  }

  /** The events belong to the scope of `token`: none of them pops it or anything below. */
  predicate Within(token: nat, events: seq<Event>) {
    forall k :: 0 <= k < |events| && events[k].Pop? ==> events[k].token > token
  }

  /** The objects a log still owes a release for, above `token`. */
  function Pending(l: Log, token: nat): multiset<Obj> {
    multiset(l.released) + multiset(Drained(l.pools, token))
  }

  lemma PushDrain(pools: Pools, token: nat)
    requires token < |pools|
    ensures Drained(pools + [[]], token) == Drained(pools, token)
  {
    var fresh_: Pools := [[]];
    assert (pools + fresh_)[token..] == pools[token..] + fresh_;
    FlattenConcat(pools[token..], fresh_);
    assert Flatten(fresh_) == [];
    assert Flatten(pools[token..]) + [] == Flatten(pools[token..]);
  }

  lemma AddedDrain(pools: Pools, o: Obj, token: nat)
    requires token < |pools|
    ensures Drained(Added(pools, o), token) == [o] + Drained(pools, token)
  {
    var n := |pools| - 1;
    var last := pools[n];
    assert pools[token..] == pools[token..n] + [last];
    assert Added(pools, o)[token..] == pools[token..n] + [last + [o]];
    FlattenConcat(pools[token..n], [last]);
    FlattenConcat(pools[token..n], [last + [o]]);
    assert Flatten([last]) == last && Flatten([last + [o]]) == last + [o];
    assert Flatten(Added(pools, o)[token..]) == Flatten(pools[token..]) + [o];
    ReversedConcat(Flatten(pools[token..]), [o]);
    assert Reversed([o]) == [o];
  }

  function AutoreleasedBy(e: Event): multiset<Obj> {
    if e.Autorelease? then multiset{e.o} else multiset{}
  }

  lemma EventKeepsBelow(l: Log, e: Event, token: nat)
    requires token < |l.pools| && (e.Pop? ==> e.token > token)
    ensures token < |Happen(l, e).pools| && Happen(l, e).pools[..token] == l.pools[..token]
  {
  }

  lemma EventBalance(l: Log, e: Event, token: nat)
    requires token < |l.pools| && (e.Pop? ==> e.token > token)
    ensures Pending(Happen(l, e), token) == Pending(l, token) + AutoreleasedBy(e)
  {
    match e
    case Push => PushDrain(l.pools, token);
    case Pop(inner) =>
      DrainedSplit(l.pools, token, inner);
      var d1, d2 := Drained(l.pools, inner), Drained(Below(l.pools, inner), token);
      assert multiset(l.released + d1) == multiset(l.released) + multiset(d1);
      assert multiset(d1 + d2) == multiset(d1) + multiset(d2);
    case Autorelease(o) =>
      AddedDrain(l.pools, o, token);
      assert multiset([o] + Drained(l.pools, token)) == multiset{o} + multiset(Drained(l.pools, token));
  }

  lemma {:induction false} ScopeBalance(l: Log, events: seq<Event>, token: nat)
    requires token < |l.pools| && Within(token, events)
    ensures var l' := HappenAll(l, events);
            && token < |l'.pools| && l'.pools[..token] == l.pools[..token]
            && Pending(l', token) == Pending(l, token) + Autoreleased(events)
    decreases |events|
  {
    if events != [] {
      EventKeepsBelow(l, events[0], token);
      EventBalance(l, events[0], token);
      WithinTail(token, events);
      ScopeBalance(Happen(l, events[0]), events[1..], token);
    }
  }

  lemma WithinTail(token: nat, events: seq<Event>)
    requires events != [] && Within(token, events)
    ensures Within(token, events[1..])
  {
    assert forall k :: 0 <= k < |events[1..]| ==> events[1..][k] == events[k + 1];
  }

  /** A scope leaves the pool stack as it found it and releases each object exactly as often
      as it was autoreleased in the scope, however pools are nested in it. */
  lemma ScopeReleasesItsObjects(l: Log, events: seq<Event>)
    requires Within(|l.pools|, events)
    ensures var token := |l.pools|;
            var l' := Happen(HappenAll(Happen(l, Push), events), Pop(token));
            && l'.pools == l.pools
            && multiset(l'.released) == multiset(l.released) + Autoreleased(events)
  {
    var token := |l.pools|;
    var l1 := Happen(l, Push);
    assert l1.pools[token..] == [[]];
    assert Flatten([[]]) == [];
    ScopeBalance(l1, events, token);
    var l2 := HappenAll(l1, events);
    assert l2.pools[..token] == l.pools;
  }

  // ---------------------------------------------------------------- accounting

  function Occurrences(objs: seq<Obj>, o: Obj): nat {
    multiset(objs)[o]
  }

  lemma OccurrencesConcat(a: seq<Obj>, b: seq<Obj>, o: Obj)
    ensures Occurrences(a + b, o) == Occurrences(a, o) + Occurrences(b, o)
  {
  }

  /** How often `n` releases of an object with count `c` deallocate it.  After the first time
      its entry is gone, so every further release takes it for a fresh object. */
  function DeathsOf(c: nat, n: nat): nat {
    if n < c then 0 else n - c + 1
  }

  lemma ReleaseOne(h: Heap, p: Obj, o: Obj)
    requires Exact(h)
    ensures var h' := Release(h, Some(p));
            && Exact(h')
            && Count(h'.table, o)
               == (if p == o && Count(h.table, o) > 1 then Count(h.table, o) - 1 else Count(h.table, o))
            && h'.deallocs == h.deallocs + (if Count(h.table, p) <= 1 then [p] else [])
  {
    if Count(h.table, p) > 1 {
      ReleaseKeepsExact(h, p);
    } else {
      LastReleaseClears(h, p);
    }
  }

  /** Counts and deallocations after any sequence of releases.  In particular an object is
      deallocated at most once if and only if it is released no more often than its count. */
  lemma {:induction false} ReleasesCounted(h: Heap, objs: seq<Obj>, o: Obj)
    requires Exact(h)
    ensures var h', n, c := ReleaseAll(h, objs), Occurrences(objs, o), Count(h.table, o);
            && Exact(h')
            && Count(h'.table, o) == (if n < c then c - n else 1)
            && Occurrences(h'.deallocs, o) == Occurrences(h.deallocs, o) + DeathsOf(c, n)
    decreases |objs|
  {
    if objs != [] {
      ReleaseOne(h, objs[0], o);
      var h1 := Release(h, Some(objs[0]));
      ReleasesCounted(h1, objs[1..], o);
      assert objs == [objs[0]] + objs[1..];
      OccurrencesConcat([objs[0]], objs[1..], o);
      OccurrencesConcat(h.deallocs, if Count(h.table, objs[0]) <= 1 then [objs[0]] else [], o);
    }
  }

  /** The release number `k` finds the count of its object used up. */
  predicate DiesAt(t: Table, objs: seq<Obj>, k: nat)
    requires k < |objs|
  {
    Occurrences(objs[..k + 1], objs[k]) >= Count(t, objs[k])
  }

  /** The objects that die in the releases from number `k` on, in order. */
  function Deaths(t: Table, objs: seq<Obj>, k: nat): seq<Obj>
    requires k <= |objs|
    decreases |objs| - k
  {
    if k == |objs| then [] else (if DiesAt(t, objs, k) then [objs[k]] else []) + Deaths(t, objs, k + 1)
  }

  lemma ReleaseNumber(h: Heap, objs: seq<Obj>, k: nat)
    requires Exact(h) && k < |objs|
    ensures ReleaseAll(h, objs[..k + 1]).deallocs
            == ReleaseAll(h, objs[..k]).deallocs + (if DiesAt(h.table, objs, k) then [objs[k]] else [])
  {
    assert objs[..k + 1] == objs[..k] + [objs[k]];
    LastOfRelease(h, objs[..k], objs[k]);
  }

  lemma LastOfRelease(h: Heap, front: seq<Obj>, o: Obj)
    requires Exact(h)
    ensures ReleaseAll(h, front + [o]).deallocs
            == ReleaseAll(h, front).deallocs
               + (if Occurrences(front + [o], o) >= Count(h.table, o) then [o] else [])
  {
    ReleaseAllConcat(h, front, [o]);
    ReleasesCounted(h, front, o);
    ReleaseOne(ReleaseAll(h, front), o, o);
    OccurrencesConcat(front, [o], o);
  }

  lemma {:induction false} DeathsFrom(h: Heap, objs: seq<Obj>, k: nat)
    requires Exact(h) && k <= |objs|
    ensures ReleaseAll(h, objs).deallocs == ReleaseAll(h, objs[..k]).deallocs + Deaths(h.table, objs, k)
    decreases |objs| - k
  {
    if k == |objs| {
      assert objs[..k] == objs;
    } else {
      ReleaseNumber(h, objs, k);
      DeathsFrom(h, objs, k + 1);
    }
  }

  /** The `-dealloc` calls of a sequence of releases, in order. */
  lemma DeathsInOrder(h: Heap, objs: seq<Obj>)
    requires Exact(h)
    ensures ReleaseAll(h, objs).deallocs == h.deallocs + Deaths(h.table, objs, 0)
  {
    DeathsFrom(h, objs, 0);
    assert objs[..0] == [];
  }

  /** Popping to `token` lowers each count by the number of times the object is in the drained
      pools, and deallocates exactly the objects whose count that uses up. */
  lemma PopAccounting(h: Heap, pools: Pools, token: nat, o: Obj)
    requires Exact(h) && token <= |pools|
    requires Occurrences(Flatten(pools[token..]), o) <= Count(h.table, o)
    ensures var h' := ReleaseAll(h, Drained(pools, token));
            var n, c := Occurrences(Flatten(pools[token..]), o), Count(h.table, o);
            && (n < c ==> Count(h'.table, o) == c - n && Occurrences(h'.deallocs, o) == Occurrences(h.deallocs, o))
            && (n == c ==> Count(h'.table, o) == 1 && Occurrences(h'.deallocs, o) == Occurrences(h.deallocs, o) + 1)
  {
    ReleasesCounted(h, Drained(pools, token), o);
    ReversedIsPermutation(Flatten(pools[token..]));
  }

  /** An object drained exactly as often as its count dies on its earliest-inserted occurrence,
      which is released last. */
  lemma DiesOnEarliestOccurrence(h: Heap, pools: Pools, token: nat, j: nat)
    requires token <= |pools| && j < |Flatten(pools[token..])|
    requires var o := Flatten(pools[token..])[j];
             Occurrences(Flatten(pools[token..]), o) == Count(h.table, o)
    ensures var objs, d := Flatten(pools[token..]), Drained(pools, token);
            var k := |objs| - 1 - j;
            && d[k] == objs[j]
            && (DiesAt(h.table, d, k) <==> objs[j] !in objs[..j])
  {
    var objs := Flatten(pools[token..]);
    var k := |objs| - 1 - j;
    ReversedAt(objs, k);
    ReversedPrefix(objs, j);
    ReversedIsPermutation(objs[j..]);
    OccurrencesSplit(objs, j);
  }

  lemma ReversedPrefix(objs: seq<Obj>, j: nat)
    requires j < |objs|
    ensures Reversed(objs)[..|objs| - j] == Reversed(objs[j..])
  {
    assert objs == objs[..j] + objs[j..];
    ReversedConcat(objs[..j], objs[j..]);
  }

  lemma OccurrencesSplit(objs: seq<Obj>, j: nat)
    requires j < |objs|
    ensures Occurrences(objs, objs[j]) == Occurrences(objs[..j], objs[j]) + Occurrences(objs[j..], objs[j])
    ensures objs[j] in objs[..j] <==> Occurrences(objs[..j], objs[j]) > 0
  {
    assert objs == objs[..j] + objs[j..];
    OccurrencesConcat(objs[..j], objs[j..], objs[j]);
  }

  // ---------------------------------------------------------------- weak loads under a pool

  /** `objc_loadWeak`: the object is retained and left to the innermost pool. */
  function LoadWeak(h: Heap, pools: Pools, loc: Loc): (Heap, Pools, Option<Obj>) {
    var (h', r) := LoadWeakRetained(h, loc);
    (h', if r.Some? then Added(pools, r.value) else pools, r)
  }

  /** With a pool active, an object joins the innermost one, as its last, and the others stay.
      Without one the stack stays empty, and whatever is popped later releases nothing of it. */
  lemma AddedJoinsInnermost(pools: Pools, o: Obj, token: nat)
    ensures var pools' := Added(pools, o);
            && |pools'| == |pools|
            && (forall k :: 0 <= k < |pools| - 1 ==> pools'[k] == pools[k])
            && (pools != [] ==> pools'[|pools| - 1] == pools[|pools| - 1] + [o])
            && (pools == [] ==> Drained(pools', token) == [] && Below(pools', token) == [])
  {
    if pools == [] && token == 0 {
      assert pools[token..] == [];
    }
  }

  /** Popping to a token at or above the top releases nothing and leaves the stack. */
  lemma PopAboveTop(pools: Pools, token: nat)
    requires token >= |pools|
    ensures Drained(pools, token) == [] && Below(pools, token) == pools
  {
    if token == |pools| {
      assert pools[token..] == [] && pools[..token] == pools;
    }
  }

  /** A weak load, under any stack of pools, hands out the object in the variable with its count
      raised by one, and leaves it to the innermost pool if there is one. */
  lemma LoadWeakHandsOut(h: Heap, pools: Pools, loc: Loc)
    requires Exact(h)
    ensures var (h', pools', r) := LoadWeak(h, pools, loc);
            && Exact(h') && r == SlotOf(h, loc) && h'.slots == h.slots && h'.deallocs == h.deallocs
            && (forall p: Obj :: Count(h'.table, p) == Count(h.table, p) + if r == Some(p) then 1 else 0)
            && |pools'| == |pools| && (forall k :: 0 <= k < |pools| - 1 ==> pools'[k] == pools[k])
            && (pools != [] ==>
                  pools'[|pools| - 1] == pools[|pools| - 1] + if r.Some? then [r.value] else [])
  {
    LoadReturnsContents(h, loc);
  }

  /** If the variable holds a dying object, the load returns nil and changes nothing. */
  lemma LoadWeakOfDying(h: Heap, pools: Pools, loc: Loc)
    requires loc in h.slots && h.slots[loc] in h.table && h.table[h.slots[loc]].dying
    ensures LoadWeak(h, pools, loc) == (h, pools, None)
  {
    DyingIsNotLoaded(h, loc);
  }

  lemma ReleaseUndoesRetain(h: Heap, o: Obj)
    requires Exact(h) && o in h.table
    ensures Release(Retain(h, Some(o)).0, Some(o)) == h
  {
    assert h.table[o].count >= 1;
    assert h.table[o := h.table[o]] == h.table;
  }

  /** A weak load under an active pool is undone by popping the pool: the pop ends in the same
      heap and the same pools as if the load had not taken place. */
  lemma LoadWeakIsNeutral(h: Heap, pools: Pools, loc: Loc, token: nat)
    requires Exact(h) && token < |pools|
    ensures var (h1, pools1, r) := LoadWeak(h, pools, loc);
            && r == SlotOf(h, loc)
            && ReleaseAll(h1, Drained(pools1, token)) == ReleaseAll(h, Drained(pools, token))
            && Below(pools1, token) == Below(pools, token)
  {
    LoadReturnsContents(h, loc);
    if loc in h.slots {
      var o := h.slots[loc];
      assert Lists(h, o, loc);
      AddedDrain(pools, o, token);
      ReleaseUndoesRetain(h, o);
      var d := Drained(pools, token);
      assert ([o] + d)[1..] == d;
    }
  }
}
