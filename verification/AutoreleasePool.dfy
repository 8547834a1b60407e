/**
  The pools of one thread in the imperative form of the source.
*/
module AutoreleasePool {
  import opened Options
  import opened SideTable
  import opened RefHeap
  import opened PoolLaws
  import RetainRelease

  class PoolStack {
    var pools: seq<seq<Obj>>
    const runtime: RetainRelease.Runtime

    constructor (runtime: RetainRelease.Runtime)
      ensures pools == [] && this.runtime == runtime
    {
      this.pools := [];
      this.runtime := runtime;
    }

    method Push() returns (token: nat)
      modifies this
      ensures token == |old(pools)| && pools == old(pools) + [[]]
    {
      token := |pools|;
      pools := pools + [[]];
    }

    /** Drains every pool added since `token` was issued. */
    method Pop(token: nat)
      modifies this, runtime
      ensures pools == Below(old(pools), token)
      ensures runtime.Contents() == ReleaseAll(old(runtime.Contents()), Drained(old(pools), token))
    {
      ghost var h0 := runtime.Contents();
      ghost var p0 := pools;
      while |pools| > token
        invariant |pools| <= |p0| && pools == p0[..|pools|]
        invariant |pools| == |p0| || |pools| >= token
        invariant runtime.Contents() == ReleaseAll(h0, Drained(p0, |pools|))
      {
        var n := |pools| - 1;
        var pool := pools[n];
        DrainedSplit(p0, n, |pools|);
        OnePool(pools, n);
        ReleaseAllConcat(h0, Drained(p0, |pools|), Reversed(pool));
        pools := pools[..n];
        Drain(pool);
      }
    }

    method Drain(pool: seq<Obj>)
      modifies runtime
      ensures runtime.Contents() == ReleaseAll(old(runtime.Contents()), Reversed(pool))
    {
      ghost var h0 := runtime.Contents();
      var k := |pool|;
      assert pool[k..] == [];
      while k > 0
        invariant 0 <= k <= |pool|
        invariant runtime.Contents() == ReleaseAll(h0, Reversed(pool[k..]))
      {
        k := k - 1;
        assert pool[k..] == [pool[k]] + pool[k + 1..];
        assert Reversed(pool[k..]) == Reversed(pool[k + 1..]) + [pool[k]];
        ReleaseAllConcat(h0, Reversed(pool[k + 1..]), [pool[k]]);
        ghost var h := runtime.Contents();
        runtime.Release(Some(pool[k]));
        assert ReleaseAll(h, [pool[k]]) == Release(h, Some(pool[k]));
      }
      assert pool[0..] == pool;
    }

    method Autorelease(obj: Option<Obj>) returns (r: Option<Obj>)
      modifies this
      ensures r == obj
      ensures pools == if obj.Some? then Added(old(pools), obj.value) else old(pools)
    {
      if obj.None? {
        return None;
      }
      if pools != [] {
        var n := |pools| - 1;
        pools := pools[..n] + [pools[n] + [obj.value]];
      }
      return obj;
    }

    method LoadWeak(loc: Loc) returns (r: Option<Obj>)
      modifies this, runtime
      ensures (runtime.Contents(), pools, r) == PoolLaws.LoadWeak(old(runtime.Contents()), old(pools), loc)
    {
      r := runtime.LoadWeakRetained(loc);
      if r.Some? {
        var _ := Autorelease(r);
      }
    }
  }

  lemma OnePool(pools: Pools, n: nat)
    requires n + 1 == |pools|
    ensures Drained(pools, n) == Reversed(pools[n])
  {
    assert pools[n..] == [pools[n]];
    assert Flatten(pools[n..]) == pools[n] + Flatten(pools[n..][1..]);
    assert pools[n] + [] == pools[n];
  }
}
