/**
  A pop in the lock-level machine: the releases of a drained pool are calls like any other, with
  the references that the pool held.
*/
module PoolProtocol {
  import opened Options
  import opened SideTable
  import opened WeakProtocol
  import opened WeakInvariant
  import opened WeakAtomic
  import opened WeakRuns
  import RefHeap
  import PoolLaws

  /** The `-dealloc` calls recorded so far have no influence on the table and the slots. */
  lemma {:induction false} DeallocsDoNotMatter(h: RefHeap.Heap, h': RefHeap.Heap, objs: seq<Obj>)
    requires h'.table == h.table && h'.slots == h.slots
    ensures PoolLaws.ReleaseAll(h', objs).table == PoolLaws.ReleaseAll(h, objs).table
    ensures PoolLaws.ReleaseAll(h', objs).slots == PoolLaws.ReleaseAll(h, objs).slots
    decreases |objs|
  {
    if objs != [] {
      DeallocsDoNotMatter(RefHeap.Release(h, Some(objs[0])), RefHeap.Release(h', Some(objs[0])), objs[1..]);
    }
  }

  /** One release by thread `i`, which owns the reference, when no lock is held. */
  lemma ReleaseLeads(c: Config, s: State, i: Tid, o: Obj) returns (s': State)
    requires i < |s.threads| && InClient(s.threads[i]) && o in s.ledger.owned
    requires s.mem.stripes == map[] && s.mem.shards == map[]
    ensures Leads(c, s, s') && s'.threads == s.threads && s'.ledger.owned == s.ledger.owned - multiset{o}
    ensures s'.mem == WithHeap(s.mem, RefHeap.Release(HeapOf(s.mem), Some(o)))
  {
    var l := s.ledger.(owned := s.ledger.owned - multiset{o});
    var v := Solo(c, i, At(s.mem, l, Release(o, true), s.threads[i]), ReleaseSteps(s.mem, o));
    ReleaseAlone(c, i, s.mem, l, o, true, s.threads[i]);
    assert Bag(Carries(Release(o, true))) == multiset{o};
    LeadsCall(c, s, i, Release(o, true), ReleaseSteps(s.mem, o), v);
    s' := Put(s, i, v);
    assert s.threads[i := s.threads[i]] == s.threads;
  }

  /** Draining by a thread of the machine that owns what the pools hold, without interference: a
      legal run that leaves the heap which the sequential drain leaves, and gives up exactly the
      references that were drained. */
  lemma {:induction false} DrainLeads(c: Config, s: State, i: Tid, objs: seq<Obj>) returns (s': State)
    requires i < |s.threads| && InClient(s.threads[i]) && multiset(objs) <= s.ledger.owned
    requires s.mem.stripes == map[] && s.mem.shards == map[]
    ensures Leads(c, s, s') && s'.threads == s.threads && s'.ledger.owned == s.ledger.owned - multiset(objs)
    ensures s'.mem == WithHeap(s.mem, PoolLaws.ReleaseAll(HeapOf(s.mem), objs))
    decreases |objs|
  {
    if objs == [] {
      s' := s;
      LeadsNowhere(c, s);
    } else {
      assert objs == [objs[0]] + objs[1..];
      assert multiset(objs) == multiset{objs[0]} + multiset(objs[1..]);
      var s1 := ReleaseLeads(c, s, i, objs[0]);
      s' := DrainLeads(c, s1, i, objs[1..]);
      LeadsOn(c, s, s1, s');
      DeallocsDoNotMatter(RefHeap.Release(HeapOf(s.mem), Some(objs[0])), HeapOf(s1.mem), objs[1..]);
    }
  }

  /** Popping to `token` in any reachable state in which no lock is held keeps the invariant of the
      machine, and releases what the sequential pop releases. */
  lemma PopKeepsInv(c: Config, s: State, i: Tid, pools: PoolLaws.Pools, token: nat) returns (s': State)
    requires Inv(c, s) && i < |s.threads| && InClient(s.threads[i])
    requires s.mem.stripes == map[] && s.mem.shards == map[]
    requires multiset(PoolLaws.Drained(pools, token)) <= s.ledger.owned
    ensures Leads(c, s, s') && Inv(c, s') && s'.threads == s.threads
    ensures s'.mem == WithHeap(s.mem, PoolLaws.ReleaseAll(HeapOf(s.mem), PoolLaws.Drained(pools, token)))
    ensures s'.ledger.owned == s.ledger.owned - multiset(PoolLaws.Drained(pools, token))
  {
    s' := DrainLeads(c, s, i, PoolLaws.Drained(pools, token));
    LeadsKeepsInv(c, s, s');
  }
}
