/**
  Progress of the weak-reference protocol, for arbitrary hash functions: no reachable state is
  stuck, and without new client calls every operation runs to its end.
*/
module WeakProgress {
  import opened Options
  import opened SideTable
  import opened WeakProtocol
  import opened WeakInvariant

  predicate Busy(s: State, i: Tid) {
    i < |s.threads| && s.threads[i].Push?
  }

  predicate Idle(s: State) {
    forall i :: 0 <= i < |s.threads| ==> s.threads[i].Empty?
  }

  predicate Internal(a: Action) {
    !IsClient(a.move)
  }

  // ---------------------------------------------------------------- deadlock

  /** A thread that waits for a shard lock waits for a thread that can run. */
  lemma ShardWaiterUnstuck(c: Config, s: State, i: Tid)
    requires Inv(c, s) && Busy(s, i) && NeedsShard(s.threads[i].top.pc).Some?
    ensures exists a :: Internal(a) && Enabled(c, s, a)
  {
    var f := s.threads[i].top;
    var k := c.shard(NeedsShard(f.pc).value);
    if f.sh {
      assert Enabled(c, s, Action(i, Run));
    } else if k !in s.mem.shards {
      assert Enabled(c, s, Action(i, TakeShard));
    } else {
      var j := s.mem.shards[k];
      assert ShardsHeld(c, s.threads)[j] == Some(k);
      assert Enabled(c, s, Action(j, Run));
    }
  }

  /** Every reachable state with an unfinished operation has an enabled step of some unfinished
      operation: stripes are never requested under a shard lock, so waiting does not go round
      in circles, whatever addresses share a lock. */
  lemma NoDeadlock(c: Config, s: State, i: Tid)
    requires Inv(c, s) && Busy(s, i)
    ensures exists a :: Internal(a) && Enabled(c, s, a)
  {
    var f := s.threads[i].top;
    if NeedsShard(f.pc).Some? {
      ShardWaiterUnstuck(c, s, i);
    } else if WantsStripe(f.pc).None? {
      assert Enabled(c, s, Action(i, Run));
    } else {
      var k := c.stripe(WantsStripe(f.pc).value);
      if k !in s.mem.stripes {
        assert Enabled(c, s, Action(i, TakeStripe));
      } else {
        var j := s.mem.stripes[k];
        assert StripesHeld(c, s.threads)[j] == Some(k);
        if NeedsShard(s.threads[j].top.pc).Some? {
          ShardWaiterUnstuck(c, s, j);
        } else {
          assert Enabled(c, s, Action(j, Run));
        }
      }
    }
  }

  // ---------------------------------------------------------------- work left

  /** An upper bound on the internal steps a frame has left, the weak variables that a release
      may still extract not counted. */
  function Work(f: Frame): nat {
    match f.pc
    case Retain(_, _) => if f.sh then 1 else 2
    case Release(_, _) => if f.sh then 5 else 6
    case Zero(_, locs) => 2 * |locs| + 4
    case ZeroHeld(_, locs) => 2 * |locs| + 3
    case Body(_) => 3
    case Remove(_) => if f.sh then 1 else 2
    case StoreStart(_, _, _) => 8
    case StoreOld(_, _, _, _) => if f.sh then 6 else 7
    case StoreNew(_, _, _) => if f.sh then 4 else 5
    case StoreNil(_) => 2
    case LoadStart(_) => 4
    case LoadHeld(_, _) => if f.sh then 2 else 3
    case Unlock(_, _) => 1
  }

  function StackWork(st: Stack): nat {
    if st.Empty? then 0 else Work(st.top) + StackWork(st.rest)
  }

  function ThreadsWork(threads: seq<Stack>): nat {
    if threads == [] then 0 else StackWork(threads[0]) + ThreadsWork(threads[1..])
  }

  lemma {:induction false} ThreadsWorkUpdate(threads: seq<Stack>, i: Tid, st: Stack)
    requires i < |threads|
    ensures ThreadsWork(threads[i := st]) == ThreadsWork(threads) - StackWork(threads[i]) + StackWork(st)
    ensures ThreadsWork(threads) >= StackWork(threads[i])
  {
    var u := threads[i := st];
    if i == 0 {
      assert u[1..] == threads[1..];
    } else {
      assert u[1..] == threads[1..][i - 1 := st];
      ThreadsWorkUpdate(threads[1..], i - 1, st);
    }
  }

  /** The number of weak registrations in the table. */
  ghost function Registrations(t: Table): nat {
    if t == map[] then 0 else
      var o :| o in t;
      |t[o].locs| + Registrations(t - {o})
  }

  function LocsOf(t: Table, o: Obj): seq<Loc> {
    EntryOf(t, o).locs
  }

  lemma {:induction false} RegistrationsWithout(t: Table, o: Obj)
    ensures Registrations(t) == |LocsOf(t, o)| + Registrations(t - {o})
  {
    if o !in t {
      assert t - {o} == t;
    } else {
      var p :| p in t && Registrations(t) == |t[p].locs| + Registrations(t - {p});
      if p != o {
        RegistrationsWithout(t - {p}, o);
        RegistrationsWithout(t - {o}, p);
        assert t - {p} - {o} == t - {o} - {p};
      }
    }
  }

  lemma RegistrationsUpdate(t: Table, t': Table, o: Obj)
    requires t - {o} == t' - {o}
    ensures Registrations(t') + |LocsOf(t, o)| == Registrations(t) + |LocsOf(t', o)|
  {
    RegistrationsWithout(t, o);
    RegistrationsWithout(t', o);
  }

  lemma {:induction false} WithoutIsShorter(locs: seq<Loc>, loc: Loc)
    ensures |Without(locs, loc)| <= |locs|
  {
    if locs != [] {
      WithoutIsShorter(locs[1..], loc);
    }
  }

  ghost function ViewWork(v: View): nat {
    StackWork(v.st) + 2 * Registrations(v.m.table)
  }

  lemma StrongWork(m: Mem, l: Ledger, pc: Pc, rest: Stack)
    requires pc.Retain? || pc.Release? || pc.Remove?
    ensures ViewWork(StrongSection(m, l, pc, rest)) < ViewWork(View(m, l, Push(Frame(pc, true), rest)))
  {
    match pc
    case Retain(o, _) => RegistrationsUpdate(m.table, Retained(m.table, o), o);
    case Release(o, _) => RegistrationsUpdate(m.table, Released(m.table, o), o);
    case Remove(o) => RegistrationsUpdate(m.table, m.table - {o}, o);
  }

  lemma WeakWork(m: Mem, l: Ledger, pc: Pc, rest: Stack)
    requires pc.StoreOld? || pc.StoreNew? || pc.LoadHeld?
    ensures ViewWork(WeakSection(m, l, pc, rest)) < ViewWork(View(m, l, Push(Frame(pc, true), rest)))
  {
    match pc
    case StoreOld(loc, o, new_, own) => StoreOldWork(m, l, loc, o, new_, own, rest);
    case StoreNew(loc, o, _) => RegistrationsUpdate(m.table, Register(m.table, o, loc), o);
    case LoadHeld(_, o) => RegistrationsUpdate(m.table, Retained(m.table, o), o);
  }

  lemma StoreOldWork(m: Mem, l: Ledger, loc: Loc, o: Obj, new_: Option<Obj>, own: bool, rest: Stack)
    ensures var pc := StoreOld(loc, o, new_, own);
            ViewWork(WeakSection(m, l, pc, rest)) < ViewWork(View(m, l, Push(Frame(pc, true), rest)))
  {
    RegistrationsUpdate(m.table, Unregister(m.table, o, loc), o);
    WithoutIsShorter(LocsOf(m.table, o), loc);
  }

  lemma UnlockedWork(c: Config, m: Mem, l: Ledger, f: Frame, rest: Stack)
    requires !f.sh && Ready(f) && StackOk(Push(f, rest))
    ensures ViewWork(Unlocked(c, m, l, f.pc, rest)) < ViewWork(View(m, l, Push(f, rest)))
  {
    match f.pc
    case Zero(_, _) =>
    case ZeroHeld(_, _) =>
    case Body(_) =>
    case StoreNil(_) =>
    case Unlock(_, _) =>
  }

  lemma StripeWork(m: Mem, pc: Pc)
    requires WantsStripe(pc).Some?
    ensures Work(Frame(AfterStripe(m, pc), false)) < Work(Frame(pc, false))
  {
    match pc
    case StoreStart(_, _, _) =>
    case LoadStart(_) =>
    case Zero(_, _) =>
  }

  /** Every internal step of a thread uses up some of the work left. */
  lemma StepWork(c: Config, i: Tid, v: View, mv: Move)
    requires CanMove(c, v.m, v.l, v.st, mv) && StackOk(v.st) && !IsClient(mv)
    ensures ViewWork(Step(c, i, v, mv)) < ViewWork(v)
  {
    if mv.TakeStripe? {
      StripeWork(v.m, v.st.top.pc);
    } else if mv.Run? {
      if v.st.top.sh {
        var m := v.m.(shards := v.m.shards - {c.shard(ShardOf(v.st.top.pc))});
        if v.st.top.pc.Retain? || v.st.top.pc.Release? || v.st.top.pc.Remove? {
          StrongWork(m, v.l, v.st.top.pc, v.st.rest);
        } else {
          WeakWork(m, v.l, v.st.top.pc, v.st.rest);
        }
      } else {
        UnlockedWork(c, v.m, v.l, v.st.top, v.st.rest);
      }
    }
  }

  /** A bound on the number of internal steps that can follow. */
  ghost function WorkLeft(s: State): nat {
    ThreadsWork(s.threads) + 2 * Registrations(s.mem.table)
  }

  lemma WorkStep(c: Config, s: State, a: Action)
    requires Inv(c, s) && Enabled(c, s, a) && Internal(a)
    ensures WorkLeft(Apply(c, s, a)) < WorkLeft(s)
  {
    var v := ViewOf(s, a.i);
    StepWork(c, a.i, v, a.move);
    ThreadsWorkUpdate(s.threads, a.i, Step(c, a.i, v, a.move).st);
  }

  /** No livelock: a run without new client calls is no longer than the work left. */
  lemma {:induction false} InternalRunsEnd(c: Config, s: State, run: seq<Action>)
    requires Inv(c, s) && Legal(c, s, run)
    requires forall k :: 0 <= k < |run| ==> Internal(run[k])
    ensures |run| + WorkLeft(After(c, s, run)) <= WorkLeft(s)
    decreases |run|
  {
    if run != [] {
      var s1 := Apply(c, s, run[0]);
      WorkStep(c, s, run[0]);
      InvStep(c, s, run[0]);
      forall k | 0 <= k < |run[1..]|
        ensures Internal(run[1..][k])
      {
        assert run[1..][k] == run[k + 1];
      }
      InternalRunsEnd(c, s1, run[1..]);
    }
  }

  /** From every reachable state, all operations under way can run to their end. */
  lemma {:induction false} AllOperationsFinish(c: Config, s: State) returns (run: seq<Action>)
    requires Inv(c, s)
    ensures Legal(c, s, run) && Idle(After(c, s, run))
    ensures forall k :: 0 <= k < |run| ==> Internal(run[k])
    decreases WorkLeft(s)
  {
    if Idle(s) {
      run := [];
    } else {
      var i :| 0 <= i < |s.threads| && !s.threads[i].Empty?;
      NoDeadlock(c, s, i);
      var a :| Internal(a) && Enabled(c, s, a);
      WorkStep(c, s, a);
      InvStep(c, s, a);
      var rest := AllOperationsFinish(c, Apply(c, s, a));
      run := [a] + rest;
      assert run[1..] == rest;
    }
  }
}
