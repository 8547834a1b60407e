/**
  Why the rule for `-dealloc` is needed: a complete run in which a `-dealloc` stores its own
  object weakly although the object has no table entry.
*/
module WeakSelfStore {
  import opened Options
  import opened SideTable
  import opened WeakProtocol

  /** The move of the only thread leads from `s` to `s'`; clients need not keep the rule for
      `-dealloc`. */
  ghost predicate Leads(c: Config, s: State, mv: Move, s': State) {
    Enabled(c, s, Action(0, mv)) && Apply(c, s, Action(0, mv)) == s'
  }

  /** One weak variable, one thread, and the locks it holds. */
  function Solo(loc: Loc, t: Table, slots: map<Loc, Obj>, stripes: map<int, Tid>, shards: map<int, Tid>, l: Ledger,
                st: Stack): State {
    State(Mem(t, slots, {loc}, stripes, shards), l, [st])
  }

  function On(pc: Pc, sh: bool, rest: Stack): Stack {
    Push(Frame(pc, sh), rest)
  }

  /** Without the rule for `-dealloc`, a weak variable can outlive the object it names: an
      object is released without ever having been retained or weakly stored, and its `-dealloc`
      stores it in the weak variable.  The states of that run, one for each move of `Moves`. */
  function Moves(o: Obj, loc: Loc): seq<Move> {
    [Alloc(o), InitSlot(loc), Call(Release(o, true)), TakeShard, Run, Run,
     Call(StoreStart(loc, Some(o), false)), TakeStripe, TakeShard, Run, Run,
     Run, TakeShard, Run]
  }

  function SelfStore(c: Config, o: Obj, loc: Loc, k: nat): State {
    var p, h := map[c.stripe(loc) := 0], map[c.shard(o) := 0];
    var lent := Ledger(map[o := Live], multiset{}, multiset{});
    var called := Ledger(map[o := Dying], multiset{}, multiset{o});
    var body := On(Body(o), false, Empty);
    var t, slots := map[o := Entry(1, false, [loc])], map[loc := o];
    match k
    case 0 => Initial(1)
    case 1 => State(Initial(1).mem, Ledger(map[o := Live], multiset{o}, multiset{}), [Empty])
    case 2 => Solo(loc, map[], map[], map[], map[], Ledger(map[o := Live], multiset{o}, multiset{}), Empty)
    case 3 => Solo(loc, map[], map[], map[], map[], lent, On(Release(o, true), false, Empty))
    case 4 => Solo(loc, map[], map[], map[], h, lent, On(Release(o, true), true, Empty))
    case 5 => Solo(loc, map[], map[], map[], map[], called.(invoked := multiset{}), On(Zero(o, []), false, Empty))
    case 6 => Solo(loc, map[], map[], map[], map[], called, body)
    case 7 => Solo(loc, map[], map[], map[], map[], called, On(StoreStart(loc, Some(o), false), false, body))
    case 8 => Solo(loc, map[], map[], p, map[], called, On(StoreNew(loc, o, false), false, body))
    case 9 => Solo(loc, map[], map[], p, h, called, On(StoreNew(loc, o, false), true, body))
    case 10 => Solo(loc, t, slots, p, map[], called, On(Unlock(loc, None), false, body))
    case 11 => Solo(loc, t, slots, map[], map[], called, body)
    case 12 => Solo(loc, t, slots, map[], map[], called, On(Remove(o), false, Empty))
    case 13 => Solo(loc, t, slots, map[], h, called, On(Remove(o), true, Empty))
    case _ => Solo(loc, map[], slots, map[], map[], called.(life := map[o := Freed]), Empty)
  }

  lemma SelfStoreCalls(c: Config, o: Obj, loc: Loc, k: nat)
    requires 0 <= k < 3
    ensures Leads(c, SelfStore(c, o, loc, k), Moves(o, loc)[k], SelfStore(c, o, loc, k + 1))
  {
    match k
    case 0 => assert Leads(c, SelfStore(c, o, loc, 0), Alloc(o), SelfStore(c, o, loc, 1));
    case 1 => assert Leads(c, SelfStore(c, o, loc, 1), InitSlot(loc), SelfStore(c, o, loc, 2));
    case 2 => assert Leads(c, SelfStore(c, o, loc, 2), Call(Release(o, true)), SelfStore(c, o, loc, 3));
  }

  lemma SelfStoreReleases(c: Config, o: Obj, loc: Loc, k: nat)
    requires 3 <= k < 6
    ensures Leads(c, SelfStore(c, o, loc, k), Moves(o, loc)[k], SelfStore(c, o, loc, k + 1))
  {
    match k
    case 3 => assert Leads(c, SelfStore(c, o, loc, 3), TakeShard, SelfStore(c, o, loc, 4));
    case 4 => assert Leads(c, SelfStore(c, o, loc, 4), Run, SelfStore(c, o, loc, 5));
    case 5 => assert Leads(c, SelfStore(c, o, loc, 5), Run, SelfStore(c, o, loc, 6));
  }

  lemma SelfStoreLocks(c: Config, o: Obj, loc: Loc, k: nat)
    requires 6 <= k < 9
    ensures Leads(c, SelfStore(c, o, loc, k), Moves(o, loc)[k], SelfStore(c, o, loc, k + 1))
  {
    match k
    case 6 => assert Leads(c, SelfStore(c, o, loc, 6), Call(StoreStart(loc, Some(o), false)), SelfStore(c, o, loc, 7));
    case 7 => assert Leads(c, SelfStore(c, o, loc, 7), TakeStripe, SelfStore(c, o, loc, 8));
    case 8 => assert Leads(c, SelfStore(c, o, loc, 8), TakeShard, SelfStore(c, o, loc, 9));
  }

  lemma SelfStoreRegisters(c: Config, o: Obj, loc: Loc, k: nat)
    requires 9 <= k < 10
    ensures Leads(c, SelfStore(c, o, loc, k), Moves(o, loc)[k], SelfStore(c, o, loc, k + 1))
  {
    assert Register(map[], o, loc) == map[o := Entry(1, false, [loc])] by {
      assert [] + [loc] == [loc];
    }
    assert Leads(c, SelfStore(c, o, loc, 9), Run, SelfStore(c, o, loc, 10));
  }

  lemma SelfStoreReturns(c: Config, o: Obj, loc: Loc, k: nat)
    requires 10 <= k < 12
    ensures Leads(c, SelfStore(c, o, loc, k), Moves(o, loc)[k], SelfStore(c, o, loc, k + 1))
  {
    match k
    case 10 => assert Leads(c, SelfStore(c, o, loc, 10), Run, SelfStore(c, o, loc, 11));
    case 11 => assert Leads(c, SelfStore(c, o, loc, 11), Run, SelfStore(c, o, loc, 12));
  }

  lemma SelfStoreFrees(c: Config, o: Obj, loc: Loc, k: nat)
    requires 12 <= k < 14
    ensures Leads(c, SelfStore(c, o, loc, k), Moves(o, loc)[k], SelfStore(c, o, loc, k + 1))
  {
    match k
    case 12 => assert Leads(c, SelfStore(c, o, loc, 12), TakeShard, SelfStore(c, o, loc, 13));
    case 13 => assert Leads(c, SelfStore(c, o, loc, 13), Run, SelfStore(c, o, loc, 14));
  }

  lemma SelfStoreDangles(c: Config, o: Obj, loc: Loc)
    ensures SelfStore(c, o, loc, 0) == Initial(1)
    ensures forall k :: 0 <= k < |Moves(o, loc)| ==>
              Leads(c, SelfStore(c, o, loc, k), Moves(o, loc)[k], SelfStore(c, o, loc, k + 1))
    ensures var s := SelfStore(c, o, loc, |Moves(o, loc)|);
            && LifeOf(s.ledger, o) == Freed && o !in s.mem.table
            && s.threads == [Empty] && loc in s.mem.slots && s.mem.slots[loc] == o
  {
    forall k | 0 <= k < |Moves(o, loc)|
      ensures Leads(c, SelfStore(c, o, loc, k), Moves(o, loc)[k], SelfStore(c, o, loc, k + 1))
    {
      if k < 3 {
        SelfStoreCalls(c, o, loc, k);
      } else if k < 6 {
        SelfStoreReleases(c, o, loc, k);
      } else if k < 9 {
        SelfStoreLocks(c, o, loc, k);
      } else if k < 10 {
        SelfStoreRegisters(c, o, loc, k);
      } else if k < 12 {
        SelfStoreReturns(c, o, loc, k);
      } else {
        SelfStoreFrees(c, o, loc, k);
      }
    }
  }
}
