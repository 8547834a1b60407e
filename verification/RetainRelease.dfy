/**
  The runtime of `RefHeap` in the imperative form of the source: globals updated in place, a
  loop that zeroes the weak variables of a dying object.
*/
module RetainRelease {
  import opened Options
  import opened SideTable
  import RefHeap

  class Runtime {
    var table: Table
    var slots: map<Loc, Obj>
    var deallocs: seq<Obj>

    constructor ()
      ensures Contents() == RefHeap.Heap(map[], map[], [])
    {
      table, slots, deallocs := map[], map[], [];
    }

    function Contents(): RefHeap.Heap
      reads this
    {
      RefHeap.Heap(table, slots, deallocs)
    }

    method Retain(obj: Option<Obj>) returns (r: Option<Obj>)
      modifies this
      ensures (Contents(), r) == RefHeap.Retain(old(Contents()), obj)
    {
      if obj.None? {
        return None;
      }
      var o := obj.value;
      if o !in table {
        table := table[o := NEW_ENTRY];
      }
      if table[o].dying {
        assert table == Retained(old(table), o);
        return None;
      }
      table := table[o := table[o].(count := table[o].count + 1)];
      assert table == Retained(old(table), o);
      return obj;
    }

    /** The last release extracts the weak variables, zeroes them one by one, calls `-dealloc`
        and removes the entry. */
    method Release(obj: Option<Obj>)
      modifies this
      ensures Contents() == RefHeap.Release(old(Contents()), obj)
    {
      if obj.None? {
        return;
      }
      var o := obj.value;
      var weakLocations: seq<Loc> := [];
      if o in table {
        if table[o].dying {
          return;
        }
        if table[o].count <= 1 {
          weakLocations := table[o].locs;
          table := table[o := table[o].(dying := true, locs := [])];
        } else {
          table := table[o := table[o].(count := table[o].count - 1)];
          return;
        }
      }
      Zero(weakLocations);
      deallocs := deallocs + [o];
      table := table - {o};
    }

    method Zero(locs: seq<Loc>)
      modifies this`slots
      ensures slots == RefHeap.Zeroed(old(slots), locs)
    {
      var k := 0;
      while k < |locs|
        invariant k <= |locs|
        invariant slots == RefHeap.Zeroed(old(slots), locs[..k])
      {
        slots := slots - {locs[k]};
        k := k + 1;
      }
      assert locs[..|locs|] == locs;
    }

    method InitWeak(loc: Loc, obj: Option<Obj>) returns (r: Option<Obj>)
      modifies this
      ensures (Contents(), r) == RefHeap.InitWeak(old(Contents()), loc, obj)
    {
      slots := slots - {loc};
      if obj.None? {
        return None;
      }
      r := StoreWeak(loc, obj);
    }

    method StoreWeak(loc: Loc, newObj: Option<Obj>) returns (r: Option<Obj>)
      modifies this
      ensures (Contents(), r) == RefHeap.StoreWeak(old(Contents()), loc, newObj)
    {
      if loc in slots && slots[loc] in table {
        var old_ := slots[loc];
        table := table[old_ := table[old_].(locs := Without(table[old_].locs, loc))];
      }
      if newObj.Some? {
        var o := newObj.value;
        if o !in table {
          table := table[o := NEW_ENTRY];
        }
        if table[o].dying {
          slots := slots - {loc};
          assert table == Register(RefHeap.Detach(old(Contents()), loc), o, loc);
          return None;
        }
        table := table[o := table[o].(locs := table[o].locs + [loc])];
        slots := slots[loc := o];
        assert table == Register(RefHeap.Detach(old(Contents()), loc), o, loc);
        return newObj;
      }
      slots := slots - {loc};
      return None;
    }

    method LoadWeakRetained(loc: Loc) returns (r: Option<Obj>)
      modifies this
      ensures (Contents(), r) == RefHeap.LoadWeakRetained(old(Contents()), loc)
    {
      if loc !in slots {
        return None;
      }
      r := Retain(Some(slots[loc]));
    }

    method DestroyWeak(loc: Loc)
      modifies this
      ensures Contents() == RefHeap.DestroyWeak(old(Contents()), loc)
    {
      if loc in slots && slots[loc] in table {
        var o := slots[loc];
        table := table[o := table[o].(locs := Without(table[o].locs, loc))];
      }
      slots := slots - {loc};
    }
  }
}
