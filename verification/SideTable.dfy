/**
  The side table of reference counts and the critical sections that run on it.

  Every operation of the runtime touches the table only while it holds the lock of one shard,
  and touches one entry there.  The functions below are those critical sections.  The
  concurrent protocol (`WeakProtocol`) runs them between a lock and an unlock step; the
  sequential runtime (`RetainRelease`) runs them one after the other.
*/
module SideTable {

  /** Address of an object. */
  type Obj = nat
  /** Address of a weak variable. */
  type Loc = nat

  datatype Entry = Entry(count: nat, dying: bool, locs: seq<Loc>)

  /** An object without an entry has the implicit count 1 and is not dying. */
  type Table = map<Obj, Entry>

  const NEW_ENTRY := Entry(1, false, [])

  function EntryOf(t: Table, o: Obj): Entry {
    if o in t then t[o] else NEW_ENTRY
  }

  function Count(t: Table, o: Obj): nat {
    EntryOf(t, o).count
  }

  /** An object accepts a new reference, strong or weak, unless it is marked as dying. */
  predicate Accepts(t: Table, o: Obj) {
    !EntryOf(t, o).dying
  }

  /** The critical section of a retain.  The entry is created if need be; the retain succeeds
      when the object accepts it. */
  function Retained(t: Table, o: Obj): Table {
    var e := EntryOf(t, o);
    t[o := if e.dying then e else e.(count := e.count + 1)]
  }

  /** A release finds that it gives up the last reference.  A dying object ignores releases. */
  predicate IsLast(t: Table, o: Obj) {
    Accepts(t, o) && Count(t, o) <= 1
  }

  /** The weak variables that the last release extracts. */
  function Extracted(t: Table, o: Obj): seq<Loc> {
    EntryOf(t, o).locs
  }

  /** The critical section of a release.  An absent entry is not created, so nothing marks
      the object as dying on that path. */
  function Released(t: Table, o: Obj): Table {
    if o !in t || t[o].dying then t
    else if t[o].count <= 1 then t[o := t[o].(dying := true, locs := [])]
    else t[o := t[o].(count := t[o].count - 1)]
  }

  /** All occurrences of `loc` removed, the others in order. */
  function Without(locs: seq<Loc>, loc: Loc): (r: seq<Loc>)
    ensures forall l :: l in r <==> l in locs && l != loc
  {
    if locs == [] then []
    else if locs[0] == loc then Without(locs[1..], loc)
    else [locs[0]] + Without(locs[1..], loc)
  }

  /** The critical section that unregisters a weak variable from its old object. */
  function Unregister(t: Table, o: Obj, loc: Loc): Table {
    if o !in t then t else t[o := t[o].(locs := Without(t[o].locs, loc))]
  }

  /** The critical section that registers a weak variable with its new object, if that accepts it. */
  function Register(t: Table, o: Obj, loc: Loc): Table {
    var e := EntryOf(t, o);
    t[o := if e.dying then e else e.(locs := e.locs + [loc])]
  }
}
