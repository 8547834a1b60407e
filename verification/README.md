# o3jc, modelled and proved in Dafny

o3jc is an Objective-C runtime written in Rust. This project models its stateful cores and proves
the invariants they depend on. `dafny verify dfyconfig.toml` verifies everything.

## Reference counts, deallocation and weak variables

| file | content |
|---|---|
| `Basics.dfy`, `SideTable.dfy` | optional values and lists; the table of reference counts, and the critical sections that run on it |
| `WeakProtocol.dfy` | threads as stacks of program points; one step is one lock acquisition, one critical section or one lock release |
| `WeakInvariant.dfy` | the inductive invariant of that machine |
| `WeakSafety.dfy` | what it gives in every interleaving: safe weak loads, conservation, one `-dealloc`, stable dying |
| `WeakExact.dfy` | when a listed weak variable holds the object that lists it: the steps that keep this, and the runs |
| `WeakRuns.dfy`, `WeakLostStore.dfy` | runs put together from pieces; the runs that lose a store and write to a destroyed location |
| `WeakSelfNaming.dfy`, `WeakSelfStore.dfy` | a `-dealloc` that names its own object: when the invariant survives, and a run that ends with a dangling slot |
| `WeakProgress.dfy` | freedom from deadlock and livelock, for arbitrary hash functions |
| `RefHeap.dfy` | the operations as functions on one heap, and exact weak registration |
| `RetainRelease.dfy` | the same operations in imperative form, equal to those functions |
| `WeakAtomic.dfy` | an operation of the machine that nobody interrupts is the function of `RefHeap.dfy` |
| `PoolLaws.dfy`, `AutoreleasePool.dfy` | autorelease pools, as laws about sequences of releases and in imperative form |
| `PoolProtocol.dfy` | a pop as a run of the lock-level machine |

The stripe of a weak variable and the shard of an object are arbitrary functions, so colliding
addresses are covered. The invariant speaks of the slots that no thread is in the middle of storing
to, because a weak store unregisters the variable while the slot still holds the old object.

That a variable which holds an object is listed or about to be zeroed is part of the invariant. The
converse, that a listed variable holds the object, fails in some interleavings, because a
deallocator writes nil without looking at what the slot has come to hold:

* One step keeps the converse if and only if it does not write nil, as a deallocator or an
  initialisation, over a live object (`WeakExact.ConverseStep`).
* Together with the same for the slots that deallocators have still to zero, it is kept by a step if
  and only if the step is not a store or destroy that finds the entry of the object in its slot
  marked as deallocating, and not an initialisation of a slot that holds something
  (`WeakExact.SettledStep`). In every run without such steps (`Careful`), listed and held agree,
  stored objects stay, and nothing that a destroy has cleared is touched again.
* The runs that the condition shuts out exist, for any two objects, any slot and any hash functions:
  `WeakLostStore.StoreIsLost` loses the completed store of a live object and leaves a destroyed
  location listed; `WeakLostStore.DestroyIsNotTheEnd` shows why destroys belong in the condition: the
  location is still written after the destroy has returned, and a store after a new initialisation,
  which finds nothing in the slot, is lost as well.

Assumptions, all of them explicit in the model:

* An operation that names an object borrows a strong reference to it for as long as the call runs;
  `objc_loadWeakRetained` is the only source of references to objects one has none of.
* Addresses of objects are not used again. A weak variable may be initialised again at any time when
  no call on it is under way.
* A `-dealloc` may name its own object only if the last release found a table entry
  (`WeakProtocol.Disciplined`). From every state of the invariant, an uninterrupted call that names
  the own object ends in a state of the invariant if and only if that entry is there
  (`WeakSelfNaming.NamingOwnObject`). Without it, `WeakSelfStore.SelfStoreDangles` is a run that
  leaves a slot naming a freed object. A retain that is balanced by a release breaks the invariant in
  between only: the thread ends up exactly where it would have been without the two calls
  (`WeakSelfNaming.RetainAndReleaseLeaveNoTrace`).
* In `PoolLaws` and `RefHeap`, a `-dealloc` is recorded and does nothing else.

## Selectors

`Selectors.dfy` models the name table, the selector table and the fix-up of compiled selectors on
an explicit memory of strings and selector structs, as functions and as a class.

## Classes, dispatch and caches

| file | content |
|---|---|
| `ClassTypes.dfy` | class structs, chains of method lists, caches, and the searches through them |
| `ClassForest.dfy` | the subclass lists threaded through the structs, against the superclass chains |
| `Dispatch.dfy` | the runtime without caches, the runtime with caches, and what each operation changes |
| `CacheCoherence.dfy` | every operation keeps the class graph well formed and the caches coherent |
| `MethodLists.dfy` | selectors stay unique in a class; which additions leave its lists where they are |
| `MetaChains.dfy` | the chain of metaclasses above a class, and class-side lookup |
| `MetaCaches.dfy` | messages to classes: when the cache of a metaclass agrees with its walk |
| `DispatchRuns.dfy` | whole runs, module loads and messages to classes included: what the caches can change |
| `ClassMessages.dfy` | runs in which messages to classes cannot be told from their walks either; every class has its walk |
| `Outcomes.dfy`, `Effects.dfy` | what every call returns, what it does to classes, methods and the registry, and which caches it empties, said of the tables before and after |
| `HandleRuns.dfy` | when the method lists of a class stay in place over a run |
| `ClassRegistry.dfy` | the runtime in imperative form, equal to those functions |

Pointers are identifiers. The witnesses in `Shape` (the superclass chain and the subclass list of
each class, and the class of each metaclass) stand for the fact that pointer chains end;
`ClassForest.WalkUnique` and `ClassForest.OneThread` show that the pointers determine them.

The superclass chain of every class and of every metaclass ends, whatever was allocated, registered
and loaded before, in whatever order (`ClassMessages.EveryRunHasWalks`): the invariant links each
metaclass to the metaclass of the superclass, and `MetaChains.ClassWalk` is the closed form.

Coherence of caches is a statement about classes. Metaclasses allocated at run time are on no subclass
list, so a flush does not reach them and a message to a class can be answered from a stale cache:
`ClassMessages.StaleAnswer` is the run, for every class method that is replaced. Everything else has
the result it would have without caches (`DispatchRuns.RunRefines`), and messages to classes have it
too in runs without a call that leaves a stale hit (`ClassMessages.RunRefinesFully`). A call leaves
one exactly as `ClassMessages.StalesAt` says (`ClassMessages.ClassSideStep`).

A handle to a method entry is a pointer into the vector of a method list. An addition pushes to such
a vector exactly if the class is not registered, has a list already and has no such method
(`MethodLists.AddAndLists`), and over a run the lists of a class stay in place if and only if there is
no such addition (`HandleRuns.RunAndLists`). No registered class is concerned, but a metaclass is
never marked as registered: adding a class method to a loaded class that has some is the input
(`MethodLists.LoadedClassMethodsGrow`).

Assumptions, stated as `DispatchRuns.Contract`: superclasses are registered when a subclass is
allocated, only instances of registered classes receive messages, no two registered classes share a
name, and the handles exchanged come from `class_getInstanceMethod`. Entries are named by identifiers
that do not move, so `Contract` does not say that a handle is still good when it is exchanged;
`HandleRuns.RunAndLists` does.

## The loader

| file | content |
|---|---|
| `LoaderImage.dfy` | a compiled module and the runtime it is loaded into, the updates for one class, and memory after some classes in closed form |
| `LoaderStep.dfy` | one more update takes the closed form to the next closed form |
| `LoaderLaws.dfy` | the class forest after loading, metaclass links, sizes |
| `LoaderOrder.dfy` | the invariant of dispatch holds after loading; the order of the section does not matter |
| `LateLoading.dfy` | a message to a class whose ancestors are not all loaded: when the order of load and send shows |
| `ModuleLoad.dfy` | selectors and classes together: methods answer to their names |
| `Loader.dfy` | the loader in imperative form, equal to the closed form |

A module is loaded into any runtime that meets the invariant, with classes, registered names and
filled caches, and `Loads` is one of the calls of a run. Its contract, `LoaderImage.CanLoad` and
`LoaderLaws.Complete`, asks that superclass chains are linked and acyclic and go on in the module or
in classes that are registered, that each class has a metaclass of its own, that the subclass and
sibling fields and the links of metaclasses start null, that names are not in use, that structs are
not in memory yet, and that each class is listed once.

Loading flushes no cache. With that contract none needs flushing (`LoaderOrder.LoadingKeepsAnswers`,
`LoaderOrder.LoadedIsValid`). Without it, another thread, or a module whose ancestors come with a later
one, may send a message to an instance of a class whose ancestors are not all loaded. The struct of such an ancestor still points to its compiled method list, which the
walk would read as a list of the runtime. The model has no answer then: `LateLoading.ReadAlong` is
`Unreadable`. A walk can be read if and only if every class up to the one that answers is loaded or has
no compiled list, and what it finds is what it finds when everything is loaded, with the same IMP
(`LateLoading.OrderOfLoadAndSend`), so no cached hit goes wrong. `LateLoading.SubclassFirst` is the
input for a walk that cannot be read.

## Where the code and its comments differ

The model follows the code.

* The header of `src/retain_release.rs` says that the count is decremented to zero and that slot and
  shard locks are never held together. The last release leaves the count at 1 and sets the mark;
  stores, loads and destroys hold a stripe while they take a shard (lines 249-277, 289-297, 325-334).
* The same file (lines 66-68) relies on `objc_destroyWeak` to remove the entry of a location before
  the location becomes invalid. A destroy that comes after a deallocator has extracted the location
  removes nothing, and the deallocator writes the location afterwards; and a destroy after a lost
  store leaves the location listed (`WeakLostStore.DestroyIsNotTheEnd`, `WeakLostStore.StoreIsLost`).
* The header says that `-dealloc` may retain and release other objects. For its own object,
  the outcome depends on whether the last release found a table entry.
* `objc_init_weak` asks for a writable location. Registration stays exact only if the location
  holds nothing (`RefHeap.InitNeedsFreshLocation`).
* `method_list_iter` (`src/types.rs`, lines 328-344) relies on every method list to be one that the
  runtime has made. A class that a section lists after its subclass has the compiler's list until its
  turn comes (`LateLoading.SubclassFirst`).
* `class_add_method` (`src/class_registry.rs`, lines 178-183 and 212-220) says that lists are added to
  in place before registration only. Metaclasses are never marked as registered, so their lists always
  are (`MethodLists.LoadedClassMethodsGrow`, `HandleRuns.RegisteredNeverGrows`).
* `objc_msg_lookup` speaks of a hash lookup. The cache is a list that is scanned.

## Model

| member | source | states |
|---|---|---|
| WeakInvariant.InitialOk | src/retain_release.rs:114-114 | the invariant holds of an empty table with any number of idle threads |
| WeakInvariant.InvStep | src/retain_release.rs:125-335 | every step of every operation, at lock granularity and under any two hash functions, keeps the invariant: lock ownership, remembered values, table marks, reference balance, weak registration; weak variables may be initialised again between calls on them |
| WeakInvariant.Reachable | src/retain_release.rs:125-335 | the invariant holds after every run of any number of threads |
| WeakSafety.SlotsNameEntries | src/retain_release.rs:243-277 | in every interleaving, a slot not in the middle of a store names an object with a table entry: a live one that lists the slot, or a dying one whose deallocator still has the slot on its extracted list |
| WeakSafety.LoadsReturnLiveObjects | src/retain_release.rs:285-298 | a weak load that is about to return an object returns one whose deallocation has not begun, with a counted reference of its own |
| WeakSafety.LoadsRefuseDyingObjects | src/retain_release.rs:285-298 | the retain inside a load always finds an entry, and succeeds exactly if the object is not dying |
| WeakSafety.ReferencesConserved | src/retain_release.rs:125-180 | references held by clients plus those carried by running calls equal the count of a live object (1 if absent) and are none for any other; `-dealloc` is invoked at most once, and exactly once for every freed object |
| WeakSafety.DeallocationBegins | src/retain_release.rs:145-180 | an object starts to die only in the critical section of the release that gives up its last reference |
| WeakSafety.NothingLeaksAtRest | src/retain_release.rs:171-179 | once all calls have returned, an object without references has been freed by one `-dealloc`, has no entry and is named by no slot |
| WeakSafety.DyingStep | src/retain_release.rs:134-136 | one step leaves a marked entry exactly as it is, or frees the object |
| WeakSafety.DyingIsStable | src/retain_release.rs:155-165 | over every run, a marked entry keeps its count, its mark and its empty list until the object is freed, and nobody comes to hold a reference |
| WeakSafety.NamingTheDyingObject | src/retain_release.rs:125-170 | the critical sections alone, for an object that is dying: retain, release and weak store are refused if and only if it has a table entry; what that means for states and runs is `WeakSelfNaming.NamingOwnObject` |
| WeakSelfNaming.NamingOwnObject | src/retain_release.rs:125-277 | from every state of the invariant, when a thread inside the `-dealloc` of an object makes an uninterrupted call that names the object without a reference, the invariant holds after the call if and only if the object had a table entry before it |
| WeakSelfNaming.RetainAndReleaseLeaveNoTrace | src/retain_release.rs:125-180 | without a table entry, a retain by the `-dealloc` of its own object raises the dead count to 2 and the matching release lowers it to 1; the rest of the deallocation then ends exactly as without the two calls |
| WeakExact.ConverseStep | src/retain_release.rs:199-335 | a step keeps 'a listed slot holds the object, once, and is not in the middle of a store' if and only if it does not write nil over a live object as a deallocator or an initialisation |
| WeakExact.SettledStep | src/retain_release.rs:199-335 | a step keeps every claim to a slot exact, by lists and by deallocators, if and only if no store or destroy finds a deallocating object in its slot and no slot that holds something is initialised |
| WeakExact.CarefulRunsSettle | src/retain_release.rs:227-335 | all claims stay exact over every run, of any number of threads, without such steps |
| WeakExact.CarefulFromTheStart | src/retain_release.rs:114-335 | from the empty table, with any number of idle threads, every run without such steps ends with exact claims |
| WeakExact.SettledIsExact | src/retain_release.rs:243-277 | then a slot not in the middle of a store holds an object if and only if the object's entry lists it or its deallocator has still to zero it |
| WeakExact.StoresStay | src/retain_release.rs:243-277 | then a stored object stays until the slot is stored to again, or the object itself dies and its own deallocator zeroes the slot |
| WeakExact.DestroyedIsForgotten | src/retain_release.rs:321-335 | then no entry lists a slot that holds nothing, and no deallocator will write it |
| WeakLostStore.StoreIsLost | src/retain_release.rs:199-335 | for any two objects, slot and hash functions, a legal run in which the completed store of a live object is overwritten with nil; the location stays listed after a destroy and at rest |
| WeakLostStore.DestroyIsNotTheEnd | src/retain_release.rs:66-68 | a legal run in which a destroy returns, the deallocator then writes the destroyed location, and a store into it after a new initialisation is lost |
| WeakSelfStore.SelfStoreDangles | src/retain_release.rs:150-179 | a complete run, for any object, slot and hash functions, in which a `-dealloc` without table entry stores its own object and the slot names a freed object at the end |
| WeakProgress.NoDeadlock | src/retain_release.rs:12-27 | every reachable state with an unfinished operation has an enabled step of an unfinished operation |
| WeakProgress.WorkStep | src/retain_release.rs:125-335 | every step of an operation under way lowers the work left |
| WeakProgress.InternalRunsEnd | src/retain_release.rs:125-335 | without new client calls, no run is longer than the work left at its start |
| WeakProgress.AllOperationsFinish | src/retain_release.rs:125-335 | from every reachable state all operations under way can run to their end |
| WeakAtomic.RetainAlone | src/retain_release.rs:125-139 | an uninterrupted retain of the lock-level machine has the memory, the ledger and the locks of the sequential retain |
| WeakAtomic.StoreAlone | src/retain_release.rs:243-277 | the same for a weak store, and for a destroy as a store of nil |
| WeakAtomic.LoadAlone | src/retain_release.rs:285-298 | the same for a weak load |
| WeakAtomic.ReleaseAlone | src/retain_release.rs:145-216 | the same for a release whose `-dealloc` makes no calls of its own, down to the zeroing of each slot and the removal of the entry |
| RefHeap.RetainKeepsExact | src/retain_release.rs:125-139 | a retain of an object that is not dying succeeds, raises its count by one and changes nothing else that can be seen |
| RefHeap.ReleaseKeepsExact | src/retain_release.rs:168-169 | a release that is not the last lowers one count by one and does nothing else |
| RefHeap.LastReleaseClears | src/retain_release.rs:145-216 | the last release sets exactly the slots that hold the object to nil, calls `-dealloc` once and forgets the object |
| RefHeap.StoreKeepsExact | src/retain_release.rs:243-277 | a weak store sets its slot to the object, leaves all other slots and all counts, and keeps registration exact |
| RefHeap.DetachClears | src/retain_release.rs:321-335 | a destroy unregisters and clears its slot, leaves all counts, and keeps registration exact |
| RefHeap.DestroyIsStoreNil | src/retain_release.rs:321-335 | a destroy and a store of nil have the same effect |
| RefHeap.InitNeedsFreshLocation | src/retain_release.rs:227-233 | initialising keeps registration exact if and only if the location held nothing, and is a store then |
| RefHeap.InitSetsItsSlot | src/retain_release.rs:227-233 | initialising sets its slot to the object and returns it, over a slot that holds something too, and leaves all other slots, all counts and the `-dealloc` calls |
| RefHeap.NilIsIgnored | src/retain_release.rs:125-147 | retaining and releasing nil changes nothing, and the retain returns nil |
| RefHeap.DyingIsRefused | src/retain_release.rs:134-136 | a dying object is not retained, ignores a release, and a store or initialisation with it leaves the slot nil and returns nil |
| RefHeap.LoadReturnsContents | src/retain_release.rs:285-298 | a weak load returns what the slot holds, with the count raised by one |
| RefHeap.DyingIsNotLoaded | src/retain_release.rs:285-298 | a load that finds a dying object returns nil and changes nothing |
| RefHeap.RegistrationIsExact | src/retain_release.rs:227-335 | over every run of uninterrupted calls, a slot holds an object if and only if the object lists the slot, and then exactly once |
| RetainRelease.Runtime.Retain | src/retain_release.rs:125-139 | new heap and result are those of the specification function |
| RetainRelease.Runtime.Release | src/retain_release.rs:145-180 | new heap is that of the specification function |
| RetainRelease.Runtime.Zero | src/retain_release.rs:199-205 | the loop clears exactly the slots of the extracted list |
| RetainRelease.Runtime.InitWeak | src/retain_release.rs:227-233 | new heap and result are those of the specification function |
| RetainRelease.Runtime.StoreWeak | src/retain_release.rs:243-277 | new heap and result are those of the specification function |
| RetainRelease.Runtime.LoadWeakRetained | src/retain_release.rs:285-298 | new heap and result are those of the specification function |
| RetainRelease.Runtime.DestroyWeak | src/retain_release.rs:321-335 | new heap is that of the specification function |
| PoolLaws.NestedDrain | src/autorelease.rs:44-58 | popping an outer token makes the releases, in the order, of popping any inner token first and then the outer one, and leaves the same pools |
| PoolLaws.ScopeReleasesItsObjects | src/autorelease.rs:28-75 | a scope of pushes, pops and autoreleases leaves the stack as it found it and releases each object exactly as often as it was autoreleased in it |
| PoolLaws.ReleasesCounted | src/autorelease.rs:44-58 | count and number of deallocations of every object after any sequence of releases, without an assumption on how often it is released |
| PoolLaws.PopAccounting | src/autorelease.rs:44-58 | a pop lowers each count by the occurrences in the drained pools and deallocates exactly the objects whose count that uses up |
| PoolLaws.DeathsInOrder | src/autorelease.rs:44-58 | the `-dealloc` calls of a drain, in order |
| PoolLaws.DiesOnEarliestOccurrence | src/autorelease.rs:50-55 | an object drained as often as its count dies on the occurrence that was inserted first |
| PoolLaws.LoadWeakIsNeutral | src/retain_release.rs:306-315 | a weak load under a pool followed by the pop ends in the heap and the pools of the pop alone |
| PoolLaws.LoadWeakHandsOut | src/retain_release.rs:306-315 | under any stack of pools, the empty one too, a weak load returns the contents of the slot with its count raised by one, changes no other count, no slot and no `-dealloc`, and appends the object to the innermost pool if there is one |
| PoolLaws.LoadWeakOfDying | src/retain_release.rs:306-315 | a weak load that finds a dying object returns nil and changes nothing |
| PoolLaws.AddedJoinsInnermost | src/autorelease.rs:66-75 | an autoreleased object becomes the last of the innermost pool; without a pool the stack stays empty and no later pop releases the object |
| PoolLaws.PopAboveTop | src/autorelease.rs:44-58 | popping to a token at or above the top releases nothing and leaves the stack |
| AutoreleasePool.PoolStack.Push | src/autorelease.rs:28-35 | the token is the old depth, and one empty pool is added |
| AutoreleasePool.PoolStack.Pop | src/autorelease.rs:44-58 | the stack is cut to the token before anything is released, and the releases made are the reverse of everything in the pools above it |
| AutoreleasePool.PoolStack.Drain | src/autorelease.rs:50-55 | one pool is released in reverse order of insertion |
| AutoreleasePool.PoolStack.Autorelease | src/autorelease.rs:66-75 | the object joins the innermost pool and is returned; without a pool nothing happens to it |
| AutoreleasePool.PoolStack.LoadWeak | src/retain_release.rs:306-315 | heap, pools and result are those of the specification function |
| PoolProtocol.DrainLeads | src/autorelease.rs:44-58 | in the lock-level machine, releasing a drained pool without interference is a legal run that ends with the table and the slots of the sequential drain and gives up exactly the references drained |
| PoolProtocol.PopKeepsInv | src/autorelease.rs:44-58 | so a pop in any reachable state in which no lock is held keeps the invariant of the machine |
| Selectors.EqualIffSameName | src/sel.rs:79-81 | two interned selectors are equal if and only if their name strings are, whatever their types |
| Selectors.RegisterExtends | src/sel.rs:35-44 | registering returns an interned selector of that name, and changes no pointer handed out before |
| Selectors.RegisterMakesOne | src/sel.rs:35-44 | a name without a selector gets exactly one new one, without types; for any other name nothing changes |
| Selectors.LoadExtends | src/loader.rs:169-182 | after the fix-up every named selector of a section is interned under the name it had; sentinels are skipped and nothing interned before changes |
| Selectors.LoadTouchesItsSection | src/loader.rs:169-182 | the fix-up makes no selector, enters none in the selector table, leaves types, sentinels and selectors outside the section |
| Selectors.LoadIsIdempotent | src/loader.rs:169-182 | a second fix-up of the same section changes nothing |
| Selectors.RunsExtend | src/sel.rs:22-44 | over every mix of registrations and loads, tables only grow and interned selectors keep their pointers |
| Selectors.RegisterIsStable | src/sel.rs:35-44 | registering a name again at any later time returns the same pointer |
| Selectors.CompiledMeetsRegistered | src/loader.rs:169-182 | a compiled, typed selector and one registered later by name are equal if and only if the names are |
| SelectorTable.Table.InternSelectorName | src/sel.rs:22-29 | new tables and pointer are those of the specification function |
| SelectorTable.Table.RegisterName | src/sel.rs:35-44 | new tables and selector are those of the specification function |
| SelectorTable.Table.LoadSection | src/loader.rs:169-182 | new memory is that of the specification function |
| ClassTypes.InsertKeepsCacheOk | src/method_cache.rs:51-61 | insertion keeps selectors of a cache pairwise different and its length within capacity, and adds no other pair |
| ClassTypes.InsertedIsFound | src/method_cache.rs:51-61 | after an insertion the selector is found, with the IMP it had if it was there; nothing else is found if a new one met a full cache, and everything else as before otherwise |
| ClassForest.SubclassListIsExact | src/types.rs:306-325 | the subclass list of a class, read off its pointers, has each of its direct subclasses exactly once and nothing else |
| ClassForest.BelowIsUnder | src/method_cache.rs:104-111 | reachability through the subclass lists is the inverse of the walk to the ancestors |
| ClassForest.FlushSetIsInverse | src/method_cache.rs:104-111 | the set a flush visits is the set of classes whose superclass chain contains the start |
| ClassForest.KidsTreesDisjoint | src/method_cache.rs:108-110 | the trees below two subclasses of one class are disjoint and do not contain it, so a flush visits each class once |
| ClassForest.KidsTreeShrinks | src/method_cache.rs:104-111 | the recursion of a flush ends |
| ClassForest.LineIsWalk | src/types.rs:318-320 | the ancestor walk of a class ends and meets the classes of its line |
| MetaChains.ClassWalkEnds | src/types.rs:318-320 | in every well-formed runtime the walk of a message to a class ends: it meets the metaclasses of the ancestors, in order, and then the root class if that was loaded |
| ClassMessages.EveryRunHasWalks | src/types.rs:318-320 | after every run of allocations, registrations, loads and other calls from the beginning, every class and every metaclass has a walk that ends, in closed form for both sides |
| ClassForest.WalkUnique | src/types.rs:318-320 | the superclass links alone determine the walk |
| ClassForest.GraftKeepsForest | src/class_registry.rs:107-115 | putting a fresh class in front of its superclass's subclass list keeps the forest |
| Dispatch.SendRefinesWalk | src/msg_send.rs:28-49 | a cached send to an instance returns what the walk along the ancestors returns; sends to classes are `MetaCaches.SendAlong` |
| Dispatch.SendKeepsCoherent | src/msg_send.rs:41-46 | filling the cache of a class, through duplicate skip and clearing when full, keeps every cached pair equal to the walk |
| Dispatch.ClassSendKeepsValid | src/msg_send.rs:28-49 | a message to a class, whatever it answers, changes the cache of one metaclass and nothing else, and keeps the invariant |
| MetaCaches.SendAlong | src/msg_send.rs:28-49 | a send through the cache of any class or metaclass returns what the walk returns, and keeps the cache in agreement, as long as the cache agrees with the walk |
| Dispatch.AddChangeSet | src/class_registry.rs:189-223 | adding a method gives the new IMP exactly to the classes that have no definition strictly below it on their line, and changes no other answer |
| Dispatch.ReplaceChangeSet | src/class_registry.rs:231-251 | the same for replacing, whether or not the class defines the selector |
| Dispatch.ExchangeTransposes | src/class_registry.rs:258-269 | after an exchange every lookup finds the entry it found before, with the two IMPs transposed and all else unchanged |
| Dispatch.ExchangeIsInvolution | src/class_registry.rs:258-269 | exchanging twice restores everything |
| CacheCoherence.AddKeepsCoherent | src/class_registry.rs:199-223 | flushing the class and its subclasses after an addition, only if it is registered, restores coherence |
| CacheCoherence.ReplaceKeepsCoherent | src/class_registry.rs:239-250 | the same for a replacement |
| CacheCoherence.FlushAllReaches | src/class_registry.rs:288-294 | enumerating the registry reaches every class with a non-empty cache |
| CacheCoherence.ExchangeKeepsCoherent | src/class_registry.rs:258-269 | flushing everything registered after an exchange restores coherence |
| CacheCoherence.RegisterKeepsCore | src/class_registry.rs:127-140 | registering keeps the class graph and the registry well formed |
| CacheCoherence.RegisterMakesKnown | src/class_registry.rs:127-172 | a registered class is found under its name, every other name as before, and only its flag changes |
| CacheCoherence.NewClassInherits | src/class_registry.rs:32-118 | a newly allocated class answers every selector as its superclass does |
| MetaCaches.NewMetaInherits | src/class_registry.rs:53-58 | the walk of messages to a new class is its metaclass and then the walk of the superclass's metaclass |
| ClassMessages.NewClassInheritsMessages | src/class_registry.rs:32-118 | a newly allocated class answers every message to it as its superclass does; a new root class answers none |
| CacheCoherence.AllocateKeepsCore | src/class_registry.rs:32-118 | allocating keeps the class graph and the registry well formed |
| CacheCoherence.AllocateKeepsCoherent | src/class_registry.rs:32-118 | allocating keeps the caches coherent |
| DispatchRuns.StepRefines | src/class_registry.rs:32-294 | each call, load of a module and message to a class has the same effect with caches as without, apart from the caches, and keeps the invariant; each has the same outcome, messages to classes aside |
| DispatchRuns.RunRefines | src/msg_send.rs:8-49 | over every sequence of calls, module loads and messages to classes that meet their contracts, every result with caches is the result without them, except results of messages to classes |
| ClassMessages.ClassSideStep | src/class_registry.rs:189-294 | a call keeps the caches of all metaclasses in agreement with their walks if and only if it leaves none of them with an unflushed hit that it makes wrong |
| ClassMessages.RunRefinesFully | src/msg_send.rs:8-49 | over every run without such calls, every result with caches is the result without them, messages to classes included |
| ClassMessages.StaleAnswer | src/class_registry.rs:239-250 | a subclass is allocated and sent a message, the class method is replaced in the superclass, and the same message still answers with the old IMP where the walk finds the new one |
| Outcomes.CallOutcome | src/class_registry.rs:32-285 | the result of every call: a new class; whether the method was absent; the IMP of the first match before a replacement, or none; the first match in the class itself; the registered class of a name; the IMP of the first match along the walk |
| Effects.CallEffect | src/class_registry.rs:32-294 | the effect of every call on classes, methods, entries and the registry: name, sizes and links of new classes, the name made known, the entry added, changed or swapped, and the structs and methods of a loaded module |
| Effects.CallFlushes | src/method_cache.rs:104-111 | the caches of classes that a call empties, and that it leaves all others, but for the one that a send fills |
| Effects.SendIsCached | src/msg_send.rs:41-46 | after a send that has an answer, the cache of the receiver's class answers the same |
| Effects.NewcomersHaveCaches | src/class_registry.rs:61-62 | every struct that an allocation or a load brings in has an empty cache |
| Outcomes.ReplaceReturnsOld | src/class_registry.rs:231-251 | if the class has the method, a replacement returns the IMP that the first matching entry had and changes the IMP of that entry only |
| Outcomes.ReplaceAddsAbsent | src/class_registry.rs:231-251 | otherwise it returns none and adds an entry with the given selector, IMP and types |
| Outcomes.ReplaceTwice | src/class_registry.rs:231-251 | a second replacement returns the IMP of the first |
| Outcomes.GetMethodIsOwn | src/class_registry.rs:278-285 | the handle is that of the first match among the entries of the class itself, none if there is none, and none for a nil class |
| Outcomes.AllocatedStructs | src/class_registry.rs:42-104 | name, size, flags and links of the class and the metaclass that an allocation makes |
| Outcomes.AllocateThenRegister | src/class_registry.rs:127-172 | a class that is allocated under a name and registered is found under that name, every other name as before |
| Outcomes.GetClassIsExact | src/class_registry.rs:166-172 | a name finds a class if and only if that is a registered class of this name |
| MethodLists.AddMeansAbsent | src/class_registry.rs:189-223 | a method is added if and only if the class has none for the selector; what the class has for it afterwards in either case |
| DispatchRuns.StepKeepsHandles | src/class_registry.rs:189-269 | one call or module load keeps the selectors of each class pairwise different, the selector and the types of each entry, and the lists of registered classes in place |
| DispatchRuns.RunKeepsHandles | src/class_registry.rs:189-269 | the same over every run; new lists of a registered class come in front of those it has |
| MethodLists.AddAndLists | src/class_registry.rs:199-220 | an addition leaves the lists of every class in place, except those of the class itself if it is not registered, has a list and lacks the method |
| HandleRuns.RunAndLists | src/class_registry.rs:189-251 | over every run, the lists of a class stay in place if and only if no call makes such an addition to it |
| HandleRuns.RegisteredNeverGrows | src/class_registry.rs:127-163 | no run makes such an addition to a class that is registered; a metaclass is not registered after any run |
| MethodLists.LoadedClassMethodsGrow | src/loader.rs:200-240 | after loading, adding a new class method to a class that has compiled class methods is such an addition |
| DispatchRuns.RunKeepsChains | src/class_registry.rs:32-118 | over every run with module loads, a class whose metaclass chain is complete keeps it complete |
| DispatchRuns.LoadedIsChained | src/loader.rs:286-320 | a class loaded at any point of a run has a complete metaclass chain, which the rest of the run keeps, if and only if the classes above it that were there have theirs |
| MetaCaches.AddAndCache | src/class_registry.rs:199-223 | after an addition the cache of any class or metaclass agrees with its walk if and only if it was flushed or held no hit for the selector that the walk would now find in the new place |
| MetaCaches.ReplaceAndCache | src/class_registry.rs:239-250 | the same for a replacement |
| MetaCaches.ExchangeAndCache | src/class_registry.rs:258-269 | the same for an exchange of two different IMPs: no hit whose walk ends at either entry |
| MetaCaches.StaleClassMethod | src/class_registry.rs:53-58 | replacing a class method leaves the metaclass of every subclass allocated at run time unflushed, so a cached hit there is no longer what the walk finds |
| ClassRegistry.Runtime.FindMethodInChain | src/class_registry.rs:301-316 | the first entry for the selector along the chain of lists |
| ClassRegistry.Runtime.GetInstanceMethod | src/class_registry.rs:278-285 | result is that of the specification function |
| ClassRegistry.Runtime.GetClass | src/class_registry.rs:166-172 | result is that of the specification function |
| ClassRegistry.Runtime.CacheFind | src/method_cache.rs:44-49 | the first cached IMP for the selector |
| ClassRegistry.Runtime.CacheFill | src/method_cache.rs:51-61 | new cache is that of the specification function |
| ClassRegistry.Runtime.FlushClassCacheTree | src/method_cache.rs:104-111 | the recursive walk along the sibling links clears the caches of exactly the classes whose line contains the start |
| ClassRegistry.Runtime.FlushAllCaches | src/class_registry.rs:288-294 | the caches under all registered classes are cleared, and no others |
| ClassRegistry.Runtime.AllocateClassPair | src/class_registry.rs:32-118 | new memory and result are those of the specification function, and the invariant holds |
| ClassRegistry.Runtime.RegisterClassPair | src/class_registry.rs:127-140 | new memory is that of the specification function, and the invariant holds |
| ClassRegistry.Runtime.AddMethod | src/class_registry.rs:189-223 | new memory and result are those of the specification function, and the invariant holds |
| ClassRegistry.Runtime.ReplaceMethod | src/class_registry.rs:231-251 | new memory and result are those of the specification function, and the invariant holds |
| ClassRegistry.Runtime.ExchangeImplementations | src/class_registry.rs:258-269 | new memory is that of the specification function, and the invariant holds, for equal entries too |
| ClassRegistry.Runtime.ClassLookupMethod | src/msg_send.rs:8-15 | the walk along the superclass links, of a class or a metaclass, finds the IMP of the first match |
| ClassRegistry.Runtime.LookupVia | src/msg_send.rs:28-49 | cache, walk and filling of the cache, for a receiver whose class is any class or metaclass with a walk that ends |
| ClassRegistry.Runtime.MsgLookup | src/msg_send.rs:28-49 | for an instance or nil, new memory and result are those of the specification function, and the invariant holds |
| ClassRegistry.Runtime.MsgLookupClass | src/msg_send.rs:28-49 | for any class, registered or not, new memory and result are those of the specification function, and the invariant holds |
| LoaderStep.LoadStep | src/loader.rs:276-353 | in any runtime, the updates for one class take memory after some classes of a module, in closed form, to memory after one more |
| Loader.LoadAllIsAfter | src/loader.rs:276-353 | loading class after class into any runtime, in any order, gives the closed form |
| MetaChains.ChainWalk | src/loader.rs:286-320 | the ancestors of the metaclass of a class are the metaclasses of its ancestors, in order, and then the root class |
| LoaderLaws.LoadedChain | src/loader.rs:286-320 | a loaded class has that chain if and only if the classes above it that were there have theirs |
| MetaChains.ChainIsa | src/loader.rs:301-319 | the isa of every metaclass of a chain is the metaclass of its root class, and that one's isa is itself |
| MetaChains.ClassSideLookup | src/msg_send.rs:8-15 | in a complete chain, a message to a class finds the first class method along its ancestors and otherwise the instance method of the root class |
| MetaChains.ClassMessageFinds | src/msg_send.rs:8-15 | in every runtime, a message to a class finds the first class method along its ancestors, otherwise the instance method of the root class if that was loaded, otherwise nothing |
| LoaderLaws.SizesPatched | src/loader.rs:251-257 | no size is negative after loading, a size other than 0 keeps its absolute value, and 0 stays only for classes with a superclass |
| LoaderLaws.LoadedForest | src/loader.rs:323-348 | loading into any runtime extends the forest: the subclass lists of old and new classes and metaclasses are threaded, exact and disjoint; the root metaclass is not on the list of the root class |
| LoaderOrder.LoadingKeepsAnswers | src/loader.rs:276-353 | a class that was there answers every selector after loading as it did before |
| LoaderOrder.LoadedIsValid | src/loader.rs:276-353 | loading a module at any time, with whatever is cached, keeps the invariant of dispatch |
| LateLoading.OrderOfLoadAndSend | src/msg_send.rs:8-15 | while part of a module is loaded, the walk of an instance message can be read if and only if every class up to the one that answers is loaded or has no compiled list; what it finds then, entry and IMP, is what it finds when the whole section is loaded |
| LateLoading.SubclassFirst | src/loader.rs:259-264 | a section that lists a subclass before its superclass: once only the subclass is loaded, no message to an instance can be looked up |
| LateLoading.ClassSideEnds | src/loader.rs:286-320 | the walk of a message to a class that is not loaded ends at its metaclass |
| MethodLists.LoadedOwnDistinct | src/loader.rs:200-240 | compiled lists without duplicate selectors give method lists without duplicates |
| MethodLists.LoadingKeepsHandles | src/loader.rs:200-240 | loading touches no method list and no entry of a class that was there, and selectors stay unique in every class |
| LoaderOrder.RegistryHolds | src/class_registry.rs:150-163 | loading adds exactly the loaded classes to the registry, each under its own name, and keeps every name that was there |
| LoaderOrder.OrderLeavesNoTrace | src/loader.rs:276-353 | two orders give equal structs except for the subclass and sibling links, and equal method lists, entries, caches and registry |
| LoaderOrder.SameSubclasses | src/loader.rs:323-348 | the subclass lists of a class or metaclass, read off the pointers after two orders, have the same members |
| LoaderOrder.SameLookups | src/loader.rs:276-353 | two orders give equal results for every lookup in every class and metaclass |
| ModuleLoad.MethodsAnswerToTheirNames | src/loader.rs:365-374 | after a module is loaded into any runtime, looking up a selector registered by name finds the first compiled method of that name, or none if there is none |
| ModuleLoad.MessagesCallTheirMethods | src/loader.rs:228-232 | then a message by name along any walk that starts at the class or metaclass finds an entry with the IMP and the types of the first compiled method of that name and answers that IMP, and goes on above if there is none |
| Loader.ConvertMethodList | src/loader.rs:200-240 | the loop over a compiled method list makes the specified list and entries, and none for an absent or empty list |
| Loader.PatchClass | src/loader.rs:251-270 | size, method lists and cache of one class are patched as specified |
| Loader.RootOf | src/loader.rs:304-314 | the walk to the root ends at the last class of the superclass chain |
| Loader.LinkMeta | src/loader.rs:293-319 | the links of one metaclass are set as specified |
| Loader.WireMetaclass | src/loader.rs:331-348 | a metaclass goes to the front of its superclass's subclass list, except a root metaclass |
| Loader.LoadClass | src/loader.rs:276-353 | the updates for one class are those of the specification function |
| Loader.LoadListed | src/loader.rs:276-353 | memory after the loop over a section, null sentinels skipped, is that of loading the listed classes one after the other |
| Loader.LoadModule | src/loader.rs:276-353 | loading a module into a runtime in use: new memory is that of the specification function, and the invariant holds |

## Left out

- WeakProtocol: the return values of weak stores, and the body of `-dealloc` beyond the calls it makes into this runtime.
- WeakSafety.ReferencesConserved: an `objc_retain` overflow of the count; counts are unbounded numbers.
- WeakAtomic.ReleaseAlone: a `-dealloc` that makes calls; the steps of those are in `WeakInvariant.InvStep`, and each call alone is one of the other lemmas of `WeakAtomic`.
- WeakSelfNaming.NamingOwnObject: other threads that move while the call runs; the entry that decides does not change before the object is freed.
- PoolProtocol.DrainLeads: other threads that move between the releases of one drain; each release is a call like any other for `WeakInvariant.Reachable`.
- RetainRelease.Runtime.Release: `-dealloc` is recorded, not dispatched; finding its IMP is an ordinary send of the dispatch model.
- AutoreleasePool.PoolStack.Pop: a `-dealloc` that touches the pools while a pop is draining them; the source has them borrowed then.
- Dispatch.SendRefinesWalk: classes that are not registered; a send to one fills its cache, and the source does not flush it.
- ClassRegistry.Runtime.MsgLookup: a send that runs at the same time as a change of methods; the walk and the filling of the cache are not one step in the source.
- HandleRuns.RunAndLists: whether a vector that is added to in place really moves, which depends on its capacity; an exchange through a handle that has gone bad.
- LateLoading.OrderOfLoadAndSend: messages to classes while part of a module is loaded; a metaclass that is not loaded has no superclass yet, so they may find less than later (`LateLoading.ClassSideEnds`).
- ClassRegistry.Runtime.CacheFill: vectors of different capacities; the model has one capacity, of at least sixteen entries, for all caches.
- ModuleLoad.MethodsAnswerToTheirNames: entries hold selectors by value; interned selectors never change (`Selectors.RunsExtend`), so a reader of the address sees the same.
- Loader.LoadModule: classes with names in use, classes listed twice, and a superclass in a module that is loaded later.
- Address reuse between the end of `-dealloc` and the removal of its table entry.
- The assembly trampoline of `objc_msgSend` and `objc_msg_lookup_nonnull`, which save registers and forward.
- `objc_retain_count`, `sel_get_name` and the C entry points of `src/lib.rs`, which read one field or forward their arguments.
- Raw layout, section arithmetic, leaked boxes, UTF-8 and C string handling.
- The internals of DashMap, ShardedMutex, RwLock and SmallVec, taken as an atomic map, locks and a sequence.
