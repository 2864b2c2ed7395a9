# Reference-counted SharedPtr / WeakPtr, modelled in Dafny

`smart_pointers.h` implements a shared-ownership smart pointer, `SharedPtr<T>`,
its non-owning observer, `WeakPtr<T>`, and the factories `allocateShared` and
`makeShared`. Every non-empty handle points at a heap **control block**. The
block holds two counters:

- `shared_count` counts the owning handles.
- `weak_count` counts the observers.

The block has two one-shot actions:

- `destroy()` tears the managed object down, through the deleter of a
  `ControlBlockDirect` or through the allocator of a `ControlBlockMakeShared`.
- `dispose()` returns the block's own storage to its allocator.

The protocol has four rules:

1. Every copy increments a counter.
2. Every release decrements one.
3. `destroy()` runs when the shared count reaches zero.
4. `dispose()` runs when both counts are zero.

The model has three modules.

- **`Lifecycle`** (`lifecycle.dfy`) describes one control block as a value.
  - A `Block` holds the kind, the stored pointer, both counts, and a log of
    the `destroy()` and `dispose()` actions performed so far. A `Kind` is
    either `Direct(deleter, alloc)` or `CoLocated(value, alloc)`.
  - There is one transition per counter update of the source: `AcquireOwner`,
    `AcquireObserver`, `ReleaseOwner` and `ReleaseObserver`.
  - The invariant `Coherent` says the log is exactly what the counts
    prescribe.
  - The lemmas prove four things:
    - `destroy()` runs exactly at the release of the last owner.
    - `dispose()` runs exactly when both counts reach zero, and only after
      `destroy()`.
    - Each action runs at most once over any legal history.
    - Each action uses the deleter, allocator and pointer the block was built
      with.
  - They also pin down the three orderings in the source that break the
    protocol (see Findings).
- **`SmartPointers`** (`smart_pointers.dfy`) models the header's objects as
  Dafny classes whose fields change in place.
  - `ControlBlock` has the two counters, the stored pointer and the kind. Its
    ghost state is the log and the sets of owning and observing handles that
    point at it.
  - `SharedPtr` and `WeakPtr` each hold a nullable `cb`.
  - Every constructor, assignment, destructor (`Drop`), `reset`, `swap`,
    `get`, `use_count`, `expired` and `lock` is a method. Each is proved
    against the `Lifecycle` transitions, for example
    `cb.State() == ReleaseOwner(old(cb.State()))`.
  - Every method except `WeakPtr.Lock` keeps `ControlBlock.Valid()`.
    `Lock` reproduces the source's unchecked `lock()` and breaks it on an
    expired block (see Findings). This predicate says two things. Each
    counter equals the number of live handles of its kind. The log is the
    one the counts prescribe.
  - Every method also states which handles each block it touches counts
    afterwards, including the kind of handle it leaves alone. So an
    operation on one handle never silently drops another handle from a
    block's count.
- **`Scenarios`** (`scenarios.dfy`) is client code. It runs the typical
  usage sequences against the class contracts alone.

## Model

| member | source | states |
|---|---|---|
| Lifecycle.CountsOfAppend | smart_pointers.h:15-16 | Appending one action to a block's history adds one to the `destroy()` count or one to the `dispose()` count, never both. |
| Lifecycle.AcquireOwner | smart_pointers.h:105-107 | `++shared_count`: one more owner, the weak count, kind and pointer unchanged, and no action performed. |
| Lifecycle.AcquireObserver | smart_pointers.h:337-339 | `++weak_count`: one more observer, the shared count, kind and pointer unchanged, and no action performed. |
| Lifecycle.ReleaseOwner | smart_pointers.h:204-212 | Releasing an owner: one owner fewer, and the history grows by exactly the actions the new counts prescribe if this was the last owner (`destroy()`, then `dispose()` if no observer is left). Otherwise nothing is performed. |
| Lifecycle.ReleaseObserver | smart_pointers.h:422-427 | Releasing an observer: one observer fewer, and the history grows by one `dispose()` exactly when this was the last observer and no owner is left. Otherwise nothing is performed. |
| Lifecycle.CoherentLifecycle | smart_pointers.h:8-18 | In a coherent block, `destroy()` has run once if the shared count is 0 and never otherwise. `dispose()` has run once if both counts are 0 and never otherwise. A disposal always follows the teardown. Every logged action uses the block's own deleter or allocator and its stored pointer. |
| Lifecycle.FreshIsCoherent | smart_pointers.h:90 | A block created with counts 1/0 has performed nothing and is coherent. |
| Lifecycle.AcquireOwnerStep | smart_pointers.h:105-107 | Incrementing the shared count of a live block keeps it coherent and performs no action. |
| Lifecycle.AcquireObserverStep | smart_pointers.h:337-339 | Incrementing the weak count of a block whose storage is alive keeps it coherent and performs no action. |
| Lifecycle.ReleaseOwnerStep | smart_pointers.h:203-213 | Releasing an owner keeps the block coherent and only appends to its history. It adds a `destroy()` iff this was the last owner. It adds a `dispose()` iff it was the last owner and there is no observer. |
| Lifecycle.ReleaseObserverStep | smart_pointers.h:421-428 | Releasing an observer keeps the block coherent and never runs `destroy()`. It runs `dispose()` iff it was the last observer and no owner is left. |
| Lifecycle.StepKeepsProtocol | smart_pointers.h:203-213 | For every count-changing handle operation, `destroy()` happens exactly at the drop of the last owner. `dispose()` happens exactly at the drop that leaves both counts at zero. Coherence is kept. |
| Lifecycle.RunKeepsProtocol | smart_pointers.h:8-18 | Any legal sequence of copies, drops, observations and checked locks keeps a coherent block coherent. It never retracts an action, and it runs `destroy()` and `dispose()` at most once each. |
| Lifecycle.LockExpiredResurrects | smart_pointers.h:438-440 | `lock()` on an expired block yields use count 1 on an object already torn down, and the block is no longer coherent. |
| Lifecycle.LockIfLiveIsSafe | smart_pointers.h:434-436 | A lock that first checks `expired()` keeps the block coherent. It yields an owner iff the block was live. |
| Lifecycle.SelfCopyAssignAsWritten | smart_pointers.h:115-128 | Self copy-assigning the only owner destroys the object while the handle keeps it. With no observer, it also frees the block before the increment. |
| Lifecycle.SelfCopyAssignAcquireFirst | smart_pointers.h:115-128 | Acquiring before releasing leaves the block exactly as it was. |
| Lifecycle.SelfWeakAssignAsWritten | smart_pointers.h:357-367 | Self copy-assigning the only observer of an expired block frees the block and then increments a count in the freed storage. |
| Lifecycle.SelfWeakAssignAcquireFirst | smart_pointers.h:357-367 | Acquiring before releasing leaves the block exactly as it was. |
| SmartPointers.ControlBlock.constructor | smart_pointers.h:13 | A new block holds the given kind, pointer and counts, with an empty history. |
| SmartPointers.ControlBlock.Destroy | smart_pointers.h:36-38 | `destroy()` appends the teardown for the block's kind: the deleter of a direct block, or the allocator of a co-located block, applied to the stored pointer. |
| SmartPointers.ControlBlock.Dispose | smart_pointers.h:56-62 | `dispose()` appends the return of the block's storage to its own allocator. |
| SmartPointers.ControlBlock.DecrementShared | smart_pointers.h:204-212 | The release sequence of an owner takes the block to `ReleaseOwner` of its old state. |
| SmartPointers.ControlBlock.DecrementWeak | smart_pointers.h:422-427 | The release sequence of an observer takes the block to `ReleaseObserver` of its old state. |
| SmartPointers.ControlBlock.ReleaseShared | smart_pointers.h:203-213 | Releasing on behalf of a counted owner removes it from the owners, applies `ReleaseOwner`, and keeps the block valid. |
| SmartPointers.ControlBlock.ReleaseWeak | smart_pointers.h:421-428 | Releasing on behalf of a counted observer removes it from the observers, applies `ReleaseObserver`, and keeps the block valid. |
| SmartPointers.ControlBlock.AcquireShared | smart_pointers.h:82-84 | Incrementing the shared count for a new owner applies `AcquireOwner`, adds the owner, and keeps counts equal to live handles. |
| SmartPointers.ControlBlock.AcquireWeak | smart_pointers.h:337-339 | Incrementing the weak count for a new observer applies `AcquireObserver`, adds the observer, and keeps counts equal to live handles. |
| SmartPointers.SharedPtr.Empty | smart_pointers.h:88 | The default handle has no block. |
| SmartPointers.SharedPtr.FromRaw | smart_pointers.h:90-103 | Owning a raw pointer creates a fresh direct block with counts 1/0 and the given deleter and allocator. The new handle is its only owner. |
| SmartPointers.SharedPtr.FromBlock | smart_pointers.h:82-84 | The private constructor adopts the block and increments its shared count. |
| SmartPointers.SharedPtr.Copy | smart_pointers.h:105-107 | A copy shares the block and adds one owner. A copy of an empty handle is empty. Both handles stay valid. |
| SmartPointers.SharedPtr.Move | smart_pointers.h:109-112 | A move transfers the block without changing any count and empties the source. |
| SmartPointers.SharedPtr.CopyAssign | smart_pointers.h:115-128 | Copy assignment as written releases the old block (`ReleaseOwner`), then shares the new one (`AcquireOwner`). The released block's observers are unchanged. |
| SmartPointers.SharedPtr.Share | smart_pointers.h:125-126 | The acquire half of a copy assignment: the handle points at the new block, which applies `AcquireOwner` and counts it as one more owner. Its observers are unchanged. |
| SmartPointers.SharedPtr.CopyAssignChecked | smart_pointers.h:115-128 | The corrected copy assignment ends with the same states as `CopyAssign`, including unchanged observers of the released block. It also covers self-assignment, which leaves the block unchanged. |
| SmartPointers.SharedPtr.MoveAssign | smart_pointers.h:130-143 | Move assignment releases the old block and takes over the other's block without a count change. The source ends empty. Self-move releases the handle and leaves it empty. |
| SmartPointers.SharedPtr.TakeOver | smart_pointers.h:140-141 | The transfer half of a move assignment: the handle takes the other's block and the other becomes empty. The block's state and observers are unchanged, and it counts this handle in place of the other. |
| SmartPointers.SharedPtr.Drop | smart_pointers.h:203-213 | The destructor applies `ReleaseOwner` to the held block and leaves its observers alone. |
| SmartPointers.SharedPtr.Get | smart_pointers.h:231-233 | Non-const `get()` returns null for an empty handle and the stored pointer otherwise. |
| SmartPointers.SharedPtr.GetConst | smart_pointers.h:235-237 | Const `get()` returns the stored pointer of a non-empty handle. |
| SmartPointers.SharedPtr.UseCount | smart_pointers.h:239-241 | `use_count()` is the number of live owning handles of the block, at least 1 and including this one. |
| SmartPointers.SharedPtr.Reset | smart_pointers.h:244-255 | `reset()` releases the held block and leaves the handle empty. The released block's observers are unchanged. |
| SmartPointers.SharedPtr.ResetTo | smart_pointers.h:257-269 | `reset(p)` releases the held block, leaving its observers unchanged. It then owns `p` through a fresh direct block with the default deleter and counts 1/0. |
| SmartPointers.SharedPtr.ResetWith | smart_pointers.h:285-302 | `reset(p, del, alloc)` releases the held block, leaving its observers unchanged. It then owns `p` through a fresh direct block with that deleter and allocator. |
| SmartPointers.SharedPtr.Swap | smart_pointers.h:304-308 | `swap` exchanges the blocks. No count, history or observer set changes. Each block now counts the other handle, and a block both handles share keeps its owners. |
| SmartPointers.SharedPtr.Exchange | smart_pointers.h:304-308 | `swap` between handles on different blocks: each block keeps its state and observers and counts the other handle in place of its old one. |
| SmartPointers.WeakPtr.Empty | smart_pointers.h:336 | The default observer has no block. |
| SmartPointers.WeakPtr.FromShared | smart_pointers.h:337-339 | Observing an owner adds one observer to its block (`AcquireObserver`) and leaves the owners unchanged. |
| SmartPointers.WeakPtr.AssignShared | smart_pointers.h:340-350 | Assigning from an owner releases the old block (`ReleaseObserver`) and observes the owner's block. The owners of both blocks are unchanged. |
| SmartPointers.WeakPtr.Rebind | smart_pointers.h:341-348 | The body both WeakPtr copy assignments share: `ReleaseObserver` on the old block, then `AcquireObserver` on the new one, or no change at all when both are the same block. Owners are unchanged throughout. |
| SmartPointers.WeakPtr.Reobserve | smart_pointers.h:358-365 | Releasing and re-observing the same block cancel out when the release does not free it: state, owners and observers are unchanged. |
| SmartPointers.WeakPtr.Switch | smart_pointers.h:358-365 | Releasing one block, then observing a different one: `ReleaseObserver` on the first, `AcquireObserver` on the second, owners of both unchanged. |
| SmartPointers.WeakPtr.Observe | smart_pointers.h:364-365 | The acquire half of a weak assignment: the handle points at the new block, which applies `AcquireObserver` and counts it as one more observer. Its owners are unchanged. |
| SmartPointers.WeakPtr.Copy | smart_pointers.h:351-353 | Copying an observer adds one observer to the same block. |
| SmartPointers.WeakPtr.Move | smart_pointers.h:354-356 | Moving an observer transfers the block without a count change and empties the source. |
| SmartPointers.WeakPtr.CopyAssign | smart_pointers.h:357-367 | Copy assignment as written releases the old block, then observes the other's block. The owners of both blocks are unchanged. |
| SmartPointers.WeakPtr.CopyAssignChecked | smart_pointers.h:357-367 | The corrected copy assignment ends with the same states as `CopyAssign`, including unchanged owners. Self-assignment leaves the block unchanged. |
| SmartPointers.WeakPtr.MoveAssign | smart_pointers.h:368-378 | Move assignment releases the old block and takes over the other's block without a count change. The source ends empty. |
| SmartPointers.WeakPtr.TakeOver | smart_pointers.h:375-376 | The transfer half of a weak move assignment: the handle takes the other's block and the other becomes empty. The block's state and owners are unchanged, and it counts this handle in place of the other. |
| SmartPointers.WeakPtr.Drop | smart_pointers.h:421-428 | The destructor applies `ReleaseObserver` and never runs `destroy()`. |
| SmartPointers.WeakPtr.UseCount | smart_pointers.h:430-432 | `use_count()` is the number of live owning handles of the observed block. |
| SmartPointers.WeakPtr.Expired | smart_pointers.h:434-436 | `expired()` holds iff no owner is left, which is iff `destroy()` has run. |
| SmartPointers.WeakPtr.Lock | smart_pointers.h:438-440 | `lock()` as written creates an owner on the block and increments its shared count. The block stays valid iff it was not expired. |
| SmartPointers.WeakPtr.LockChecked | smart_pointers.h:438-440 | The corrected `lock()` yields an owner iff the block is live, and an empty handle otherwise. The block's observers are unchanged, and so are its owners when it has expired. Everything stays valid. |
| SmartPointers.AllocateShared | smart_pointers.h:311-320 | `allocateShared` creates a co-located block holding the object inline. Its stored pointer is the inline object, its counts are 1/0, and the new handle is its only owner. |
| SmartPointers.MakeShared | smart_pointers.h:322-325 | `makeShared` is `allocateShared` with the standard allocator. |
| Scenarios.CopyTwiceDropAll | smart_pointers.h:203-213 | After two copies the use count is 3. After all three handles are dropped, the deleter has run once on the original pointer, followed by one deallocation. |
| Scenarios.MakeSharedThenDrop | smart_pointers.h:322-325 | A `makeShared` handle has use count 1 and points at the inline object. Dropping it destroys exactly that object through the standard allocator, then frees the block once. |
| Scenarios.ObserverOutlivesOwner | smart_pointers.h:434-436 | After the only owner is dropped, the observer reports expiry and the checked lock yields an empty handle. The block is freed only when the observer goes. |
| Scenarios.ObserverDroppedFirst | smart_pointers.h:421-428 | Dropping the observer first performs nothing and leaves the owner's use count at 1. Dropping the owner then destroys the object and frees the block. |
| Scenarios.MoveLeavesSourceEmpty | smart_pointers.h:109-112 | After a move construction, the source's `get()` is null and the target's use count is 1. |
| Scenarios.CustomDeleterCalledOnce | smart_pointers.h:95-103 | `get()` returns the original pointer. On drop, the custom deleter is called once on it, and the block goes back to the custom allocator. |
| Scenarios.ObserverOutlivesReset | smart_pointers.h:244-255 | After `reset()` of the only owner, the observer reports expiry and is still counted as the block's one observer. |
| Scenarios.AssignExpiresObserver | smart_pointers.h:115-128 | Copy-assigning over the only owner of a block expires that block's observer and leaves the assigned block with two owners. |
| Scenarios.SwapKeepsObserver | smart_pointers.h:304-308 | After `swap`, an observer of the first block still sees use count 1, and the second handle now holds the first object. |
| Scenarios.ReobserveKeepsOwner | smart_pointers.h:340-350 | Re-pointing an observer at another owner leaves the first block's use count at 1, and the new block is not expired. |
| Scenarios.LockSharesWithOtherObservers | smart_pointers.h:438-440 | A checked lock on a live block makes the use count 2 and leaves both observers counted. |

## Left out

- The converting constructors and assignments over another type `Y`
  (`smart_pointers.h:145-201`, `380-419`) are left out. They reinterpret a
  control block of `SharedPtr<Y>` as one of `SharedPtr<T>`, which has no
  counterpart in a typed model. Their counting mostly repeats the
  same-type operations, with two differences. The converting copy
  constructor (`162-164`) increments `cb->shared_count` with no null check,
  unlike the same-type one at `105-107`. The converting move constructors
  (`167-169`, `391-393`) assign the other type's block pointer with no cast,
  so they compile only when `Y` is `T`.
- `reset(Y*, Deleter)` (`smart_pointers.h:271-283`) is left out. It constructs
  the abstract `ControlBlockBase` with four arguments, a constructor that
  does not exist, so the template cannot be instantiated.
- `operator*` and `operator->` (`smart_pointers.h:215-229`) are left out. They
  only dereference `cb->ptr`, which `Get` and `GetConst` already expose.
- The allocator machinery is not modelled. This covers `rebind_alloc`,
  `allocate`, placement `new` and `construct`. Three places allocate a block
  with `new`: `SharedPtr(T*)` at line 90, `SharedPtr(T*, Deleter)` at line 93
  and `reset(Y*)` at line 268. Such a block is recorded as using the standard
  allocator.
- Allocation failure is not modelled. Every allocation in the model
  succeeds. In the source, `new` can throw at lines 90, 93 and 268, and
  `allocate` can throw at lines 100, 299 and 316. The model does not capture
  the following consequences:
  - `reset(Y*)` (`258-268`) and `reset(p, del, alloc)` (`286-301`) release the
    old block before they allocate. A throw leaves `cb` pointing at the
    released and possibly freed block, which the destructor then releases a
    second time.
  - `SharedPtr(T*)` and the other raw-pointer constructors leak `ptr` when
    the block allocation throws.
  - The handle is therefore not left consistent on failure.
- The value type `T` and the arguments forwarded to its constructor are
  abstracted to an object identity (`Lifecycle.Value`).
- The source's `dispose()` (`56-62`, `29-34`) deallocates the block without
  running its destructor, because the explicit destructor call at line 57 is
  commented out. The block's deleter and allocator members are therefore
  never destroyed. The model likewise records only the deallocation. The
  inline object is torn down by `destroy()`, which the model logs.
- `size_t` counters are unbounded naturals. Wrap-around after 2^64
  increments is not modelled.
- Thread safety is not modelled. The source uses plain, non-atomic counters.
- `<iostream>` output is not modelled.
- SharedPtr.CopyAssign: requires that it is not a self-assignment of the only
  owner. That is the case in which the code as written destroys the object
  (first Findings row). The same applies to WeakPtr.CopyAssign for the only
  observer of an expired block (second row).
- SharedPtr.CopyAssign, WeakPtr.AssignShared, WeakPtr.CopyAssign,
  WeakPtr.FromShared, WeakPtr.Copy, SharedPtr.GetConst, SharedPtr.UseCount,
  WeakPtr.UseCount, WeakPtr.Expired, WeakPtr.Lock: each requires a non-empty
  handle. The source dereferences `cb` without a null check there.

## Findings

| source | as written | input that shows it | evidently intended | confidence | as-written member | corrected member |
|---|---|---|---|---|---|---|
| smart_pointers.h:115-128 | copy assignment releases the old block before incrementing the new one | `p = p` where `p` is the only owner: the object is destroyed (and, with no observer, the block freed) while `p` still points at it | self-assignment is a no-op | not executed | Lifecycle.SelfCopyAssignAsWritten | SmartPointers.SharedPtr.CopyAssignChecked |
| smart_pointers.h:357-367 | weak copy assignment releases before incrementing | `w = w` where `w` is the only observer of an expired block: `dispose()` frees the block, then `++cb->weak_count` writes into it | self-assignment is a no-op | not executed | Lifecycle.SelfWeakAssignAsWritten | SmartPointers.WeakPtr.CopyAssignChecked |
| smart_pointers.h:438-440 | `lock()` always builds an owner through the incrementing private constructor | `lock()` on an expired observer: use count becomes 1 on an object `destroy()` already tore down | an empty `SharedPtr` when `expired()` | not executed | Lifecycle.LockExpiredResurrects | SmartPointers.WeakPtr.LockChecked |
