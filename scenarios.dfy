/** Client code: the usage scenarios the library is designed for, checked
    against the contracts of SharedPtr, WeakPtr and the factory alone. */
module Scenarios {
  import opened Lifecycle
  import opened SmartPointers

  /** An owner over a heap object, copied twice (use count 3), then all three
      dropped: the default deleter runs exactly once, on that object, and
      the block is freed after it. */
  method CopyTwiceDropAll(v: Value) returns (peak: nat, ghost log: seq<Action>)
    ensures peak == 3
    ensures log == [DeleterCalled(DefaultDelete, v), Deallocated(StdAllocator)]
  {
    var p1 := new SharedPtr.FromRaw(v, DefaultDelete, StdAllocator);
    var p2 := new SharedPtr.Copy(p1);
    var p3 := new SharedPtr.Copy(p2);
    peak := p3.UseCount();
    p1.Drop();
    p2.Drop();
    p3.Drop();
    log := p3.cb.log;
  }

  /** makeShared, then drop: the inline object is torn down through the
      allocator once, then the single allocation is freed. */
  method MakeSharedThenDrop() returns (count: nat, held: Value?, inline: bool, ghost log: seq<Action>)
    ensures count == 1 && inline && held != null
    ensures log == [AllocatorDestroyed(StdAllocator, held), Deallocated(StdAllocator)]
  {
    var sp := MakeShared();
    count := sp.UseCount();
    held := sp.Get();
    inline := held == sp.cb.kind.value;
    sp.Drop();
    log := sp.cb.log;
  }

  /** An observer outlives its only owner: it reports expiry, the checked
      lock yields an empty handle, and the block stays allocated until the
      observer goes too. */
  method ObserverOutlivesOwner(v: Value) returns (expired: bool, lockedEmpty: bool, ghost log: seq<Action>)
    ensures expired && lockedEmpty
    ensures log == [DeleterCalled(DefaultDelete, v), Deallocated(StdAllocator)]
  {
    var owner := new SharedPtr.FromRaw(v, DefaultDelete, StdAllocator);
    var observer := new WeakPtr.FromShared(owner);
    owner.Drop();
    expired := observer.Expired();
    var locked := observer.LockChecked();
    var p := locked.Get();
    lockedEmpty := locked.cb == null && p == null;
    assert observer.cb.log == [DeleterCalled(DefaultDelete, v)];
    observer.Drop();
    log := observer.cb.log;
  }

  /** The observer goes first: dropping it does nothing visible and leaves
      the owner's use count at 1; dropping the owner then destroys the
      object and frees the block. */
  method ObserverDroppedFirst(v: Value)
    returns (count: nat, ghost afterObserver: seq<Action>, ghost afterOwner: seq<Action>)
    ensures count == 1
    ensures afterObserver == []
    ensures afterOwner == [DeleterCalled(DefaultDelete, v), Deallocated(StdAllocator)]
  {
    var owner := new SharedPtr.FromRaw(v, DefaultDelete, StdAllocator);
    var observer := new WeakPtr.FromShared(owner);
    observer.Drop();
    afterObserver := owner.cb.log;
    count := owner.UseCount();
    owner.Drop();
    afterOwner := owner.cb.log;
  }

  /** Move construction empties the source and leaves one owner. */
  method MoveLeavesSourceEmpty(v: Value) returns (sourceEmpty: bool, count: nat)
    ensures sourceEmpty && count == 1
  {
    var source := new SharedPtr.FromRaw(v, DefaultDelete, StdAllocator);
    var target := new SharedPtr.Move(source);
    var p := source.Get();
    sourceEmpty := p == null;
    count := target.UseCount();
  }

  /** A custom deleter and allocator: the deleter given at construction is
      the one called, on the original pointer, once; the block goes back to
      the allocator given at construction.  Before that, get() is the
      original pointer. */
  method CustomDeleterCalledOnce(v: Value) returns (held: Value?, ghost log: seq<Action>)
    ensures held == v
    ensures log == [DeleterCalled(CustomDeleter(7), v), Deallocated(CustomAllocator(3))]
  {
    var sp := new SharedPtr.FromRaw(v, CustomDeleter(7), CustomAllocator(3));
    held := sp.Get();
    sp.Drop();
    log := sp.cb.log;
  }

  /** reset() of the only owner, like its destruction, leaves an observer
      that reports expiry and still counts as the block's one observer. */
  method ObserverOutlivesReset(v: Value) returns (expired: bool, observers: nat)
    ensures expired && observers == 1
  {
    var owner := new SharedPtr.FromRaw(v, DefaultDelete, StdAllocator);
    var observer := new WeakPtr.FromShared(owner);
    owner.Reset();
    expired := observer.Expired();
    observers := observer.cb.weakCount;
  }

  /** Copy-assigning over the only owner of a block expires that block's
      observer and leaves two owners of the assigned block. */
  method AssignExpiresObserver(v: Value, u: Value) returns (expired: bool, count: nat)
    ensures expired && count == 2
  {
    var p := new SharedPtr.FromRaw(v, DefaultDelete, StdAllocator);
    var q := new SharedPtr.FromRaw(u, DefaultDelete, StdAllocator);
    var observer := new WeakPtr.FromShared(p);
    p.CopyAssignChecked(q);
    expired := observer.Expired();
    count := q.UseCount();
  }

  /** swap moves ownership between handles but leaves each block's observers
      and counts alone: an observer of the first block still sees one owner,
      now the second handle. */
  method SwapKeepsObserver(v: Value, u: Value) returns (count: nat, held: Value?)
    ensures count == 1 && held == v
  {
    var a := new SharedPtr.FromRaw(v, DefaultDelete, StdAllocator);
    var b := new SharedPtr.FromRaw(u, DefaultDelete, StdAllocator);
    var observer := new WeakPtr.FromShared(a);
    a.Swap(b);
    count := observer.UseCount();
    held := b.Get();
  }

  /** Re-pointing an observer at another owner leaves the owners of the
      block it left untouched. */
  method ReobserveKeepsOwner(v: Value, u: Value) returns (count: nat, expired: bool)
    ensures count == 1 && !expired
  {
    var first := new SharedPtr.FromRaw(v, DefaultDelete, StdAllocator);
    var second := new SharedPtr.FromRaw(u, DefaultDelete, StdAllocator);
    var observer := new WeakPtr.FromShared(first);
    observer.AssignShared(second);
    count := first.UseCount();
    expired := observer.Expired();
  }

  /** A checked lock on a live block adds one owner and leaves the other
      observers of the block counted. */
  method LockSharesWithOtherObservers(v: Value) returns (count: nat, observers: nat)
    ensures count == 2 && observers == 2
  {
    var owner := new SharedPtr.FromRaw(v, DefaultDelete, StdAllocator);
    var w1 := new WeakPtr.FromShared(owner);
    var w2 := new WeakPtr.FromShared(owner);
    var locked := w1.LockChecked();
    count := w2.UseCount();
    observers := w2.cb.weakCount;
  }
}
