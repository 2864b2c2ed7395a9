/** SharedPtr, WeakPtr and their control block, as objects updated in place.

    Each control block carries, as ghost state, the set of owning handles and
    the set of observer handles that point at it and the log of destroy() and
    dispose() calls it has made.  `Tracks()` says the two counters are the
    sizes of those sets; `Valid()` adds that the log is the one the protocol
    of module Lifecycle prescribes for the counters.  Every operation is
    proved against the transitions of that module. */
module SmartPointers {
  import opened Lifecycle

  class ControlBlock {
    var sharedCount: nat
    var weakCount: nat
    var ptr: Value?
    const kind: Kind

    ghost var log: seq<Action>
    ghost var owners: set<SharedPtr>
    ghost var observers: set<WeakPtr>

    ghost function State(): Block
      reads this
    {
      Block(kind, ptr, sharedCount, weakCount, log)
    }

    /** The counters count the live handles, and every counted handle points here. */
    ghost predicate Tracks()
      reads this, owners, observers
    {
      && sharedCount == |owners|
      && weakCount == |observers|
      && (forall h :: h in owners ==> h.cb == this)
      && (forall w :: w in observers ==> w.cb == this)
    }

    ghost predicate Valid()
      reads this, owners, observers
    {
      Tracks() && Coherent(State())
    }

    /** ControlBlockBase(sc, wc, ptr), with the variant's deleter and allocator. */
    constructor (kind: Kind, ptr: Value?, sc: nat, wc: nat)
      ensures this.kind == kind && this.ptr == ptr
      ensures sharedCount == sc && weakCount == wc
      ensures log == [] && owners == {} && observers == {}
    {
      this.kind := kind;
      this.ptr := ptr;
      sharedCount, weakCount := sc, wc;
      log, owners, observers := [], {}, {};
    }

    /** destroy(): the deleter (Direct) or the allocator's destroy (CoLocated)
        is applied to the stored pointer. */
    method Destroy()
      modifies this`log
      ensures log == old(log) + [TeardownOf(kind, ptr)]
    {
      log := log + [TeardownOf(kind, ptr)];
    }

    /** dispose(): the block's storage goes back to the allocator it holds. */
    method Dispose()
      modifies this`log
      ensures log == old(log) + [DisposalOf(kind)]
    {
      log := log + [DisposalOf(kind)];
    }

    /** The release step every SharedPtr operation repeats: decrement, and at
        zero destroy(), then dispose() if there is no observer. */
    method DecrementShared()
      requires sharedCount > 0
      modifies this`sharedCount, this`log
      ensures State() == ReleaseOwner(old(State()))
    {
      sharedCount := sharedCount - 1;
      if sharedCount == 0 {
        Destroy();
        if weakCount == 0 {
          Dispose();
        }
      }
    }

    /** The release step of every WeakPtr operation: decrement, and dispose()
        when both counts are zero. */
    method DecrementWeak()
      requires weakCount > 0
      modifies this`weakCount, this`log
      ensures State() == ReleaseObserver(old(State()))
    {
      weakCount := weakCount - 1;
      if weakCount == 0 && sharedCount == 0 {
        Dispose();
      }
    }

    /** DecrementShared on behalf of the owning handle `h`, which stops counting. */
    method ReleaseShared(ghost h: SharedPtr)
      requires Valid() && h in owners
      modifies this`sharedCount, this`log, this`owners
      ensures State() == ReleaseOwner(old(State()))
      ensures owners == old(owners) - {h}
      ensures Valid()
    {
      ReleaseOwnerStep(State());
      DecrementShared();
      assert |owners - {h}| == |owners| - 1;
      owners := owners - {h};
    }

    /** DecrementWeak on behalf of the observer handle `w`, which stops counting. */
    method ReleaseWeak(ghost w: WeakPtr)
      requires Valid() && w in observers
      modifies this`weakCount, this`log, this`observers
      ensures State() == ReleaseObserver(old(State()))
      ensures observers == old(observers) - {w}
      ensures Valid()
    {
      ReleaseObserverStep(State());
      DecrementWeak();
      assert |observers - {w}| == |observers| - 1;
      observers := observers - {w};
    }

    /** `++cb->shared_count` on behalf of handle `h`, which already points here. */
    method AcquireShared(ghost h: SharedPtr)
      requires Tracks() && h.cb == this && h !in owners
      modifies this`sharedCount, this`owners
      ensures State() == AcquireOwner(old(State()))
      ensures owners == old(owners) + {h}
      ensures Tracks()
    {
      sharedCount := sharedCount + 1;
      owners := owners + {h};
    }

    /** `++cb->weak_count` on behalf of handle `w`, which already points here. */
    method AcquireWeak(ghost w: WeakPtr)
      requires Tracks() && w.cb == this && w !in observers
      modifies this`weakCount, this`observers
      ensures State() == AcquireObserver(old(State()))
      ensures observers == old(observers) + {w}
      ensures Tracks()
    {
      weakCount := weakCount + 1;
      observers := observers + {w};
    }

    /** Hand the ownership counted for `from` over to `to` (moves, swap). */
    ghost method ReplaceOwner(from: SharedPtr, to: SharedPtr)
      requires sharedCount == |owners| && weakCount == |observers| && Coherent(State())
      requires from in owners && to !in owners && to.cb == this
      requires forall h :: h in owners && h != from ==> h.cb == this
      requires forall w :: w in observers ==> w.cb == this
      modifies this`owners
      ensures owners == old(owners) - {from} + {to}
      ensures Valid()
    {
      owners := owners - {from} + {to};
    }

    /** Hand the observation counted for `from` over to `to` (moves). */
    ghost method ReplaceObserver(from: WeakPtr, to: WeakPtr)
      requires sharedCount == |owners| && weakCount == |observers| && Coherent(State())
      requires from in observers && to !in observers && to.cb == this
      requires forall h :: h in owners ==> h.cb == this
      requires forall w :: w in observers && w != from ==> w.cb == this
      modifies this`observers
      ensures observers == old(observers) - {from} + {to}
      ensures Valid()
    {
      observers := observers - {from} + {to};
    }
  }

  /** The owning handle. */
  class SharedPtr {
    var cb: ControlBlock?

    ghost predicate Valid()
      reads this, cb, if cb == null then {} else cb.owners, if cb == null then {} else cb.observers
    {
      cb != null ==> this in cb.owners && cb.Valid()
    }

    /** SharedPtr(): the empty handle. */
    constructor Empty()
      ensures cb == null
    {
      cb := null;
    }

    /** SharedPtr(ptr[, del[, alloc]]): a new ControlBlockDirect with counts 1/0. */
    constructor FromRaw(p: Value?, del: Deleter, alloc: Allocator)
      ensures Valid() && fresh(cb)
      ensures cb.State() == Fresh(Direct(del, alloc), p)
      ensures cb.owners == {this} && cb.observers == {}
    {
      var block := new ControlBlock(Direct(del, alloc), p, 1, 0);
      cb := block;
      new;
      block.owners := {this};
    }

    /** The private SharedPtr(cb): adopt `block` and increment its shared count. */
    constructor FromBlock(block: ControlBlock)
      requires block.Tracks()
      modifies block
      ensures cb == block
      ensures block.State() == AcquireOwner(old(block.State()))
      ensures block.owners == old(block.owners) + {this} && block.observers == old(block.observers)
      ensures block.Tracks()
    {
      cb := block;
      new;
      block.AcquireShared(this);
    }

    /** Copy constructor: share the block and count one more owner; copying
        an empty handle gives an empty handle. */
    constructor Copy(other: SharedPtr)
      requires other.Valid()
      modifies other.cb
      ensures cb == old(other.cb)
      ensures cb != null ==> cb.State() == AcquireOwner(old(other.cb.State()))
      ensures cb != null ==> cb.owners == old(other.cb.owners) + {this}
      ensures cb != null ==> cb.observers == old(other.cb.observers)
      ensures Valid() && other.Valid()
    {
      cb := other.cb;
      new;
      if cb != null {
        AcquireOwnerStep(cb.State());
        cb.AcquireShared(this);
      }
    }

    /** Move constructor: take the block over and empty the source; no count changes. */
    constructor Move(other: SharedPtr)
      requires other.Valid()
      modifies other, other.cb
      ensures cb == old(other.cb) && other.cb == null
      ensures cb != null ==> cb.State() == old(other.cb.State())
      ensures cb != null ==> cb.owners == old(other.cb.owners) - {other} + {this}
      ensures cb != null ==> cb.observers == old(other.cb.observers)
      ensures Valid() && other.Valid()
    {
      cb := other.cb;
      new;
      other.cb := null;
      if cb != null {
        cb.ReplaceOwner(other, this);
      }
    }

    /** Copy assignment as written: release the held block, then share the
        block of `other`.  The source dereferences `other.cb` unchecked, and
        assigning the only owner of a block to itself destroys the object
        first (see Lifecycle.SelfCopyAssignAsWritten); both are excluded. */
    method CopyAssign(other: SharedPtr)
      requires Valid() && other.Valid() && other.cb != null
      requires cb != other.cb || other.cb.sharedCount > 1
      modifies this, cb, other.cb
      ensures cb == old(other.cb)
      ensures old(cb) != null && old(cb) != cb ==>
                && old(cb).State() == ReleaseOwner(old(cb.State()))
                && old(cb).owners == old(cb.owners) - {this}
                && old(cb).Valid()
      ensures old(cb) != cb ==> cb.State() == AcquireOwner(old(other.cb.State()))
      ensures old(cb) == cb ==> cb.State() == old(cb.State())
      ensures cb.owners == old(other.cb.owners) + {this}
      ensures cb.observers == old(other.cb.observers)
      ensures old(cb) != null ==> old(cb).observers == old(cb.observers)
      ensures Valid() && other.Valid()
    {
      Drop();
      Share(other.cb);
    }

    /** The acquire step of a copy assignment: point at `block` and count
        one more owner.  This handle is no longer counted by the block it
        points at. */
    method Share(block: ControlBlock)
      requires cb != null ==> this !in cb.owners
      requires block.Valid() && block.sharedCount > 0 && this !in block.owners
      modifies this, block
      ensures cb == block
      ensures block.State() == AcquireOwner(old(block.State()))
      ensures block.owners == old(block.owners) + {this} && block.observers == old(block.observers)
      ensures Valid()
    {
      cb := block;
      AcquireOwnerStep(block.State());
      block.AcquireShared(this);
    }

    /** Copy assignment that acquires before it releases (copy, then move
        the copy in), which makes self-assignment harmless
        (Lifecycle.SelfCopyAssignAcquireFirst). */
    method CopyAssignChecked(other: SharedPtr)
      requires Valid() && other.Valid() && other.cb != null
      modifies this, cb, other.cb
      ensures cb == old(other.cb)
      ensures old(cb) != null && old(cb) != cb ==>
                && old(cb).State() == ReleaseOwner(old(cb.State()))
                && old(cb).owners == old(cb.owners) - {this}
                && old(cb).Valid()
      ensures old(cb) != cb ==> cb.State() == AcquireOwner(old(other.cb.State()))
      ensures old(cb) == cb ==> cb.State() == old(cb.State())
      ensures cb.owners == old(other.cb.owners) + {this}
      ensures cb.observers == old(other.cb.observers)
      ensures old(cb) != null ==> old(cb).observers == old(cb.observers)
      ensures Valid() && other.Valid()
    {
      var copy := new SharedPtr.Copy(other);
      MoveAssign(copy);
      if old(cb) == cb {
        SelfCopyAssignAcquireFirst(old(cb.State()));
      }
    }

    /** Move assignment: release the held block, then take over the block of
        `other` and empty it.  Moving a handle onto itself releases it. */
    method MoveAssign(other: SharedPtr)
      requires Valid() && other.Valid()
      modifies this, other, cb, other.cb
      ensures other.cb == null
      ensures cb == (if other == this then null else old(other.cb))
      ensures old(cb) != null ==> old(cb).State() == ReleaseOwner(old(cb.State())) && old(cb).Valid()
      ensures old(cb) != null && (other == this || old(cb) != old(other.cb)) ==>
                old(cb).owners == old(cb.owners) - {this}
      ensures old(cb) != null && other != this && old(cb) == old(other.cb) ==>
                old(cb).owners == old(cb.owners) - {other}
      ensures old(other.cb) != null && old(other.cb) != old(cb) ==>
                && old(other.cb).State() == old(other.cb.State())
                && old(other.cb).owners == old(other.cb.owners) - {other} + {this}
      ensures old(cb) != null ==> old(cb).observers == old(cb.observers)
      ensures old(other.cb) != null ==> old(other.cb).observers == old(other.cb.observers)
      ensures Valid() && other.Valid()
    {
      Drop();
      TakeOver(other);
    }

    /** The transfer step of a move: take the block of `other` and empty
        `other`.  This handle is no longer counted by the block it points at. */
    method TakeOver(other: SharedPtr)
      requires cb != null ==> this !in cb.owners
      requires other != this ==> other.Valid()
      modifies this, other, if other == this then {} else {other.cb}
      ensures other.cb == null
      ensures cb == (if other == this then null else old(other.cb))
      ensures other != this && cb != null ==>
                && cb.State() == old(other.cb.State())
                && cb.owners == old(other.cb.owners) - {other} + {this}
                && cb.observers == old(other.cb.observers)
      ensures other != this ==> Valid() && other.Valid()
    {
      var moved := other.cb;
      cb := moved;
      other.cb := null;
      if moved != null && this != other {
        moved.ReplaceOwner(other, this);
      }
    }

    /** ~SharedPtr(): release the held block, if any. */
    method Drop()
      requires Valid()
      modifies cb
      ensures cb != null ==> cb.State() == ReleaseOwner(old(cb.State()))
      ensures cb != null ==> cb.owners == old(cb.owners) - {this} && cb.Valid()
      ensures cb != null ==> cb.observers == old(cb.observers)
    {
      if cb != null {
        cb.ReleaseShared(this);
      }
    }

    /** Non-const get(): the stored pointer, or null for an empty handle. */
    method Get() returns (p: Value?)
      ensures cb == null ==> p == null
      ensures cb != null ==> p == cb.ptr
    {
      p := if cb == null then null else cb.ptr;
    }

    /** Const get(): dereferences the block unchecked. */
    method GetConst() returns (p: Value?)
      requires cb != null
      ensures p == cb.ptr
    {
      p := cb.ptr;
    }

    /** use_count(): the number of live owning handles of the block;
        dereferences the block unchecked. */
    method UseCount() returns (n: nat)
      requires Valid() && cb != null
      ensures n == |cb.owners| && this in cb.owners
      ensures n >= 1
    {
      n := cb.sharedCount;
    }

    /** reset(): release the held block and become empty. */
    method Reset()
      requires Valid()
      modifies this, cb
      ensures cb == null
      ensures old(cb) != null ==>
                && old(cb).State() == ReleaseOwner(old(cb.State()))
                && old(cb).owners == old(cb.owners) - {this}
                && old(cb).observers == old(cb.observers)
                && old(cb).Valid()
    {
      if cb != null {
        cb.ReleaseShared(this);
      }
      cb := null;
    }

    /** reset(ptr, del, alloc): release the held block, then own `p` through a
        new ControlBlockDirect with counts 1/0. */
    method ResetWith(p: Value?, del: Deleter, alloc: Allocator)
      requires Valid()
      modifies this, cb
      ensures fresh(cb) && cb.State() == Fresh(Direct(del, alloc), p)
      ensures cb.owners == {this} && cb.observers == {}
      ensures old(cb) != null ==>
                && old(cb).State() == ReleaseOwner(old(cb.State()))
                && old(cb).owners == old(cb.owners) - {this}
                && old(cb).observers == old(cb.observers)
                && old(cb).Valid()
      ensures Valid()
    {
      if cb != null {
        cb.ReleaseShared(this);
      }
      var block := new ControlBlock(Direct(del, alloc), p, 1, 0);
      cb := block;
      block.owners := {this};
    }

    /** reset(ptr): as ResetWith, with the default deleter and allocator. */
    method ResetTo(p: Value?)
      requires Valid()
      modifies this, cb
      ensures fresh(cb) && cb.State() == Fresh(Direct(DefaultDelete, StdAllocator), p)
      ensures cb.owners == {this} && cb.observers == {}
      ensures old(cb) != null ==>
                && old(cb).State() == ReleaseOwner(old(cb.State()))
                && old(cb).owners == old(cb.owners) - {this}
                && old(cb).observers == old(cb.observers)
                && old(cb).Valid()
      ensures Valid()
    {
      ResetWith(p, DefaultDelete, StdAllocator);
    }

    /** swap(sp): exchange the blocks; no count changes.  Exchanging two
        equal block pointers changes nothing. */
    method Swap(sp: SharedPtr)
      requires Valid() && sp.Valid()
      modifies this, sp, cb, sp.cb
      ensures cb == old(sp.cb) && sp.cb == old(cb)
      ensures old(cb) != null ==> old(cb).State() == old(cb.State())
      ensures old(sp.cb) != null ==> old(sp.cb).State() == old(sp.cb.State())
      ensures old(cb) != old(sp.cb) && old(cb) != null ==>
                old(cb).owners == old(cb.owners) - {this} + {sp}
      ensures old(cb) != old(sp.cb) && old(sp.cb) != null ==>
                old(sp.cb).owners == old(sp.cb.owners) - {sp} + {this}
      ensures old(cb) == old(sp.cb) && old(cb) != null ==> old(cb).owners == old(cb.owners)
      ensures old(cb) != null ==> old(cb).observers == old(cb.observers)
      ensures old(sp.cb) != null ==> old(sp.cb).observers == old(sp.cb.observers)
      ensures Valid() && sp.Valid()
    {
      if cb != sp.cb {
        Exchange(sp);
      }
    }

    /** swap(sp) between handles on different blocks: each block now counts
        the other handle in place of its old one. */
    method Exchange(sp: SharedPtr)
      requires Valid() && sp.Valid() && cb != sp.cb
      modifies this, sp, cb, sp.cb
      ensures cb == old(sp.cb) && sp.cb == old(cb)
      ensures old(cb) != null ==>
                && old(cb).State() == old(cb.State())
                && old(cb).owners == old(cb.owners) - {this} + {sp}
                && old(cb).observers == old(cb.observers)
      ensures old(sp.cb) != null ==>
                && old(sp.cb).State() == old(sp.cb.State())
                && old(sp.cb).owners == old(sp.cb.owners) - {sp} + {this}
                && old(sp.cb).observers == old(sp.cb.observers)
      ensures Valid() && sp.Valid()
    {
      var mine, theirs := cb, sp.cb;
      cb, sp.cb := theirs, mine;
      if mine != null {
        mine.ReplaceOwner(this, sp);
      }
      if theirs != null {
        theirs.ReplaceOwner(sp, this);
      }
    }
  }

  /** The observer handle. */
  class WeakPtr {
    var cb: ControlBlock?

    ghost predicate Valid()
      reads this, cb, if cb == null then {} else cb.owners, if cb == null then {} else cb.observers
    {
      cb != null ==> this in cb.observers && cb.Valid()
    }

    /** WeakPtr(): the empty handle. */
    constructor Empty()
      ensures cb == null
    {
      cb := null;
    }

    /** WeakPtr(sp): observe the block of `sp`, which is dereferenced unchecked. */
    constructor FromShared(sp: SharedPtr)
      requires sp.Valid() && sp.cb != null
      modifies sp.cb
      ensures cb == old(sp.cb)
      ensures cb.State() == AcquireObserver(old(sp.cb.State()))
      ensures cb.observers == old(sp.cb.observers) + {this} && cb.owners == old(sp.cb.owners)
      ensures Valid() && sp.Valid()
    {
      cb := sp.cb;
      new;
      AcquireObserverStep(cb.State());
      cb.AcquireWeak(this);
    }

    /** Copy constructor; the source's block is dereferenced unchecked. */
    constructor Copy(other: WeakPtr)
      requires other.Valid() && other.cb != null
      modifies other.cb
      ensures cb == old(other.cb)
      ensures cb.State() == AcquireObserver(old(other.cb.State()))
      ensures cb.observers == old(other.cb.observers) + {this} && cb.owners == old(other.cb.owners)
      ensures Valid() && other.Valid()
    {
      cb := other.cb;
      new;
      AcquireObserverStep(cb.State());
      cb.AcquireWeak(this);
    }

    /** Move constructor: take the block over and empty the source; no count changes. */
    constructor Move(other: WeakPtr)
      requires other.Valid()
      modifies other, other.cb
      ensures cb == old(other.cb) && other.cb == null
      ensures cb != null ==> cb.State() == old(other.cb.State())
      ensures cb != null ==> cb.observers == old(other.cb.observers) - {other} + {this}
      ensures cb != null ==> cb.owners == old(other.cb.owners)
      ensures Valid() && other.Valid()
    {
      cb := other.cb;
      new;
      other.cb := null;
      if cb != null {
        cb.ReplaceObserver(other, this);
      }
    }

    /** operator=(const SharedPtr&): release the observed block, then observe
        the block of `sp`, which is dereferenced unchecked. */
    method AssignShared(sp: SharedPtr)
      requires Valid() && sp.Valid() && sp.cb != null
      modifies this, cb, sp.cb
      ensures cb == old(sp.cb)
      ensures old(cb) != null && old(cb) != cb ==>
                && old(cb).State() == ReleaseObserver(old(cb.State()))
                && old(cb).observers == old(cb.observers) - {this}
                && old(cb).Valid()
      ensures old(cb) != cb ==> cb.State() == AcquireObserver(old(sp.cb.State()))
      ensures old(cb) == cb ==> cb.State() == old(cb.State())
      ensures cb.observers == old(sp.cb.observers) + {this} && cb.owners == old(sp.cb.owners)
      ensures old(cb) != null ==> old(cb).owners == old(cb.owners)
      ensures Valid() && sp.Valid()
    {
      Rebind(sp.cb);
    }

    /** The body every WeakPtr copy assignment shares: release the observed
        block, then observe `block`.  Releasing must leave `block` alive. */
    method Rebind(block: ControlBlock)
      requires Valid() && block.Valid()
      requires block.sharedCount > 0 || block.weakCount > (if block == cb then 1 else 0)
      modifies this, cb, block
      ensures cb == block
      ensures old(cb) != null && old(cb) != block ==>
                && old(cb).State() == ReleaseObserver(old(cb.State()))
                && old(cb).observers == old(cb.observers) - {this}
                && old(cb).Valid()
      ensures old(cb) != block ==> block.State() == AcquireObserver(old(block.State()))
      ensures old(cb) == block ==> block.State() == old(block.State())
      ensures block.observers == old(block.observers) + {this} && block.owners == old(block.owners)
      ensures old(cb) != null ==> old(cb).owners == old(cb.owners)
      ensures Valid()
    {
      if cb == block {
        Reobserve();
      } else {
        Switch(block);
      }
    }

    /** Rebind onto the block already observed: the release and the
        re-observation cancel out, provided the release does not free it. */
    method Reobserve()
      requires Valid() && cb != null && (cb.sharedCount > 0 || cb.weakCount > 1)
      modifies this, cb
      ensures cb == old(cb)
      ensures cb.State() == old(cb.State())
      ensures cb.observers == old(cb.observers) && cb.owners == old(cb.owners)
      ensures Valid()
    {
      var block := cb;
      Drop();
      Observe(block);
    }

    /** Rebind onto a block other than the one observed. */
    method Switch(block: ControlBlock)
      requires Valid() && block.Valid() && block != cb
      requires block.sharedCount > 0 || block.weakCount > 0
      modifies this, cb, block
      ensures cb == block
      ensures old(cb) != null ==>
                && old(cb).State() == ReleaseObserver(old(cb.State()))
                && old(cb).observers == old(cb.observers) - {this}
                && old(cb).owners == old(cb.owners)
                && old(cb).Valid()
      ensures block.State() == AcquireObserver(old(block.State()))
      ensures block.observers == old(block.observers) + {this} && block.owners == old(block.owners)
      ensures Valid()
    {
      Drop();
      Observe(block);
    }

    /** The acquire step of an assignment: point at `block` and count one
        more observer.  This handle is no longer counted by the block it
        points at. */
    method Observe(block: ControlBlock)
      requires cb != null ==> this !in cb.observers
      requires block.Valid() && (block.sharedCount > 0 || block.weakCount > 0)
      requires this !in block.observers
      modifies this, block
      ensures cb == block
      ensures block.State() == AcquireObserver(old(block.State()))
      ensures block.observers == old(block.observers) + {this} && block.owners == old(block.owners)
      ensures Valid()
    {
      cb := block;
      AcquireObserverStep(block.State());
      block.AcquireWeak(this);
    }

    /** Copy assignment as written: release, then observe the block of
        `other`, dereferenced unchecked.  Assigning the only observer of an
        expired block to itself frees the block before the increment (see
        Lifecycle.SelfWeakAssignAsWritten); that case is excluded. */
    method CopyAssign(other: WeakPtr)
      requires Valid() && other.Valid() && other.cb != null
      requires cb != other.cb || other.cb.weakCount > 1 || other.cb.sharedCount > 0
      modifies this, cb, other.cb
      ensures cb == old(other.cb)
      ensures old(cb) != null && old(cb) != cb ==>
                && old(cb).State() == ReleaseObserver(old(cb.State()))
                && old(cb).observers == old(cb.observers) - {this}
                && old(cb).Valid()
      ensures old(cb) != cb ==> cb.State() == AcquireObserver(old(other.cb.State()))
      ensures old(cb) == cb ==> cb.State() == old(cb.State())
      ensures cb.observers == old(other.cb.observers) + {this} && cb.owners == old(other.cb.owners)
      ensures old(cb) != null ==> old(cb).owners == old(cb.owners)
      ensures Valid() && other.Valid()
    {
      Rebind(other.cb);
    }

    /** Copy assignment that acquires before it releases (copy, then move
        the copy in), which makes self-assignment harmless
        (Lifecycle.SelfWeakAssignAcquireFirst). */
    method CopyAssignChecked(other: WeakPtr)
      requires Valid() && other.Valid() && other.cb != null
      modifies this, cb, other.cb
      ensures cb == old(other.cb)
      ensures old(cb) != null && old(cb) != cb ==>
                && old(cb).State() == ReleaseObserver(old(cb.State()))
                && old(cb).observers == old(cb.observers) - {this}
                && old(cb).Valid()
      ensures old(cb) != cb ==> cb.State() == AcquireObserver(old(other.cb.State()))
      ensures old(cb) == cb ==> cb.State() == old(cb.State())
      ensures cb.observers == old(other.cb.observers) + {this} && cb.owners == old(other.cb.owners)
      ensures old(cb) != null ==> old(cb).owners == old(cb.owners)
      ensures Valid() && other.Valid()
    {
      var copy := new WeakPtr.Copy(other);
      MoveAssign(copy);
      if old(cb) == cb {
        SelfWeakAssignAcquireFirst(old(cb.State()));
      }
    }

    /** Move assignment: release, then take over the block of `other` and
        empty it.  Moving a handle onto itself releases it. */
    method MoveAssign(other: WeakPtr)
      requires Valid() && other.Valid()
      modifies this, other, cb, other.cb
      ensures other.cb == null
      ensures cb == (if other == this then null else old(other.cb))
      ensures old(cb) != null ==> old(cb).State() == ReleaseObserver(old(cb.State())) && old(cb).Valid()
      ensures old(cb) != null && (other == this || old(cb) != old(other.cb)) ==>
                old(cb).observers == old(cb.observers) - {this}
      ensures old(cb) != null && other != this && old(cb) == old(other.cb) ==>
                old(cb).observers == old(cb.observers) - {other}
      ensures old(other.cb) != null && old(other.cb) != old(cb) ==>
                && old(other.cb).State() == old(other.cb.State())
                && old(other.cb).observers == old(other.cb.observers) - {other} + {this}
      ensures old(cb) != null ==> old(cb).owners == old(cb.owners)
      ensures old(other.cb) != null ==> old(other.cb).owners == old(other.cb.owners)
      ensures Valid() && other.Valid()
    {
      Drop();
      TakeOver(other);
    }

    /** The transfer step of a move: take the block of `other` and empty
        `other`.  This handle is no longer counted by the block it points at. */
    method TakeOver(other: WeakPtr)
      requires cb != null ==> this !in cb.observers
      requires other != this ==> other.Valid()
      modifies this, other, if other == this then {} else {other.cb}
      ensures other.cb == null
      ensures cb == (if other == this then null else old(other.cb))
      ensures other != this && cb != null ==>
                && cb.State() == old(other.cb.State())
                && cb.observers == old(other.cb.observers) - {other} + {this}
                && cb.owners == old(other.cb.owners)
      ensures other != this ==> Valid() && other.Valid()
    {
      var moved := other.cb;
      cb := moved;
      other.cb := null;
      if moved != null && this != other {
        moved.ReplaceObserver(other, this);
      }
    }

    /** ~WeakPtr(): release the observed block, if any; never runs destroy(). */
    method Drop()
      requires Valid()
      modifies cb
      ensures cb != null ==> cb.State() == ReleaseObserver(old(cb.State()))
      ensures cb != null ==> cb.observers == old(cb.observers) - {this} && cb.Valid()
      ensures cb != null ==> cb.owners == old(cb.owners)
    {
      if cb != null {
        cb.ReleaseWeak(this);
      }
    }

    /** use_count(): the number of live owning handles of the observed block;
        dereferences the block unchecked. */
    method UseCount() returns (n: nat)
      requires Valid() && cb != null
      ensures n == |cb.owners|
    {
      n := cb.sharedCount;
    }

    /** expired(): no owner is left, which is exactly when destroy() has run. */
    method Expired() returns (e: bool)
      requires Valid() && cb != null
      ensures e <==> cb.owners == {}
      ensures e <==> TeardownOf(cb.kind, cb.ptr) in cb.log
    {
      var n := UseCount();
      e := n == 0;
      CoherentLifecycle(cb.State());
    }

    /** lock() as written: a new owning handle on the observed block, made
        without checking expiry.  On an expired block the new handle holds a
        destroyed object and the block loses its coherence
        (Lifecycle.LockExpiredResurrects). */
    method Lock() returns (sp: SharedPtr)
      requires Valid() && cb != null
      modifies cb
      ensures fresh(sp) && sp.cb == cb
      ensures cb.State() == AcquireOwner(old(cb.State()))
      ensures cb.owners == old(cb.owners) + {sp} && cb.observers == old(cb.observers)
      ensures cb.Tracks()
      ensures cb.Valid() <==> old(cb.sharedCount) > 0
    {
      ghost var before := cb.State();
      sp := new SharedPtr.FromBlock(cb);
      if before.shared > 0 {
        AcquireOwnerStep(before);
      } else {
        LockExpiredResurrects(before);
      }
    }

    /** lock() with the expiry check: an empty handle when the object is gone. */
    method LockChecked() returns (sp: SharedPtr)
      requires Valid()
      modifies cb
      ensures fresh(sp) && sp.Valid() && Valid()
      ensures sp.cb == (if cb != null && old(cb.sharedCount) > 0 then cb else null)
      ensures cb != null && old(cb.sharedCount) > 0 ==>
                cb.State() == AcquireOwner(old(cb.State())) && cb.owners == old(cb.owners) + {sp}
      ensures cb != null && old(cb.sharedCount) == 0 ==>
                cb.State() == old(cb.State()) && cb.owners == old(cb.owners)
      ensures cb != null ==> cb.observers == old(cb.observers)
    {
      if cb != null && cb.sharedCount > 0 {
        AcquireOwnerStep(cb.State());
        sp := new SharedPtr.FromBlock(cb);
      } else {
        sp := new SharedPtr.Empty();
      }
    }
  }

  /** allocateShared(alloc, args...): one allocation holds the block and the
      object built in place; the block starts at 0/0, its pointer is set to
      the inline object, and the private constructor makes the count 1. */
  method AllocateShared(alloc: Allocator) returns (sp: SharedPtr)
    ensures fresh(sp) && fresh(sp.cb) && sp.Valid()
    ensures sp.cb.kind.CoLocated? && sp.cb.kind.alloc == alloc
    ensures sp.cb.ptr == sp.cb.kind.value
    ensures sp.cb.State() == Fresh(sp.cb.kind, sp.cb.kind.value)
    ensures sp.cb.owners == {sp} && sp.cb.observers == {}
  {
    var value := new Value();
    var block := new ControlBlock(CoLocated(value, alloc), null, 0, 0);
    block.ptr := value;
    sp := new SharedPtr.FromBlock(block);
    FreshIsCoherent(block.kind, value);
  }

  /** makeShared(args...): allocateShared with the standard allocator. */
  method MakeShared() returns (sp: SharedPtr)
    ensures fresh(sp) && fresh(sp.cb) && sp.Valid()
    ensures sp.cb.kind.CoLocated? && sp.cb.kind.alloc == StdAllocator
    ensures sp.cb.ptr == sp.cb.kind.value
    ensures sp.cb.State() == Fresh(sp.cb.kind, sp.cb.kind.value)
    ensures sp.cb.owners == {sp} && sp.cb.observers == {}
  {
    sp := AllocateShared(StdAllocator);
  }
}
