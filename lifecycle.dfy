/** The reference-counting protocol of a control block, as values.

    A control block couples two counters (owning handles, observer handles)
    to two one-shot actions: destroy() tears the managed object down and
    dispose() frees the block's own storage.  Each action the block performs
    is appended to a log, so that "at most once", "only at the 1 -> 0 step"
    and "with the deleter/allocator the block was built with" can be stated
    about the log.  The classes in module SmartPointers update their fields
    exactly as the transitions below say. */
module Lifecycle {

  /** The managed object (the `T` of the source).  Only its identity matters. */
  class Value {
    constructor () {}
  }

  /** The destruction policy stored in a ControlBlockDirect. */
  datatype Deleter = DefaultDelete | CustomDeleter(id: nat)

  /** The allocation policy stored in a block; `new` and std::allocator are
      both the standard allocator. */
  datatype Allocator = StdAllocator | CustomAllocator(id: nat)

  /** The two concrete control blocks: ControlBlockDirect wraps an object
      allocated elsewhere, ControlBlockMakeShared stores `value` inline. */
  datatype Kind =
    | Direct(deleter: Deleter, alloc: Allocator)
    | CoLocated(value: Value, alloc: Allocator)

  /** What destroy() and dispose() do. */
  datatype Action =
    | DeleterCalled(deleter: Deleter, target: Value?)      // ControlBlockDirect::destroy
    | AllocatorDestroyed(alloc: Allocator, target: Value?) // ControlBlockMakeShared::destroy
    | Deallocated(alloc: Allocator)                        // dispose, either variant

  /** destroy(), dispatched on the block's kind. */
  function TeardownOf(kind: Kind, ptr: Value?): Action
  {
    match kind
    case Direct(del, _) => DeleterCalled(del, ptr)
    case CoLocated(_, alloc) => AllocatorDestroyed(alloc, ptr)
  }

  /** dispose(): the block is returned to the allocator it holds. */
  function DisposalOf(kind: Kind): Action
  {
    Deallocated(kind.alloc)
  }

  predicate IsTeardown(a: Action)
  {
    !a.Deallocated?
  }

  /** Number of destroy() calls in a log. */
  function Teardowns(log: seq<Action>): nat
  {
    if log == [] then 0 else (if IsTeardown(log[0]) then 1 else 0) + Teardowns(log[1..])
  }

  /** Number of dispose() calls in a log. */
  function Disposals(log: seq<Action>): nat
  {
    if log == [] then 0 else (if IsTeardown(log[0]) then 0 else 1) + Disposals(log[1..])
  }

  lemma {:induction false} CountsOfAppend(log: seq<Action>, a: Action)
    ensures Teardowns(log + [a]) == Teardowns(log) + (if IsTeardown(a) then 1 else 0)
    ensures Disposals(log + [a]) == Disposals(log) + (if IsTeardown(a) then 0 else 1)
  {
    if log != [] {
      assert (log + [a])[1..] == log[1..] + [a];
      CountsOfAppend(log[1..], a);
    }
  }

  /** The observable state of one control block. */
  datatype Block = Block(kind: Kind, ptr: Value?, shared: nat, weak: nat, log: seq<Action>)

  /** The log the protocol prescribes for given counts: destroy() once the
      shared count is 0, then dispose() once the weak count is 0 as well. */
  function Prescribed(b: Block): seq<Action>
  {
    (if b.shared == 0 then [TeardownOf(b.kind, b.ptr)] else [])
    + (if b.shared == 0 && b.weak == 0 then [DisposalOf(b.kind)] else [])
  }

  /** The block's history agrees with its counts. */
  ghost predicate Coherent(b: Block)
  {
    b.log == Prescribed(b)
  }

  /** A block as handed to its first owner: counts 1/0, nothing done yet. */
  function Fresh(kind: Kind, ptr: Value?): Block
  {
    Block(kind, ptr, 1, 0, [])
  }

  // ---------------------------------------------------------------------
  // Transitions, one per counter update in the source
  // ---------------------------------------------------------------------

  /** `++cb->shared_count`: one more owner, nothing performed. */
  function AcquireOwner(b: Block): (r: Block)
    ensures r.shared == b.shared + 1 && r.weak == b.weak
    ensures r.kind == b.kind && r.ptr == b.ptr && r.log == b.log
  {
    b.(shared := b.shared + 1)
  }

  /** `++cb->weak_count`: one more observer, nothing performed. */
  function AcquireObserver(b: Block): (r: Block)
    ensures r.weak == b.weak + 1 && r.shared == b.shared
    ensures r.kind == b.kind && r.ptr == b.ptr && r.log == b.log
  {
    b.(weak := b.weak + 1)
  }

  /** Release of an owning handle: decrement, destroy() at zero, and
      dispose() as well when no observer is left. */
  function ReleaseOwner(b: Block): (r: Block)
    requires b.shared > 0
    ensures r.shared == b.shared - 1 && r.weak == b.weak
    ensures r.kind == b.kind && r.ptr == b.ptr
    ensures r.log == b.log + (if b.shared == 1 then Prescribed(r) else [])
  {
    var s := b.shared - 1;
    var afterDestroy := if s == 0 then b.log + [TeardownOf(b.kind, b.ptr)] else b.log;
    var afterDispose := if s == 0 && b.weak == 0 then afterDestroy + [DisposalOf(b.kind)] else afterDestroy;
    b.(shared := s, log := afterDispose)
  }

  /** Release of an observer handle: decrement, dispose() when both are zero. */
  function ReleaseObserver(b: Block): (r: Block)
    requires b.weak > 0
    ensures r.weak == b.weak - 1 && r.shared == b.shared
    ensures r.kind == b.kind && r.ptr == b.ptr
    ensures r.log == b.log + (if b.weak == 1 && b.shared == 0 then [DisposalOf(b.kind)] else [])
  {
    var w := b.weak - 1;
    b.(weak := w, log := if w == 0 && b.shared == 0 then b.log + [DisposalOf(b.kind)] else b.log)
  }

  // ---------------------------------------------------------------------
  // What the protocol guarantees
  // ---------------------------------------------------------------------

  /** The invariants of a coherent block: destroy() has run at most once,
      and exactly when no owner is left; dispose() has run at most once,
      exactly when neither kind of handle is left, and after destroy();
      every action uses the deleter, allocator and pointer the block holds. */
  lemma CoherentLifecycle(b: Block)
    requires Coherent(b)
    ensures Teardowns(b.log) == (if b.shared == 0 then 1 else 0)
    ensures Disposals(b.log) == (if b.shared == 0 && b.weak == 0 then 1 else 0)
    ensures Disposals(b.log) == 1 ==> b.log == [TeardownOf(b.kind, b.ptr), DisposalOf(b.kind)]
    ensures forall i :: 0 <= i < |b.log| ==>
              b.log[i] == TeardownOf(b.kind, b.ptr) || b.log[i] == DisposalOf(b.kind)
  {
    CountsOfAppend([], TeardownOf(b.kind, b.ptr));
    CountsOfAppend([TeardownOf(b.kind, b.ptr)], DisposalOf(b.kind));
  }

  /** A fresh block is coherent and has done nothing. */
  lemma FreshIsCoherent(kind: Kind, ptr: Value?)
    ensures Coherent(Fresh(kind, ptr))
    ensures Teardowns(Fresh(kind, ptr).log) == 0 && Disposals(Fresh(kind, ptr).log) == 0
  {
  }

  /** Copying a live owning handle keeps the block coherent and performs nothing. */
  lemma AcquireOwnerStep(b: Block)
    requires Coherent(b) && b.shared > 0
    ensures Coherent(AcquireOwner(b))
    ensures AcquireOwner(b).log == b.log
  {
  }

  /** Creating an observer of a block whose storage is alive keeps it coherent. */
  lemma AcquireObserverStep(b: Block)
    requires Coherent(b) && (b.shared > 0 || b.weak > 0)
    ensures Coherent(AcquireObserver(b))
    ensures AcquireObserver(b).log == b.log
  {
  }

  /** Releasing an owning handle: destroy() runs iff this was the last owner,
      dispose() runs iff moreover no observer is left; nothing is retracted. */
  lemma ReleaseOwnerStep(b: Block)
    requires Coherent(b) && b.shared > 0
    ensures Coherent(ReleaseOwner(b))
    ensures b.log <= ReleaseOwner(b).log
    ensures Teardowns(ReleaseOwner(b).log) == Teardowns(b.log) + (if b.shared == 1 then 1 else 0)
    ensures Disposals(ReleaseOwner(b).log)
              == Disposals(b.log) + (if b.shared == 1 && b.weak == 0 then 1 else 0)
  {
    var r := ReleaseOwner(b);
    CoherentLifecycle(b);
    CoherentLifecycle(r);
  }

  /** Releasing an observer handle never runs destroy(); dispose() runs iff
      both counts are now zero. */
  lemma ReleaseObserverStep(b: Block)
    requires Coherent(b) && b.weak > 0
    ensures Coherent(ReleaseObserver(b))
    ensures b.log <= ReleaseObserver(b).log
    ensures Teardowns(ReleaseObserver(b).log) == Teardowns(b.log)
    ensures Disposals(ReleaseObserver(b).log)
              == Disposals(b.log) + (if b.weak == 1 && b.shared == 0 then 1 else 0)
  {
    var r := ReleaseObserver(b);
    CoherentLifecycle(b);
    CoherentLifecycle(r);
  }

  // ---------------------------------------------------------------------
  // Any sequence of handle operations on one block
  // ---------------------------------------------------------------------

  /** The count-changing handle operations.  Moves and swaps change no count. */
  datatype Op =
    | CopyOwner     // SharedPtr copy constructor
    | DropOwner     // ~SharedPtr, reset(), release step of an assignment
    | ObserveOwner  // WeakPtr from a SharedPtr
    | CopyObserver  // WeakPtr copy constructor
    | DropObserver  // ~WeakPtr, release step of a WeakPtr assignment
    | LockIfLive    // lock() that checks expiry first

  /** An operation needs a live handle of the kind it starts from. */
  predicate Enabled(b: Block, op: Op)
  {
    match op
    case CopyOwner => b.shared > 0
    case DropOwner => b.shared > 0
    case ObserveOwner => b.shared > 0
    case CopyObserver => b.weak > 0
    case DropObserver => b.weak > 0
    case LockIfLive => b.weak > 0
  }

  function Step(b: Block, op: Op): Block
    requires Enabled(b, op)
  {
    match op
    case CopyOwner => AcquireOwner(b)
    case DropOwner => ReleaseOwner(b)
    case ObserveOwner => AcquireObserver(b)
    case CopyObserver => AcquireObserver(b)
    case DropObserver => ReleaseObserver(b)
    case LockIfLive => if b.shared > 0 then AcquireOwner(b) else b
  }

  predicate Legal(b: Block, ops: seq<Op>)
    decreases |ops|
  {
    ops == [] || (Enabled(b, ops[0]) && Legal(Step(b, ops[0]), ops[1..]))
  }

  function Run(b: Block, ops: seq<Op>): Block
    requires Legal(b, ops)
    decreases |ops|
  {
    if ops == [] then b else Run(Step(b, ops[0]), ops[1..])
  }

  /** One step: destroy() runs exactly at the release of the last owner, and
      dispose() exactly at the release that leaves both counts at zero. */
  lemma StepKeepsProtocol(b: Block, op: Op)
    requires Coherent(b) && Enabled(b, op)
    ensures Coherent(Step(b, op))
    ensures b.log <= Step(b, op).log
    ensures Teardowns(Step(b, op).log) > Teardowns(b.log) <==> op == DropOwner && b.shared == 1
    ensures Disposals(Step(b, op).log) > Disposals(b.log) <==>
              (op == DropOwner && b.shared == 1 && b.weak == 0)
              || (op == DropObserver && b.weak == 1 && b.shared == 0)
  {
    match op
    case CopyOwner => AcquireOwnerStep(b);
    case DropOwner => ReleaseOwnerStep(b);
    case ObserveOwner => AcquireObserverStep(b);
    case CopyObserver => AcquireObserverStep(b);
    case DropObserver => ReleaseObserverStep(b);
    case LockIfLive => if b.shared > 0 { AcquireOwnerStep(b); }
  }

  /** Any legal sequence of copies, drops, observations and checked locks
      keeps a coherent block coherent, so destroy() and dispose() each run at
      most once over the whole history, and no action is ever retracted. */
  lemma {:induction false} RunKeepsProtocol(b: Block, ops: seq<Op>)
    requires Coherent(b) && Legal(b, ops)
    ensures Coherent(Run(b, ops))
    ensures b.log <= Run(b, ops).log
    ensures Teardowns(Run(b, ops).log) <= 1 && Disposals(Run(b, ops).log) <= 1
    decreases |ops|
  {
    if ops == [] {
      CoherentLifecycle(b);
    } else {
      StepKeepsProtocol(b, ops[0]);
      RunKeepsProtocol(Step(b, ops[0]), ops[1..]);
    }
  }

  // ---------------------------------------------------------------------
  // The two orderings the source gets wrong, and their corrections
  // ---------------------------------------------------------------------

  /** lock() as written increments the shared count of an expired block:
      the new owning handle points at an object that destroy() has already
      torn down, and the block's history no longer agrees with its counts. */
  lemma LockExpiredResurrects(b: Block)
    requires Coherent(b) && b.shared == 0 && b.weak > 0
    ensures AcquireOwner(b).shared == 1
    ensures Teardowns(AcquireOwner(b).log) == 1
    ensures !Coherent(AcquireOwner(b))
  {
    CoherentLifecycle(b);
  }

  /** A lock() that checks expiry first never hands out a destroyed object. */
  lemma LockIfLiveIsSafe(b: Block)
    requires Coherent(b) && b.weak > 0
    ensures Coherent(Step(b, LockIfLive))
    ensures Step(b, LockIfLive).shared > 0 <==> b.shared > 0
  {
  }

  /** SharedPtr copy-assignment as written releases before it acquires; on
      self-assignment of the only owner the object is destroyed while the
      handle keeps it, and with no observer the block is freed before its
      count is incremented. */
  lemma SelfCopyAssignAsWritten(b: Block)
    requires Coherent(b) && b.shared == 1
    ensures AcquireOwner(ReleaseOwner(b)).shared == 1
    ensures Teardowns(AcquireOwner(ReleaseOwner(b)).log) == 1
    ensures b.weak == 0 ==> Disposals(AcquireOwner(ReleaseOwner(b)).log) == 1
    ensures !Coherent(AcquireOwner(ReleaseOwner(b)))
  {
    ReleaseOwnerStep(b);
    CoherentLifecycle(b);
  }

  /** Acquiring before releasing makes self-assignment a no-op. */
  lemma SelfCopyAssignAcquireFirst(b: Block)
    requires Coherent(b) && b.shared > 0
    ensures ReleaseOwner(AcquireOwner(b)) == b
  {
  }

  /** WeakPtr copy-assignment as written: self-assignment of the only
      observer of an expired block disposes the block and then increments
      the count inside the freed storage. */
  lemma SelfWeakAssignAsWritten(b: Block)
    requires Coherent(b) && b.shared == 0 && b.weak == 1
    ensures AcquireObserver(ReleaseObserver(b)).weak == 1
    ensures Disposals(AcquireObserver(ReleaseObserver(b)).log) == 1
    ensures !Coherent(AcquireObserver(ReleaseObserver(b)))
  {
    ReleaseObserverStep(b);
    CoherentLifecycle(b);
  }

  /** Acquiring before releasing makes observer self-assignment a no-op. */
  lemma SelfWeakAssignAcquireFirst(b: Block)
    requires Coherent(b) && b.weak > 0
    ensures ReleaseObserver(AcquireObserver(b)) == b
  {
  }
}
