/** The control-flow macros of `cl_utils.h`.  C's early `return` from the
    middle of a function is modelled by `Flow`: `Return(status)` leaves the
    enclosing function with that status, `Continue(v)` falls through with a
    value, and Dafny's `:-` propagates the first `Return`. */
module ClMacros {
  import opened Basics
  import opened ClStatus

  /** The largest number of work-item dimensions a dispatch may use. */
  const MAX_WORK_DIMENSIONS: nat := 3

  datatype Flow<+T> = Continue(value: T) | Return(status: int) {
    predicate IsFailure() {
      Return?
    }

    function PropagateFailure<U>(): Flow<U>
      requires Return?
    {
      Return(status)
    }

    function Extract(): T
      requires Continue?
    {
      value
    }
  }

  /** CHECK_VALUE(condition, status): leave with `status` when the condition holds. */
  function CheckValue(condition: bool, status: int): (r: Flow<()>)
    ensures r.Return? <==> condition
    ensures r.Return? ==> r.status == status
  {
    if condition then Return(status) else Continue(())
  }

  /** SAFE_OCL_CALL(call): leave with the call's own status unless it succeeded. */
  function SafeOclCall(callStatus: int): (r: Flow<()>)
    ensures r.Return? <==> callStatus != CL_SUCCESS
    ensures r.Return? ==> r.status == callStatus
  {
    if callStatus != CL_SUCCESS then Return(callStatus) else Continue(())
  }

  /** SAFE_PTR_SET(ptr, value): store through the pointer only when it is not null.
      A pointer is modelled by the contents of the cell it designates. */
  function SafePtrSet<T>(ptr: Option<T>, value: T): (r: Option<T>)
    ensures ptr == None ==> r == None
    ensures ptr != None ==> r == Some(value)
  {
    if ptr.Some? then Some(value) else None
  }

  /** SAFE_FREE(ptr): free only a non-null pointer.  The host heap is
      modelled by the set of live block addresses. */
  function SafeFree(live: set<nat>, ptr: Option<nat>): (r: set<nat>)
    ensures ptr == None ==> r == live
    ensures ptr != None ==> r == live - {ptr.value}
  {
    match ptr
    case None => live
    case Some(block) => live - {block}
  }

  /** One guard line at the head of an OpenCL helper: a `CHECK_VALUE` or a
      `SAFE_OCL_CALL`. */
  datatype Guard = Check(condition: bool, status: int) | Call(callStatus: int)

  function GuardFlow(g: Guard): Flow<()> {
    match g
    case Check(condition, status) => CheckValue(condition, status)
    case Call(callStatus) => SafeOclCall(callStatus)
  }

  /** The guard lines run one after the other, each able to leave early. */
  function RunGuards(guards: seq<Guard>): Flow<()> {
    if |guards| == 0 then Continue(())
    else
      var _ :- GuardFlow(guards[0]);
      RunGuards(guards[1..])
  }

  /** The guard fires: its condition holds, or its call did not succeed. */
  predicate Fires(g: Guard) {
    if g.Check? then g.condition else g.callStatus != CL_SUCCESS
  }

  /** The status a firing guard leaves with. */
  function ExitStatus(g: Guard): int {
    if g.Check? then g.status else g.callStatus
  }

  /** Index `i` holds the first guard that fires. */
  predicate FirstFiring(guards: seq<Guard>, i: int) {
    0 <= i < |guards| && Fires(guards[i]) && forall j | 0 <= j < i :: !Fires(guards[j])
  }

  /** A run of guard lines leaves with the status of the first one that
      fires, and falls through exactly when none fires. */
  lemma {:induction false} GuardChain(guards: seq<Guard>)
    ensures (forall j | 0 <= j < |guards| :: !Fires(guards[j])) ==> RunGuards(guards) == Continue(())
    ensures forall i | FirstFiring(guards, i) :: RunGuards(guards) == Return(ExitStatus(guards[i]))
  {
    if |guards| > 0 {
      GuardChain(guards[1..]);
      assert forall j | 1 <= j < |guards| :: guards[1..][j - 1] == guards[j];
      forall i | FirstFiring(guards, i) ensures RunGuards(guards) == Return(ExitStatus(guards[i])) {
        if i > 0 {
          assert FirstFiring(guards[1..], i - 1);
        }
      }
    }
  }

  /** A later store through the same pointer overwrites an earlier one, and
      no store makes a null pointer non-null. */
  lemma SafePtrSetLastWins<T>(ptr: Option<T>, first: T, second: T)
    ensures SafePtrSet(SafePtrSet(ptr, first), second) == SafePtrSet(ptr, second)
    ensures SafePtrSet(ptr, first).Some? <==> ptr.Some?
  {
  }

  /** A sequence of `SAFE_FREE`s, as at the end of `init_context`. */
  function FreeAll(live: set<nat>, ptrs: seq<Option<nat>>): set<nat> {
    if |ptrs| == 0 then live else FreeAll(SafeFree(live, ptrs[0]), ptrs[1..])
  }

  /** The blocks named by the non-null pointers of the sequence. */
  function NonNull(ptrs: seq<Option<nat>>): set<nat> {
    set i | 0 <= i < |ptrs| && ptrs[i].Some? :: ptrs[i].value
  }

  /** The `SAFE_FREE`s release exactly the blocks of the non-null pointers,
      whatever their order, and null pointers are skipped. */
  lemma {:induction false} FreeAllReleasesNonNull(live: set<nat>, ptrs: seq<Option<nat>>)
    ensures FreeAll(live, ptrs) == live - NonNull(ptrs)
  {
    if |ptrs| > 0 {
      FreeAllReleasesNonNull(SafeFree(live, ptrs[0]), ptrs[1..]);
      var first := if ptrs[0].Some? then {ptrs[0].value} else {};
      assert NonNull(ptrs) == first + NonNull(ptrs[1..]) by {
        forall b | b in NonNull(ptrs) ensures b in first + NonNull(ptrs[1..]) {
          var i :| 0 <= i < |ptrs| && ptrs[i].Some? && ptrs[i].value == b;
          if i > 0 {
            assert ptrs[1..][i - 1] == ptrs[i];
          }
        }
        forall b | b in NonNull(ptrs[1..]) ensures b in NonNull(ptrs) {
          var i :| 0 <= i < |ptrs[1..]| && ptrs[1..][i].Some? && ptrs[1..][i].value == b;
          assert ptrs[i + 1] == ptrs[1..][i];
        }
      }
    }
  }
}
