/** The `ocl_args_d_t` session record of the vector-add sample: its
    constructor, and its destructor's release sequence.  Each `clRelease*`
    call's status is an oracle; a failure is only logged. */
module Lifecycle {
  import opened Basics
  import opened ClStatus
  import opened ContextSetup

  /** The fields the constructor and destructor touch. */
  datatype Args = Args(
    context: Handle,
    device: Handle,
    queue: Handle,
    program: Handle,
    kernel: Handle,
    platformVersion: Tier,
    deviceVersion: Tier,
    compilerVersion: Tier,
    srcA: Handle,
    srcB: Handle,
    dstMem: Handle)

  /** `ocl_args_d_t::ocl_args_d_t()`: no objects, every version 1.2. */
  function NewArgs(): (a: Args)
    ensures forall k | 0 <= k < |Slots(a)| :: Slots(a)[k].handle == Null
    ensures a.platformVersion == Tier1_2 && a.deviceVersion == Tier1_2 && a.compilerVersion == Tier1_2
  {
    Args(Null, Null, Null, Null, Null, Tier1_2, Tier1_2, Tier1_2, Null, Null, Null)
  }

  /** The object kinds, in the destructor's order. */
  datatype Role = Kernel | Program | SrcA | SrcB | DstMem | Queue | Device | Context

  function Rank(role: Role): nat {
    match role
    case Kernel => 0
    case Program => 1
    case SrcA => 2
    case SrcB => 3
    case DstMem => 4
    case Queue => 5
    case Device => 6
    case Context => 7
  }

  /** One `clReleaseKernel`/`clReleaseProgram`/`clReleaseMemObject`/... call. */
  datatype Release = Release(role: Role, handle: Handle)

  /** Every releasable field, in the destructor's order. */
  function Slots(a: Args): (slots: seq<Release>)
    ensures |slots| == 8
    ensures forall k | 0 <= k < 8 :: Rank(slots[k].role) == k
  {
    [Release(Kernel, a.kernel), Release(Program, a.program), Release(SrcA, a.srcA), Release(SrcB, a.srcB),
     Release(DstMem, a.dstMem), Release(Queue, a.queue), Release(Device, a.device), Release(Context, a.context)]
  }

  /** The destructor's effect: the calls it makes and the failed ones it logs. */
  datatype Teardown = Teardown(calls: seq<Release>, logged: seq<Release>)

  function CountLive(slots: seq<Release>): nat {
    if |slots| == 0 then 0 else (if slots[0].handle != Null then 1 else 0) + CountLive(slots[1..])
  }

  /** Slots whose kinds come in strictly increasing destructor order. */
  predicate Ranked(slots: seq<Release>) {
    forall i, j | 0 <= i < j < |slots| :: Rank(slots[i].role) < Rank(slots[j].role)
  }

  /** The calls of the `if (handle) { err = clRelease...(handle); ... }`
      chain over `slots`: exactly the non-null slots, each once, in slot order. */
  function LiveCalls(slots: seq<Release>): (calls: seq<Release>)
    ensures |calls| == CountLive(slots)
    ensures forall k | 0 <= k < |calls| :: calls[k].handle != Null && calls[k] in slots
    ensures forall k | 0 <= k < |slots| :: slots[k].handle != Null ==> slots[k] in calls
  {
    if |slots| == 0 then []
    else
      var rest := LiveCalls(slots[1..]);
      TailFacts(slots);
      if slots[0].handle == Null then rest else [slots[0]] + rest
  }

  /** Skipping null slots keeps the destructor's order. */
  lemma {:induction false} LiveCallsRanked(slots: seq<Release>)
    requires Ranked(slots)
    ensures Ranked(LiveCalls(slots))
  {
    if |slots| > 0 {
      TailFacts(slots);
      LiveCallsRanked(slots[1..]);
      var rest := LiveCalls(slots[1..]);
      if slots[0].handle != Null {
        assert forall k | 0 <= k < |rest| :: rest[k] in slots[1..];
        RankedCons(slots[0], rest);
      }
    }
  }

  /** A call ranked below every later one extends a ranked sequence. */
  lemma RankedCons(first: Release, rest: seq<Release>)
    requires Ranked(rest)
    requires forall k | 0 <= k < |rest| :: Rank(first.role) < Rank(rest[k].role)
    ensures Ranked([first] + rest)
  {
    var calls := [first] + rest;
    forall i, j | 0 <= i < j < |calls| ensures Rank(calls[i].role) < Rank(calls[j].role) {
      assert calls[j] == rest[j - 1];
      if i > 0 {
        assert calls[i] == rest[i - 1];
      }
    }
  }

  /** The `if (CL_SUCCESS != err) log_error(...)` part: exactly the failed calls. */
  function Failed(calls: seq<Release>, status: Release -> int): (logged: seq<Release>)
    ensures forall k | 0 <= k < |logged| :: logged[k] in calls && status(logged[k]) != CL_SUCCESS
    ensures forall k | 0 <= k < |calls| :: status(calls[k]) != CL_SUCCESS ==> calls[k] in logged
  {
    if |calls| == 0 then []
    else
      var rest := Failed(calls[1..], status);
      TailFacts(calls);
      if status(calls[0]) != CL_SUCCESS then [calls[0]] + rest else rest
  }

  lemma TailFacts(slots: seq<Release>)
    requires |slots| > 0
    ensures forall k | 1 <= k < |slots| :: slots[k] in slots[1..]
    ensures forall r | r in slots[1..] :: r in slots
    ensures Ranked(slots) ==> Ranked(slots[1..])
    ensures Ranked(slots) ==> forall r | r in slots[1..] :: Rank(slots[0].role) < Rank(r.role)
  {
    assert forall k | 1 <= k < |slots| :: slots[k] == slots[1..][k - 1];
  }

  /** `ocl_args_d_t::~ocl_args_d_t()`. */
  function Destroy(a: Args, status: Release -> int): (t: Teardown)
    ensures Ranked(t.calls)
    ensures forall k | 0 <= k < |t.calls| :: t.calls[k].handle != Null && t.calls[k] in Slots(a)
    ensures forall k | 0 <= k < 8 :: Slots(a)[k].handle != Null ==> Slots(a)[k] in t.calls
    ensures forall k | 0 <= k < |t.logged| :: t.logged[k] in t.calls && status(t.logged[k]) != CL_SUCCESS
    ensures forall k | 0 <= k < |t.calls| :: status(t.calls[k]) != CL_SUCCESS ==> t.calls[k] in t.logged
  {
    var calls := LiveCalls(Slots(a));
    LiveCallsRanked(Slots(a));
    Teardown(calls, Failed(calls, status))
  }

  /** A failed release never stops a later one: the calls made do not
      depend on the statuses returned. */
  lemma ReleasesIgnoreFailures(a: Args, status1: Release -> int, status2: Release -> int)
    ensures Destroy(a, status1).calls == Destroy(a, status2).calls
  {
  }

  /** A freshly constructed session releases nothing. */
  lemma NewArgsReleaseNothing(status: Release -> int)
    ensures Destroy(NewArgs(), status) == Teardown([], [])
  {
  }
}
