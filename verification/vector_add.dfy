/** The vector-add sample of `ocl_args.cpp`: its device images, its
    verification scan, and the order of steps in its `_tmain`.  The random
    input (`generateInput`, which calls `rand`) is not modelled; the arrays
    are parameters. */
module VectorAdd {
  import opened Basics
  import opened ClStatus
  import opened Alignment
  import opened ProgramBuild
  import opened Dispatch

  const ARRAY_WIDTH: nat := 1024
  const ARRAY_HEIGHT: nat := 1024

  /** A `clCreateImage` result: its status and the handle stored in the session. */
  datatype Creation = Creation(status: ClInt, handle: Handle)

  datatype VectorObjects = VectorObjects(srcA: Handle, srcB: Handle, dstMem: Handle)

  /** `create_buffer_arguments` of `ocl_args.cpp`: srcA, srcB, dstMem in
      that order, stopping at the first failure.  Returns the status, the
      objects, and how many creations were attempted. */
  function CreateBufferArguments(objects: VectorObjects, srcA: Creation, srcB: Creation, dstMem: Creation): (r: (ClInt, VectorObjects, nat))
    ensures 1 <= r.2 <= 3
    ensures r.2 >= 2 <==> srcA.status == CL_SUCCESS
    ensures r.2 == 3 <==> srcA.status == CL_SUCCESS && srcB.status == CL_SUCCESS
    ensures r.0 == CL_SUCCESS <==> srcA.status == CL_SUCCESS && srcB.status == CL_SUCCESS && dstMem.status == CL_SUCCESS
    ensures r.0 != CL_SUCCESS ==> r.0 == [srcA, srcB, dstMem][r.2 - 1].status
    ensures r.1.srcA == srcA.handle
    ensures r.1.srcB == if r.2 >= 2 then srcB.handle else objects.srcB
    ensures r.1.dstMem == if r.2 == 3 then dstMem.handle else objects.dstMem
  {
    var a := objects.(srcA := srcA.handle);
    if srcA.status != CL_SUCCESS then (srcA.status, a, 1)
    else
      var b := a.(srcB := srcB.handle);
      if srcB.status != CL_SUCCESS then (srcB.status, b, 2)
      else (dstMem.status, b.(dstMem := dstMem.handle), 3)
  }

  /** Every one of the first `size` results is the sum of its inputs. */
  predicate AllSums(result: seq<int>, a: seq<int>, b: seq<int>, size: nat)
    requires size <= |result| && size <= |a| && size <= |b|
  {
    forall k | 0 <= k < size :: result[k] == a[k] + b[k]
  }

  /** `clEnqueueMapImage` of dstMem: its status and the cells it exposes. */
  datatype IntMapping = IntMapping(status: ClInt, cells: seq<int>)

  datatype VerifyCall = MapResult | FinishQueue | UnmapResult

  /** `read_and_verify` of `ocl_args.cpp`: the scan goes on past a mismatch
      and reports every one of them. */
  method ReadAndVerify(width: nat, height: nat, mapped: IntMapping, finishStatus: ClInt, unmapStatus: ClInt, a: seq<int>, b: seq<int>)
    returns (result: bool, mismatches: seq<nat>, calls: seq<VerifyCall>)
    requires IsU32(width) && IsU32(height)
    requires ToU32(width * height) <= |a| && ToU32(width * height) <= |b|
    requires mapped.status == CL_SUCCESS ==> ToU32(width * height) <= |mapped.cells|
    // a failed map returns false and unmaps nothing
    ensures mapped.status != CL_SUCCESS ==> !result && mismatches == [] && calls == [MapResult]
    // otherwise finish and unmap always run, and their failures are only logged
    ensures mapped.status == CL_SUCCESS ==> calls == [MapResult, FinishQueue, UnmapResult]
    ensures mapped.status == CL_SUCCESS ==> (result <==> AllSums(mapped.cells, a, b, ToU32(width * height)))
    // the reported indices are exactly the mismatches, in increasing order
    ensures forall j | 0 <= j < |mismatches| ::
      mismatches[j] < ToU32(width * height) && mapped.cells[mismatches[j]] != a[mismatches[j]] + b[mismatches[j]]
    ensures mapped.status == CL_SUCCESS ==> forall k | 0 <= k < ToU32(width * height) :: mapped.cells[k] != a[k] + b[k] ==> k in mismatches
    ensures forall i, j | 0 <= i < j < |mismatches| :: mismatches[i] < mismatches[j]
  {
    mismatches := [];
    calls := [MapResult];
    if mapped.status != CL_SUCCESS {
      return false, mismatches, calls;
    }
    calls := calls + [FinishQueue];
    var size := ToU32(width * height);
    var cells := mapped.cells;
    result := true;
    var k: nat := 0;
    while k < size
      invariant k <= size
      invariant result <==> forall j | 0 <= j < k :: cells[j] == a[j] + b[j]
      invariant forall j | 0 <= j < |mismatches| :: mismatches[j] < k && cells[mismatches[j]] != a[mismatches[j]] + b[mismatches[j]]
      invariant forall j | 0 <= j < k :: cells[j] != a[j] + b[j] ==> j in mismatches
      invariant forall i, j | 0 <= i < j < |mismatches| :: mismatches[i] < mismatches[j]
    {
      if cells[k] != a[k] + b[k] {
        mismatches := mismatches + [k];
        result := false;
      }
      k := k + 1;
    }
    calls := calls + [UnmapResult];
  }

  /** The steps of `_tmain` that were reached. */
  datatype Stage = StartOpenCl | AllocateHost | MakeImages | MakeProgram | MakeKernel | BindArgs | RunKernel | CheckSums

  /** `_tmain` of `ocl_args.cpp`: every failing step returns -1; the
      verification result is computed but not used, so a completed run
      returns 0 whatever it found. */
  function Run(
    setupStatus: ClInt, hostAllocated: bool,
    buffers: (Creation, Creation, Creation), build: BuildOracle, kernelStatus: ClInt,
    setStatus: (nat, KernelArg<real>) -> ClInt, enqueueStatus: ClInt, finishStatus: ClInt,
    verified: bool): (r: (int, seq<Stage>))
    ensures r.0 == 0 || r.0 == -1
    ensures |r.1| >= 1 && r.1[0] == StartOpenCl
    // a failed allocation stops before any device buffer is created
    ensures setupStatus == CL_SUCCESS && !hostAllocated ==> r == (-1, [StartOpenCl, AllocateHost])
    ensures r.0 == 0 <==>
      setupStatus == CL_SUCCESS && hostAllocated
      && CreateBufferArguments(VectorObjects(Null, Null, Null), buffers.0, buffers.1, buffers.2).0 == CL_SUCCESS
      && CreateAndBuildProgram(Null, build).status == CL_SUCCESS && kernelStatus == CL_SUCCESS
      && SetVectorKernelArguments<real>(buffers.0.handle, buffers.1.handle, buffers.2.handle, setStatus).0 == 0
      && ExecuteKernel(ARRAY_WIDTH, ARRAY_HEIGHT, enqueueStatus, finishStatus).0 == 0
    ensures r.0 == 0 ==> r.1[|r.1| - 1] == CheckSums
  {
    if setupStatus != CL_SUCCESS then (-1, [StartOpenCl])
    else if !hostAllocated then (-1, [StartOpenCl, AllocateHost])
    else
      var created := CreateBufferArguments(VectorObjects(Null, Null, Null), buffers.0, buffers.1, buffers.2);
      if created.0 != CL_SUCCESS then (-1, [StartOpenCl, AllocateHost, MakeImages])
      else if CreateAndBuildProgram(Null, build).status != CL_SUCCESS then (-1, [StartOpenCl, AllocateHost, MakeImages, MakeProgram])
      else if kernelStatus != CL_SUCCESS then (-1, [StartOpenCl, AllocateHost, MakeImages, MakeProgram, MakeKernel])
      else
        var objects := created.1;
        if SetVectorKernelArguments<real>(objects.srcA, objects.srcB, objects.dstMem, setStatus).0 != 0 then
          (-1, [StartOpenCl, AllocateHost, MakeImages, MakeProgram, MakeKernel, BindArgs])
        else if ExecuteKernel(ARRAY_WIDTH, ARRAY_HEIGHT, enqueueStatus, finishStatus).0 != 0 then
          (-1, [StartOpenCl, AllocateHost, MakeImages, MakeProgram, MakeKernel, BindArgs, RunKernel])
        else
          (0, [StartOpenCl, AllocateHost, MakeImages, MakeProgram, MakeKernel, BindArgs, RunKernel, CheckSums])
  }

  /** A run that reaches verification exits with 0 whether or not the sums
      were right. */
  lemma ExitIgnoresVerification(
    setupStatus: ClInt, hostAllocated: bool,
    buffers: (Creation, Creation, Creation), build: BuildOracle, kernelStatus: ClInt,
    setStatus: (nat, KernelArg<real>) -> ClInt, enqueueStatus: ClInt, finishStatus: ClInt)
    ensures Run(setupStatus, hostAllocated, buffers, build, kernelStatus, setStatus, enqueueStatus, finishStatus, true)
         == Run(setupStatus, hostAllocated, buffers, build, kernelStatus, setStatus, enqueueStatus, finishStatus, false)
  {
  }
}
