/** Kernel argument binding (`set_kernel_arguments`) and dispatch
    (`execute_add_kernel`) of both samples.  Every `clSetKernelArg`,
    `clEnqueueNDRangeKernel` and `clFinish` status is an oracle.  Both
    functions return `cl_uint`, so a negative OpenCL status comes back
    wrapped modulo 2^32; it is zero exactly when the status was `CL_SUCCESS`. */
module Dispatch {
  import opened Basics
  import opened ClStatus

  /** A kernel argument value; `F` stands for `cl_float`. */
  datatype KernelArg<F> = MemObject(handle: Handle) | Uint(n: nat) | Float(f: F) | Char(c: char)

  /** The calls made and the status of the first failure (or `CL_SUCCESS`). */
  datatype BindOutcome<F> = BindOutcome(status: ClInt, bound: seq<(nat, KernelArg<F>)>)

  /** `clSetKernelArg(kernel, i, ...)` for i = from, from + 1, ..., stopping
      at the first failing call. */
  function BindFrom<F>(args: seq<KernelArg<F>>, from: nat, setStatus: (nat, KernelArg<F>) -> ClInt): (r: BindOutcome<F>)
    requires from <= |args|
    // the calls are the indices from `from` on, in order, with their own values
    ensures |r.bound| <= |args| - from
    ensures forall k | 0 <= k < |r.bound| :: r.bound[k] == (from + k, args[from + k])
    // every call but the last succeeded
    ensures forall k | 0 <= k < |r.bound| - 1 :: setStatus(r.bound[k].0, r.bound[k].1) == CL_SUCCESS
    // success iff every index was bound successfully
    ensures r.status == CL_SUCCESS <==>
      |r.bound| == |args| - from && forall k | from <= k < |args| :: setStatus(k, args[k]) == CL_SUCCESS
    // a failure is reported with the failing call's own status, and nothing after it is bound
    ensures r.status != CL_SUCCESS ==> |r.bound| > 0 && r.status == setStatus(from + |r.bound| - 1, args[from + |r.bound| - 1])
    decreases |args| - from
  {
    if from == |args| then BindOutcome(CL_SUCCESS, [])
    else
      var status := setStatus(from, args[from]);
      if status != CL_SUCCESS then BindOutcome(status, [(from, args[from])])
      else
        var rest := BindFrom(args, from + 1, setStatus);
        BindOutcome(rest.status, [(from, args[from])] + rest.bound)
  }

  /** The six arguments of the heat kernel: input, output, width, height,
      temperature, axis. */
  function HeatArgs<F>(input: Handle, output: Handle, width: nat, height: nat, temperature: F, axis: char): (args: seq<KernelArg<F>>)
    ensures |args| == 6
  {
    [MemObject(input), MemObject(output), Uint(width), Uint(height), Float(temperature), Char(axis)]
  }

  /** `set_kernel_arguments` of `ocl_kernel.cpp`. */
  function SetHeatKernelArguments<F>(
    input: Handle, output: Handle, width: nat, height: nat, temperature: F, axis: char,
    setStatus: (nat, KernelArg<F>) -> ClInt): (r: (nat, seq<(nat, KernelArg<F>)>))
    requires IsU32(width) && IsU32(height)
    ensures IsU32(r.0)
    ensures r.0 == 0 <==> forall k | 0 <= k < 6 :: setStatus(k, HeatArgs(input, output, width, height, temperature, axis)[k]) == CL_SUCCESS
    ensures r.0 == 0 ==> |r.1| == 6
    // the arguments are bound in index order, each with its own value
    ensures |r.1| <= 6
    ensures forall k | 0 <= k < |r.1| :: r.1[k] == (k, HeatArgs(input, output, width, height, temperature, axis)[k])
    // binding stops at the first failure, whose own status is returned
    ensures forall k | 0 <= k < |r.1| - 1 :: setStatus(k, HeatArgs(input, output, width, height, temperature, axis)[k]) == CL_SUCCESS
    ensures r.0 != 0 ==>
      |r.1| > 0 && r.0 == ToU32(setStatus(|r.1| - 1, HeatArgs(input, output, width, height, temperature, axis)[|r.1| - 1]))
  {
    var b := BindFrom(HeatArgs(input, output, width, height, temperature, axis), 0, setStatus);
    StatusAsU32(b.status);
    (ToU32(b.status), b.bound)
  }

  /** The three arguments of the vector-add kernel. */
  function VectorArgs<F>(srcA: Handle, srcB: Handle, dstMem: Handle): (args: seq<KernelArg<F>>)
    ensures |args| == 3
  {
    [MemObject(srcA), MemObject(srcB), MemObject(dstMem)]
  }

  /** `set_kernel_arguments` of `ocl_args.cpp`. */
  function SetVectorKernelArguments<F>(srcA: Handle, srcB: Handle, dstMem: Handle, setStatus: (nat, KernelArg<F>) -> ClInt): (r: (nat, seq<(nat, KernelArg<F>)>))
    ensures IsU32(r.0)
    ensures r.0 == 0 <==> forall k | 0 <= k < 3 :: setStatus(k, VectorArgs(srcA, srcB, dstMem)[k]) == CL_SUCCESS
    ensures r.0 == 0 ==> |r.1| == 3
    // srcA, srcB and dstMem are bound as arguments 0, 1 and 2, in that order
    ensures |r.1| <= 3
    ensures forall k | 0 <= k < |r.1| :: r.1[k] == (k, VectorArgs<F>(srcA, srcB, dstMem)[k])
    // binding stops at the first failure, whose own status is returned
    ensures forall k | 0 <= k < |r.1| - 1 :: setStatus(k, VectorArgs(srcA, srcB, dstMem)[k]) == CL_SUCCESS
    ensures r.0 != 0 ==> |r.1| > 0 && r.0 == ToU32(setStatus(|r.1| - 1, VectorArgs(srcA, srcB, dstMem)[|r.1| - 1]))
  {
    var b := BindFrom(VectorArgs(srcA, srcB, dstMem), 0, setStatus);
    StatusAsU32(b.status);
    (ToU32(b.status), b.bound)
  }

  /** An OpenCL status converts to a zero `cl_uint` only when it is
      `CL_SUCCESS` (statuses are 32-bit, so they never wrap to zero). */
  lemma StatusAsU32(status: ClInt)
    ensures ToU32(status) == 0 <==> status == CL_SUCCESS
  {
  }

  datatype DispatchCall = EnqueueNDRange(global: seq<nat>, local: Option<seq<nat>>) | Finish

  /** `execute_add_kernel` of either sample. */
  function ExecuteKernel(width: nat, height: nat, enqueueStatus: ClInt, finishStatus: ClInt): (r: (nat, seq<DispatchCall>))
    requires IsU32(width) && IsU32(height)
    ensures |r.1| >= 1 && r.1[0] == EnqueueNDRange([width, height], None)
    // clFinish runs only after a successful enqueue
    ensures Finish in r.1 <==> enqueueStatus == CL_SUCCESS
    ensures r.0 == if enqueueStatus != CL_SUCCESS then ToU32(enqueueStatus) else ToU32(finishStatus)
    ensures r.0 == 0 <==> enqueueStatus == CL_SUCCESS && finishStatus == CL_SUCCESS
  {
    StatusAsU32(enqueueStatus);
    StatusAsU32(finishStatus);
    var enqueue := EnqueueNDRange([width, height], None);
    if enqueueStatus != CL_SUCCESS then (ToU32(enqueueStatus), [enqueue])
    else if finishStatus != CL_SUCCESS then (ToU32(finishStatus), [enqueue, Finish])
    else (CL_SUCCESS, [enqueue, Finish])
  }
}
