/** `create_and_build_program` and `setup_ocl_kernel` of `ocl_kernel.cpp`
    (the vector-add sample's `create_and_build_program` has the same body).
    Reading the source file, `clCreateProgramWithSource`, `clBuildProgram`
    and `clCreateKernel` are oracles. */
module ProgramBuild {
  import opened Basics
  import opened ClStatus

  /** `read_source_from_file`: its status and whether it left a buffer in
      `source` (it may do so even when it fails). */
  datatype SourceRead = SourceRead(status: int, bufferAllocated: bool)

  datatype BuildOracle = BuildOracle(
    read: SourceRead,
    createStatus: int,
    program: Handle,
    buildStatus: int)

  datatype BuildCall =
    | ReadSourceFromFile
    | CreateProgramWithSource
    | BuildProgram
    | GetBuildLogSize
    | GetBuildLog
    | DeleteSource

  /** The status returned, the value left in `ocl->program` (written by
      `clCreateProgramWithSource` whether or not it succeeds), and the calls. */
  datatype BuildOutcome = BuildOutcome(status: int, program: Handle, calls: seq<BuildCall>)

  /** `delete[] source` when the buffer exists. */
  function FreeSource(read: SourceRead): seq<BuildCall> {
    if read.bufferAllocated then [DeleteSource] else []
  }

  function CreateAndBuildProgram(program: Handle, oracle: BuildOracle): (r: BuildOutcome)
    // the status is the first failing step's, else the build status
    ensures oracle.read.status != CL_SUCCESS ==> r.status == oracle.read.status && r.program == program
    ensures oracle.read.status == CL_SUCCESS ==> r.program == oracle.program
    ensures oracle.read.status == CL_SUCCESS && oracle.createStatus != CL_SUCCESS ==> r.status == oracle.createStatus
    ensures oracle.read.status == CL_SUCCESS && oracle.createStatus == CL_SUCCESS ==> r.status == oracle.buildStatus
    // a program is created only from a read source, and built only once created
    ensures CreateProgramWithSource in r.calls <==> oracle.read.status == CL_SUCCESS
    ensures BuildProgram in r.calls <==> oracle.read.status == CL_SUCCESS && oracle.createStatus == CL_SUCCESS
    // the build log is fetched exactly when the build reports a build failure
    ensures GetBuildLog in r.calls <==> BuildProgram in r.calls && oracle.buildStatus == CL_BUILD_PROGRAM_FAILURE
    // on every exit the source buffer is deleted, once, as the last call
    ensures oracle.read.bufferAllocated <==> DeleteSource in r.calls
    ensures DeleteSource in r.calls ==> r.calls[|r.calls| - 1] == DeleteSource && DeleteSource !in r.calls[..|r.calls| - 1]
    ensures |r.calls| > 0 && r.calls[0] == ReadSourceFromFile
  {
    var read := oracle.read;
    if read.status != CL_SUCCESS then
      BuildOutcome(read.status, program, [ReadSourceFromFile] + FreeSource(read))
    else if oracle.createStatus != CL_SUCCESS then
      BuildOutcome(oracle.createStatus, oracle.program, [ReadSourceFromFile, CreateProgramWithSource] + FreeSource(read))
    else
      var log := if oracle.buildStatus == CL_BUILD_PROGRAM_FAILURE then [GetBuildLogSize, GetBuildLog] else [];
      var calls := [ReadSourceFromFile, CreateProgramWithSource, BuildProgram] + log + FreeSource(read);
      assert read.bufferAllocated ==> calls[..|calls| - 1] == [ReadSourceFromFile, CreateProgramWithSource, BuildProgram] + log;
      BuildOutcome(oracle.buildStatus, oracle.program, calls)
  }

  datatype KernelCall = Build(step: BuildCall) | CreateKernel

  /** The status, `ocl->program`, `ocl->kernel` (written by `clCreateKernel`
      whether or not it succeeds) and the calls of `setup_ocl_kernel`. */
  datatype KernelOutcome = KernelOutcome(status: int, program: Handle, kernel: Handle, calls: seq<KernelCall>)

  function Lift(calls: seq<BuildCall>): (r: seq<KernelCall>)
    ensures |r| == |calls|
    ensures forall k | 0 <= k < |r| :: r[k] == Build(calls[k])
  {
    if |calls| == 0 then [] else [Build(calls[0])] + Lift(calls[1..])
  }

  function SetupOclKernel(program: Handle, kernel: Handle, build: BuildOracle, kernelStatus: int, newKernel: Handle): (r: KernelOutcome)
    // -1 on a failed build, and no kernel is attempted
    ensures CreateAndBuildProgram(program, build).status != CL_SUCCESS ==>
      r.status == -1 && CreateKernel !in r.calls && r.kernel == kernel
    // -1 on a failed kernel creation
    ensures CreateAndBuildProgram(program, build).status == CL_SUCCESS ==>
      r.kernel == newKernel && |r.calls| > 0 && r.calls[|r.calls| - 1] == CreateKernel
      && r.status == (if kernelStatus == CL_SUCCESS then CL_SUCCESS else -1)
    ensures r.status == CL_SUCCESS || r.status == -1
    ensures r.program == CreateAndBuildProgram(program, build).program
  {
    var built := CreateAndBuildProgram(program, build);
    var calls := Lift(built.calls);
    if built.status != CL_SUCCESS then
      KernelOutcome(-1, built.program, kernel, calls)
    else
      KernelOutcome(if kernelStatus == CL_SUCCESS then CL_SUCCESS else -1, built.program, newKernel, calls + [CreateKernel])
  }

  /** The kernel is created only after the program built successfully. */
  lemma KernelOnlyAfterBuild(program: Handle, kernel: Handle, build: BuildOracle, kernelStatus: int, newKernel: Handle)
    requires CreateKernel in SetupOclKernel(program, kernel, build, kernelStatus, newKernel).calls
    ensures build.read.status == CL_SUCCESS && build.createStatus == CL_SUCCESS && build.buildStatus == CL_SUCCESS
    ensures Build(BuildProgram) in SetupOclKernel(program, kernel, build, kernelStatus, newKernel).calls
  {
    var built := CreateAndBuildProgram(program, build);
    if built.status == CL_SUCCESS {
      assert BuildProgram in built.calls;
      var i :| 0 <= i < |built.calls| && built.calls[i] == BuildProgram;
      assert SetupOclKernel(program, kernel, build, kernelStatus, newKernel).calls[i] == Build(BuildProgram);
    }
  }
}
