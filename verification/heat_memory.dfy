/** The heat sample's host and device memory (`ocl_memory.cpp`): filling the
    plate, creating the device images, and the convergence check that maps
    both images back.  Cell values are reals; the threshold
    `CL_FLT_EPSILON * 1000` is a parameter. */
module HeatMemory {
  import opened Basics
  import opened ClStatus

  /** `generate_input`: the first `width * height` cells (a `cl_uint`
      product, so it wraps) get the temperature; the rest are untouched.
      The caller's buffer must hold that many cells. */
  method GenerateInput<F>(cells: seq<F>, width: nat, height: nat, temperature: F) returns (r: seq<F>)
    requires IsU32(width) && IsU32(height)
    requires ToU32(width * height) <= |cells|
    ensures |r| == |cells|
    ensures forall k | 0 <= k < ToU32(width * height) :: r[k] == temperature
    ensures forall k | ToU32(width * height) <= k < |cells| :: r[k] == cells[k]
  {
    var size := ToU32(width * height);
    r := cells;
    var i: nat := 0;
    while i < size
      invariant i <= size
      invariant |r| == |cells|
      invariant forall k | 0 <= k < i :: r[k] == temperature
      invariant forall k | i <= k < |cells| :: r[k] == cells[k]
    {
      r := r[i := temperature];
      i := i + 1;
    }
  }

  /** A `clCreateImage`/`clCreateBuffer` result: its status and the handle
      stored in the session (whatever the status). */
  datatype Creation = Creation(status: ClInt, handle: Handle)

  /** The three device objects the heat session holds. */
  datatype MemObjects = MemObjects(input: Handle, output: Handle, platePoints: Handle)

  /** The creation calls, with the host data each one copies or uses. */
  datatype CreateCall<T, P> =
    | CreateInputImage(copied: seq<T>)
    | CreateOutputImage(copied: seq<T>)
    | CreatePlateBuffer(bytes: nat, used: P)

  datatype BufferOutcome<T, P> = BufferOutcome(status: ClInt, objects: MemObjects, calls: seq<CreateCall<T, P>>)

  /** The byte size of the plate-points buffer: `width * height` in
      `cl_uint`, then times the record size in `size_t`. */
  function PlateBytes(width: nat, height: nat, vertexSize: nat): (bytes: nat)
    ensures IsSizeT(bytes)
    ensures IsSizeT(width * height * vertexSize) && IsU32(width * height) ==> bytes == width * height * vertexSize
  {
    ToSizeT(ToU32(width * height) * vertexSize)
  }

  /** `create_buffer_arguments` of `ocl_memory.cpp`. */
  function CreateBufferArguments<T, P>(
    objects: MemObjects, input: seq<T>, platePoints: P, width: nat, height: nat, vertexSize: nat,
    inputImage: Creation, outputImage: Creation, plateBuffer: Creation): (r: BufferOutcome<T, P>)
    // created in the order input, output, plate points, each only after the previous one succeeded
    ensures 1 <= |r.calls| <= 3
    ensures r.calls[0] == CreateInputImage(input)
    ensures |r.calls| >= 2 <==> inputImage.status == CL_SUCCESS
    ensures |r.calls| == 3 <==> inputImage.status == CL_SUCCESS && outputImage.status == CL_SUCCESS
    // both images copy the same host array, so they start out identical
    ensures |r.calls| >= 2 ==> r.calls[1] == CreateOutputImage(input)
    ensures |r.calls| == 3 ==> r.calls[2] == CreatePlateBuffer(PlateBytes(width, height, vertexSize), platePoints)
    // the status is the first failure's, CL_SUCCESS when all three succeed
    ensures r.status == CL_SUCCESS <==>
      inputImage.status == CL_SUCCESS && outputImage.status == CL_SUCCESS && plateBuffer.status == CL_SUCCESS
    ensures r.status != CL_SUCCESS ==> r.status == [inputImage, outputImage, plateBuffer][|r.calls| - 1].status
    // a handle is written only by its own creation call
    ensures r.objects.input == inputImage.handle
    ensures r.objects.output == if |r.calls| >= 2 then outputImage.handle else objects.output
    ensures r.objects.platePoints == if |r.calls| == 3 then plateBuffer.handle else objects.platePoints
  {
    var first := objects.(input := inputImage.handle);
    if inputImage.status != CL_SUCCESS then
      BufferOutcome(inputImage.status, first, [CreateInputImage(input)])
    else
      var second := first.(output := outputImage.handle);
      if outputImage.status != CL_SUCCESS then
        BufferOutcome(outputImage.status, second, [CreateInputImage(input), CreateOutputImage(input)])
      else
        BufferOutcome(plateBuffer.status, second.(platePoints := plateBuffer.handle),
          [CreateInputImage(input), CreateOutputImage(input), CreatePlateBuffer(PlateBytes(width, height, vertexSize), platePoints)])
  }

  function Abs(x: real): (r: real)
    ensures r >= 0.0 && (r == x || r == -x)
  {
    if x < 0.0 then -x else x
  }

  /** The plate has settled: every one of the first `size` cells moved by
      less than the threshold. */
  predicate Converged(input: seq<real>, output: seq<real>, size: nat, threshold: real)
    requires size <= |input| && size <= |output|
  {
    forall k | 0 <= k < size :: Abs(input[k] - output[k]) < threshold
  }

  /** A `clEnqueueMapImage` result: its status and the cells it exposes. */
  datatype Mapping = Mapping(status: ClInt, cells: seq<real>)

  datatype MapCall = MapOutput | MapInput | FinishQueue | UnmapOutput | UnmapInput

  /** `read_and_verify` of `ocl_memory.cpp`.  The mapped images are assumed
      to expose at least `width * height` cells, as the source assumes. */
  method ReadAndVerify(
    width: nat, height: nat, threshold: real,
    mapOutput: Mapping, mapInput: Mapping, finishStatus: ClInt, unmapOutputStatus: ClInt, unmapInputStatus: ClInt)
    returns (result: bool, calls: seq<MapCall>)
    requires IsU32(width) && IsU32(height)
    requires mapOutput.status == CL_SUCCESS ==> ToU32(width * height) <= |mapOutput.cells|
    requires mapInput.status == CL_SUCCESS ==> ToU32(width * height) <= |mapInput.cells|
    // output is mapped before input; a failed map returns false, and a
    // failed input map leaves the output mapped
    ensures mapOutput.status != CL_SUCCESS ==> !result && calls == [MapOutput]
    ensures mapOutput.status == CL_SUCCESS && mapInput.status != CL_SUCCESS ==> !result && calls == [MapOutput, MapInput]
    // output is unmapped before input; a failed output unmap skips the input unmap
    ensures mapOutput.status == CL_SUCCESS && mapInput.status == CL_SUCCESS ==>
      calls == [MapOutput, MapInput, FinishQueue, UnmapOutput] + (if unmapOutputStatus == CL_SUCCESS then [UnmapInput] else [])
    // true iff everything mapped and unmapped and the plate has converged;
    // the finish status plays no part
    ensures result <==>
      mapOutput.status == CL_SUCCESS && mapInput.status == CL_SUCCESS
      && unmapOutputStatus == CL_SUCCESS && unmapInputStatus == CL_SUCCESS
      && Converged(mapInput.cells, mapOutput.cells, ToU32(width * height), threshold)
  {
    calls := [MapOutput];
    if mapOutput.status != CL_SUCCESS {
      return false, calls;
    }
    calls := calls + [MapInput];
    if mapInput.status != CL_SUCCESS {
      return false, calls;
    }
    // a failed clFinish is only logged
    calls := calls + [FinishQueue];
    var size := ToU32(width * height);
    var input, output := mapInput.cells, mapOutput.cells;
    result := true;
    var k: nat := 0;
    while k < size
      invariant k <= size
      invariant result <==> forall j | 0 <= j < k :: Abs(input[j] - output[j]) < threshold
    {
      if result && Abs(input[k] - output[k]) >= threshold {
        result := false;
      }
      k := k + 1;
    }
    calls := calls + [UnmapOutput];
    if unmapOutputStatus != CL_SUCCESS {
      return false, calls;
    }
    calls := calls + [UnmapInput];
    if unmapInputStatus != CL_SUCCESS {
      return false, calls;
    }
  }
}
