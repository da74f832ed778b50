/** Work-size handling of `cl_utils.cpp`: laying the command line out into
    global and local work-size slots, calibrating global sizes for pre-2.0
    devices, counting work items, and filling a host array.

    The command line is modelled by the `atoi` value of every `argv` entry
    (so `argc == |args|`); `atoi` itself is not part of this model. */
module WorkSize {
  import opened Basics
  import opened ClStatus
  import opened ClMacros

  /* ---------------------------------------------------------------- */
  /* parse_arguments                                                  */
  /* ---------------------------------------------------------------- */

  /** The caller-visible state after `parse_arguments`: the status it returns
      and the contents of its four out-pointers (`None` for a null pointer). */
  datatype ParseOutcome = ParseOutcome(
    status: int,
    numDimensions: Option<nat>,
    global: Option<seq<nat>>,
    local: Option<seq<nat>>,
    nextArgIndex: Option<nat>)

  /** A work-size buffer large enough for every dimension count the parser accepts. */
  predicate WorkSizeBuffer(buffer: Option<seq<nat>>) {
    buffer.Some? ==> |buffer.value| >= MAX_WORK_DIMENSIONS
  }

  /** `buffer` with its first `count` slots set from `args[from..]` (each value
      converted to size_t). */
  function StoreSizes(buffer: seq<nat>, args: seq<int>, from: nat, count: nat): (r: seq<nat>)
    requires count <= |buffer| && from + count <= |args|
    ensures |r| == |buffer|
    ensures forall i | 0 <= i < count :: r[i] == ToSizeT(args[from + i])
    ensures r[count..] == buffer[count..]
  {
    var stored := seq(count, (i: int) requires 0 <= i < count => ToSizeT(args[from + i]));
    assert forall j | 0 <= j < count :: stored[j] == ToSizeT(args[from + j]) && stored[j] >= 0;
    stored + buffer[count..]
  }

  /** The number of arguments the parser needs for `dimensions` dimensions. */
  function RequiredArgs(dimensions: nat, withGlobal: bool): nat {
    if withGlobal then 2 + 2 * dimensions else 2 + dimensions
  }

  /** Model of `parse_arguments`: `args[1]` is the dimension count d, then
      come d global sizes (only when a global buffer is supplied) and d local
      sizes. */
  function ParseArguments(
    args: seq<int>,
    numDimensions: Option<nat>,
    global: Option<seq<nat>>,
    local: Option<seq<nat>>,
    nextArgIndex: Option<nat>): (r: ParseOutcome)
    requires WorkSizeBuffer(global) && WorkSizeBuffer(local)
    // too few arguments, or no local buffer: rejected before anything is written
    ensures |args| <= 1 || local == None ==>
      r == ParseOutcome(CL_INVALID_ARG_VALUE, numDimensions, global, local, nextArgIndex)
    // the parsed dimension count is stored before it is range-checked
    ensures |args| > 1 && local != None ==>
      r.numDimensions == SafePtrSet(numDimensions, ToU32(args[1]))
    ensures |args| > 1 && local != None && !(1 <= ToU32(args[1]) <= 3) ==>
      r.status == CL_INVALID_VALUE && r.global == global && r.local == local && r.nextArgIndex == nextArgIndex
    ensures |args| > 1 && local != None && 1 <= ToU32(args[1]) <= 3
            && |args| < RequiredArgs(ToU32(args[1]), global != None) ==>
      r.status == CL_INVALID_VALUE && r.global == global && r.local == local && r.nextArgIndex == nextArgIndex
    ensures r.status == CL_SUCCESS <==>
      |args| > 1 && local != None && 1 <= ToU32(args[1]) <= 3
      && |args| >= RequiredArgs(ToU32(args[1]), global != None)
    ensures r.status == CL_SUCCESS ==>
      var d := ToU32(args[1]);
      && r.local != None && |r.local.value| == |local.value|
      && (global != None ==>
            && r.global != None && |r.global.value| == |global.value|
            && (forall i | 0 <= i < d :: r.global.value[i] == ToSizeT(args[i + 2]))
            && (forall i | 0 <= i < d :: r.local.value[i] == ToSizeT(args[d + i + 2]))
            && r.global.value[d..] == global.value[d..])
      && (global == None ==>
            && r.global == None
            && (forall i | 0 <= i < d :: r.local.value[i] == ToSizeT(args[i + 2])))
      && r.local.value[d..] == local.value[d..]
      && r.nextArgIndex == SafePtrSet(nextArgIndex, RequiredArgs(d, global != None))
      && RequiredArgs(d, global != None) <= |args|
  {
    var untouched := ParseOutcome(CL_SUCCESS, numDimensions, global, local, nextArgIndex);
    var tooFew := CheckValue(|args| <= 1, CL_INVALID_ARG_VALUE);
    if tooFew.Return? then untouched.(status := tooFew.status)
    else
      var noLocal := CheckValue(local.None?, CL_INVALID_ARG_VALUE);
      if noLocal.Return? then untouched.(status := noLocal.status)
      else
        var dimensions := ToU32(args[1]);
        var counted := untouched.(numDimensions := SafePtrSet(numDimensions, dimensions));
        var badCount := CheckValue(dimensions < 1 || dimensions > 3, CL_INVALID_VALUE);
        if badCount.Return? then counted.(status := badCount.status)
        else
          var short := CheckValue(|args| < RequiredArgs(dimensions, global.Some?), CL_INVALID_VALUE);
          if short.Return? then counted.(status := short.status)
          else if global.Some? then
            counted.(
              global := Some(StoreSizes(global.value, args, 2, dimensions)),
              local := Some(StoreSizes(local.value, args, dimensions + 2, dimensions)),
              nextArgIndex := SafePtrSet(nextArgIndex, 2 * dimensions + 2))
          else
            counted.(
              local := Some(StoreSizes(local.value, args, 2, dimensions)),
              nextArgIndex := SafePtrSet(nextArgIndex, dimensions + 2))
  }

  /** The command line a user writes for `parse_arguments`: program name,
      dimension count, the global sizes (possibly none) and the local sizes. */
  function LayoutArguments(program: int, global: seq<nat>, local: seq<nat>): seq<int> {
    [program, |local|] + global + local
  }

  /** Parsing a laid-out command line with a global buffer gives back exactly
      the sizes that were laid out, and points past them. */
  lemma ParseLayoutRoundTrip(
    program: int, global: seq<nat>, local: seq<nat>, rest: seq<int>,
    globalBuffer: seq<nat>, localBuffer: seq<nat>, dims: nat, next: nat)
    requires 1 <= |local| <= 3 && |global| == |local|
    requires forall i | 0 <= i < |global| :: IsSizeT(global[i])
    requires forall i | 0 <= i < |local| :: IsSizeT(local[i])
    requires |globalBuffer| >= MAX_WORK_DIMENSIONS && |localBuffer| >= MAX_WORK_DIMENSIONS
    ensures var r := ParseArguments(LayoutArguments(program, global, local) + rest,
                                    Some(dims), Some(globalBuffer), Some(localBuffer), Some(next));
      && r.status == CL_SUCCESS
      && r.numDimensions == Some(|local|)
      && r.global != None && r.global.value[..|global|] == global
      && r.local != None && r.local.value[..|local|] == local
      && r.nextArgIndex == Some(2 * |local| + 2)
  {
    var args := LayoutArguments(program, global, local) + rest;
    var d := |local|;
    assert args[1] == d;
    var r := ParseArguments(args, Some(dims), Some(globalBuffer), Some(localBuffer), Some(next));
    assert forall i | 0 <= i < d :: args[i + 2] == global[i];
    assert forall i | 0 <= i < d :: args[d + i + 2] == local[i];
    assert r.global.value[..d] == global;
    assert r.local.value[..d] == local;
  }

  /** The same round trip when no global buffer is supplied: the sizes that
      follow the count are the local sizes. */
  lemma ParseLocalOnlyRoundTrip(
    program: int, local: seq<nat>, rest: seq<int>, localBuffer: seq<nat>, next: nat)
    requires 1 <= |local| <= 3
    requires forall i | 0 <= i < |local| :: IsSizeT(local[i])
    requires |localBuffer| >= MAX_WORK_DIMENSIONS
    ensures var r := ParseArguments(LayoutArguments(program, [], local) + rest,
                                    None, None, Some(localBuffer), Some(next));
      && r.status == CL_SUCCESS
      && r.numDimensions == None
      && r.global == None
      && r.local != None && r.local.value[..|local|] == local
      && r.nextArgIndex == Some(|local| + 2)
  {
    var args := LayoutArguments(program, [], local) + rest;
    var d := |local|;
    assert args[1] == d;
    var r := ParseArguments(args, None, None, Some(localBuffer), Some(next));
    assert forall i | 0 <= i < d :: args[i + 2] == local[i];
    assert r.local.value[..d] == local;
  }

  /* ---------------------------------------------------------------- */
  /* calibrate_global_work_size                                       */
  /* ---------------------------------------------------------------- */

  /** `(global + local - 1) / local * local` computed in size_t: the sum may
      wrap, the quotient times `local` never exceeds the wrapped sum. */
  function RoundUpToMultiple(global: nat, local: nat): (r: nat)
    requires local > 0 && IsSizeT(global) && IsSizeT(local)
    ensures IsSizeT(r)
    // without wrap-around: the smallest multiple of `local` that is at least `global`
    ensures global + local - 1 < SIZE_T_MODULUS ==> r % local == 0 && global <= r < global + local
  {
    var sum := ToSizeT(global + local - 1);
    var q := sum / local;
    RoundUpFacts(global, local, sum, q);
    q * local
  }

  /** The arithmetic behind `RoundUpToMultiple`. */
  lemma RoundUpFacts(global: nat, local: nat, sum: nat, q: int)
    requires local > 0 && IsSizeT(sum) && q == sum / local
    requires global + local - 1 < SIZE_T_MODULUS ==> sum == global + local - 1
    ensures 0 <= q * local <= sum
    ensures global + local - 1 < SIZE_T_MODULUS ==>
      (q * local) % local == 0 && global <= q * local < global + local
  {
    var k := sum % local;
    assert sum == q * local + k && 0 <= k < local;
    MulAtLeast(q, local);
    MulAtLeast(-q, local);
    assert 0 <= q * local;
    ModUnique(q * local, local, q, 0);
  }

  /** The preconditions `calibrate_global_work_size` places on its caller: a
      pre-2.0 device dereferences all three arrays for `n` entries and divides
      by every local size. */
  predicate CalibrationInputs(major: int, n: nat, global: Option<seq<nat>>, local: Option<seq<nat>>, calibrated: Option<seq<nat>>) {
    && (global.Some? ==> n <= |global.value| && forall i | 0 <= i < n :: IsSizeT(global.value[i]))
    && (calibrated.Some? ==> n <= |calibrated.value|)
    && (major < 2 ==>
          && global.Some? && calibrated.Some? && local.Some?
          && n <= |local.value|
          && forall i | 0 <= i < n :: 0 < local.value[i] && IsSizeT(local.value[i]))
  }

  /** Model of `calibrate_global_work_size`: the contents of the calibrated
      array afterwards (`None` when it is null).  For OpenCL before 2.0 a
      global size must be a multiple of the local size (section 5.8 of the
      OpenCL 1.2 specification, `clEnqueueNDRangeKernel`). */
  function CalibrateGlobalWorkSize(
    major: int, minor: int, n: nat,
    global: Option<seq<nat>>, local: Option<seq<nat>>, calibrated: Option<seq<nat>>): (r: Option<seq<nat>>)
    requires CalibrationInputs(major, n, global, local, calibrated)
    // 2.0 and later: a plain copy of the first n sizes, when both arrays exist
    ensures major >= 2 && global.Some? && calibrated.Some? ==>
      r == Some(global.value[..n] + calibrated.value[n..])
    ensures major >= 2 && (global.None? || calibrated.None?) ==> r == calibrated
    // before 2.0: each size rounded up to the next multiple of its local size
    ensures major < 2 ==>
      && r.Some? && |r.value| == |calibrated.value|
      && r.value[n..] == calibrated.value[n..]
      && forall i | 0 <= i < n ::
           var g, l := global.value[i], local.value[i];
           g + l - 1 < SIZE_T_MODULUS ==> r.value[i] % l == 0 && g <= r.value[i] < g + l
  {
    if major >= 2 then
      if global.Some? && calibrated.Some? then Some(global.value[..n] + calibrated.value[n..])
      else calibrated
    else
      var cal := calibrated.value;
      Some(seq(|cal|, i requires 0 <= i < |cal| =>
        if i < n then RoundUpToMultiple(global.value[i], local.value[i]) else cal[i]))
  }

  /** The minor version never influences the calibration. */
  lemma CalibrationIgnoresMinor(
    major: int, minor1: int, minor2: int, n: nat,
    global: Option<seq<nat>>, local: Option<seq<nat>>, calibrated: Option<seq<nat>>)
    requires CalibrationInputs(major, n, global, local, calibrated)
    ensures CalibrateGlobalWorkSize(major, minor1, n, global, local, calibrated)
         == CalibrateGlobalWorkSize(major, minor2, n, global, local, calibrated)
  {
  }

  /* ---------------------------------------------------------------- */
  /* get_worker_count                                                 */
  /* ---------------------------------------------------------------- */

  /** The mathematical product of a sequence of sizes (1 for none). */
  function Product(sizes: seq<nat>): nat {
    if |sizes| == 0 then 1 else Product(sizes[..|sizes| - 1]) * sizes[|sizes| - 1]
  }

  /** Model of `get_worker_count`: 0 for a null array, otherwise the product
      of the first `n` sizes in size_t arithmetic (wrapping modulo 2^64). */
  method GetWorkerCount(n: nat, global: Option<seq<nat>>) returns (workers: nat)
    requires global.Some? ==> n <= |global.value|
    ensures global.None? ==> workers == 0
    ensures global.Some? ==> workers == Product(global.value[..n]) % SIZE_T_MODULUS
  {
    workers := 1;
    var nullArray := CheckValue(global.None?, 0);
    if nullArray.Return? {
      workers := nullArray.status;
      return;
    }
    var sizes := global.value;
    var i := 0;
    while i < n
      invariant 0 <= i <= n
      invariant workers == Product(sizes[..i]) % SIZE_T_MODULUS
    {
      assert sizes[..i + 1][..i] == sizes[..i];
      ModMulLeft(Product(sizes[..i]), sizes[i], SIZE_T_MODULUS);
      workers := (workers * sizes[i]) % SIZE_T_MODULUS;
      i := i + 1;
    }
  }

  /* ---------------------------------------------------------------- */
  /* generate_host_array                                              */
  /* ---------------------------------------------------------------- */

  /** What `generate_host_array` leaves in `*array`. */
  datatype HostArray<T> = Untouched | NullArray | Allocated(cells: seq<T>)

  /** Model of `generate_host_array`.  `malloc` is an oracle: when it
      succeeds it hands back `uninitialized`, the block's previous contents. */
  method GenerateHostArray<T>(numElements: nat, initial: T, arrayPointer: bool, uninitialized: Option<seq<T>>)
    returns (status: int, hostArray: HostArray<T>)
    requires IsU32(numElements)
    requires uninitialized.Some? ==> |uninitialized.value| == numElements
    ensures !arrayPointer || numElements == 0 ==> status == CL_INVALID_VALUE && hostArray == Untouched
    ensures arrayPointer && numElements > 0 && uninitialized.None? ==>
      status == CL_INVALID_VALUE && hostArray == NullArray
    ensures arrayPointer && numElements > 0 && uninitialized.Some? ==>
      && status == CL_SUCCESS && hostArray.Allocated? && |hostArray.cells| == numElements
      && forall i | 0 <= i < numElements :: hostArray.cells[i] == initial
  {
    var badArgs := CheckValue(!arrayPointer || numElements == 0, CL_INVALID_VALUE);
    if badArgs.Return? {
      return badArgs.status, Untouched;
    }
    var mallocFailed := CheckValue(uninitialized.None?, CL_INVALID_VALUE);
    if mallocFailed.Return? {
      return mallocFailed.status, NullArray;
    }
    var cells := uninitialized.value;
    var i := 0;
    while i < numElements
      invariant 0 <= i <= numElements && |cells| == numElements
      invariant forall j | 0 <= j < i :: cells[j] == initial
    {
      cells := cells[i := initial];
      i := i + 1;
    }
    return CL_SUCCESS, Allocated(cells);
  }
}
