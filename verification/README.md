# Heat transfer and vector add on OpenCL: a Dafny model of the host logic

The repository holds two OpenCL host programs. One diffuses heat across a
16 x 16 plate with an x pass and a y pass per step. The other adds two
1024 x 1024 integer arrays. It also holds a small OpenCL utility library
(`cl_utils`). Almost every host function wraps a foreign OpenCL call, so this
model keeps the decision logic around those calls and nothing else:

- which calls are made, in what order;
- which status comes back;
- which fields and out-pointers are written.

Each OpenCL call's status and handle, each mapped image's contents, and each
`rand`/`stof` result is a parameter (an oracle). The C integer widths are
written out: `cl_uint` wraps modulo 2^32, `size_t` modulo 2^64, and a
`cl_int` status is a signed 32-bit value (`Basics.ClInt`).

Modules:

| module | covers |
|---|---|
| `Basics`, `ClMacros` | optional values, handles, integer widths; the `CHECK_VALUE`, `SAFE_OCL_CALL`, `SAFE_PTR_SET` and `SAFE_FREE` macros |
| `ClStatus` | the two status tables `translate_open_cl_error` and `get_error_string` |
| `CText` | the C string functions the code relies on: `strtol`-style integer scanning, `strchr`, `strstr` |
| `WorkSize` | `parse_arguments`, `calibrate_global_work_size`, `get_worker_count`, `generate_host_array` |
| `DeviceVersion` | `get_device_version`, plus a corrected variant (see Findings) |
| `ContextInit` | the platform loop of `init_context` |
| `PlatformSelection`, `ContextSetup` | `find_open_cl_platform`, `check_preferred_platform_match`, `get_platform_and_device_version`, `setup_open_cl` |
| `Config` | the `key:value` reader `read_config` |
| `Lifecycle` | the constructor and destructor of the vector-add session record |
| `ProgramBuild` | `create_and_build_program` and `setup_ocl_kernel` |
| `Dispatch` | `set_kernel_arguments` (six-argument and three-argument versions) and `execute_add_kernel` |
| `HeatMemory` | `generate_input`, `create_buffer_arguments`, and the convergence `read_and_verify` of the heat sample |
| `VectorAdd` | image creation, the sum check `read_and_verify`, and the `_tmain` of the vector-add sample |
| `Alignment` | the 64-byte rounding of host-buffer sizes that both `_tmain`s compute |
| `Stepper` | the heat sample's `_tmain`: the hot point, and the double-buffered step loop |

Where the declarations in headers and the definitions in `.cpp` files
disagree, the model follows the `.cpp` definitions. Examples:

- the session fields `srcA`/`srcB`/`dstMem` versus `input`/`output`/`plate_points`;
- the parameter lists of `set_kernel_arguments`, `create_buffer_arguments` and `read_and_verify`.

`Source/Main.cpp:45` calls `generate_input` with seven arguments, but the
definition at `Source/ocl_memory.cpp:10` takes four. The model follows the
four-argument definition. `Main.cpp:47` passes the `output` host array where
the definition of `create_buffer_arguments` expects `plate_points`. The model
keeps that parameter generic.

## Model

| member | source | states |
|---|---|---|
| ClMacros.GuardChain | Source/Core/OpenCL/cl_utils.h:13-20 | a run of `CHECK_VALUE` and `SAFE_OCL_CALL` lines leaves the function with the status of the first line that fires (a true condition, or a call that did not return `CL_SUCCESS`), and falls through exactly when none fires |
| ClMacros.SafePtrSetLastWins | Source/Core/OpenCL/cl_utils.h:9 | a second `SAFE_PTR_SET` through the same pointer overwrites the first, and a store never turns a null pointer into a non-null one |
| ClMacros.FreeAllReleasesNonNull | Source/Core/OpenCL/cl_utils.h:11 | a sequence of `SAFE_FREE`s, as in `init_context`, releases exactly the blocks of its non-null pointers and skips the null ones |
| ClStatus.TranslateRoundTrip | Source/ocl_args.cpp:18-87 | every listed status maps to its own name, and the name maps back to the status |
| ClStatus.TranslateUnknown | Source/ocl_args.cpp:84-86 | every status outside the table maps to "UNKNOWN ERROR CODE" |
| ClStatus.TranslateInjective | Source/ocl_args.cpp:18-87 | two different listed statuses never share a name |
| ClStatus.ErrorStringRoundTrip | Source/Core/OpenCL/cl_utils.cpp:270-322 | every listed status maps to its own description, and the description maps back to the status |
| ClStatus.ErrorStringUnknown | Source/Core/OpenCL/cl_utils.cpp:320 | every status outside the table maps to the unknown-error text |
| ClStatus.ErrorStringInjective | Source/Core/OpenCL/cl_utils.cpp:270-322 | two different listed statuses never share a description |
| CText.ScanInt | Source/Core/OpenCL/cl_utils.cpp:92 | the `%d` conversion: skips leading white space, takes an optional sign and the longest digit run, and fails when there is no digit |
| CText.SkipSpaces | Source/Core/OpenCL/cl_utils.cpp:92 | the white space `%d` skips is the longest all-space prefix |
| CText.LeadingDigits | Source/Core/OpenCL/cl_utils.cpp:92 | the digit run `%d` consumes is the longest all-digit prefix |
| CText.ScanIntOfNatToString | Source/Core/OpenCL/cl_utils.cpp:92 | scanning the decimal spelling of n, followed by a non-digit, gives n and consumes exactly the digits |
| CText.DigitsValueOfNatToString | Source/Core/OpenCL/cl_utils.cpp:92 | the value of a number's decimal spelling is the number itself |
| CText.FindChar | Source/Core/OpenCL/cl_utils.cpp:90 | `strchr`: the index of the first occurrence; there is none exactly when the character is absent |
| CText.ContainsOccurrence | Source/ocl_context.cpp:207 | the front-to-back `strstr` scan succeeds exactly when the pattern occurs at some position |
| WorkSize.ParseArguments | Source/Core/OpenCL/cl_utils.cpp:10-77 | `argc <= 1` or a null local array gives `CL_INVALID_ARG_VALUE` with nothing written; the dimension count is stored before it is checked to be in 1..3; too few arguments (`2+2d` with globals, `2+d` without) gives `CL_INVALID_VALUE` with the arrays untouched; on success the slots hold `argv[i+2]` and `argv[d+i+2]` (or `argv[i+2]` alone), and the next index `2d+2` or `d+2` never exceeds `argc` |
| WorkSize.ParseLayoutRoundTrip | Source/Core/OpenCL/cl_utils.cpp:13-16 | parsing a command line laid out as "count, globals, locals" gives back exactly those sizes and the index after them |
| WorkSize.ParseLocalOnlyRoundTrip | Source/Core/OpenCL/cl_utils.cpp:13-16 | the same round trip when no global array is supplied |
| WorkSize.StoreSizes | Source/Core/OpenCL/cl_utils.cpp:36-48 | the first `count` slots receive the command-line values converted to `size_t`, in order, and the rest of the array is untouched |
| WorkSize.RoundUpToMultiple | Source/Core/OpenCL/cl_utils.cpp:341 | the result is the smallest multiple of the local size that is at least the global size (while `global + local - 1` fits in `size_t`) |
| WorkSize.CalibrateGlobalWorkSize | Source/Core/OpenCL/cl_utils.cpp:324-343 | for a 2.0 or later device the first n global sizes are copied unchanged; before 2.0 each becomes the next multiple of its local size; the rest of the output is untouched |
| WorkSize.CalibrationIgnoresMinor | Source/Core/OpenCL/cl_utils.cpp:324-343 | the minor version never affects calibration |
| WorkSize.GetWorkerCount | Source/Core/OpenCL/cl_utils.cpp:256-268 | 0 for a null array; otherwise the product of the first n sizes modulo 2^64, which is 1 for n = 0 |
| WorkSize.GenerateHostArray | Source/Core/OpenCL/cl_utils.cpp:243-254 | a null out-pointer or zero elements gives `CL_INVALID_VALUE` with nothing allocated; a failed `malloc` also gives `CL_INVALID_VALUE`, with a null array stored; otherwise every element holds the initial value |
| DeviceVersion.ScanFormattedVersion | Source/Core/OpenCL/cl_utils.cpp:92-95 | the `%d.%d` scan of a spelled-out version "M.m" gives back (M, m) |
| DeviceVersion.ScanVersion | Source/Core/OpenCL/cl_utils.cpp:92-95 | a successful `%d.%d` scan starts with an integer, and that integer is the major number |
| DeviceVersion.DeviceVersionText | Source/Core/OpenCL/cl_utils.cpp:90-92 | a device string without a space yields no version |
| DeviceVersion.ReadVersions | Source/Core/OpenCL/cl_utils.cpp:84-95 | both versions are read exactly when the device is non-null, both queries succeed, the device string has a space, and both texts scan as `%d.%d`; every other case returns a failure status |
| DeviceVersion.GetDeviceVersion | Source/Core/OpenCL/cl_utils.cpp:79-102 | on any failure both outputs hold -1; on success major and minor are each the smaller of the device's and the driver's value, taken independently |
| DeviceVersion.DeviceVersionOfReportedStrings | Source/Core/OpenCL/cl_utils.cpp:84-99 | for "OpenCL M.m vendor" and a driver "M'.m'" the result is (min(M, M'), min(m, m')) |
| DeviceVersion.ComponentwiseMinimumInventsVersion | Source/Core/OpenCL/cl_utils.cpp:97-99 | a 2.0 device under a 1.2 driver is reported as 1.0, which neither of them is |
| DeviceVersion.OldestVersion | Source/Core/OpenCL/cl_utils.cpp:97 | the oldest of two versions is one of them and is not newer than either |
| DeviceVersion.GetOldestDeviceVersion | Source/Core/OpenCL/cl_utils.cpp:79-102 | the corrected function: it fails with -1s exactly when the as-written one does; otherwise it reports one of the two versions read, and that version is not newer than either |
| ContextInit.ProbeOutcomes | Source/Core/OpenCL/cl_utils.cpp:120-143 | each platform is either passed over, selected, or aborts the search, and never two of these |
| ContextInit.SelectPlatform | Source/Core/OpenCL/cl_utils.cpp:120-143 | platform and device are written only for a platform on which a context was created, and then hold that platform and its first device; platforms without devices leave the state as it was |
| ContextInit.AllPassedOver | Source/Core/OpenCL/cl_utils.cpp:120-143 | when no platform is selected and no query fails, status, platform and device keep their values and the context slot holds at most the last failed attempt |
| ContextInit.FirstDecisiveProbe | Source/Core/OpenCL/cl_utils.cpp:120-143 | the first platform that is not passed over decides: a created context sets platform, device (its first device) and context; a failed device count or listing returns its status at once |
| ContextInit.InitContext | Source/Core/OpenCL/cl_utils.cpp:104-150 | a null context pointer or zero platforms gives `CL_INVALID_VALUE`; a failed platform query returns its status; when no platform yields a context the result is still `CL_SUCCESS` |
| PlatformSelection.CheckPreferredPlatformMatch | Source/ocl_context.cpp:186-211 | true exactly when both name queries succeed and the preferred text occurs in the name (case-sensitive) |
| PlatformSelection.FirstEligible | Source/ocl_context.cpp:92-111 | the loop stops at the lowest index whose name passes and which reports a device, or finds none |
| PlatformSelection.FindOpenClPlatform | Source/ocl_context.cpp:67-114 | null when a listing query fails, when there are no platforms, or when none qualifies; otherwise the lowest-index eligible platform; a null or empty preference accepts every name |
| PlatformSelection.FoundPlatformQualifies | Source/ocl_args.cpp:187-236 | a platform that is found reports at least one device, and its name contains the preference |
| ContextSetup.Raise | Source/ocl_context.cpp:136-139 | the tier becomes 2.0 exactly when it already was or the text contains the marker |
| ContextSetup.GetPlatformAndDeviceVersion | Source/ocl_context.cpp:116-184 | platform, device and compiler strings are probed in order; "OpenCL 2.0" raises the platform and device tiers and "OpenCL C 2.0" raises the compiler tier; no tier is lowered; the first failed query returns its status and leaves the later tiers untouched |
| ContextSetup.LaterVersionKeepsLegacyTier | Source/ocl_context.cpp:136-139 | a device reporting "OpenCL 2.1" keeps the 1.2 tier, since only the literal "OpenCL 2.0" raises it |
| ContextSetup.SetupOpenCl | Source/ocl_context.cpp:14-65 | no platform gives `CL_INVALID_VALUE` before any context is created; context and device failures return their own status; the probe's status is ignored; the queue uses the properties-array call exactly when the device tier is 2.0 |
| ContextSetup.NullContextReportsSuccess | Source/ocl_context.cpp:26-31 | a null context delivered with `CL_SUCCESS` is returned as success, with no queue created |
| ContextSetup.SetupIntelOpenCl | Source/ocl_args.cpp:325-376 | the vector-add sample creates a context only on a platform whose name contains "Intel" and which has a device |
| Config.SplitJoinedLines | Source/utils.cpp:72 | reading a file line by line gives back the lines it was written from |
| Config.SplitLines | Source/utils.cpp:72 | no line handed out by `getline` contains the newline |
| Config.Key | Source/utils.cpp:77 | the attribute name is a prefix of the line and contains no ':' |
| Config.Value | Source/utils.cpp:78 | the attribute value contains no ':' |
| Config.StoI | Source/utils.cpp:80-81 | `stoi` succeeds exactly when the text scans as an integer within the 32-bit `int` range, and then gives that integer |
| Config.KeyValueOfLine | Source/utils.cpp:77-78 | a line's key is the text before its first ':', and its value is the text between the first and second ':' |
| Config.ApplyLine | Source/utils.cpp:74-87 | `width`/`height` take the 32-bit `stoi` value converted to `cl_uint`, or throw; `platform` changes only for exactly "Intel" or "AMD"; the three temperatures take the `stof` value, or throw; any other key changes nothing |
| Config.ReadConfig | Source/utils.cpp:67-88 | a file that cannot be opened, or an empty one, leaves every setting unchanged |
| Config.ApplyLines | Source/utils.cpp:72-87 | a thrown exception names one of the lines read |
| Config.ApplyLinesAppend | Source/utils.cpp:72-87 | reading more lines continues from the settings the earlier lines produced |
| Config.ApplyLinesAppendThrown | Source/utils.cpp:80-86 | once a line throws, later lines are never read |
| Config.LastWidthWins | Source/utils.cpp:72-87 | whatever came before, a final "width:n" line leaves the width equal to n |
| Config.WidthKeptWithoutWidthLines | Source/utils.cpp:72-87 | without a `width` line the caller's width is kept |
| Config.UnknownKeysIgnored | Source/utils.cpp:80-86 | lines whose keys are none of the six settings leave every setting unchanged |
| Lifecycle.NewArgs | Source/ocl_args.cpp:89-102 | a new session holds no object handles, and all three version tiers are 1.2 |
| Lifecycle.Slots | Source/ocl_args.cpp:104-156 | the destructor visits its eight handles once each, in a fixed order |
| Lifecycle.LiveCalls | Source/ocl_args.cpp:104-156 | exactly the non-null handles are released, each once |
| Lifecycle.LiveCallsRanked | Source/ocl_args.cpp:104-156 | skipping null handles keeps the fixed release order |
| Lifecycle.Failed | Source/ocl_args.cpp:104-156 | exactly the releases that did not return `CL_SUCCESS` are logged |
| Lifecycle.Destroy | Source/ocl_args.cpp:104-156 | handles are released in the order kernel, program, srcA, srcB, dstMem, queue, device, context, and only the non-null ones; exactly the failed releases are logged |
| Lifecycle.ReleasesIgnoreFailures | Source/ocl_args.cpp:104-156 | a failed release never prevents a later one, because the calls made do not depend on the statuses returned |
| Lifecycle.NewArgsReleaseNothing | Source/ocl_args.cpp:89-156 | destroying a freshly constructed session releases nothing |
| ProgramBuild.CreateAndBuildProgram | Source/ocl_kernel.cpp:31-86 | a program is created only from a source that was read, and built only once created; the status is the first failure, or else the build status itself; the build log is fetched exactly for `CL_BUILD_PROGRAM_FAILURE`; the source buffer is deleted on every exit, once, as the last call. The vector sample's copy is at Source/ocl_args.cpp:378-434 |
| ProgramBuild.SetupOclKernel | Source/ocl_kernel.cpp:12-29 | a failed build returns -1 with no kernel attempted; a failed kernel creation returns -1 |
| ProgramBuild.KernelOnlyAfterBuild | Source/ocl_kernel.cpp:16-21 | a kernel is created only after reading, creation and build all succeeded |
| Dispatch.BindFrom | Source/ocl_kernel.cpp:88-135 | arguments are bound in index order, each with its own value; binding stops at the first failure, whose status is returned; success exactly when every bind succeeded |
| Dispatch.HeatArgs | Source/ocl_kernel.cpp:88-135 | the heat kernel takes six arguments |
| Dispatch.SetHeatKernelArguments | Source/ocl_kernel.cpp:88-135 | input, output, width, height, temperature and axis are bound as arguments 0 to 5, in that order; binding stops at the first failing call, and the `cl_uint` result is that call's own status; the result is 0 exactly when all six binds succeed, and then all six were bound |
| Dispatch.SetVectorKernelArguments | Source/ocl_args.cpp:488-514 | srcA, srcB and dstMem are bound as arguments 0, 1 and 2, in that order; binding stops at the first failing call, whose own status is returned; the result is 0 exactly when all three succeed, and then all three were bound |
| Dispatch.StatusAsU32 | Source/ocl_kernel.cpp:88 | a 32-bit status converts to a zero `cl_uint` only when it is `CL_SUCCESS` |
| Dispatch.ExecuteKernel | Source/ocl_kernel.cpp:137-158 | the kernel is enqueued over the global size {width, height} with no local size; `clFinish` runs only after a successful enqueue; the result is the first failure, and 0 exactly when both succeed |
| HeatMemory.GenerateInput | Source/ocl_memory.cpp:10-15 | the first `width * height` cells (a `cl_uint` product) hold the temperature, and every other cell is unchanged |
| HeatMemory.PlateBytes | Source/ocl_memory.cpp:57 | the plate-points buffer size is `width * height * sizeof(vertex_args)`, when the products do not wrap |
| HeatMemory.CreateBufferArguments | Source/ocl_memory.cpp:17-66 | input, output and plate_points are created in that order, each only after the previous one succeeded; both images copy the same host array; the status is the first failure; each handle is written only by its own creation call |
| HeatMemory.ReadAndVerify | Source/ocl_memory.cpp:68-124 | output is mapped before input, and either map failing returns false (a failed input map leaves output mapped); output is unmapped before input, and a failed output unmap skips the input unmap; the result is true exactly when everything mapped and unmapped and every cell moved by less than the threshold; the `clFinish` status plays no part |
| VectorAdd.CreateBufferArguments | Source/ocl_args.cpp:437-486 | srcA, srcB and dstMem are created in that order, stopping at the first failure, whose status is returned |
| VectorAdd.ReadAndVerify | Source/ocl_args.cpp:539-580 | a failed map returns false and unmaps nothing; otherwise finish and unmap always run, and their failures are only logged; the result is true exactly when every result is the sum of its inputs; every mismatching index is reported, in increasing order, and no other |
| VectorAdd.Run | Source/ocl_args.cpp:582-676 | every failing step returns -1, and a failed allocation returns before any image is created; the exit code is 0 exactly when every step before verification succeeds |
| VectorAdd.ExitIgnoresVerification | Source/ocl_args.cpp:661-675 | the verification result does not change the exit code |
| Alignment.AlignedSize | Source/Main.cpp:36 | the smallest multiple of 64 that is at least the byte size, for a non-zero size with room below 2^64; 0 bytes wraps round to 0 |
| Alignment.BufferBytes | Source/Main.cpp:36 | the byte count is computed in `size_t`: it equals the true product whenever that fits in 64 bits |
| Alignment.HeatPlateSize | Source/Main.cpp:36 | the heat sample's 16 x 16 floats take 1024 bytes |
| Alignment.VectorArraySize | Source/ocl_args.cpp:602 | the vector sample's 1024 x 1024 ints, stored in a `cl_uint`, take 4194304 bytes |
| Stepper.HotPoint | Source/Main.cpp:29-30 | the hot point `(width/2, height/2)` lies inside the grid whenever both sides are positive |
| Stepper.Swap | Source/Main.cpp:60-62 | after the swap the input image is the old output and the output image is the old input |
| Stepper.SwapTwice | Source/Main.cpp:60-62 | swapping the input and output images twice restores the original assignment |
| Stepper.SwapN | Source/Main.cpp:60-62 | an even number of swaps is the original assignment, and an odd number is the swapped one |
| Stepper.PassSucceedsIffCodesZero | Source/Main.cpp:55-58 | a pass falls through both `CL_SUCCESS !=` tests exactly when all six binds, the enqueue and `clFinish` succeed |
| Stepper.StepLoop | Source/Main.cpp:53-69 | every round before the last one run had both passes succeed and did not converge; the loop returns -1 exactly when a pass of its last round failed; a round whose passes succeed and which converged returns 0, and 0 is returned only then; running out of rounds means none converged; each completed round swaps the images once |
| Stepper.RoundShape | Source/Main.cpp:53-69 | each round runs the x pass on the current images, then the y pass and the verification on the swapped ones |
| Stepper.FailureIsFinal | Source/Main.cpp:55-58 | after a failed pass, no other pass or verification follows |
| Stepper.Run | Source/Main.cpp:17-77 | a failed host allocation returns -1 before any image is created; the loop is entered only once every setup step has succeeded |

## Left out

- All OpenCL API calls (`clCreate*`, `clEnqueue*`, `clGet*Info`, `clRelease*`, `clSetKernelArg`, `clFinish`) are foreign. Each one's status, handle or data is a parameter.
- `read_source_from_file` and `ReadSourceFromFile` perform file I/O. Their status, and whether they leave a buffer behind, are parameters. The file-reading part of `get_program_from_file` is not modelled either.
- `read_config`'s file is given as its contents, or as "cannot be opened". Line splitting is on '\n' only; text-mode '\r' handling is not modelled.
- `stof` is a parameter. `stoi` is modelled through the integer scanner with the 32-bit range check; its thrown exceptions become a `Thrown` outcome.
- Logging, `print_platform_info`, `print_device_info` and `log_device_info` are not modelled. The performance-counter timing and `getchar` are not modelled either.
- `generateInput` of the vector sample (it calls `rand`) is not modelled. The input arrays are parameters.
- Floating point is not modelled: temperatures are an opaque type, cells are `real`, and `CL_FLT_EPSILON * 1000` is a threshold parameter.
- Image, sampler and buffer descriptors are not modelled, and neither are `create_image`, `create_sampler`, `create_memory_buffer`, `get_kernel` and `create_command_queue`. `_aligned_malloc` is reduced to its size arithmetic and a success flag.
- The diffusion and addition kernels are not modelled; their source is not part of this model.
- HeatMemory.ReadAndVerify requires the mapped images to expose at least `width * height` cells, which the source assumes without checking.
- VectorAdd.ReadAndVerify compares each result with the mathematical sum `a[k] + b[k]`. The source adds in `cl_int`, where overflow is undefined. The sample's inputs come from `rand()`, which stays far below that range.
- Stepper.StepLoop takes the verification result of each round as an oracle. `HeatMemory.ReadAndVerify` states how that result is computed.
- Stepper.Run and VectorAdd.Run take the statuses of the earlier set-up steps as parameters. The functions above model how each status arises.
- ContextSetup.SetupOpenCl models the queue creation with `CL_VERSION_2_0` defined (ocl_context.cpp:42-52). The `#else` branch is not modelled; it assigns a `commandQueue` field that `ocl_args_d_t` does not declare.
- WorkSize.ParseArguments takes the `atoi` value of each `argv` entry; `atoi` itself is not modelled.

## Findings

| source | as written | input that shows it | evidently intended | confidence | as-written member | corrected member |
|---|---|---|---|---|---|---|
| Source/Core/OpenCL/cl_utils.cpp:97-99 | `get_device_version` takes the minimum of the major numbers and the minimum of the minor numbers separately | device "OpenCL 2.0 vendor" with driver "1.2" is reported as 1.0, a version neither reports | the comment asks for "the smallest (oldest) version", so one of the two whole versions | low; not executed | DeviceVersion.ComponentwiseMinimumInventsVersion | DeviceVersion.GetOldestDeviceVersion |
