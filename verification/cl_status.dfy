/** Status codes of the OpenCL API (their values as the Khronos cl.h header
    defines them) and the two status-to-text tables of the sources:
    `translate_open_cl_error` (symbolic names) and `get_error_string`
    (human-readable phrases).  Each table comes with an independent inverse
    that looks a text up by its length first, so that every entry can be
    shown to round-trip without comparing all pairs of texts at once. */
module ClStatus {
  import opened Basics

  const CL_SUCCESS: int := 0
  const CL_DEVICE_NOT_FOUND: int := -1
  const CL_DEVICE_NOT_AVAILABLE: int := -2
  const CL_COMPILER_NOT_AVAILABLE: int := -3
  const CL_MEM_OBJECT_ALLOCATION_FAILURE: int := -4
  const CL_OUT_OF_RESOURCES: int := -5
  const CL_OUT_OF_HOST_MEMORY: int := -6
  const CL_PROFILING_INFO_NOT_AVAILABLE: int := -7
  const CL_MEM_COPY_OVERLAP: int := -8
  const CL_IMAGE_FORMAT_MISMATCH: int := -9
  const CL_IMAGE_FORMAT_NOT_SUPPORTED: int := -10
  const CL_BUILD_PROGRAM_FAILURE: int := -11
  const CL_MAP_FAILURE: int := -12
  const CL_MISALIGNED_SUB_BUFFER_OFFSET: int := -13
  const CL_EXEC_STATUS_ERROR_FOR_EVENTS_IN_WAIT_LIST: int := -14
  const CL_COMPILE_PROGRAM_FAILURE: int := -15
  const CL_LINKER_NOT_AVAILABLE: int := -16
  const CL_LINK_PROGRAM_FAILURE: int := -17
  const CL_DEVICE_PARTITION_FAILED: int := -18
  const CL_KERNEL_ARG_INFO_NOT_AVAILABLE: int := -19
  const CL_INVALID_VALUE: int := -30
  const CL_INVALID_DEVICE_TYPE: int := -31
  const CL_INVALID_PLATFORM: int := -32
  const CL_INVALID_DEVICE: int := -33
  const CL_INVALID_CONTEXT: int := -34
  const CL_INVALID_QUEUE_PROPERTIES: int := -35
  const CL_INVALID_COMMAND_QUEUE: int := -36
  const CL_INVALID_HOST_PTR: int := -37
  const CL_INVALID_MEM_OBJECT: int := -38
  const CL_INVALID_IMAGE_FORMAT_DESCRIPTOR: int := -39
  const CL_INVALID_IMAGE_SIZE: int := -40
  const CL_INVALID_SAMPLER: int := -41
  const CL_INVALID_BINARY: int := -42
  const CL_INVALID_BUILD_OPTIONS: int := -43
  const CL_INVALID_PROGRAM: int := -44
  const CL_INVALID_PROGRAM_EXECUTABLE: int := -45
  const CL_INVALID_KERNEL_NAME: int := -46
  const CL_INVALID_KERNEL_DEFINITION: int := -47
  const CL_INVALID_KERNEL: int := -48
  const CL_INVALID_ARG_INDEX: int := -49
  const CL_INVALID_ARG_VALUE: int := -50
  const CL_INVALID_ARG_SIZE: int := -51
  const CL_INVALID_KERNEL_ARGS: int := -52
  const CL_INVALID_WORK_DIMENSION: int := -53
  const CL_INVALID_WORK_GROUP_SIZE: int := -54
  const CL_INVALID_WORK_ITEM_SIZE: int := -55
  const CL_INVALID_GLOBAL_OFFSET: int := -56
  const CL_INVALID_EVENT_WAIT_LIST: int := -57
  const CL_INVALID_EVENT: int := -58
  const CL_INVALID_OPERATION: int := -59
  const CL_INVALID_GL_OBJECT: int := -60
  const CL_INVALID_BUFFER_SIZE: int := -61
  const CL_INVALID_MIP_LEVEL: int := -62
  const CL_INVALID_GLOBAL_WORK_SIZE: int := -63
  const CL_INVALID_PROPERTY: int := -64
  const CL_INVALID_IMAGE_DESCRIPTOR: int := -65
  const CL_INVALID_COMPILER_OPTIONS: int := -66
  const CL_INVALID_LINKER_OPTIONS: int := -67
  const CL_INVALID_DEVICE_PARTITION_COUNT: int := -68
  const CL_INVALID_PIPE_SIZE: int := -69
  const CL_INVALID_DEVICE_QUEUE: int := -70

  /** The symbolic name of a status, as `translate_open_cl_error` spells it. */
  function TranslateOpenClError(status: int): string {
    if status == CL_SUCCESS then "CL_SUCCESS"
    else if status == CL_DEVICE_NOT_FOUND then "CL_DEVICE_NOT_FOUND"
    else if status == CL_DEVICE_NOT_AVAILABLE then "CL_DEVICE_NOT_AVAILABLE"
    else if status == CL_COMPILER_NOT_AVAILABLE then "CL_COMPILER_NOT_AVAILABLE"
    else if status == CL_MEM_OBJECT_ALLOCATION_FAILURE then "CL_MEM_OBJECT_ALLOCATION_FAILURE"
    else if status == CL_OUT_OF_RESOURCES then "CL_OUT_OF_RESOURCES"
    else if status == CL_OUT_OF_HOST_MEMORY then "CL_OUT_OF_HOST_MEMORY"
    else if status == CL_PROFILING_INFO_NOT_AVAILABLE then "CL_PROFILING_INFO_NOT_AVAILABLE"
    else if status == CL_MEM_COPY_OVERLAP then "CL_MEM_COPY_OVERLAP"
    else if status == CL_IMAGE_FORMAT_MISMATCH then "CL_IMAGE_FORMAT_MISMATCH"
    else if status == CL_IMAGE_FORMAT_NOT_SUPPORTED then "CL_IMAGE_FORMAT_NOT_SUPPORTED"
    else if status == CL_BUILD_PROGRAM_FAILURE then "CL_BUILD_PROGRAM_FAILURE"
    else if status == CL_MAP_FAILURE then "CL_MAP_FAILURE"
    else if status == CL_MISALIGNED_SUB_BUFFER_OFFSET then "CL_MISALIGNED_SUB_BUFFER_OFFSET"
    else if status == CL_EXEC_STATUS_ERROR_FOR_EVENTS_IN_WAIT_LIST then "CL_EXEC_STATUS_ERROR_FOR_EVENTS_IN_WAIT_LIST"
    else if status == CL_COMPILE_PROGRAM_FAILURE then "CL_COMPILE_PROGRAM_FAILURE"
    else if status == CL_LINKER_NOT_AVAILABLE then "CL_LINKER_NOT_AVAILABLE"
    else if status == CL_LINK_PROGRAM_FAILURE then "CL_LINK_PROGRAM_FAILURE"
    else if status == CL_DEVICE_PARTITION_FAILED then "CL_DEVICE_PARTITION_FAILED"
    else if status == CL_KERNEL_ARG_INFO_NOT_AVAILABLE then "CL_KERNEL_ARG_INFO_NOT_AVAILABLE"
    else if status == CL_INVALID_VALUE then "CL_INVALID_VALUE"
    else if status == CL_INVALID_DEVICE_TYPE then "CL_INVALID_DEVICE_TYPE"
    else if status == CL_INVALID_PLATFORM then "CL_INVALID_PLATFORM"
    else if status == CL_INVALID_DEVICE then "CL_INVALID_DEVICE"
    else if status == CL_INVALID_CONTEXT then "CL_INVALID_CONTEXT"
    else if status == CL_INVALID_QUEUE_PROPERTIES then "CL_INVALID_QUEUE_PROPERTIES"
    else if status == CL_INVALID_COMMAND_QUEUE then "CL_INVALID_COMMAND_QUEUE"
    else if status == CL_INVALID_HOST_PTR then "CL_INVALID_HOST_PTR"
    else if status == CL_INVALID_MEM_OBJECT then "CL_INVALID_MEM_OBJECT"
    else if status == CL_INVALID_IMAGE_FORMAT_DESCRIPTOR then "CL_INVALID_IMAGE_FORMAT_DESCRIPTOR"
    else if status == CL_INVALID_IMAGE_SIZE then "CL_INVALID_IMAGE_SIZE"
    else if status == CL_INVALID_SAMPLER then "CL_INVALID_SAMPLER"
    else if status == CL_INVALID_BINARY then "CL_INVALID_BINARY"
    else if status == CL_INVALID_BUILD_OPTIONS then "CL_INVALID_BUILD_OPTIONS"
    else if status == CL_INVALID_PROGRAM then "CL_INVALID_PROGRAM"
    else if status == CL_INVALID_PROGRAM_EXECUTABLE then "CL_INVALID_PROGRAM_EXECUTABLE"
    else if status == CL_INVALID_KERNEL_NAME then "CL_INVALID_KERNEL_NAME"
    else if status == CL_INVALID_KERNEL_DEFINITION then "CL_INVALID_KERNEL_DEFINITION"
    else if status == CL_INVALID_KERNEL then "CL_INVALID_KERNEL"
    else if status == CL_INVALID_ARG_INDEX then "CL_INVALID_ARG_INDEX"
    else if status == CL_INVALID_ARG_VALUE then "CL_INVALID_ARG_VALUE"
    else if status == CL_INVALID_ARG_SIZE then "CL_INVALID_ARG_SIZE"
    else if status == CL_INVALID_KERNEL_ARGS then "CL_INVALID_KERNEL_ARGS"
    else if status == CL_INVALID_WORK_DIMENSION then "CL_INVALID_WORK_DIMENSION"
    else if status == CL_INVALID_WORK_GROUP_SIZE then "CL_INVALID_WORK_GROUP_SIZE"
    else if status == CL_INVALID_WORK_ITEM_SIZE then "CL_INVALID_WORK_ITEM_SIZE"
    else if status == CL_INVALID_GLOBAL_OFFSET then "CL_INVALID_GLOBAL_OFFSET"
    else if status == CL_INVALID_EVENT_WAIT_LIST then "CL_INVALID_EVENT_WAIT_LIST"
    else if status == CL_INVALID_EVENT then "CL_INVALID_EVENT"
    else if status == CL_INVALID_OPERATION then "CL_INVALID_OPERATION"
    else if status == CL_INVALID_GL_OBJECT then "CL_INVALID_GL_OBJECT"
    else if status == CL_INVALID_BUFFER_SIZE then "CL_INVALID_BUFFER_SIZE"
    else if status == CL_INVALID_MIP_LEVEL then "CL_INVALID_MIP_LEVEL"
    else if status == CL_INVALID_GLOBAL_WORK_SIZE then "CL_INVALID_GLOBAL_WORK_SIZE"
    else if status == CL_INVALID_PROPERTY then "CL_INVALID_PROPERTY"
    else if status == CL_INVALID_IMAGE_DESCRIPTOR then "CL_INVALID_IMAGE_DESCRIPTOR"
    else if status == CL_INVALID_COMPILER_OPTIONS then "CL_INVALID_COMPILER_OPTIONS"
    else if status == CL_INVALID_LINKER_OPTIONS then "CL_INVALID_LINKER_OPTIONS"
    else if status == CL_INVALID_DEVICE_PARTITION_COUNT then "CL_INVALID_DEVICE_PARTITION_COUNT"
    else if status == CL_INVALID_PIPE_SIZE then "CL_INVALID_PIPE_SIZE"
    else if status == CL_INVALID_DEVICE_QUEUE then "CL_INVALID_DEVICE_QUEUE"
    else "UNKNOWN ERROR CODE"
  }

  /** The status codes TranslateOpenClError has an entry for: two contiguous ranges. */
  predicate HasSymbol(status: int) {
    (CL_KERNEL_ARG_INFO_NOT_AVAILABLE <= status <= CL_SUCCESS) || (CL_INVALID_DEVICE_QUEUE <= status <= CL_INVALID_VALUE)
  }

  /** Inverse of TranslateOpenClError on its entries: the status whose text is `text`. */
  function SymbolStatus(text: string): Option<int> {
    if |text| == 10 then (if text == "CL_SUCCESS" then Some(CL_SUCCESS) else None)
    else if |text| == 14 then (if text == "CL_MAP_FAILURE" then Some(CL_MAP_FAILURE) else None)
    else if |text| == 16 then (if text == "CL_INVALID_VALUE" then Some(CL_INVALID_VALUE) else if text == "CL_INVALID_EVENT" then Some(CL_INVALID_EVENT) else None)
    else if |text| == 17 then (if text == "CL_INVALID_DEVICE" then Some(CL_INVALID_DEVICE) else if text == "CL_INVALID_BINARY" then Some(CL_INVALID_BINARY) else if text == "CL_INVALID_KERNEL" then Some(CL_INVALID_KERNEL) else None)
    else if |text| == 18 then (if text == "CL_INVALID_CONTEXT" then Some(CL_INVALID_CONTEXT) else if text == "CL_INVALID_SAMPLER" then Some(CL_INVALID_SAMPLER) else if text == "CL_INVALID_PROGRAM" then Some(CL_INVALID_PROGRAM) else None)
    else if |text| == 19 then (if text == "CL_DEVICE_NOT_FOUND" then Some(CL_DEVICE_NOT_FOUND) else if text == "CL_OUT_OF_RESOURCES" then Some(CL_OUT_OF_RESOURCES) else if text == "CL_MEM_COPY_OVERLAP" then Some(CL_MEM_COPY_OVERLAP) else if text == "CL_INVALID_PLATFORM" then Some(CL_INVALID_PLATFORM) else if text == "CL_INVALID_HOST_PTR" then Some(CL_INVALID_HOST_PTR) else if text == "CL_INVALID_ARG_SIZE" then Some(CL_INVALID_ARG_SIZE) else if text == "CL_INVALID_PROPERTY" then Some(CL_INVALID_PROPERTY) else None)
    else if |text| == 20 then (if text == "CL_INVALID_ARG_INDEX" then Some(CL_INVALID_ARG_INDEX) else if text == "CL_INVALID_ARG_VALUE" then Some(CL_INVALID_ARG_VALUE) else if text == "CL_INVALID_OPERATION" then Some(CL_INVALID_OPERATION) else if text == "CL_INVALID_GL_OBJECT" then Some(CL_INVALID_GL_OBJECT) else if text == "CL_INVALID_MIP_LEVEL" then Some(CL_INVALID_MIP_LEVEL) else if text == "CL_INVALID_PIPE_SIZE" then Some(CL_INVALID_PIPE_SIZE) else None)
    else if |text| == 21 then (if text == "CL_OUT_OF_HOST_MEMORY" then Some(CL_OUT_OF_HOST_MEMORY) else if text == "CL_INVALID_MEM_OBJECT" then Some(CL_INVALID_MEM_OBJECT) else if text == "CL_INVALID_IMAGE_SIZE" then Some(CL_INVALID_IMAGE_SIZE) else None)
    else if |text| == 22 then (if text == "CL_INVALID_DEVICE_TYPE" then Some(CL_INVALID_DEVICE_TYPE) else if text == "CL_INVALID_KERNEL_NAME" then Some(CL_INVALID_KERNEL_NAME) else if text == "CL_INVALID_KERNEL_ARGS" then Some(CL_INVALID_KERNEL_ARGS) else if text == "CL_INVALID_BUFFER_SIZE" then Some(CL_INVALID_BUFFER_SIZE) else None)
    else if |text| == 23 then (if text == "CL_DEVICE_NOT_AVAILABLE" then Some(CL_DEVICE_NOT_AVAILABLE) else if text == "CL_LINKER_NOT_AVAILABLE" then Some(CL_LINKER_NOT_AVAILABLE) else if text == "CL_LINK_PROGRAM_FAILURE" then Some(CL_LINK_PROGRAM_FAILURE) else if text == "CL_INVALID_DEVICE_QUEUE" then Some(CL_INVALID_DEVICE_QUEUE) else None)
    else if |text| == 24 then (if text == "CL_IMAGE_FORMAT_MISMATCH" then Some(CL_IMAGE_FORMAT_MISMATCH) else if text == "CL_BUILD_PROGRAM_FAILURE" then Some(CL_BUILD_PROGRAM_FAILURE) else if text == "CL_INVALID_COMMAND_QUEUE" then Some(CL_INVALID_COMMAND_QUEUE) else if text == "CL_INVALID_BUILD_OPTIONS" then Some(CL_INVALID_BUILD_OPTIONS) else if text == "CL_INVALID_GLOBAL_OFFSET" then Some(CL_INVALID_GLOBAL_OFFSET) else None)
    else if |text| == 25 then (if text == "CL_COMPILER_NOT_AVAILABLE" then Some(CL_COMPILER_NOT_AVAILABLE) else if text == "CL_INVALID_WORK_DIMENSION" then Some(CL_INVALID_WORK_DIMENSION) else if text == "CL_INVALID_WORK_ITEM_SIZE" then Some(CL_INVALID_WORK_ITEM_SIZE) else if text == "CL_INVALID_LINKER_OPTIONS" then Some(CL_INVALID_LINKER_OPTIONS) else None)
    else if |text| == 26 then (if text == "CL_COMPILE_PROGRAM_FAILURE" then Some(CL_COMPILE_PROGRAM_FAILURE) else if text == "CL_DEVICE_PARTITION_FAILED" then Some(CL_DEVICE_PARTITION_FAILED) else if text == "CL_INVALID_WORK_GROUP_SIZE" then Some(CL_INVALID_WORK_GROUP_SIZE) else if text == "CL_INVALID_EVENT_WAIT_LIST" then Some(CL_INVALID_EVENT_WAIT_LIST) else None)
    else if |text| == 27 then (if text == "CL_INVALID_QUEUE_PROPERTIES" then Some(CL_INVALID_QUEUE_PROPERTIES) else if text == "CL_INVALID_GLOBAL_WORK_SIZE" then Some(CL_INVALID_GLOBAL_WORK_SIZE) else if text == "CL_INVALID_IMAGE_DESCRIPTOR" then Some(CL_INVALID_IMAGE_DESCRIPTOR) else if text == "CL_INVALID_COMPILER_OPTIONS" then Some(CL_INVALID_COMPILER_OPTIONS) else None)
    else if |text| == 28 then (if text == "CL_INVALID_KERNEL_DEFINITION" then Some(CL_INVALID_KERNEL_DEFINITION) else None)
    else if |text| == 29 then (if text == "CL_IMAGE_FORMAT_NOT_SUPPORTED" then Some(CL_IMAGE_FORMAT_NOT_SUPPORTED) else if text == "CL_INVALID_PROGRAM_EXECUTABLE" then Some(CL_INVALID_PROGRAM_EXECUTABLE) else None)
    else if |text| == 31 then (if text == "CL_PROFILING_INFO_NOT_AVAILABLE" then Some(CL_PROFILING_INFO_NOT_AVAILABLE) else if text == "CL_MISALIGNED_SUB_BUFFER_OFFSET" then Some(CL_MISALIGNED_SUB_BUFFER_OFFSET) else None)
    else if |text| == 32 then (if text == "CL_MEM_OBJECT_ALLOCATION_FAILURE" then Some(CL_MEM_OBJECT_ALLOCATION_FAILURE) else if text == "CL_KERNEL_ARG_INFO_NOT_AVAILABLE" then Some(CL_KERNEL_ARG_INFO_NOT_AVAILABLE) else None)
    else if |text| == 33 then (if text == "CL_INVALID_DEVICE_PARTITION_COUNT" then Some(CL_INVALID_DEVICE_PARTITION_COUNT) else None)
    else if |text| == 34 then (if text == "CL_INVALID_IMAGE_FORMAT_DESCRIPTOR" then Some(CL_INVALID_IMAGE_FORMAT_DESCRIPTOR) else None)
    else if |text| == 44 then (if text == "CL_EXEC_STATUS_ERROR_FOR_EVENTS_IN_WAIT_LIST" then Some(CL_EXEC_STATUS_ERROR_FOR_EVENTS_IN_WAIT_LIST) else None)
    else None
  }

  lemma SymbolAt0()
    ensures SymbolStatus(TranslateOpenClError(CL_SUCCESS)) == Some(CL_SUCCESS)
  {
  }

  lemma SymbolAt1()
    ensures SymbolStatus(TranslateOpenClError(CL_DEVICE_NOT_FOUND)) == Some(CL_DEVICE_NOT_FOUND)
  {
  }

  lemma SymbolAt2()
    ensures SymbolStatus(TranslateOpenClError(CL_DEVICE_NOT_AVAILABLE)) == Some(CL_DEVICE_NOT_AVAILABLE)
  {
  }

  lemma SymbolAt3()
    ensures SymbolStatus(TranslateOpenClError(CL_COMPILER_NOT_AVAILABLE)) == Some(CL_COMPILER_NOT_AVAILABLE)
  {
  }

  lemma SymbolAt4()
    ensures SymbolStatus(TranslateOpenClError(CL_MEM_OBJECT_ALLOCATION_FAILURE)) == Some(CL_MEM_OBJECT_ALLOCATION_FAILURE)
  {
  }

  lemma SymbolAt5()
    ensures SymbolStatus(TranslateOpenClError(CL_OUT_OF_RESOURCES)) == Some(CL_OUT_OF_RESOURCES)
  {
  }

  lemma SymbolAt6()
    ensures SymbolStatus(TranslateOpenClError(CL_OUT_OF_HOST_MEMORY)) == Some(CL_OUT_OF_HOST_MEMORY)
  {
  }

  lemma SymbolAt7()
    ensures SymbolStatus(TranslateOpenClError(CL_PROFILING_INFO_NOT_AVAILABLE)) == Some(CL_PROFILING_INFO_NOT_AVAILABLE)
  {
  }

  lemma SymbolAt8()
    ensures SymbolStatus(TranslateOpenClError(CL_MEM_COPY_OVERLAP)) == Some(CL_MEM_COPY_OVERLAP)
  {
  }

  lemma SymbolAt9()
    ensures SymbolStatus(TranslateOpenClError(CL_IMAGE_FORMAT_MISMATCH)) == Some(CL_IMAGE_FORMAT_MISMATCH)
  {
  }

  lemma SymbolAt10()
    ensures SymbolStatus(TranslateOpenClError(CL_IMAGE_FORMAT_NOT_SUPPORTED)) == Some(CL_IMAGE_FORMAT_NOT_SUPPORTED)
  {
  }

  lemma SymbolAt11()
    ensures SymbolStatus(TranslateOpenClError(CL_BUILD_PROGRAM_FAILURE)) == Some(CL_BUILD_PROGRAM_FAILURE)
  {
  }

  lemma SymbolAt12()
    ensures SymbolStatus(TranslateOpenClError(CL_MAP_FAILURE)) == Some(CL_MAP_FAILURE)
  {
  }

  lemma SymbolAt13()
    ensures SymbolStatus(TranslateOpenClError(CL_MISALIGNED_SUB_BUFFER_OFFSET)) == Some(CL_MISALIGNED_SUB_BUFFER_OFFSET)
  {
  }

  lemma SymbolAt14()
    ensures SymbolStatus(TranslateOpenClError(CL_EXEC_STATUS_ERROR_FOR_EVENTS_IN_WAIT_LIST)) == Some(CL_EXEC_STATUS_ERROR_FOR_EVENTS_IN_WAIT_LIST)
  {
  }

  lemma SymbolAt15()
    ensures SymbolStatus(TranslateOpenClError(CL_COMPILE_PROGRAM_FAILURE)) == Some(CL_COMPILE_PROGRAM_FAILURE)
  {
  }

  lemma SymbolAt16()
    ensures SymbolStatus(TranslateOpenClError(CL_LINKER_NOT_AVAILABLE)) == Some(CL_LINKER_NOT_AVAILABLE)
  {
  }

  lemma SymbolAt17()
    ensures SymbolStatus(TranslateOpenClError(CL_LINK_PROGRAM_FAILURE)) == Some(CL_LINK_PROGRAM_FAILURE)
  {
  }

  lemma SymbolAt18()
    ensures SymbolStatus(TranslateOpenClError(CL_DEVICE_PARTITION_FAILED)) == Some(CL_DEVICE_PARTITION_FAILED)
  {
  }

  lemma SymbolAt19()
    ensures SymbolStatus(TranslateOpenClError(CL_KERNEL_ARG_INFO_NOT_AVAILABLE)) == Some(CL_KERNEL_ARG_INFO_NOT_AVAILABLE)
  {
  }

  lemma SymbolAt30()
    ensures SymbolStatus(TranslateOpenClError(CL_INVALID_VALUE)) == Some(CL_INVALID_VALUE)
  {
  }

  lemma SymbolAt31()
    ensures SymbolStatus(TranslateOpenClError(CL_INVALID_DEVICE_TYPE)) == Some(CL_INVALID_DEVICE_TYPE)
  {
  }

  lemma SymbolAt32()
    ensures SymbolStatus(TranslateOpenClError(CL_INVALID_PLATFORM)) == Some(CL_INVALID_PLATFORM)
  {
  }

  lemma SymbolAt33()
    ensures SymbolStatus(TranslateOpenClError(CL_INVALID_DEVICE)) == Some(CL_INVALID_DEVICE)
  {
  }

  lemma SymbolAt34()
    ensures SymbolStatus(TranslateOpenClError(CL_INVALID_CONTEXT)) == Some(CL_INVALID_CONTEXT)
  {
  }

  lemma SymbolAt35()
    ensures SymbolStatus(TranslateOpenClError(CL_INVALID_QUEUE_PROPERTIES)) == Some(CL_INVALID_QUEUE_PROPERTIES)
  {
  }

  lemma SymbolAt36()
    ensures SymbolStatus(TranslateOpenClError(CL_INVALID_COMMAND_QUEUE)) == Some(CL_INVALID_COMMAND_QUEUE)
  {
  }

  lemma SymbolAt37()
    ensures SymbolStatus(TranslateOpenClError(CL_INVALID_HOST_PTR)) == Some(CL_INVALID_HOST_PTR)
  {
  }

  lemma SymbolAt38()
    ensures SymbolStatus(TranslateOpenClError(CL_INVALID_MEM_OBJECT)) == Some(CL_INVALID_MEM_OBJECT)
  {
  }

  lemma SymbolAt39()
    ensures SymbolStatus(TranslateOpenClError(CL_INVALID_IMAGE_FORMAT_DESCRIPTOR)) == Some(CL_INVALID_IMAGE_FORMAT_DESCRIPTOR)
  {
  }

  lemma SymbolAt40()
    ensures SymbolStatus(TranslateOpenClError(CL_INVALID_IMAGE_SIZE)) == Some(CL_INVALID_IMAGE_SIZE)
  {
  }

  lemma SymbolAt41()
    ensures SymbolStatus(TranslateOpenClError(CL_INVALID_SAMPLER)) == Some(CL_INVALID_SAMPLER)
  {
  }

  lemma SymbolAt42()
    ensures SymbolStatus(TranslateOpenClError(CL_INVALID_BINARY)) == Some(CL_INVALID_BINARY)
  {
  }

  lemma SymbolAt43()
    ensures SymbolStatus(TranslateOpenClError(CL_INVALID_BUILD_OPTIONS)) == Some(CL_INVALID_BUILD_OPTIONS)
  {
  }

  lemma SymbolAt44()
    ensures SymbolStatus(TranslateOpenClError(CL_INVALID_PROGRAM)) == Some(CL_INVALID_PROGRAM)
  {
  }

  lemma SymbolAt45()
    ensures SymbolStatus(TranslateOpenClError(CL_INVALID_PROGRAM_EXECUTABLE)) == Some(CL_INVALID_PROGRAM_EXECUTABLE)
  {
  }

  lemma SymbolAt46()
    ensures SymbolStatus(TranslateOpenClError(CL_INVALID_KERNEL_NAME)) == Some(CL_INVALID_KERNEL_NAME)
  {
  }

  lemma SymbolAt47()
    ensures SymbolStatus(TranslateOpenClError(CL_INVALID_KERNEL_DEFINITION)) == Some(CL_INVALID_KERNEL_DEFINITION)
  {
  }

  lemma SymbolAt48()
    ensures SymbolStatus(TranslateOpenClError(CL_INVALID_KERNEL)) == Some(CL_INVALID_KERNEL)
  {
  }

  lemma SymbolAt49()
    ensures SymbolStatus(TranslateOpenClError(CL_INVALID_ARG_INDEX)) == Some(CL_INVALID_ARG_INDEX)
  {
  }

  lemma SymbolAt50()
    ensures SymbolStatus(TranslateOpenClError(CL_INVALID_ARG_VALUE)) == Some(CL_INVALID_ARG_VALUE)
  {
  }

  lemma SymbolAt51()
    ensures SymbolStatus(TranslateOpenClError(CL_INVALID_ARG_SIZE)) == Some(CL_INVALID_ARG_SIZE)
  {
  }

  lemma SymbolAt52()
    ensures SymbolStatus(TranslateOpenClError(CL_INVALID_KERNEL_ARGS)) == Some(CL_INVALID_KERNEL_ARGS)
  {
  }

  lemma SymbolAt53()
    ensures SymbolStatus(TranslateOpenClError(CL_INVALID_WORK_DIMENSION)) == Some(CL_INVALID_WORK_DIMENSION)
  {
  }

  lemma SymbolAt54()
    ensures SymbolStatus(TranslateOpenClError(CL_INVALID_WORK_GROUP_SIZE)) == Some(CL_INVALID_WORK_GROUP_SIZE)
  {
  }

  lemma SymbolAt55()
    ensures SymbolStatus(TranslateOpenClError(CL_INVALID_WORK_ITEM_SIZE)) == Some(CL_INVALID_WORK_ITEM_SIZE)
  {
  }

  lemma SymbolAt56()
    ensures SymbolStatus(TranslateOpenClError(CL_INVALID_GLOBAL_OFFSET)) == Some(CL_INVALID_GLOBAL_OFFSET)
  {
  }

  lemma SymbolAt57()
    ensures SymbolStatus(TranslateOpenClError(CL_INVALID_EVENT_WAIT_LIST)) == Some(CL_INVALID_EVENT_WAIT_LIST)
  {
  }

  lemma SymbolAt58()
    ensures SymbolStatus(TranslateOpenClError(CL_INVALID_EVENT)) == Some(CL_INVALID_EVENT)
  {
  }

  lemma SymbolAt59()
    ensures SymbolStatus(TranslateOpenClError(CL_INVALID_OPERATION)) == Some(CL_INVALID_OPERATION)
  {
  }

  lemma SymbolAt60()
    ensures SymbolStatus(TranslateOpenClError(CL_INVALID_GL_OBJECT)) == Some(CL_INVALID_GL_OBJECT)
  {
  }

  lemma SymbolAt61()
    ensures SymbolStatus(TranslateOpenClError(CL_INVALID_BUFFER_SIZE)) == Some(CL_INVALID_BUFFER_SIZE)
  {
  }

  lemma SymbolAt62()
    ensures SymbolStatus(TranslateOpenClError(CL_INVALID_MIP_LEVEL)) == Some(CL_INVALID_MIP_LEVEL)
  {
  }

  lemma SymbolAt63()
    ensures SymbolStatus(TranslateOpenClError(CL_INVALID_GLOBAL_WORK_SIZE)) == Some(CL_INVALID_GLOBAL_WORK_SIZE)
  {
  }

  lemma SymbolAt64()
    ensures SymbolStatus(TranslateOpenClError(CL_INVALID_PROPERTY)) == Some(CL_INVALID_PROPERTY)
  {
  }

  lemma SymbolAt65()
    ensures SymbolStatus(TranslateOpenClError(CL_INVALID_IMAGE_DESCRIPTOR)) == Some(CL_INVALID_IMAGE_DESCRIPTOR)
  {
  }

  lemma SymbolAt66()
    ensures SymbolStatus(TranslateOpenClError(CL_INVALID_COMPILER_OPTIONS)) == Some(CL_INVALID_COMPILER_OPTIONS)
  {
  }

  lemma SymbolAt67()
    ensures SymbolStatus(TranslateOpenClError(CL_INVALID_LINKER_OPTIONS)) == Some(CL_INVALID_LINKER_OPTIONS)
  {
  }

  lemma SymbolAt68()
    ensures SymbolStatus(TranslateOpenClError(CL_INVALID_DEVICE_PARTITION_COUNT)) == Some(CL_INVALID_DEVICE_PARTITION_COUNT)
  {
  }

  lemma SymbolAt69()
    ensures SymbolStatus(TranslateOpenClError(CL_INVALID_PIPE_SIZE)) == Some(CL_INVALID_PIPE_SIZE)
  {
  }

  lemma SymbolAt70()
    ensures SymbolStatus(TranslateOpenClError(CL_INVALID_DEVICE_QUEUE)) == Some(CL_INVALID_DEVICE_QUEUE)
  {
  }

  /** Every entry of TranslateOpenClError is recovered from its text. */
  lemma TranslateRoundTrip(status: int)
    requires HasSymbol(status)
    ensures SymbolStatus(TranslateOpenClError(status)) == Some(status)
  {
    if status == CL_SUCCESS {
      SymbolAt0();
    } else if status == CL_DEVICE_NOT_FOUND {
      SymbolAt1();
    } else if status == CL_DEVICE_NOT_AVAILABLE {
      SymbolAt2();
    } else if status == CL_COMPILER_NOT_AVAILABLE {
      SymbolAt3();
    } else if status == CL_MEM_OBJECT_ALLOCATION_FAILURE {
      SymbolAt4();
    } else if status == CL_OUT_OF_RESOURCES {
      SymbolAt5();
    } else if status == CL_OUT_OF_HOST_MEMORY {
      SymbolAt6();
    } else if status == CL_PROFILING_INFO_NOT_AVAILABLE {
      SymbolAt7();
    } else if status == CL_MEM_COPY_OVERLAP {
      SymbolAt8();
    } else if status == CL_IMAGE_FORMAT_MISMATCH {
      SymbolAt9();
    } else if status == CL_IMAGE_FORMAT_NOT_SUPPORTED {
      SymbolAt10();
    } else if status == CL_BUILD_PROGRAM_FAILURE {
      SymbolAt11();
    } else if status == CL_MAP_FAILURE {
      SymbolAt12();
    } else if status == CL_MISALIGNED_SUB_BUFFER_OFFSET {
      SymbolAt13();
    } else if status == CL_EXEC_STATUS_ERROR_FOR_EVENTS_IN_WAIT_LIST {
      SymbolAt14();
    } else if status == CL_COMPILE_PROGRAM_FAILURE {
      SymbolAt15();
    } else if status == CL_LINKER_NOT_AVAILABLE {
      SymbolAt16();
    } else if status == CL_LINK_PROGRAM_FAILURE {
      SymbolAt17();
    } else if status == CL_DEVICE_PARTITION_FAILED {
      SymbolAt18();
    } else if status == CL_KERNEL_ARG_INFO_NOT_AVAILABLE {
      SymbolAt19();
    } else if status == CL_INVALID_VALUE {
      SymbolAt30();
    } else if status == CL_INVALID_DEVICE_TYPE {
      SymbolAt31();
    } else if status == CL_INVALID_PLATFORM {
      SymbolAt32();
    } else if status == CL_INVALID_DEVICE {
      SymbolAt33();
    } else if status == CL_INVALID_CONTEXT {
      SymbolAt34();
    } else if status == CL_INVALID_QUEUE_PROPERTIES {
      SymbolAt35();
    } else if status == CL_INVALID_COMMAND_QUEUE {
      SymbolAt36();
    } else if status == CL_INVALID_HOST_PTR {
      SymbolAt37();
    } else if status == CL_INVALID_MEM_OBJECT {
      SymbolAt38();
    } else if status == CL_INVALID_IMAGE_FORMAT_DESCRIPTOR {
      SymbolAt39();
    } else if status == CL_INVALID_IMAGE_SIZE {
      SymbolAt40();
    } else if status == CL_INVALID_SAMPLER {
      SymbolAt41();
    } else if status == CL_INVALID_BINARY {
      SymbolAt42();
    } else if status == CL_INVALID_BUILD_OPTIONS {
      SymbolAt43();
    } else if status == CL_INVALID_PROGRAM {
      SymbolAt44();
    } else if status == CL_INVALID_PROGRAM_EXECUTABLE {
      SymbolAt45();
    } else if status == CL_INVALID_KERNEL_NAME {
      SymbolAt46();
    } else if status == CL_INVALID_KERNEL_DEFINITION {
      SymbolAt47();
    } else if status == CL_INVALID_KERNEL {
      SymbolAt48();
    } else if status == CL_INVALID_ARG_INDEX {
      SymbolAt49();
    } else if status == CL_INVALID_ARG_VALUE {
      SymbolAt50();
    } else if status == CL_INVALID_ARG_SIZE {
      SymbolAt51();
    } else if status == CL_INVALID_KERNEL_ARGS {
      SymbolAt52();
    } else if status == CL_INVALID_WORK_DIMENSION {
      SymbolAt53();
    } else if status == CL_INVALID_WORK_GROUP_SIZE {
      SymbolAt54();
    } else if status == CL_INVALID_WORK_ITEM_SIZE {
      SymbolAt55();
    } else if status == CL_INVALID_GLOBAL_OFFSET {
      SymbolAt56();
    } else if status == CL_INVALID_EVENT_WAIT_LIST {
      SymbolAt57();
    } else if status == CL_INVALID_EVENT {
      SymbolAt58();
    } else if status == CL_INVALID_OPERATION {
      SymbolAt59();
    } else if status == CL_INVALID_GL_OBJECT {
      SymbolAt60();
    } else if status == CL_INVALID_BUFFER_SIZE {
      SymbolAt61();
    } else if status == CL_INVALID_MIP_LEVEL {
      SymbolAt62();
    } else if status == CL_INVALID_GLOBAL_WORK_SIZE {
      SymbolAt63();
    } else if status == CL_INVALID_PROPERTY {
      SymbolAt64();
    } else if status == CL_INVALID_IMAGE_DESCRIPTOR {
      SymbolAt65();
    } else if status == CL_INVALID_COMPILER_OPTIONS {
      SymbolAt66();
    } else if status == CL_INVALID_LINKER_OPTIONS {
      SymbolAt67();
    } else if status == CL_INVALID_DEVICE_PARTITION_COUNT {
      SymbolAt68();
    } else if status == CL_INVALID_PIPE_SIZE {
      SymbolAt69();
    } else {
      assert status == CL_INVALID_DEVICE_QUEUE;
      SymbolAt70();
    }
  }

  /** The default text is produced exactly for the statuses without an entry. */
  lemma TranslateUnknown(status: int)
    ensures TranslateOpenClError(status) == "UNKNOWN ERROR CODE" <==> !HasSymbol(status)
  {
    if HasSymbol(status) {
      TranslateRoundTrip(status);
      assert SymbolStatus("UNKNOWN ERROR CODE") == None;
    }
  }

  /** Distinct listed statuses get distinct texts. */
  lemma TranslateInjective(a: int, b: int)
    requires HasSymbol(a)
    requires TranslateOpenClError(a) == TranslateOpenClError(b)
    ensures a == b
  {
    TranslateRoundTrip(a);
    TranslateUnknown(b);
    TranslateUnknown(a);
    TranslateRoundTrip(b);
  }

  /** The readable description of a status, as `get_error_string` phrases it. */
  function ErrorString(status: int): string {
    if status == CL_SUCCESS then "Success"
    else if status == CL_DEVICE_NOT_FOUND then "Device not found"
    else if status == CL_DEVICE_NOT_AVAILABLE then "Device not available"
    else if status == CL_COMPILER_NOT_AVAILABLE then "Compiler not available"
    else if status == CL_MEM_OBJECT_ALLOCATION_FAILURE then "Memory object allocation failure"
    else if status == CL_OUT_OF_RESOURCES then "Out of resources"
    else if status == CL_OUT_OF_HOST_MEMORY then "Out of host memory"
    else if status == CL_PROFILING_INFO_NOT_AVAILABLE then "Profiling information not available"
    else if status == CL_MEM_COPY_OVERLAP then "Memory copy overlap"
    else if status == CL_IMAGE_FORMAT_MISMATCH then "Image format mismatch"
    else if status == CL_IMAGE_FORMAT_NOT_SUPPORTED then "Image format not supported"
    else if status == CL_BUILD_PROGRAM_FAILURE then "Program build failure"
    else if status == CL_MAP_FAILURE then "Map failure"
    else if status == CL_INVALID_VALUE then "Invalid value"
    else if status == CL_INVALID_DEVICE_TYPE then "Invalid device type"
    else if status == CL_INVALID_PLATFORM then "Invalid platform"
    else if status == CL_INVALID_DEVICE then "Invalid device"
    else if status == CL_INVALID_CONTEXT then "Invalid context"
    else if status == CL_INVALID_QUEUE_PROPERTIES then "Invalid queue properties"
    else if status == CL_INVALID_COMMAND_QUEUE then "Invalid command queue"
    else if status == CL_INVALID_HOST_PTR then "Invalid host pointer"
    else if status == CL_INVALID_MEM_OBJECT then "Invalid memory object"
    else if status == CL_INVALID_IMAGE_FORMAT_DESCRIPTOR then "Invalid image format descriptor"
    else if status == CL_INVALID_IMAGE_SIZE then "Invalid image size"
    else if status == CL_INVALID_SAMPLER then "Invalid sampler"
    else if status == CL_INVALID_BINARY then "Invalid binary"
    else if status == CL_INVALID_BUILD_OPTIONS then "Invalid build options"
    else if status == CL_INVALID_PROGRAM then "Invalid program"
    else if status == CL_INVALID_PROGRAM_EXECUTABLE then "Invalid program executable"
    else if status == CL_INVALID_KERNEL_NAME then "Invalid kernel name"
    else if status == CL_INVALID_KERNEL_DEFINITION then "Invalid kernel definition"
    else if status == CL_INVALID_KERNEL then "Invalid kernel"
    else if status == CL_INVALID_ARG_INDEX then "Invalid argument index"
    else if status == CL_INVALID_ARG_VALUE then "Invalid argument value"
    else if status == CL_INVALID_ARG_SIZE then "Invalid argument size"
    else if status == CL_INVALID_KERNEL_ARGS then "Invalid kernel arguments"
    else if status == CL_INVALID_WORK_DIMENSION then "Invalid work dimension"
    else if status == CL_INVALID_WORK_GROUP_SIZE then "Invalid work group size"
    else if status == CL_INVALID_WORK_ITEM_SIZE then "Invalid work item size"
    else if status == CL_INVALID_GLOBAL_OFFSET then "Invalid global offset"
    else if status == CL_INVALID_EVENT_WAIT_LIST then "Invalid event wait list"
    else if status == CL_INVALID_EVENT then "Invalid event"
    else if status == CL_INVALID_OPERATION then "Invalid operation"
    else if status == CL_INVALID_GL_OBJECT then "Invalid OpenGL object"
    else if status == CL_INVALID_BUFFER_SIZE then "Invalid buffer size"
    else if status == CL_INVALID_MIP_LEVEL then "Invalid mip-map level"
    else "Unknown error"
  }

  /** The status codes ErrorString has an entry for: two contiguous ranges. */
  predicate HasDescription(status: int) {
    (CL_MAP_FAILURE <= status <= CL_SUCCESS) || (CL_INVALID_MIP_LEVEL <= status <= CL_INVALID_VALUE)
  }

  /** Inverse of ErrorString on its entries: the status whose text is `text`. */
  function DescriptionStatus(text: string): Option<int> {
    if |text| == 7 then (if text == "Success" then Some(CL_SUCCESS) else None)
    else if |text| == 11 then (if text == "Map failure" then Some(CL_MAP_FAILURE) else None)
    else if |text| == 13 then (if text == "Invalid value" then Some(CL_INVALID_VALUE) else if text == "Invalid event" then Some(CL_INVALID_EVENT) else None)
    else if |text| == 14 then (if text == "Invalid device" then Some(CL_INVALID_DEVICE) else if text == "Invalid binary" then Some(CL_INVALID_BINARY) else if text == "Invalid kernel" then Some(CL_INVALID_KERNEL) else None)
    else if |text| == 15 then (if text == "Invalid context" then Some(CL_INVALID_CONTEXT) else if text == "Invalid sampler" then Some(CL_INVALID_SAMPLER) else if text == "Invalid program" then Some(CL_INVALID_PROGRAM) else None)
    else if |text| == 16 then (if text == "Device not found" then Some(CL_DEVICE_NOT_FOUND) else if text == "Out of resources" then Some(CL_OUT_OF_RESOURCES) else if text == "Invalid platform" then Some(CL_INVALID_PLATFORM) else None)
    else if |text| == 17 then (if text == "Invalid operation" then Some(CL_INVALID_OPERATION) else None)
    else if |text| == 18 then (if text == "Out of host memory" then Some(CL_OUT_OF_HOST_MEMORY) else if text == "Invalid image size" then Some(CL_INVALID_IMAGE_SIZE) else None)
    else if |text| == 19 then (if text == "Memory copy overlap" then Some(CL_MEM_COPY_OVERLAP) else if text == "Invalid device type" then Some(CL_INVALID_DEVICE_TYPE) else if text == "Invalid kernel name" then Some(CL_INVALID_KERNEL_NAME) else if text == "Invalid buffer size" then Some(CL_INVALID_BUFFER_SIZE) else None)
    else if |text| == 20 then (if text == "Device not available" then Some(CL_DEVICE_NOT_AVAILABLE) else if text == "Invalid host pointer" then Some(CL_INVALID_HOST_PTR) else None)
    else if |text| == 21 then (if text == "Image format mismatch" then Some(CL_IMAGE_FORMAT_MISMATCH) else if text == "Program build failure" then Some(CL_BUILD_PROGRAM_FAILURE) else if text == "Invalid command queue" then Some(CL_INVALID_COMMAND_QUEUE) else if text == "Invalid memory object" then Some(CL_INVALID_MEM_OBJECT) else if text == "Invalid build options" then Some(CL_INVALID_BUILD_OPTIONS) else if text == "Invalid argument size" then Some(CL_INVALID_ARG_SIZE) else if text == "Invalid global offset" then Some(CL_INVALID_GLOBAL_OFFSET) else if text == "Invalid OpenGL object" then Some(CL_INVALID_GL_OBJECT) else if text == "Invalid mip-map level" then Some(CL_INVALID_MIP_LEVEL) else None)
    else if |text| == 22 then (if text == "Compiler not available" then Some(CL_COMPILER_NOT_AVAILABLE) else if text == "Invalid argument index" then Some(CL_INVALID_ARG_INDEX) else if text == "Invalid argument value" then Some(CL_INVALID_ARG_VALUE) else if text == "Invalid work dimension" then Some(CL_INVALID_WORK_DIMENSION) else if text == "Invalid work item size" then Some(CL_INVALID_WORK_ITEM_SIZE) else None)
    else if |text| == 23 then (if text == "Invalid work group size" then Some(CL_INVALID_WORK_GROUP_SIZE) else if text == "Invalid event wait list" then Some(CL_INVALID_EVENT_WAIT_LIST) else None)
    else if |text| == 24 then (if text == "Invalid queue properties" then Some(CL_INVALID_QUEUE_PROPERTIES) else if text == "Invalid kernel arguments" then Some(CL_INVALID_KERNEL_ARGS) else None)
    else if |text| == 25 then (if text == "Invalid kernel definition" then Some(CL_INVALID_KERNEL_DEFINITION) else None)
    else if |text| == 26 then (if text == "Image format not supported" then Some(CL_IMAGE_FORMAT_NOT_SUPPORTED) else if text == "Invalid program executable" then Some(CL_INVALID_PROGRAM_EXECUTABLE) else None)
    else if |text| == 31 then (if text == "Invalid image format descriptor" then Some(CL_INVALID_IMAGE_FORMAT_DESCRIPTOR) else None)
    else if |text| == 32 then (if text == "Memory object allocation failure" then Some(CL_MEM_OBJECT_ALLOCATION_FAILURE) else None)
    else if |text| == 35 then (if text == "Profiling information not available" then Some(CL_PROFILING_INFO_NOT_AVAILABLE) else None)
    else None
  }

  lemma DescriptionAt0()
    ensures DescriptionStatus(ErrorString(CL_SUCCESS)) == Some(CL_SUCCESS)
  {
  }

  lemma DescriptionAt1()
    ensures DescriptionStatus(ErrorString(CL_DEVICE_NOT_FOUND)) == Some(CL_DEVICE_NOT_FOUND)
  {
  }

  lemma DescriptionAt2()
    ensures DescriptionStatus(ErrorString(CL_DEVICE_NOT_AVAILABLE)) == Some(CL_DEVICE_NOT_AVAILABLE)
  {
  }

  lemma DescriptionAt3()
    ensures DescriptionStatus(ErrorString(CL_COMPILER_NOT_AVAILABLE)) == Some(CL_COMPILER_NOT_AVAILABLE)
  {
  }

  lemma DescriptionAt4()
    ensures DescriptionStatus(ErrorString(CL_MEM_OBJECT_ALLOCATION_FAILURE)) == Some(CL_MEM_OBJECT_ALLOCATION_FAILURE)
  {
  }

  lemma DescriptionAt5()
    ensures DescriptionStatus(ErrorString(CL_OUT_OF_RESOURCES)) == Some(CL_OUT_OF_RESOURCES)
  {
  }

  lemma DescriptionAt6()
    ensures DescriptionStatus(ErrorString(CL_OUT_OF_HOST_MEMORY)) == Some(CL_OUT_OF_HOST_MEMORY)
  {
  }

  lemma DescriptionAt7()
    ensures DescriptionStatus(ErrorString(CL_PROFILING_INFO_NOT_AVAILABLE)) == Some(CL_PROFILING_INFO_NOT_AVAILABLE)
  {
  }

  lemma DescriptionAt8()
    ensures DescriptionStatus(ErrorString(CL_MEM_COPY_OVERLAP)) == Some(CL_MEM_COPY_OVERLAP)
  {
  }

  lemma DescriptionAt9()
    ensures DescriptionStatus(ErrorString(CL_IMAGE_FORMAT_MISMATCH)) == Some(CL_IMAGE_FORMAT_MISMATCH)
  {
  }

  lemma DescriptionAt10()
    ensures DescriptionStatus(ErrorString(CL_IMAGE_FORMAT_NOT_SUPPORTED)) == Some(CL_IMAGE_FORMAT_NOT_SUPPORTED)
  {
  }

  lemma DescriptionAt11()
    ensures DescriptionStatus(ErrorString(CL_BUILD_PROGRAM_FAILURE)) == Some(CL_BUILD_PROGRAM_FAILURE)
  {
  }

  lemma DescriptionAt12()
    ensures DescriptionStatus(ErrorString(CL_MAP_FAILURE)) == Some(CL_MAP_FAILURE)
  {
  }

  lemma DescriptionAt30()
    ensures DescriptionStatus(ErrorString(CL_INVALID_VALUE)) == Some(CL_INVALID_VALUE)
  {
  }

  lemma DescriptionAt31()
    ensures DescriptionStatus(ErrorString(CL_INVALID_DEVICE_TYPE)) == Some(CL_INVALID_DEVICE_TYPE)
  {
  }

  lemma DescriptionAt32()
    ensures DescriptionStatus(ErrorString(CL_INVALID_PLATFORM)) == Some(CL_INVALID_PLATFORM)
  {
  }

  lemma DescriptionAt33()
    ensures DescriptionStatus(ErrorString(CL_INVALID_DEVICE)) == Some(CL_INVALID_DEVICE)
  {
  }

  lemma DescriptionAt34()
    ensures DescriptionStatus(ErrorString(CL_INVALID_CONTEXT)) == Some(CL_INVALID_CONTEXT)
  {
  }

  lemma DescriptionAt35()
    ensures DescriptionStatus(ErrorString(CL_INVALID_QUEUE_PROPERTIES)) == Some(CL_INVALID_QUEUE_PROPERTIES)
  {
  }

  lemma DescriptionAt36()
    ensures DescriptionStatus(ErrorString(CL_INVALID_COMMAND_QUEUE)) == Some(CL_INVALID_COMMAND_QUEUE)
  {
  }

  lemma DescriptionAt37()
    ensures DescriptionStatus(ErrorString(CL_INVALID_HOST_PTR)) == Some(CL_INVALID_HOST_PTR)
  {
  }

  lemma DescriptionAt38()
    ensures DescriptionStatus(ErrorString(CL_INVALID_MEM_OBJECT)) == Some(CL_INVALID_MEM_OBJECT)
  {
  }

  lemma DescriptionAt39()
    ensures DescriptionStatus(ErrorString(CL_INVALID_IMAGE_FORMAT_DESCRIPTOR)) == Some(CL_INVALID_IMAGE_FORMAT_DESCRIPTOR)
  {
  }

  lemma DescriptionAt40()
    ensures DescriptionStatus(ErrorString(CL_INVALID_IMAGE_SIZE)) == Some(CL_INVALID_IMAGE_SIZE)
  {
  }

  lemma DescriptionAt41()
    ensures DescriptionStatus(ErrorString(CL_INVALID_SAMPLER)) == Some(CL_INVALID_SAMPLER)
  {
  }

  lemma DescriptionAt42()
    ensures DescriptionStatus(ErrorString(CL_INVALID_BINARY)) == Some(CL_INVALID_BINARY)
  {
  }

  lemma DescriptionAt43()
    ensures DescriptionStatus(ErrorString(CL_INVALID_BUILD_OPTIONS)) == Some(CL_INVALID_BUILD_OPTIONS)
  {
  }

  lemma DescriptionAt44()
    ensures DescriptionStatus(ErrorString(CL_INVALID_PROGRAM)) == Some(CL_INVALID_PROGRAM)
  {
  }

  lemma DescriptionAt45()
    ensures DescriptionStatus(ErrorString(CL_INVALID_PROGRAM_EXECUTABLE)) == Some(CL_INVALID_PROGRAM_EXECUTABLE)
  {
  }

  lemma DescriptionAt46()
    ensures DescriptionStatus(ErrorString(CL_INVALID_KERNEL_NAME)) == Some(CL_INVALID_KERNEL_NAME)
  {
  }

  lemma DescriptionAt47()
    ensures DescriptionStatus(ErrorString(CL_INVALID_KERNEL_DEFINITION)) == Some(CL_INVALID_KERNEL_DEFINITION)
  {
  }

  lemma DescriptionAt48()
    ensures DescriptionStatus(ErrorString(CL_INVALID_KERNEL)) == Some(CL_INVALID_KERNEL)
  {
  }

  lemma DescriptionAt49()
    ensures DescriptionStatus(ErrorString(CL_INVALID_ARG_INDEX)) == Some(CL_INVALID_ARG_INDEX)
  {
  }

  lemma DescriptionAt50()
    ensures DescriptionStatus(ErrorString(CL_INVALID_ARG_VALUE)) == Some(CL_INVALID_ARG_VALUE)
  {
  }

  lemma DescriptionAt51()
    ensures DescriptionStatus(ErrorString(CL_INVALID_ARG_SIZE)) == Some(CL_INVALID_ARG_SIZE)
  {
  }

  lemma DescriptionAt52()
    ensures DescriptionStatus(ErrorString(CL_INVALID_KERNEL_ARGS)) == Some(CL_INVALID_KERNEL_ARGS)
  {
  }

  lemma DescriptionAt53()
    ensures DescriptionStatus(ErrorString(CL_INVALID_WORK_DIMENSION)) == Some(CL_INVALID_WORK_DIMENSION)
  {
  }

  lemma DescriptionAt54()
    ensures DescriptionStatus(ErrorString(CL_INVALID_WORK_GROUP_SIZE)) == Some(CL_INVALID_WORK_GROUP_SIZE)
  {
  }

  lemma DescriptionAt55()
    ensures DescriptionStatus(ErrorString(CL_INVALID_WORK_ITEM_SIZE)) == Some(CL_INVALID_WORK_ITEM_SIZE)
  {
  }

  lemma DescriptionAt56()
    ensures DescriptionStatus(ErrorString(CL_INVALID_GLOBAL_OFFSET)) == Some(CL_INVALID_GLOBAL_OFFSET)
  {
  }

  lemma DescriptionAt57()
    ensures DescriptionStatus(ErrorString(CL_INVALID_EVENT_WAIT_LIST)) == Some(CL_INVALID_EVENT_WAIT_LIST)
  {
  }

  lemma DescriptionAt58()
    ensures DescriptionStatus(ErrorString(CL_INVALID_EVENT)) == Some(CL_INVALID_EVENT)
  {
  }

  lemma DescriptionAt59()
    ensures DescriptionStatus(ErrorString(CL_INVALID_OPERATION)) == Some(CL_INVALID_OPERATION)
  {
  }

  lemma DescriptionAt60()
    ensures DescriptionStatus(ErrorString(CL_INVALID_GL_OBJECT)) == Some(CL_INVALID_GL_OBJECT)
  {
  }

  lemma DescriptionAt61()
    ensures DescriptionStatus(ErrorString(CL_INVALID_BUFFER_SIZE)) == Some(CL_INVALID_BUFFER_SIZE)
  {
  }

  lemma DescriptionAt62()
    ensures DescriptionStatus(ErrorString(CL_INVALID_MIP_LEVEL)) == Some(CL_INVALID_MIP_LEVEL)
  {
  }

  /** Every entry of ErrorString is recovered from its text. */
  lemma ErrorStringRoundTrip(status: int)
    requires HasDescription(status)
    ensures DescriptionStatus(ErrorString(status)) == Some(status)
  {
    if status == CL_SUCCESS {
      DescriptionAt0();
    } else if status == CL_DEVICE_NOT_FOUND {
      DescriptionAt1();
    } else if status == CL_DEVICE_NOT_AVAILABLE {
      DescriptionAt2();
    } else if status == CL_COMPILER_NOT_AVAILABLE {
      DescriptionAt3();
    } else if status == CL_MEM_OBJECT_ALLOCATION_FAILURE {
      DescriptionAt4();
    } else if status == CL_OUT_OF_RESOURCES {
      DescriptionAt5();
    } else if status == CL_OUT_OF_HOST_MEMORY {
      DescriptionAt6();
    } else if status == CL_PROFILING_INFO_NOT_AVAILABLE {
      DescriptionAt7();
    } else if status == CL_MEM_COPY_OVERLAP {
      DescriptionAt8();
    } else if status == CL_IMAGE_FORMAT_MISMATCH {
      DescriptionAt9();
    } else if status == CL_IMAGE_FORMAT_NOT_SUPPORTED {
      DescriptionAt10();
    } else if status == CL_BUILD_PROGRAM_FAILURE {
      DescriptionAt11();
    } else if status == CL_MAP_FAILURE {
      DescriptionAt12();
    } else if status == CL_INVALID_VALUE {
      DescriptionAt30();
    } else if status == CL_INVALID_DEVICE_TYPE {
      DescriptionAt31();
    } else if status == CL_INVALID_PLATFORM {
      DescriptionAt32();
    } else if status == CL_INVALID_DEVICE {
      DescriptionAt33();
    } else if status == CL_INVALID_CONTEXT {
      DescriptionAt34();
    } else if status == CL_INVALID_QUEUE_PROPERTIES {
      DescriptionAt35();
    } else if status == CL_INVALID_COMMAND_QUEUE {
      DescriptionAt36();
    } else if status == CL_INVALID_HOST_PTR {
      DescriptionAt37();
    } else if status == CL_INVALID_MEM_OBJECT {
      DescriptionAt38();
    } else if status == CL_INVALID_IMAGE_FORMAT_DESCRIPTOR {
      DescriptionAt39();
    } else if status == CL_INVALID_IMAGE_SIZE {
      DescriptionAt40();
    } else if status == CL_INVALID_SAMPLER {
      DescriptionAt41();
    } else if status == CL_INVALID_BINARY {
      DescriptionAt42();
    } else if status == CL_INVALID_BUILD_OPTIONS {
      DescriptionAt43();
    } else if status == CL_INVALID_PROGRAM {
      DescriptionAt44();
    } else if status == CL_INVALID_PROGRAM_EXECUTABLE {
      DescriptionAt45();
    } else if status == CL_INVALID_KERNEL_NAME {
      DescriptionAt46();
    } else if status == CL_INVALID_KERNEL_DEFINITION {
      DescriptionAt47();
    } else if status == CL_INVALID_KERNEL {
      DescriptionAt48();
    } else if status == CL_INVALID_ARG_INDEX {
      DescriptionAt49();
    } else if status == CL_INVALID_ARG_VALUE {
      DescriptionAt50();
    } else if status == CL_INVALID_ARG_SIZE {
      DescriptionAt51();
    } else if status == CL_INVALID_KERNEL_ARGS {
      DescriptionAt52();
    } else if status == CL_INVALID_WORK_DIMENSION {
      DescriptionAt53();
    } else if status == CL_INVALID_WORK_GROUP_SIZE {
      DescriptionAt54();
    } else if status == CL_INVALID_WORK_ITEM_SIZE {
      DescriptionAt55();
    } else if status == CL_INVALID_GLOBAL_OFFSET {
      DescriptionAt56();
    } else if status == CL_INVALID_EVENT_WAIT_LIST {
      DescriptionAt57();
    } else if status == CL_INVALID_EVENT {
      DescriptionAt58();
    } else if status == CL_INVALID_OPERATION {
      DescriptionAt59();
    } else if status == CL_INVALID_GL_OBJECT {
      DescriptionAt60();
    } else if status == CL_INVALID_BUFFER_SIZE {
      DescriptionAt61();
    } else {
      assert status == CL_INVALID_MIP_LEVEL;
      DescriptionAt62();
    }
  }

  /** The default text is produced exactly for the statuses without an entry. */
  lemma ErrorStringUnknown(status: int)
    ensures ErrorString(status) == "Unknown error" <==> !HasDescription(status)
  {
    if HasDescription(status) {
      ErrorStringRoundTrip(status);
      assert DescriptionStatus("Unknown error") == None;
    }
  }

  /** Distinct listed statuses get distinct texts. */
  lemma ErrorStringInjective(a: int, b: int)
    requires HasDescription(a)
    requires ErrorString(a) == ErrorString(b)
    ensures a == b
  {
    ErrorStringRoundTrip(a);
    ErrorStringUnknown(b);
    ErrorStringUnknown(a);
    ErrorStringRoundTrip(b);
  }

}
