/** The platform-selection loop of `init_context` (`cl_utils.cpp`): walk the
    platforms in order and keep the first one on which a context can be
    created for its first device. */
module ContextInit {
  import opened Basics
  import opened ClStatus
  import opened ClMacros

  /** What the OpenCL runtime answers while one platform is tried: the
      status of the device-count query, the devices of the requested type,
      the status of the device-list query, and the outcome of
      `clCreateContext`.  The list query and the context are only asked for
      when there is at least one device. */
  datatype PlatformProbe = PlatformProbe(
    platform: Handle,
    countStatus: int,
    devices: seq<Handle>,
    listStatus: int,
    contextStatus: int,
    context: Handle)

  /** The platform is passed over and the loop goes on. */
  predicate PassesOver(p: PlatformProbe) {
    p.countStatus == CL_SUCCESS
    && (|p.devices| == 0 || (p.listStatus == CL_SUCCESS && p.contextStatus != CL_SUCCESS))
  }

  /** A context is created on this platform and the loop stops. */
  predicate Selects(p: PlatformProbe) {
    p.countStatus == CL_SUCCESS && |p.devices| > 0 && p.listStatus == CL_SUCCESS && p.contextStatus == CL_SUCCESS
  }

  /** A device query fails and the function returns its status at once. */
  predicate Aborts(p: PlatformProbe) {
    p.countStatus != CL_SUCCESS || (|p.devices| > 0 && p.listStatus != CL_SUCCESS)
  }

  /** The status of the query that aborts on this platform. */
  function AbortStatus(p: PlatformProbe): int
    requires Aborts(p)
  {
    if p.countStatus != CL_SUCCESS then p.countStatus else p.listStatus
  }

  lemma ProbeOutcomes(p: PlatformProbe)
    ensures PassesOver(p) || Selects(p) || Aborts(p)
    ensures !(PassesOver(p) && Selects(p)) && !(PassesOver(p) && Aborts(p)) && !(Selects(p) && Aborts(p))
  {
  }

  /** The caller-visible state: the returned status, the contents of
      `*platform`, `*device`, `*context` (`None` for a null pointer), and
      whether the host arrays of platform and device ids were left
      allocated (an early return skips the two `SAFE_FREE`s). */
  datatype InitOutcome = InitOutcome(
    status: int,
    platform: Option<Handle>,
    device: Option<Handle>,
    context: Option<Handle>,
    leaksHostArrays: bool)

  /** The `for` loop over the platforms, from the current one on. */
  function SelectPlatform(probes: seq<PlatformProbe>, state: InitOutcome): (r: InitOutcome)
    // platform and device change only for a platform that is selected
    ensures r.platform != state.platform || r.device != state.device ==>
      exists k | 0 <= k < |probes| ::
        && Selects(probes[k])
        && r.platform == SafePtrSet(state.platform, probes[k].platform)
        && r.device == SafePtrSet(state.device, probes[k].devices[0])
    // platforms without devices never touch the context
    ensures (forall j | 0 <= j < |probes| :: probes[j].countStatus == CL_SUCCESS && |probes[j].devices| == 0) ==>
      r == state
    decreases |probes|
  {
    if |probes| == 0 then state
    else
      var p := probes[0];
      if p.countStatus != CL_SUCCESS then state.(status := p.countStatus, leaksHostArrays := true)
      else if |p.devices| == 0 then SelectPlatform(probes[1..], state)
      else if p.listStatus != CL_SUCCESS then state.(status := p.listStatus, leaksHostArrays := true)
      else
        var attempted := state.(context := SafePtrSet(state.context, p.context));
        if p.contextStatus == CL_SUCCESS then
          attempted.(platform := SafePtrSet(state.platform, p.platform), device := SafePtrSet(state.device, p.devices[0]))
        else SelectPlatform(probes[1..], attempted)
  }

  /** When every platform is passed over, the state changes only in the
      context slot, which holds the last failed attempt. */
  lemma {:induction false} AllPassedOver(probes: seq<PlatformProbe>, state: InitOutcome)
    requires forall j | 0 <= j < |probes| :: PassesOver(probes[j])
    ensures var r := SelectPlatform(probes, state);
      && r.status == state.status && r.platform == state.platform && r.device == state.device
      && r.leaksHostArrays == state.leaksHostArrays
      && (r.context == state.context || exists j | 0 <= j < |probes| :: r.context == SafePtrSet(state.context, probes[j].context))
    decreases |probes|
  {
    if |probes| > 0 {
      var p := probes[0];
      assert forall j | 0 <= j < |probes[1..]| :: probes[1..][j] == probes[j + 1];
      var next := if |p.devices| == 0 then state else state.(context := SafePtrSet(state.context, p.context));
      AllPassedOver(probes[1..], next);
      var r := SelectPlatform(probes[1..], next);
      if r.context != next.context {
        var j :| 0 <= j < |probes[1..]| && r.context == SafePtrSet(next.context, probes[1..][j].context);
        assert r.context == SafePtrSet(state.context, probes[j + 1].context);
      } else if |p.devices| > 0 {
        assert r.context == SafePtrSet(state.context, probes[0].context);
      }
    }
  }

  /** The first platform that is not passed over decides the outcome. */
  lemma {:induction false} FirstDecisiveProbe(probes: seq<PlatformProbe>, state: InitOutcome, k: nat)
    requires k < |probes|
    requires forall j | 0 <= j < k :: PassesOver(probes[j])
    ensures var r := SelectPlatform(probes, state);
      && (Selects(probes[k]) ==>
            && r.status == state.status
            && r.platform == SafePtrSet(state.platform, probes[k].platform)
            && r.device == SafePtrSet(state.device, probes[k].devices[0])
            && r.context == SafePtrSet(state.context, probes[k].context)
            && r.leaksHostArrays == state.leaksHostArrays)
      && (Aborts(probes[k]) ==>
            && r.status == AbortStatus(probes[k])
            && r.platform == state.platform && r.device == state.device
            && r.leaksHostArrays)
  {
    if k > 0 {
      var p := probes[0];
      assert PassesOver(p);
      assert forall j | 0 <= j < k - 1 :: probes[1..][j] == probes[j + 1];
      var next := if |p.devices| == 0 then state else state.(context := SafePtrSet(state.context, p.context));
      FirstDecisiveProbe(probes[1..], next, k - 1);
      assert probes[1..][k - 1] == probes[k];
    }
  }

  /** Model of `init_context`.  The platform list and one probe per
      platform are oracle answers. */
  function InitContext(
    platform: Option<Handle>, device: Option<Handle>, context: Option<Handle>,
    countStatus: int, listStatus: int, probes: seq<PlatformProbe>): (r: InitOutcome)
    ensures context == None ==> r == InitOutcome(CL_INVALID_VALUE, platform, device, context, false)
    ensures context != None && countStatus != CL_SUCCESS ==> r.status == countStatus && !r.leaksHostArrays
    ensures context != None && countStatus == CL_SUCCESS && |probes| == 0 ==> r.status == CL_INVALID_VALUE
    ensures context != None && countStatus == CL_SUCCESS && |probes| > 0 && listStatus != CL_SUCCESS ==>
      r.status == listStatus && r.leaksHostArrays
    // platform and device are written only for a selected platform
    ensures r.platform != platform || r.device != device ==>
      exists k | 0 <= k < |probes| ::
        && Selects(probes[k])
        && r.platform == SafePtrSet(platform, probes[k].platform)
        && r.device == SafePtrSet(device, probes[k].devices[0])
    // having no usable platform is not an error
    ensures context != None && countStatus == CL_SUCCESS && |probes| > 0 && listStatus == CL_SUCCESS
            && (forall j | 0 <= j < |probes| :: PassesOver(probes[j])) ==>
      r.status == CL_SUCCESS && r.platform == platform && r.device == device && !r.leaksHostArrays
    ensures context != None && countStatus == CL_SUCCESS && listStatus == CL_SUCCESS ==>
      forall k | 0 <= k < |probes| && (forall j | 0 <= j < k :: PassesOver(probes[j])) && Selects(probes[k]) ::
        && r.status == CL_SUCCESS
        && r.platform == SafePtrSet(platform, probes[k].platform)
        && r.device == SafePtrSet(device, probes[k].devices[0])
        && r.context == Some(probes[k].context)
  {
    var start := InitOutcome(CL_SUCCESS, platform, device, context, false);
    var noContext := CheckValue(context.None?, CL_INVALID_VALUE);
    if noContext.Return? then start.(status := noContext.status)
    else
      var counted := SafeOclCall(countStatus);
      if counted.Return? then start.(status := counted.status)
      else
        var none := CheckValue(|probes| == 0, CL_INVALID_VALUE);
        if none.Return? then start.(status := none.status)
        else
          var listed := SafeOclCall(listStatus);
          if listed.Return? then start.(status := listed.status, leaksHostArrays := true)
          else
            AllPassedOverFrom(probes, start);
            FirstDecisiveFrom(probes, start);
            SelectPlatform(probes, start)
  }

  /** `AllPassedOver` from the loop's start, stated for `InitContext`. */
  lemma AllPassedOverFrom(probes: seq<PlatformProbe>, state: InitOutcome)
    ensures (forall j | 0 <= j < |probes| :: PassesOver(probes[j])) ==>
      var r := SelectPlatform(probes, state);
      r.status == state.status && r.platform == state.platform && r.device == state.device
      && r.leaksHostArrays == state.leaksHostArrays
  {
    if forall j | 0 <= j < |probes| :: PassesOver(probes[j]) {
      AllPassedOver(probes, state);
    }
  }

  /** `FirstDecisiveProbe` for every platform at once. */
  lemma FirstDecisiveFrom(probes: seq<PlatformProbe>, state: InitOutcome)
    ensures forall k | 0 <= k < |probes| && (forall j | 0 <= j < k :: PassesOver(probes[j])) && Selects(probes[k]) ::
      var r := SelectPlatform(probes, state);
      && r.status == state.status
      && r.platform == SafePtrSet(state.platform, probes[k].platform)
      && r.device == SafePtrSet(state.device, probes[k].devices[0])
      && r.context == SafePtrSet(state.context, probes[k].context)
  {
    forall k | 0 <= k < |probes| && (forall j | 0 <= j < k :: PassesOver(probes[j])) && Selects(probes[k]) {
      FirstDecisiveProbe(probes, state, k);
    }
  }
}
