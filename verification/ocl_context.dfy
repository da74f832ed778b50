/** Platform selection (`find_open_cl_platform`, `check_preferred_platform_match`)
    as written in `ocl_context.cpp` and, identically, in `ocl_args.cpp`. */
module PlatformSelection {
  import opened Basics
  import opened ClStatus
  import opened CText

  /** The two `clGetPlatformInfo(CL_PLATFORM_NAME)` calls: the length query,
      the content query and the name they deliver (oracle answers). */
  datatype NameQuery = NameQuery(lengthStatus: int, nameStatus: int, name: string)

  /** Model of `check_preferred_platform_match`: a case-sensitive substring
      test; a failed name query counts as no match. */
  function CheckPreferredPlatformMatch(query: NameQuery, preferred: string): (r: bool)
    ensures r <==>
      && query.lengthStatus == CL_SUCCESS && query.nameStatus == CL_SUCCESS
      && exists i :: OccursAt(query.name, preferred, i)
  {
    ContainsOccurrence(query.name, preferred);
    if query.lengthStatus != CL_SUCCESS then false
    else if query.nameStatus != CL_SUCCESS then false
    else Contains(query.name, preferred)
  }

  /** What the runtime says about one platform during the search: its
      handle, its name queries, and the device count it reports (the count
      query's status is only logged, so it does not take part). */
  datatype PlatformEntry = PlatformEntry(platform: Handle, name: NameQuery, numDevices: nat)

  /** A null or empty preference accepts every platform. */
  predicate NamePasses(entry: PlatformEntry, preferred: Option<string>) {
    preferred.None? || |preferred.value| == 0 || CheckPreferredPlatformMatch(entry.name, preferred.value)
  }

  predicate Eligible(entry: PlatformEntry, preferred: Option<string>) {
    NamePasses(entry, preferred) && entry.numDevices != 0
  }

  /** The index the `for` loop stops at, searching from `from` on. */
  function FirstEligible(entries: seq<PlatformEntry>, preferred: Option<string>, from: nat): (r: Option<nat>)
    requires from <= |entries|
    ensures r.Some? ==>
      && from <= r.value < |entries| && Eligible(entries[r.value], preferred)
      && forall j | from <= j < r.value :: !Eligible(entries[j], preferred)
    ensures r.None? ==> forall j | from <= j < |entries| :: !Eligible(entries[j], preferred)
    decreases |entries| - from
  {
    if from == |entries| then None
    else if Eligible(entries[from], preferred) then Some(from)
    else FirstEligible(entries, preferred, from + 1)
  }

  /** Model of `find_open_cl_platform`: the first platform whose name passes
      and that reports a device; null when a listing query fails, when there
      are no platforms, or when none qualifies. */
  function FindOpenClPlatform(
    preferred: Option<string>, countStatus: int, listStatus: int, entries: seq<PlatformEntry>): (r: Handle)
    ensures countStatus != CL_SUCCESS || |entries| == 0 || listStatus != CL_SUCCESS ==> r == Null
    ensures (forall j | 0 <= j < |entries| :: !Eligible(entries[j], preferred)) ==> r == Null
    ensures countStatus == CL_SUCCESS && listStatus == CL_SUCCESS ==>
      forall k | 0 <= k < |entries| && Eligible(entries[k], preferred)
                 && (forall j | 0 <= j < k :: !Eligible(entries[j], preferred)) ::
        r == entries[k].platform
  {
    if countStatus != CL_SUCCESS then Null
    else if |entries| == 0 then Null
    else if listStatus != CL_SUCCESS then Null
    else
      match FirstEligible(entries, preferred, 0)
      case None => Null
      case Some(k) => entries[k].platform
  }

  /** Whatever platform is found has a name containing the preference (when
      one is given) and at least one device. */
  lemma FoundPlatformQualifies(
    preferred: Option<string>, countStatus: int, listStatus: int, entries: seq<PlatformEntry>)
    requires forall j | 0 <= j < |entries| :: entries[j].platform != Null
    ensures var r := FindOpenClPlatform(preferred, countStatus, listStatus, entries);
      r != Null ==>
        exists k | 0 <= k < |entries| ::
          && r == entries[k].platform && entries[k].numDevices > 0
          && (preferred.Some? && |preferred.value| > 0 ==>
                exists i :: OccursAt(entries[k].name.name, preferred.value, i))
  {
    var r := FindOpenClPlatform(preferred, countStatus, listStatus, entries);
    if r != Null {
      var k := FirstEligible(entries, preferred, 0).value;
      assert r == entries[k].platform;
    }
  }
}

/** The context, device and queue set-up of `setup_open_cl` and the
    version-tier probe `get_platform_and_device_version`. */
module ContextSetup {
  import opened Basics
  import opened ClStatus
  import opened CText
  import opened PlatformSelection

  /** The two version levels the sample distinguishes. */
  datatype Tier = Tier1_2 | Tier2_0

  /** The platform, device and OpenCL C compiler version tiers of a session. */
  datatype Versions = Versions(platform: Tier, device: Tier, compiler: Tier)

  /** A length query followed by a content query for one info string. */
  datatype TextQuery = TextQuery(lengthStatus: int, contentStatus: int, text: string)

  /** The first failing status of a text query, if any. */
  function QueryStatus(q: TextQuery): int {
    if q.lengthStatus != CL_SUCCESS then q.lengthStatus else q.contentStatus
  }

  /** A tier is raised to 2.0 when the text mentions the marker, and kept otherwise. */
  function Raise(tier: Tier, text: string, marker: string): (r: Tier)
    ensures r == Tier2_0 <==> tier == Tier2_0 || exists i :: OccursAt(text, marker, i)
  {
    ContainsOccurrence(text, marker);
    if Contains(text, marker) then Tier2_0 else tier
  }

  const PLATFORM_MARKER: string := "OpenCL 2.0"
  const COMPILER_MARKER: string := "OpenCL C 2.0"

  /** The status returned and the tiers left in the session. */
  datatype TierProbe = TierProbe(status: int, versions: Versions)

  /** Model of `get_platform_and_device_version`: platform, device and
      compiler strings are queried in that order; the first failing query
      ends the probe and leaves the later tiers as they were. */
  function GetPlatformAndDeviceVersion(
    platformQuery: TextQuery, deviceQuery: TextQuery, compilerQuery: TextQuery, versions: Versions): (r: TierProbe)
    // no tier is ever lowered
    ensures versions.platform == Tier2_0 ==> r.versions.platform == Tier2_0
    ensures versions.device == Tier2_0 ==> r.versions.device == Tier2_0
    ensures versions.compiler == Tier2_0 ==> r.versions.compiler == Tier2_0
    ensures QueryStatus(platformQuery) != CL_SUCCESS ==>
      r == TierProbe(QueryStatus(platformQuery), versions)
    ensures QueryStatus(platformQuery) == CL_SUCCESS ==>
      r.versions.platform == Raise(versions.platform, platformQuery.text, PLATFORM_MARKER)
    ensures QueryStatus(platformQuery) == CL_SUCCESS && QueryStatus(deviceQuery) != CL_SUCCESS ==>
      r.status == QueryStatus(deviceQuery) && r.versions.device == versions.device
      && r.versions.compiler == versions.compiler
    ensures QueryStatus(platformQuery) == CL_SUCCESS && QueryStatus(deviceQuery) == CL_SUCCESS ==>
      && r.versions.device == Raise(versions.device, deviceQuery.text, PLATFORM_MARKER)
      && r.status == QueryStatus(compilerQuery)
      && r.versions.compiler ==
           if QueryStatus(compilerQuery) == CL_SUCCESS then Raise(versions.compiler, compilerQuery.text, COMPILER_MARKER)
           else versions.compiler
  {
    if QueryStatus(platformQuery) != CL_SUCCESS then TierProbe(QueryStatus(platformQuery), versions)
    else
      var v1 := versions.(platform := Raise(versions.platform, platformQuery.text, PLATFORM_MARKER));
      if QueryStatus(deviceQuery) != CL_SUCCESS then TierProbe(QueryStatus(deviceQuery), v1)
      else
        var v2 := v1.(device := Raise(v1.device, deviceQuery.text, PLATFORM_MARKER));
        if QueryStatus(compilerQuery) != CL_SUCCESS then TierProbe(QueryStatus(compilerQuery), v2)
        else TierProbe(CL_SUCCESS, v2.(compiler := Raise(v2.compiler, compilerQuery.text, COMPILER_MARKER)))
  }

  /** Only the literal "OpenCL 2.0" raises a tier: a device reporting
      OpenCL 2.1 keeps the 1.2 tier. */
  lemma LaterVersionKeepsLegacyTier()
    ensures Raise(Tier1_2, "OpenCL 2.1", PLATFORM_MARKER) == Tier1_2
  {
    assert !Contains("OpenCL 2.1", PLATFORM_MARKER) by {
      var text := "OpenCL 2.1";
      assert !(PLATFORM_MARKER <= text) by { assert text[9] != PLATFORM_MARKER[9]; }
      assert forall k | 1 <= k <= |text| :: |text[k..]| < |PLATFORM_MARKER|;
      assert !Contains(text[1..], PLATFORM_MARKER) by { ShortTextLacks(text[1..], PLATFORM_MARKER); }
    }
  }

  /** A text shorter than the pattern does not contain it. */
  lemma {:induction false} ShortTextLacks(text: string, pattern: string)
    requires |text| < |pattern|
    ensures !Contains(text, pattern)
  {
    if |text| > 0 {
      ShortTextLacks(text[1..], pattern);
    }
  }

  /** The OpenCL calls `setup_open_cl` makes after choosing a platform. */
  datatype SetupCall =
    | CreateContextFromType(platform: Handle)
    | GetContextDevices
    | ProbeVersions
    | CreateQueueWithProperties
    | CreateQueue

  /** The runtime's answers to those calls (oracle values). */
  datatype SetupOracle = SetupOracle(
    contextStatus: int, context: Handle,
    devicesStatus: int, device: Handle,
    platformQuery: TextQuery, deviceQuery: TextQuery, compilerQuery: TextQuery,
    queueStatus: int, queue: Handle)

  /** The session fields `setup_open_cl` writes. */
  datatype Session = Session(context: Handle, device: Handle, queue: Handle, versions: Versions)

  datatype SetupOutcome = SetupOutcome(status: int, session: Session, calls: seq<SetupCall>)

  /** Model of `setup_open_cl` (with `CL_VERSION_2_0` defined): find a
      platform, create a context on it, read its device, probe the version
      tiers (the probe's status is ignored) and create a profiling queue,
      using the properties-array call only for a 2.0 device. */
  function SetupOpenCl(
    session: Session, preferred: Option<string>,
    countStatus: int, listStatus: int, entries: seq<PlatformEntry>, oracle: SetupOracle): (r: SetupOutcome)
    ensures FindOpenClPlatform(preferred, countStatus, listStatus, entries) == Null ==>
      r == SetupOutcome(CL_INVALID_VALUE, session, [])
    ensures FindOpenClPlatform(preferred, countStatus, listStatus, entries) != Null ==>
      && |r.calls| >= 1
      && r.calls[0] == CreateContextFromType(FindOpenClPlatform(preferred, countStatus, listStatus, entries))
      && r.session.context == oracle.context
    ensures |r.calls| >= 1 && (oracle.contextStatus != CL_SUCCESS || oracle.context == Null) ==>
      r.status == oracle.contextStatus && |r.calls| == 1 && r.session == session.(context := oracle.context)
    ensures |r.calls| >= 1 && oracle.contextStatus == CL_SUCCESS && oracle.context != Null
            && oracle.devicesStatus != CL_SUCCESS ==>
      r.status == oracle.devicesStatus && r.calls[1..] == [GetContextDevices] && r.session.queue == session.queue
    // the queue is created after a successful device query, and its kind
    // follows the device tier alone
    ensures |r.calls| >= 1 && oracle.contextStatus == CL_SUCCESS && oracle.context != Null
            && oracle.devicesStatus == CL_SUCCESS ==>
      var probe := GetPlatformAndDeviceVersion(oracle.platformQuery, oracle.deviceQuery, oracle.compilerQuery, session.versions);
      && r.session == Session(oracle.context, oracle.device, oracle.queue, probe.versions)
      && r.calls[1..] == [GetContextDevices, ProbeVersions,
                          if probe.versions.device == Tier2_0 then CreateQueueWithProperties else CreateQueue]
      && r.status == oracle.queueStatus
  {
    var platform := FindOpenClPlatform(preferred, countStatus, listStatus, entries);
    if platform == Null then SetupOutcome(CL_INVALID_VALUE, session, [])
    else
      var withContext := session.(context := oracle.context);
      var calls := [CreateContextFromType(platform)];
      if oracle.contextStatus != CL_SUCCESS || oracle.context == Null then
        SetupOutcome(oracle.contextStatus, withContext, calls)
      else if oracle.devicesStatus != CL_SUCCESS then
        SetupOutcome(oracle.devicesStatus, withContext, calls + [GetContextDevices])
      else
        var probe := GetPlatformAndDeviceVersion(oracle.platformQuery, oracle.deviceQuery, oracle.compilerQuery, session.versions);
        var queueCall := if probe.versions.device == Tier2_0 then CreateQueueWithProperties else CreateQueue;
        var status := if oracle.queueStatus != CL_SUCCESS then oracle.queueStatus else CL_SUCCESS;
        SetupOutcome(status,
          Session(oracle.context, oracle.device, oracle.queue, probe.versions),
          calls + [GetContextDevices, ProbeVersions, queueCall])
  }

  /** A null context delivered together with a success status is returned
      as success, with no queue created. */
  lemma NullContextReportsSuccess(
    session: Session, preferred: Option<string>,
    countStatus: int, listStatus: int, entries: seq<PlatformEntry>, oracle: SetupOracle)
    requires FindOpenClPlatform(preferred, countStatus, listStatus, entries) != Null
    requires oracle.contextStatus == CL_SUCCESS && oracle.context == Null
    ensures var r := SetupOpenCl(session, preferred, countStatus, listStatus, entries, oracle);
      r.status == CL_SUCCESS && r.session.context == Null && r.session.queue == session.queue
      && CreateQueue !in r.calls && CreateQueueWithProperties !in r.calls
  {
  }

  /** The vector-add sample's `setup_open_cl` (`ocl_args.cpp`): the same
      steps with the preference fixed to "Intel", so a context is only ever
      created on a platform whose name contains "Intel". */
  function SetupIntelOpenCl(
    session: Session, countStatus: int, listStatus: int, entries: seq<PlatformEntry>, oracle: SetupOracle): (r: SetupOutcome)
    requires forall j | 0 <= j < |entries| :: entries[j].platform != Null
    ensures |r.calls| >= 1 ==>
      exists k | 0 <= k < |entries| ::
        && r.calls[0] == CreateContextFromType(entries[k].platform)
        && entries[k].numDevices > 0
        && exists i :: OccursAt(entries[k].name.name, "Intel", i)
    ensures |r.calls| == 0 ==> r.status == CL_INVALID_VALUE && r.session == session
  {
    FoundPlatformQualifies(Some("Intel"), countStatus, listStatus, entries);
    SetupOpenCl(session, Some("Intel"), countStatus, listStatus, entries, oracle)
  }
}
