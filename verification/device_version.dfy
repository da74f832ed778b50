/** `get_device_version` of `cl_utils.cpp`: the device reports
    "OpenCL <major>.<minor> <vendor text>" and the driver "<major>.<minor>...";
    both are read with `sscanf("%d.%d")` and combined. */
module DeviceVersion {
  import opened Basics
  import opened ClStatus
  import opened ClMacros
  import opened CText

  datatype Version = Version(major: int, minor: int)

  /** The answer of one `clGetDeviceInfo` text query (an oracle). */
  datatype InfoQuery = InfoQuery(status: int, text: string)

  /** `sscanf(s, "%d.%d", &major, &minor) == 2`: an integer, a literal '.',
      then another integer (which may again be preceded by white space). */
  function ScanVersion(s: string): (r: Option<Version>)
    ensures r.Some? ==> ScanInt(s).Some?
    ensures r.Some? ==> r.value.major == ScanInt(s).value.value
  {
    match ScanInt(s)
    case None => None
    case Some(first) =>
      var rest := s[first.consumed..];
      if |rest| == 0 || rest[0] != '.' then None
      else
        match ScanInt(rest[1..])
        case None => None
        case Some(second) => Some(Version(first.value, second.value))
  }

  /** The usual spelling of a version, e.g. "1.2". */
  function FormatVersion(major: nat, minor: nat): string {
    NatToString(major) + "." + NatToString(minor)
  }

  /** A version spelled as digits, '.', digits scans to those two numbers. */
  lemma ScanVersionOfDigits(majorText: string, minorText: string, rest: string)
    requires |majorText| > 0 && AllDigits(majorText)
    requires |minorText| > 0 && AllDigits(minorText)
    requires rest == [] || !IsDigit(rest[0])
    ensures ScanVersion(majorText + "." + minorText + rest)
         == Some(Version(DigitsValue(majorText), DigitsValue(minorText)))
  {
    var tail := "." + minorText + rest;
    var s := majorText + tail;
    SpellingParts(majorText, minorText, rest);
    ScanIntOfDigits(majorText, tail);
    var first := Scanned(DigitsValue(majorText), |majorText|);
    assert ScanInt(s) == Some(first);
    assert s[first.consumed..] == tail;
    ScanIntOfDigits(minorText, rest);
    var second := Scanned(DigitsValue(minorText), |minorText|);
    assert ScanInt(tail[1..]) == Some(second);
  }

  /** How the spelling of a version splits around its '.'. */
  lemma SpellingParts(majorText: string, minorText: string, rest: string)
    ensures majorText + "." + minorText + rest == majorText + ("." + minorText + rest)
    ensures ("." + minorText + rest)[1..] == minorText + rest
  {
  }

  /** Reading a spelled-out version back gives the same version. */
  lemma ScanFormattedVersion(major: nat, minor: nat, rest: string)
    requires rest == [] || !IsDigit(rest[0])
    ensures ScanVersion(FormatVersion(major, minor) + rest) == Some(Version(major, minor))
  {
    ScanVersionOfDigits(NatToString(major), NatToString(minor), rest);
    DigitsValueOfNatToString(major);
    DigitsValueOfNatToString(minor);
  }

  /** The device's version: the text after the first space (`strchr(' ')`). */
  function DeviceVersionText(text: string): (r: Option<Version>)
    ensures ' ' !in text ==> r.None?
  {
    match FindChar(text, ' ')
    case None => None
    case Some(space) => ScanVersion(text[space + 1..])
  }

  /** Both queries succeed and both version strings scan. */
  predicate ReadsBoth(device: Handle, deviceQuery: InfoQuery, driverQuery: InfoQuery) {
    && device != Null && deviceQuery.status == CL_SUCCESS && DeviceVersionText(deviceQuery.text).Some?
    && driverQuery.status == CL_SUCCESS && ScanVersion(driverQuery.text).Some?
  }

  /** Both queries and both scans, stopping at the first failure. */
  function ReadVersions(device: Handle, deviceQuery: InfoQuery, driverQuery: InfoQuery): (r: Flow<(Version, Version)>)
    ensures r.Return? ==> r.status != CL_SUCCESS
    ensures r.Continue? <==> ReadsBoth(device, deviceQuery, driverQuery)
    ensures r.Continue? ==>
      r.value == (DeviceVersionText(deviceQuery.text).value, ScanVersion(driverQuery.text).value)
    ensures device == Null ==> r == Return(CL_INVALID_VALUE)
    ensures device != Null && deviceQuery.status != CL_SUCCESS ==> r == Return(deviceQuery.status)
    ensures device != Null && deviceQuery.status == CL_SUCCESS ==>
      if DeviceVersionText(deviceQuery.text).None? then r == Return(CL_INVALID_VALUE)
      else if driverQuery.status != CL_SUCCESS then r == Return(driverQuery.status)
      else if ScanVersion(driverQuery.text).None? then r == Return(CL_INVALID_VALUE)
      else r == Continue((DeviceVersionText(deviceQuery.text).value, ScanVersion(driverQuery.text).value))
  {
    var _ :- CheckValue(device == Null, CL_INVALID_VALUE);
    var _ :- SafeOclCall(deviceQuery.status);
    var _ :- CheckValue(FindChar(deviceQuery.text, ' ').None?, CL_INVALID_VALUE);
    var deviceVersion := DeviceVersionText(deviceQuery.text);
    var _ :- CheckValue(deviceVersion.None?, CL_INVALID_VALUE);
    var _ :- SafeOclCall(driverQuery.status);
    var driverVersion := ScanVersion(driverQuery.text);
    var _ :- CheckValue(driverVersion.None?, CL_INVALID_VALUE);
    Continue((deviceVersion.value, driverVersion.value))
  }

  /** What the caller sees: the status and the contents of `*major` and
      `*minor` (`None` for a null pointer). */
  datatype VersionReport = VersionReport(status: int, major: Option<int>, minor: Option<int>)

  /** Model of `get_device_version` as written: the major numbers and the
      minor numbers are minimised independently. */
  function GetDeviceVersion(
    device: Handle, major: Option<int>, minor: Option<int>,
    deviceQuery: InfoQuery, driverQuery: InfoQuery): (r: VersionReport)
    // any failure leaves -1 in both outputs
    ensures r.status != CL_SUCCESS ==> r.major == SafePtrSet(major, -1) && r.minor == SafePtrSet(minor, -1)
    ensures device == Null ==> r.status == CL_INVALID_VALUE
    ensures device != Null && deviceQuery.status != CL_SUCCESS ==> r.status == deviceQuery.status
    ensures device != Null && deviceQuery.status == CL_SUCCESS && DeviceVersionText(deviceQuery.text).None? ==>
      r.status == CL_INVALID_VALUE
    ensures device != Null && deviceQuery.status == CL_SUCCESS && DeviceVersionText(deviceQuery.text).Some? ==>
      if driverQuery.status != CL_SUCCESS then r.status == driverQuery.status
      else if ScanVersion(driverQuery.text).None? then r.status == CL_INVALID_VALUE
      else
        var dev, drv := DeviceVersionText(deviceQuery.text).value, ScanVersion(driverQuery.text).value;
        && r.status == CL_SUCCESS
        && r.major == SafePtrSet(major, Min(dev.major, drv.major))
        && r.minor == SafePtrSet(minor, Min(dev.minor, drv.minor))
  {
    var versions := ReadVersions(device, deviceQuery, driverQuery);
    if versions.Return? then VersionReport(versions.status, SafePtrSet(major, -1), SafePtrSet(minor, -1))
    else
      var dev, drv := versions.value.0, versions.value.1;
      VersionReport(CL_SUCCESS,
        SafePtrSet(major, Min(dev.major, drv.major)),
        SafePtrSet(minor, Min(dev.minor, drv.minor)))
  }

  /** End to end: a well-formed device string "OpenCL a.b <vendor>" and
      driver string "c.d..." yield min(a, c) and min(b, d). */
  lemma DeviceVersionOfReportedStrings(
    devMajor: nat, devMinor: nat, vendor: string,
    drvMajor: nat, drvMinor: nat, drvRest: string, id: nat)
    requires drvRest == [] || !IsDigit(drvRest[0])
    ensures var r := GetDeviceVersion(Object(id), Some(0), Some(0),
                                      InfoQuery(CL_SUCCESS, "OpenCL " + FormatVersion(devMajor, devMinor) + " " + vendor),
                                      InfoQuery(CL_SUCCESS, FormatVersion(drvMajor, drvMinor) + drvRest));
      r == VersionReport(CL_SUCCESS, Some(Min(devMajor, drvMajor)), Some(Min(devMinor, drvMinor)))
  {
    var text := "OpenCL " + FormatVersion(devMajor, devMinor) + " " + vendor;
    assert text[..6] == "OpenCL" && text[6] == ' ';
    assert FindChar(text, ' ') == Some(6);
    assert text[7..] == FormatVersion(devMajor, devMinor) + (" " + vendor);
    ScanFormattedVersion(devMajor, devMinor, " " + vendor);
    ScanFormattedVersion(drvMajor, drvMinor, drvRest);
  }

  /** The componentwise minimum can be a version that neither side reported:
      a 2.0 device behind a 1.2 driver is reported as 1.0. */
  lemma ComponentwiseMinimumInventsVersion(id: nat)
    ensures var r := GetDeviceVersion(Object(id), Some(0), Some(0),
                                      InfoQuery(CL_SUCCESS, "OpenCL 2.0 vendor"),
                                      InfoQuery(CL_SUCCESS, "1.2"));
      r == VersionReport(CL_SUCCESS, Some(1), Some(0))
  {
    DeviceVersionOfReportedStrings(2, 0, "vendor", 1, 2, "", id);
    SampleSpellings();
  }

  lemma SampleSpellings()
    ensures "OpenCL " + FormatVersion(2, 0) + " " + "vendor" == "OpenCL 2.0 vendor"
    ensures FormatVersion(1, 2) + "" == "1.2"
  {
    assert NatToString(0) == "0" && NatToString(1) == "1" && NatToString(2) == "2";
  }

  /** `a` is strictly older than `b`. */
  predicate Older(a: Version, b: Version) {
    a.major < b.major || (a.major == b.major && a.minor < b.minor)
  }

  /** The older of two versions, compared as (major, minor) pairs. */
  function OldestVersion(a: Version, b: Version): (r: Version)
    ensures r == a || r == b
    ensures !Older(a, r) && !Older(b, r)
  {
    if Older(b, a) then b else a
  }

  /** `get_device_version` with the combination its comment asks for: the
      smallest (oldest) of the two reported versions. */
  function GetOldestDeviceVersion(
    device: Handle, major: Option<int>, minor: Option<int>,
    deviceQuery: InfoQuery, driverQuery: InfoQuery): (r: VersionReport)
    // any failure leaves -1 in both outputs
    ensures !ReadsBoth(device, deviceQuery, driverQuery) ==>
      r.status != CL_SUCCESS && r.major == SafePtrSet(major, -1) && r.minor == SafePtrSet(minor, -1)
    // on success the report is one of the two versions and is older than neither
    ensures ReadsBoth(device, deviceQuery, driverQuery) ==>
      var dev, drv := DeviceVersionText(deviceQuery.text).value, ScanVersion(driverQuery.text).value;
      && r.status == CL_SUCCESS && r.major.Some? == major.Some? && r.minor.Some? == minor.Some?
      && (major.Some? && minor.Some? ==>
            var v := Version(r.major.value, r.minor.value);
            (v == dev || v == drv) && !Older(dev, v) && !Older(drv, v))
  {
    var versions := ReadVersions(device, deviceQuery, driverQuery);
    if versions.Return? then VersionReport(versions.status, SafePtrSet(major, -1), SafePtrSet(minor, -1))
    else
      var oldest := OldestVersion(versions.value.0, versions.value.1);
      VersionReport(CL_SUCCESS, SafePtrSet(major, oldest.major), SafePtrSet(minor, oldest.minor))
  }

  /** The two readings fail alike and always agree on the major number, the
      only component the work-size calibration looks at. */
  lemma OldestAgreesOnMajor(
    device: Handle, major: Option<int>, minor: Option<int>,
    deviceQuery: InfoQuery, driverQuery: InfoQuery)
    ensures var asWritten := GetDeviceVersion(device, major, minor, deviceQuery, driverQuery);
            var oldest := GetOldestDeviceVersion(device, major, minor, deviceQuery, driverQuery);
            asWritten.status == oldest.status && asWritten.major == oldest.major
  {
    var versions := ReadVersions(device, deviceQuery, driverQuery);
    if versions.Continue? {
      var dev, drv := versions.value.0, versions.value.1;
      assert OldestVersion(dev, drv).major == Min(dev.major, drv.major);
    }
  }
}
