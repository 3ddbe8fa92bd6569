/**
 * The already-decoded report bundle, in the shape its XML schema gives it.
 * Structs that only wrap a single list (`Devices`, `Details`, `States`,
 * `Limits`, `Reports`, `Items`, `Assets`, `Results`) are flattened into that
 * list or record.
 */
module RawIpaReport {
  import opened Wrappers

  datatype Bundle = Bundle(
    version: string,
    devices: seq<Device>,
    states: seq<State>,
    reports: seq<Report>)

  datatype Device = Device(
    serialNumber: string,
    model: string,
    details: seq<DeviceDetails>)

  datatype DeviceDetails = DeviceDetails(
    id: string,
    swVersions: string,
    calDate: string,
    signature: string)

  /** A calibration state; DTF states carry the optional sweep fields, RL states omit them. */
  datatype State = State(
    id: string,
    testType: string,
    rxKhz: Option<string>,
    points: string,
    distanceM: Option<string>,
    vf: Option<string>,
    window: Option<string>,
    cableLossDbPerM: Option<string>,
    limits: seq<Limit>)

  datatype Limit = Limit(
    limitType: string,
    measurementType: string,
    unit: string,
    name: string,
    range: Option<string>,
    reference: string)

  datatype Report = Report(
    id: string,
    peakPimDbm: string,
    peakPimPowerSetPointDbm: string,
    testPassed: string,
    tests: seq<Test>)

  datatype Test = Test(
    id: string,
    stateId: string,
    time: string,
    calibrated: string,
    assets: seq<string>,
    tags: seq<Tag>,
    result: TestResult)

  datatype Tag = Tag(tag: string)

  datatype TestResult = TestResult(
    measurementType: string,
    unit: string,
    p1: string,
    p2: string,
    maximum: string,
    minimum: string,
    average: string,
    ripple: string,
    pass: string)
}
