/** Device records, the three groups of columns they are stored in, and desired writes. */
module DeviceTypes {
  import opened Wrappers

  type DeviceId = string
  type Time = int

  datatype Presence = Online | Offline

  datatype DeviceType = CnsBox | FlightController

  datatype DeviceRecord = DeviceRecord(
    device: DeviceId,
    schoolId: int,
    schoolName: string,
    dcdwLabel: Option<string>,
    model: string,
    status: Presence,
    lastSeen: Option<Time>,
    telemetry: Option<string>,
    telemetryAt: Option<Time>,
    revision: nat,
    deviceType: DeviceType,
    capabilities: Option<seq<string>>,
    product: Option<string>,
    version: Option<string>)

  /** The column groups a write may carry. `last_seen_at` travels with Status but is not compared. */
  datatype Group = Metadata | Status | Telemetry

  datatype Content =
    | MetadataContent(dcdwLabel: Option<string>, capabilities: Option<seq<string>>, product: Option<string>,
                      version: Option<string>)
    | StatusContent(status: Presence)
    | TelemetryContent(telemetry: Option<string>, at: Option<Time>)

  function ContentOf(record: DeviceRecord, group: Group): Content {
    match group
    case Metadata => MetadataContent(record.dcdwLabel, record.capabilities, record.product, record.version)
    case Status => StatusContent(record.status)
    case Telemetry => TelemetryContent(record.telemetry, record.telemetryAt)
  }

  datatype Urgency = Immediate | TelemetryBatch

  datatype DeviceWrite = DeviceWrite(
    record: DeviceRecord,
    revision: nat,
    writeMetadata: bool,
    writeStatus: bool,
    writeTelemetry: bool,
    urgency: Urgency)
  {
    predicate Flags(group: Group) {
      match group
      case Metadata => writeMetadata
      case Status => writeStatus
      case Telemetry => writeTelemetry
    }
  }

  datatype Registration = Registration(
    device: DeviceId,
    online: bool,
    schoolName: Option<string>,
    dcdwLabel: Option<string>,
    deviceType: DeviceType,
    capabilities: Option<seq<string>>,
    product: Option<string>,
    version: Option<string>)

  /** A telemetry message; `payload` is the whole JSON object. */
  datatype Report = Report(payload: string, dcdwLabel: Option<string>, deviceType: Option<DeviceType>)

  /** What the database thread reports to the device business thread. */
  datatype DatabaseResult =
    | Provisioned(device: DeviceId, record: DeviceRecord)
    | WriteCompleted(device: DeviceId, revision: nat)
    | DatabaseUnavailable(device: DeviceId, revision: nat)
    | DatabaseRecovered
    | PermanentFailure(failed: Option<DeviceId>, revision: nat)
}
