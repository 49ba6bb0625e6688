/**
 * The outbound commands a cluster builds: the ZCL general command frames
 * (Read Attributes, Write Attributes, Configure Reporting, Read Reporting
 * Configuration, Discover Attributes, Discover Commands Received/Generated,
 * Default Response) and the ZDO Bind_req / Unbind_req requests.
 *
 * Only the fields the cluster layer fills in are modelled; the frame layout
 * belongs to the codec.
 */
module ZclCommands {
  import opened ZclTypes

  /** The direction flag of a ZCL frame. */
  datatype Direction = ClientToServer | ServerToClient

  /**
   * The direction a general command carries when it is created, before
   * `send` looks at the cluster's role.
   */
  const BuiltDirection: Direction := ClientToServer

  /** A Write Attributes record: identifier, data type and the value to write (None for null). */
  datatype WriteAttributeRecord =
    WriteAttributeRecord(attributeIdentifier: int, attributeDataType: DataType, attributeValue: Option<Value>)

  /**
   * A Configure Reporting record (section 2.5.7 of the ZigBee Cluster
   * Library specification). `reportableChange` is None where the stack
   * passes null (discrete attributes).
   */
  datatype ReportingConfigurationRecord = ReportingConfigurationRecord(
    direction: int,
    attributeIdentifier: int,
    attributeDataType: DataType,
    minimumReportingInterval: int,
    maximumReportingInterval: int,
    reportableChange: Option<Value>,
    timeoutPeriod: int)

  /** A Read Reporting Configuration record: direction and attribute identifier. */
  datatype AttributeRecord = AttributeRecord(direction: int, attributeIdentifier: int)

  /** The command-specific part of a ZCL command. */
  datatype Payload =
    | ReadAttributes(identifiers: seq<int>)
    | WriteAttributes(writeRecords: seq<WriteAttributeRecord>)
    | ConfigureReporting(reportingRecords: seq<ReportingConfigurationRecord>)
    | ReadReportingConfiguration(attributeRecords: seq<AttributeRecord>)
    | DiscoverAttributes(startAttributeIdentifier: int, maximumAttributeIdentifiers: int)
    | DiscoverCommandsReceived(startCommandIdentifier: int, maximumCommandIdentifiers: int)
    | DiscoverCommandsGenerated(startCommandIdentifier: int, maximumCommandIdentifiers: int)
    | DefaultResponse(commandIdentifier: int, statusCode: ZclStatus)

  /** A ZCL command as it is handed to the transport. */
  datatype ZclCommand = ZclCommand(
    clusterId: int,
    destinationAddress: EndpointAddress,
    commandDirection: Direction,
    payload: Payload)

  /** Which of the two ZDO binding requests. */
  datatype BindingKind = BindRequest | UnbindRequest

  /**
   * A ZDO Bind_req or Unbind_req (section 2.4.3.2 of the ZigBee
   * Specification). `dstAddrMode` 3 means a 64-bit IEEE destination address
   * with a destination endpoint.
   */
  datatype BindingRequest = BindingRequest(
    kind: BindingKind,
    srcAddress: IeeeAddress,
    srcEndpoint: int,
    clusterId: int,
    dstAddrMode: int,
    dstAddress: IeeeAddress,
    dstEndpoint: int)
}
