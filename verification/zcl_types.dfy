/**
 * Values shared by every part of the ZigBee Cluster Library cluster layer.
 *
 * The stack carries several objects whose inner structure this layer never
 * looks at (an attribute value, a ZCL data-type tag, an IEEE address, a
 * listener). Each is a single-field datatype here: the only thing the
 * cluster layer does with them is store, copy and compare them.
 */
module ZclTypes {

  /** Java's null, where the cluster layer lets one through. */
  datatype Option<+T> = None | Some(value: T)

  /** An untyped attribute value object, as carried by reports and records. */
  datatype Value = Value(token: int)

  /** A ZCL primitive data-type tag (the stack's data-type enumeration). */
  datatype DataType = DataType(tag: int)

  /** A ZCL status code as sent in a Default Response. */
  datatype ZclStatus = ZclStatus(code: int)

  /** A 64-bit IEEE (extended) address of a node. */
  datatype IeeeAddress = IeeeAddress(bits: int)

  /** The network address of one endpoint on one node. */
  datatype EndpointAddress = EndpointAddress(networkAddress: int, endpoint: int)

  /** The remote endpoint a cluster instance belongs to: the three things the cluster reads from it. */
  datatype Endpoint = Endpoint(address: EndpointAddress, ieeeAddress: IeeeAddress, endpointId: int)

  /** An attribute listener, identified by its object identity. */
  datatype Listener = Listener(identity: int)

  /**
   * An attribute holder: identifier, declared data type and name are fixed,
   * the last known value changes (None until a value has been received,
   * and again whenever a null value is stored).
   */
  datatype Attribute = Attribute(id: int, dataType: DataType, name: string, value: Option<Value>)

  /** One record of an incoming Report Attributes command; the value object may be null (None). */
  datatype AttributeReport = AttributeReport(attributeIdentifier: int, attributeValue: Option<Value>)

  /**
   * One record of a Read Attributes Response: identifier, status code and
   * value. A record with a non-zero status carries no value (None).
   */
  datatype ReadAttributeStatusRecord =
    ReadAttributeStatusRecord(attributeIdentifier: int, status: int, attributeValue: Option<Value>)

  /**
   * One listener callback handed to the notification executor: `listener`
   * is told that the attribute with identifier `attributeId` was updated.
   */
  datatype Notification = Notification(listener: Listener, attributeId: int)
}
