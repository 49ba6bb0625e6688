/**
 * One ZCL cluster instance bound to a remote endpoint: its attribute
 * registry, its listener registry, its client/server role, the commands it
 * builds and dispatches, and the ingestion of incoming attribute data.
 *
 * The transport is not modelled. Each command operation returns the command
 * exactly as it is handed to the transport; listener callbacks, which the
 * stack submits to a notification executor, are appended to the
 * `notifications` log in submission order.
 */
module ZclClusterModel {
  import opened ZclTypes
  import opened ZclCommands
  import opened ListenerRegistry
  import opened ReportIngestion

  class Cluster {
    const clusterId: int
    const clusterName: string
    /** The endpoint this cluster belongs to; never reassigned. */
    const endpoint: Endpoint

    /** True when the remote side is a client, which reverses command direction. */
    var isClient: bool
    /** The attribute registry, keyed by attribute identifier. */
    var attributes: map<int, Attribute>
    /** Registered listeners, in registration order. */
    var attributeListeners: seq<Listener>
    /** Every listener callback submitted so far, oldest first. */
    var notifications: seq<Notification>

    /**
     * The listener registry never holds the same listener twice, and every
     * attribute holder is registered under its own identifier (so there is
     * at most one holder per identifier).
     */
    ghost predicate Valid()
      reads this
    {
      && NoDuplicates(attributeListeners)
      && KeyedById(attributes)
    }

    /**
     * A new cluster: a server, no listeners, and the attribute set the
     * concrete cluster type defines.
     */
    constructor (clusterId: int, clusterName: string, endpoint: Endpoint,
                 initialAttributes: map<int, Attribute>)
      requires KeyedById(initialAttributes)
      ensures Valid()
      ensures this.clusterId == clusterId && this.clusterName == clusterName
      ensures this.endpoint == endpoint
      ensures !isClient && attributes == initialAttributes
      ensures attributeListeners == [] && notifications == []
    {
      this.clusterId := clusterId;
      this.clusterName := clusterName;
      this.endpoint := endpoint;
      isClient := false;
      attributes := initialAttributes;
      attributeListeners := [];
      notifications := [];
    }

    // ---------------------------------------------------------------
    // Role

    /** Marks the cluster as a server (listed in the input cluster list). */
    method SetServer()
      modifies this`isClient
      ensures !isClient
    {
      isClient := false;
    }

    /** Marks the cluster as a client (listed in the output cluster list). */
    method SetClient()
      modifies this`isClient
      ensures isClient
    {
      isClient := true;
    }

    /**
     * A caller's run of role setter calls, made one after another: the flag
     * ends as `RoleAfter` says, so `LastRoleCallDecides` applies to it.
     */
    method ApplyRoleCalls(calls: seq<RoleCall>)
      modifies this`isClient
      ensures isClient == RoleAfter(old(isClient), calls)
    {
      var i := 0;
      while i < |calls|
        invariant 0 <= i <= |calls|
        invariant RoleAfter(isClient, calls[i..]) == RoleAfter(old(isClient), calls)
      {
        assert calls[i..][1..] == calls[i + 1..];
        if calls[i] == SetClientCall {
          SetClient();
        } else {
          SetServer();
        }
        i := i + 1;
      }
      assert calls[i..] == [];
    }

    function IsClient(): (r: bool)
      reads this
      ensures r <==> isClient
    {
      isClient
    }

    /** Server and client are the two values of one flag. */
    function IsServer(): (r: bool)
      reads this
      ensures r <==> !IsClient()
    {
      !isClient
    }

    // ---------------------------------------------------------------
    // Dispatch

    /**
     * Prepares a command for the transport: the destination becomes this
     * cluster's endpoint, and the direction becomes server-to-client exactly
     * when the cluster is a client; nothing else is touched.
     */
    function Send(command: ZclCommand): (r: ZclCommand)
      reads this
      ensures r.destinationAddress == endpoint.address
      ensures isClient ==> r.commandDirection == ServerToClient
      ensures !isClient ==> r.commandDirection == command.commandDirection
      ensures r.clusterId == command.clusterId && r.payload == command.payload
    {
      var addressed := command.(destinationAddress := endpoint.address);
      if isClient then addressed.(commandDirection := ServerToClient) else addressed
    }

    /**
     * What every general command built here carries once dispatched: this
     * cluster's identifier, its endpoint as destination, and the direction
     * its role calls for.
     */
    ghost predicate DispatchedHere(r: ZclCommand)
      reads this
    {
      && r.clusterId == clusterId
      && r.destinationAddress == endpoint.address
      && r.commandDirection == (if isClient then ServerToClient else BuiltDirection)
    }

    /** A fresh general command from this cluster, passed through `Send`. */
    function Dispatch(payload: Payload): (r: ZclCommand)
      reads this
      ensures DispatchedHere(r) && r.payload == payload
    {
      Send(ZclCommand(clusterId, endpoint.address, BuiltDirection, payload))
    }

    // ---------------------------------------------------------------
    // Command builders

    /** Read Attributes for the one given attribute. */
    function Read(attribute: Attribute): (r: ZclCommand)
      reads this
      ensures DispatchedHere(r)
      ensures r.payload.ReadAttributes? && r.payload.identifiers == [attribute.id]
    {
      Dispatch(ReadAttributes([attribute.id]))
    }

    /**
     * Write Attributes with one record: the attribute's identifier, its
     * declared data type, and the caller's value unchanged (a null value
     * included).
     */
    function Write(attribute: Attribute, value: Option<Value>): (r: ZclCommand)
      reads this
      ensures DispatchedHere(r)
      ensures r.payload.WriteAttributes? && |r.payload.writeRecords| == 1
      ensures r.payload.writeRecords[0].attributeIdentifier == attribute.id
      ensures r.payload.writeRecords[0].attributeDataType == attribute.dataType
      ensures r.payload.writeRecords[0].attributeValue == value
    {
      Dispatch(WriteAttributes([WriteAttributeRecord(attribute.id, attribute.dataType, value)]))
    }

    /**
     * Configure Reporting with one record: reports flow from the device to
     * us (direction 0), no timeout (0), the attribute's data type, and the
     * intervals and reportable change passed through.
     */
    function SetReporting(attribute: Attribute, minInterval: int, maxInterval: int,
                          reportableChange: Option<Value>): (r: ZclCommand)
      reads this
      ensures DispatchedHere(r)
      ensures r.payload.ConfigureReporting? && |r.payload.reportingRecords| == 1
      ensures var rec := r.payload.reportingRecords[0];
        && rec.direction == 0 && rec.timeoutPeriod == 0
        && rec.attributeIdentifier == attribute.id
        && rec.attributeDataType == attribute.dataType
        && rec.minimumReportingInterval == minInterval
        && rec.maximumReportingInterval == maxInterval
        && rec.reportableChange == reportableChange
    {
      Dispatch(ConfigureReporting([ReportingConfigurationRecord(
        0, attribute.id, attribute.dataType, minInterval, maxInterval, reportableChange, 0)]))
    }

    /** The overload for discrete attributes: the same command with no reportable change. */
    function SetReportingDiscrete(attribute: Attribute, minInterval: int, maxInterval: int): (r: ZclCommand)
      reads this
      ensures r == SetReporting(attribute, minInterval, maxInterval, None)
      ensures r.payload.reportingRecords[0].reportableChange == None
    {
      SetReporting(attribute, minInterval, maxInterval, None)
    }

    /** Read Reporting Configuration with one record, direction 0, for the attribute. */
    function GetReporting(attribute: Attribute): (r: ZclCommand)
      reads this
      ensures DispatchedHere(r)
      ensures r.payload.ReadReportingConfiguration? && |r.payload.attributeRecords| == 1
      ensures r.payload.attributeRecords[0].direction == 0
      ensures r.payload.attributeRecords[0].attributeIdentifier == attribute.id
    {
      Dispatch(ReadReportingConfiguration([AttributeRecord(0, attribute.id)]))
    }

    /** Discover Attributes: always the window of 40 identifiers starting at 0. */
    function DiscoverAttributesCommand(): (r: ZclCommand)
      reads this
      ensures DispatchedHere(r)
      ensures r.payload.DiscoverAttributes?
      ensures r.payload.startAttributeIdentifier == 0 && r.payload.maximumAttributeIdentifiers == 40
    {
      Dispatch(DiscoverAttributes(0, 40))
    }

    /** Discover Commands Received: always the window of 40 identifiers starting at 0. */
    function DiscoverCommandsReceivedCommand(): (r: ZclCommand)
      reads this
      ensures DispatchedHere(r)
      ensures r.payload.DiscoverCommandsReceived?
      ensures r.payload.startCommandIdentifier == 0 && r.payload.maximumCommandIdentifiers == 40
    {
      Dispatch(DiscoverCommandsReceived(0, 40))
    }

    /** Discover Commands Generated: always the window of 40 identifiers starting at 0. */
    function DiscoverCommandsGeneratedCommand(): (r: ZclCommand)
      reads this
      ensures DispatchedHere(r)
      ensures r.payload.DiscoverCommandsGenerated?
      ensures r.payload.startCommandIdentifier == 0 && r.payload.maximumCommandIdentifiers == 40
    {
      Dispatch(DiscoverCommandsGenerated(0, 40))
    }

    /**
     * A Default Response echoing a command identifier and a status. It goes
     * out through `sendCommand`, not `send`, so the role never changes its
     * direction.
     */
    function SendDefaultResponse(commandIdentifier: int, status: ZclStatus): (r: ZclCommand)
      ensures r.clusterId == clusterId && r.destinationAddress == endpoint.address
      ensures r.commandDirection == BuiltDirection
      ensures r.payload == DefaultResponse(commandIdentifier, status)
    {
      ZclCommand(clusterId, endpoint.address, BuiltDirection, DefaultResponse(commandIdentifier, status))
    }

    /** The binding request common to bind and unbind: 64-bit destination addressing (mode 3). */
    function BindingFor(kind: BindingKind, address: IeeeAddress, endpointId: int): (r: BindingRequest)
      ensures r.kind == kind && r.clusterId == clusterId && r.dstAddrMode == 3
      ensures r.srcAddress == endpoint.ieeeAddress && r.srcEndpoint == endpoint.endpointId
      ensures r.dstAddress == address && r.dstEndpoint == endpointId
    {
      BindingRequest(kind, endpoint.ieeeAddress, endpoint.endpointId, clusterId, 3, address, endpointId)
    }

    /** Bind_req from this cluster's endpoint to the given IEEE address and endpoint. */
    function Bind(address: IeeeAddress, endpointId: int): (r: BindingRequest)
      ensures r.kind == BindRequest && r.clusterId == clusterId && r.dstAddrMode == 3
      ensures r.srcAddress == endpoint.ieeeAddress && r.srcEndpoint == endpoint.endpointId
      ensures r.dstAddress == address && r.dstEndpoint == endpointId
    {
      BindingFor(BindRequest, address, endpointId)
    }

    /** Bind_req to the local node: the node at index 0 of the directory, endpoint 1. */
    function BindLocal(localAddress: IeeeAddress): (r: BindingRequest)
      ensures r == Bind(localAddress, 1)
      ensures r.dstAddress == localAddress && r.dstEndpoint == 1 && r.dstAddrMode == 3
    {
      Bind(localAddress, 1)
    }

    /** Unbind_req from this cluster's endpoint to the given IEEE address and endpoint. */
    function Unbind(address: IeeeAddress, endpointId: int): (r: BindingRequest)
      ensures r.kind == UnbindRequest && r.clusterId == clusterId && r.dstAddrMode == 3
      ensures r.srcAddress == endpoint.ieeeAddress && r.srcEndpoint == endpoint.endpointId
      ensures r.dstAddress == address && r.dstEndpoint == endpointId
    {
      BindingFor(UnbindRequest, address, endpointId)
    }

    /** Unbind_req to the local node: the node at index 0 of the directory, endpoint 1. */
    function UnbindLocal(localAddress: IeeeAddress): (r: BindingRequest)
      ensures r == Unbind(localAddress, 1)
      ensures r.dstAddress == localAddress && r.dstEndpoint == 1 && r.dstAddrMode == 3
    {
      Unbind(localAddress, 1)
    }

    /** No cluster-specific command is known at this level. */
    function GetCommandFromId(commandId: int): (r: Option<ZclCommand>)
      ensures r == None
    {
      None
    }

    /** No cluster-specific response is known at this level. */
    function GetResponseFromId(commandId: int): (r: Option<ZclCommand>)
      ensures r == None
    {
      None
    }

    // ---------------------------------------------------------------
    // Attribute registry

    /** Lookup by identifier: the registered holder, or nothing for an unknown identifier. */
    function GetAttribute(id: int): (r: Option<Attribute>)
      reads this
      ensures r.Some? <==> id in attributes
      ensures r.Some? ==> r.value == attributes[id]
      ensures Valid() && r.Some? ==> r.value.id == id
    {
      if id in attributes then Some(attributes[id]) else None
    }

    /**
     * A snapshot of every registered attribute holder: one distinct holder
     * per registered identifier.
     */
    function GetAttributes(): (r: set<Attribute>)
      requires Valid()
      reads this
      ensures forall a :: a in r <==> exists id :: id in attributes && attributes[id] == a
      ensures |r| == |attributes.Keys|
    {
      HolderCount(attributes, attributes.Keys);
      set id | id in attributes.Keys :: attributes[id]
    }

    // ---------------------------------------------------------------
    // Listener registry

    /** Registers a listener at the end of the list unless it is already registered. */
    method AddAttributeListener(listener: Listener)
      requires Valid()
      modifies this`attributeListeners
      ensures Valid()
      ensures listener in old(attributeListeners) ==> attributeListeners == old(attributeListeners)
      ensures listener !in old(attributeListeners) ==>
        attributeListeners == old(attributeListeners) + [listener]
    {
      if listener in attributeListeners {
        return;
      }
      AppendAbsentKeepsNoDuplicates(attributeListeners, listener);
      attributeListeners := attributeListeners + [listener];
    }

    /**
     * Deregisters a listener: the list afterwards holds every other listener
     * in its original order; an unregistered listener changes nothing.
     */
    method RemoveAttributeListener(listener: Listener)
      requires Valid()
      modifies this`attributeListeners
      ensures Valid()
      ensures attributeListeners == Filtered(old(attributeListeners), listener)
      ensures listener !in old(attributeListeners) ==> attributeListeners == old(attributeListeners)
    {
      FilteredKeepsNoDuplicates(attributeListeners, listener);
      if listener in attributeListeners {
        var i := FirstIndexOf(attributeListeners, listener);
        RemoveFirstIsFiltered(attributeListeners, listener);
        attributeListeners := attributeListeners[..i] + attributeListeners[i + 1..];
      } else {
        FilteredAbsent(attributeListeners, listener);
      }
    }

    /** Submits one callback per registered listener, in registration order, for an updated attribute. */
    method NotifyAttributeListener(attributeId: int)
      modifies this`notifications
      ensures notifications == old(notifications) + NotificationsFor(attributeListeners, attributeId)
    {
      var i := 0;
      while i < |attributeListeners|
        invariant 0 <= i <= |attributeListeners|
        invariant notifications == old(notifications) + NotificationsFor(attributeListeners[..i], attributeId)
      {
        assert attributeListeners[..i + 1][..i] == attributeListeners[..i];
        notifications := notifications + [Notification(attributeListeners[i], attributeId)];
        i := i + 1;
      }
      assert attributeListeners[..i] == attributeListeners;
    }

    // ---------------------------------------------------------------
    // Report ingestion

    /**
     * The step both ingestion paths take for one known attribute: store the
     * new value in its holder, then notify every listener of it.
     */
    method UpdateAndNotify(attributeId: int, value: Option<Value>)
      requires Valid() && attributeId in attributes
      modifies this`attributes, this`notifications
      ensures Valid()
      ensures attributes == SetValue(old(attributes), Update(attributeId, value))
      ensures notifications == old(notifications) + NotificationsFor(attributeListeners, attributeId)
    {
      var attribute := attributes[attributeId];
      attributes := attributes[attributeId := attribute.(value := value)];
      NotifyAttributeListener(attributeId);
    }

    /**
     * Processes a batch of attribute reports in order. Processing stops at
     * the first report whose identifier is not registered: exactly the
     * reports before it are applied, each followed by its callbacks.
     */
    method HandleAttributeReport(reports: seq<AttributeReport>)
      requires Valid()
      modifies this`attributes, this`notifications
      ensures Valid()
      ensures var us := ReportUpdates(reports);
        var k := KnownPrefix(old(attributes).Keys, us);
        && attributes == Applied(old(attributes), us, k)
        && notifications == old(notifications) + Notifications(attributeListeners, us, k)
    {
      ghost var us := ReportUpdates(reports);
      ghost var registry, log := attributes, notifications;
      ghost var k := KnownPrefix(registry.Keys, us);
      var i := 0;
      while i < |reports|
        invariant 0 <= i <= k
        invariant Valid()
        invariant attributes == Applied(registry, us, i)
        invariant notifications == log + Notifications(attributeListeners, us, i)
      {
        var report := reports[i];
        assert us[i] == Update(report.attributeIdentifier, report.attributeValue);
        if report.attributeIdentifier !in attributes {
          StopsAtUnknown(registry.Keys, us, i);
          return;
        }
        UpdateAndNotify(report.attributeIdentifier, report.attributeValue);
        i := i + 1;
      }
    }

    /**
     * Processes a batch of read status records in order, applying every
     * record's value whatever its status, each followed by its callbacks.
     * Every identifier must be registered.
     */
    method HandleAttributeStatus(records: seq<ReadAttributeStatusRecord>)
      requires Valid()
      requires forall j :: 0 <= j < |records| ==> records[j].attributeIdentifier in attributes
      modifies this`attributes, this`notifications
      ensures Valid()
      ensures var us := StatusUpdates(records);
        && attributes == Applied(old(attributes), us, |us|)
        && notifications == old(notifications) + Notifications(attributeListeners, us, |us|)
    {
      ghost var us := StatusUpdates(records);
      ghost var registry, log := attributes, notifications;
      var i := 0;
      while i < |records|
        invariant 0 <= i <= |records|
        invariant Valid()
        invariant attributes == Applied(registry, us, i)
        invariant notifications == log + Notifications(attributeListeners, us, i)
      {
        var record := records[i];
        assert us[i] == Update(record.attributeIdentifier, record.attributeValue);
        UpdateAndNotify(record.attributeIdentifier, record.attributeValue);
        i := i + 1;
      }
    }
  }

  // -----------------------------------------------------------------
  // Synchronous read

  /** The response to a Read Attributes command as the transport reports it. */
  datatype CommandResult = CommandResult(success: bool, records: seq<ReadAttributeStatusRecord>)

  /** How the blocking wait for a read ended: a fault (interruption or execution failure) or a result. */
  datatype ReadOutcome = Faulted | Completed(result: CommandResult)

  /**
   * The value a synchronous read returns: the first record's value (which
   * may itself be null) when the wait did not fault, the result is a success
   * and that record's status is 0; null otherwise.
   */
  function ReadSyncValue(outcome: ReadOutcome): (r: Option<Value>)
    requires outcome.Completed? && outcome.result.success ==> |outcome.result.records| > 0
    ensures outcome.Completed? && outcome.result.success && outcome.result.records[0].status == 0 ==>
      r == outcome.result.records[0].attributeValue
    ensures !(outcome.Completed? && outcome.result.success && outcome.result.records[0].status == 0) ==>
      r == None
    ensures r.Some? ==> outcome.Completed? && outcome.result.success && outcome.result.records[0].status == 0
  {
    match outcome
    case Faulted => None
    case Completed(result) =>
      if !result.success then None
      else if result.records[0].status == 0 then result.records[0].attributeValue
      else None
  }

  // -----------------------------------------------------------------
  // Role history

  /** A call of one of the two role setters. */
  datatype RoleCall = SetServerCall | SetClientCall

  /** The client flag after a sequence of role setter calls, starting from `isClient`. */
  function RoleAfter(isClient: bool, calls: seq<RoleCall>): bool
    decreases |calls|
  {
    if calls == [] then isClient else RoleAfter(calls[0] == SetClientCall, calls[1..])
  }

  /** After a non-empty sequence of role setter calls, the last call alone decides the role. */
  lemma {:induction false} LastRoleCallDecides(isClient: bool, calls: seq<RoleCall>)
    requires calls != []
    ensures RoleAfter(isClient, calls) <==> calls[|calls| - 1] == SetClientCall
    decreases |calls|
  {
    if |calls| > 1 {
      LastRoleCallDecides(calls[0] == SetClientCall, calls[1..]);
    }
  }
}
