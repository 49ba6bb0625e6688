# ZCL cluster layer — a Dafny model

This project models the per-cluster layer of a ZigBee Cluster Library (ZCL)
stack: the abstract `ZclCluster` class. One cluster instance is bound to one
remote endpoint. It holds:

- an attribute registry, which maps each attribute identifier to a holder of identifier, data type, name and last known value;
- an ordered, duplicate-free list of attribute listeners;
- a client/server role flag.

It builds the ZCL general commands:

- Read Attributes and Write Attributes;
- Configure Reporting (section 2.5.7 of the ZigBee Cluster Library specification, 07-5123);
- Read Reporting Configuration, Discover Attributes, Discover Commands Received and Discover Commands Generated;
- Default Response.

It also builds the ZDO Bind_req/Unbind_req requests (section 2.4.3.2 of the ZigBee Specification, 05-3474). It dispatches commands according to its role. It takes in attribute reports and read-status records, and notifies its listeners of each update.

Files:

- `zcl_types.dfy` (module `ZclTypes`): the values the layer handles but does not look into. These are the attribute value, the data-type tag, addresses, listeners, reports and status records.
- `zcl_commands.dfy` (module `ZclCommands`): the fields of the outbound commands that this layer fills in.
- `listener_registry.dfy` (module `ListenerRegistry`): facts about the listener list, and the callbacks that one update fans out to.
- `report_ingestion.dfy` (module `ReportIngestion`): the specification of both ingestion loops. It is a left-to-right fold over the first `n` updates, plus the length of the known prefix.
- `zcl_cluster.dfy` (module `ZclClusterModel`): the class `Cluster` and the synchronous-read decision. It also holds the role history (`RoleAfter`) with its lemma.

The model makes these choices:

- Each command operation returns the command exactly as it would be handed to the transport. The transport's future is not modelled.
- The stack hands each listener callback to a notification executor. The model instead appends it to the `notifications` log as `Notification(listener, attributeId)`, in submission order.
- The blocking wait inside `readSync` becomes a `ReadOutcome` parameter. It is either a fault or a completed result.
- `handleAttributeReport` ends the whole batch at the first unregistered identifier (a `return`, not a `continue`). The model keeps this behaviour.
- `handleAttributeStatus` dereferences the lookup result without a check. An unregistered identifier would therefore fault, and the model makes "every identifier is registered" its precondition.
- Updates for unregistered identifiers are dropped only on the report path, and there the rest of the batch is dropped too. The status path faults on them.
- A record's value may be null. Both ingestion paths store it as it is, so a status record with a non-zero status, which carries no value, clears the holder's value.
- Every holder is registered under its own identifier. This is part of the class invariant `Valid()`: every holder carries its own key as its id, so different ids have different holders.

## Model

| member | source | states |
|---|---|---|
| `ZclClusterModel.Cluster.constructor` | com.zsmartsystems.zigbee/src/main/java/com/zsmartsystems/zigbee/zcl/ZclCluster.java:62-86 | A new cluster is a server with no listeners. Its registry is the attribute map the concrete cluster defines, which must key each holder by its own id. |
| `ZclClusterModel.Cluster.SetServer` | com.zsmartsystems.zigbee/src/main/java/com/zsmartsystems/zigbee/zcl/ZclCluster.java:321-323 | After the call the cluster is not a client. Only the role flag may change. |
| `ZclClusterModel.Cluster.SetClient` | com.zsmartsystems.zigbee/src/main/java/com/zsmartsystems/zigbee/zcl/ZclCluster.java:340-342 | After the call the cluster is a client. Only the role flag may change. |
| `ZclClusterModel.Cluster.IsClient` | com.zsmartsystems.zigbee/src/main/java/com/zsmartsystems/zigbee/zcl/ZclCluster.java:350-352 | Reports the client flag. |
| `ZclClusterModel.Cluster.IsServer` | com.zsmartsystems.zigbee/src/main/java/com/zsmartsystems/zigbee/zcl/ZclCluster.java:331-333 | In every state, `IsServer()` is the negation of `IsClient()`. |
| `ZclClusterModel.LastRoleCallDecides` | com.zsmartsystems.zigbee/src/main/java/com/zsmartsystems/zigbee/zcl/ZclCluster.java:321-342 | After any non-empty sequence of setServer/setClient calls, the last call alone decides the role. |
| `ZclClusterModel.Cluster.ApplyRoleCalls` | com.zsmartsystems.zigbee/src/main/java/com/zsmartsystems/zigbee/zcl/ZclCluster.java:321-342 | Calling the setters one after another leaves the role that `RoleAfter` gives, which ties `LastRoleCallDecides` to the class. |
| `ZclClusterModel.Cluster.Send` | com.zsmartsystems.zigbee/src/main/java/com/zsmartsystems/zigbee/zcl/ZclCluster.java:88-95 | The destination always becomes the endpoint's address. If the cluster is a client, the direction becomes server-to-client. Otherwise the direction stays as built. Cluster id and payload are untouched. |
| `ZclClusterModel.Cluster.Dispatch` | com.zsmartsystems.zigbee/src/main/java/com/zsmartsystems/zigbee/zcl/ZclCluster.java:88-95 | A command built by this cluster and then sent carries this cluster's id and the endpoint's address. Its direction follows the role, and its payload is unchanged. |
| `ZclClusterModel.Cluster.Read` | com.zsmartsystems.zigbee/src/main/java/com/zsmartsystems/zigbee/zcl/ZclCluster.java:103-112 | Read Attributes lists exactly the one attribute's identifier, and is dispatched from this cluster. |
| `ZclClusterModel.Cluster.Write` | com.zsmartsystems.zigbee/src/main/java/com/zsmartsystems/zigbee/zcl/ZclCluster.java:121-134 | Write Attributes has one record. It carries the attribute's id, its declared data type and the caller's value unchanged, a null value included. |
| `ZclClusterModel.ReadSyncValue` | com.zsmartsystems.zigbee/src/main/java/com/zsmartsystems/zigbee/zcl/ZclCluster.java:142-167 | If the wait did not fault, the result succeeded and the first record's status is 0, the result is that record's value, which may be null. In every other case the result is null. |
| `ZclClusterModel.Cluster.SetReporting` | com.zsmartsystems.zigbee/src/main/java/com/zsmartsystems/zigbee/zcl/ZclCluster.java:198-217 | Configure Reporting has one record. The record has direction 0, timeout 0, the attribute's id and data type, and min, max and reportable change passed through. |
| `ZclClusterModel.Cluster.SetReportingDiscrete` | com.zsmartsystems.zigbee/src/main/java/com/zsmartsystems/zigbee/zcl/ZclCluster.java:241-244 | Equals the four-argument form with no (null) reportable change. |
| `ZclClusterModel.Cluster.GetReporting` | com.zsmartsystems.zigbee/src/main/java/com/zsmartsystems/zigbee/zcl/ZclCluster.java:252-263 | Read Reporting Configuration has one record, with direction 0 and the attribute's id. |
| `ZclClusterModel.Cluster.GetAttributes` | com.zsmartsystems.zigbee/src/main/java/com/zsmartsystems/zigbee/zcl/ZclCluster.java:272-276 | The snapshot holds exactly the registered holders, one distinct holder per registered id. |
| `ZclClusterModel.Cluster.GetAttribute` | com.zsmartsystems.zigbee/src/main/java/com/zsmartsystems/zigbee/zcl/ZclCluster.java:285-287 | A holder is found if and only if the id is registered, and it is the registered one, carrying that id. An unknown id yields nothing. |
| `ZclClusterModel.Cluster.BindingFor` | com.zsmartsystems.zigbee/src/main/java/com/zsmartsystems/zigbee/zcl/ZclCluster.java:361-397 | A binding request has address mode 3. Source address and endpoint come from the owning endpoint, and destination address and endpoint are passed through. |
| `ZclClusterModel.Cluster.Bind` | com.zsmartsystems.zigbee/src/main/java/com/zsmartsystems/zigbee/zcl/ZclCluster.java:361-370 | A Bind_req from this cluster's endpoint, with mode-3 addressing, to the given address and endpoint. |
| `ZclClusterModel.Cluster.BindLocal` | com.zsmartsystems.zigbee/src/main/java/com/zsmartsystems/zigbee/zcl/ZclCluster.java:377-379 | The zero-argument bind targets the IEEE address of node 0, at endpoint 1. |
| `ZclClusterModel.Cluster.Unbind` | com.zsmartsystems.zigbee/src/main/java/com/zsmartsystems/zigbee/zcl/ZclCluster.java:388-397 | An Unbind_req from this cluster's endpoint, with mode-3 addressing, to the given address and endpoint. |
| `ZclClusterModel.Cluster.UnbindLocal` | com.zsmartsystems.zigbee/src/main/java/com/zsmartsystems/zigbee/zcl/ZclCluster.java:404-406 | The zero-argument unbind targets the IEEE address of node 0, at endpoint 1. |
| `ZclClusterModel.Cluster.SendDefaultResponse` | com.zsmartsystems.zigbee/src/main/java/com/zsmartsystems/zigbee/zcl/ZclCluster.java:414-426 | A Default Response echoes the command id and the status. It carries this cluster's id and the endpoint's address. Its direction is not flipped by the role, because it does not go through `send`. |
| `ZclClusterModel.Cluster.DiscoverAttributesCommand` | com.zsmartsystems.zigbee/src/main/java/com/zsmartsystems/zigbee/zcl/ZclCluster.java:433-442 | Discover Attributes always starts at 0 and asks for at most 40. |
| `ZclClusterModel.Cluster.DiscoverCommandsReceivedCommand` | com.zsmartsystems.zigbee/src/main/java/com/zsmartsystems/zigbee/zcl/ZclCluster.java:449-458 | Discover Commands Received always starts at 0 and asks for at most 40. |
| `ZclClusterModel.Cluster.DiscoverCommandsGeneratedCommand` | com.zsmartsystems.zigbee/src/main/java/com/zsmartsystems/zigbee/zcl/ZclCluster.java:465-474 | Discover Commands Generated always starts at 0 and asks for at most 40. |
| `ZclClusterModel.Cluster.AddAttributeListener` | com.zsmartsystems.zigbee/src/main/java/com/zsmartsystems/zigbee/zcl/ZclCluster.java:476-482 | A listener that is already registered leaves the list unchanged. Otherwise the listener is appended at the end. The list stays duplicate-free. |
| `ZclClusterModel.Cluster.RemoveAttributeListener` | com.zsmartsystems.zigbee/src/main/java/com/zsmartsystems/zigbee/zcl/ZclCluster.java:489-491 | The list afterwards holds every other listener in the same order. An absent listener changes nothing. The list stays duplicate-free. |
| `ListenerRegistry.FirstIndexOf` | com.zsmartsystems.zigbee/src/main/java/com/zsmartsystems/zigbee/zcl/ZclCluster.java:489-491 | The index that remove-by-object deletes is a position of the listener, and no earlier position holds it. |
| `ListenerRegistry.RemoveFirstIsFiltered` | com.zsmartsystems.zigbee/src/main/java/com/zsmartsystems/zigbee/zcl/ZclCluster.java:489-491 | In a duplicate-free list, deleting the first occurrence equals filtering the listener out, so the order of the rest is kept. |
| `ListenerRegistry.FilteredMembers` | com.zsmartsystems.zigbee/src/main/java/com/zsmartsystems/zigbee/zcl/ZclCluster.java:489-491 | After removal, a listener is in the list if and only if it was there before and is not the removed one. |
| `ListenerRegistry.FilteredAbsent` | com.zsmartsystems.zigbee/src/main/java/com/zsmartsystems/zigbee/zcl/ZclCluster.java:489-491 | Removing an unregistered listener leaves the list as it is. |
| `ListenerRegistry.FilteredKeepsNoDuplicates` | com.zsmartsystems.zigbee/src/main/java/com/zsmartsystems/zigbee/zcl/ZclCluster.java:489-491 | Removal keeps the list free of duplicates. |
| `ListenerRegistry.AppendAbsentKeepsNoDuplicates` | com.zsmartsystems.zigbee/src/main/java/com/zsmartsystems/zigbee/zcl/ZclCluster.java:476-482 | Adding a listener only when it is absent keeps the list free of duplicates. |
| `ListenerRegistry.NotificationsFor` | com.zsmartsystems.zigbee/src/main/java/com/zsmartsystems/zigbee/zcl/ZclCluster.java:498-507 | One update produces one callback per listener, and the j-th callback goes to the j-th listener. |
| `ListenerRegistry.OneCallbackPerListener` | com.zsmartsystems.zigbee/src/main/java/com/zsmartsystems/zigbee/zcl/ZclCluster.java:476-507 | Because the list has no duplicates, a listener registered twice still gets exactly one callback per update. An unregistered listener gets none. |
| `ZclClusterModel.Cluster.NotifyAttributeListener` | com.zsmartsystems.zigbee/src/main/java/com/zsmartsystems/zigbee/zcl/ZclCluster.java:498-507 | The loop appends exactly `NotificationsFor(listeners, id)` to the log. |
| `ZclClusterModel.Cluster.UpdateAndNotify` | com.zsmartsystems.zigbee/src/main/java/com/zsmartsystems/zigbee/zcl/ZclCluster.java:533-537 | One record's step stores the new value in the registered holder, then appends one callback per listener. |
| `ZclClusterModel.Cluster.HandleAttributeReport` | com.zsmartsystems.zigbee/src/main/java/com/zsmartsystems/zigbee/zcl/ZclCluster.java:515-524 | The registry and log end as the fold over exactly the reports before the first unregistered id, applied in order. |
| `ZclClusterModel.Cluster.HandleAttributeStatus` | com.zsmartsystems.zigbee/src/main/java/com/zsmartsystems/zigbee/zcl/ZclCluster.java:532-538 | Requires every id to be registered. Every record's value, null included, is applied in order whatever its status, with the same callbacks as the report path. Each holder stays keyed by its id. |
| `ReportIngestion.Applied` | com.zsmartsystems.zigbee/src/main/java/com/zsmartsystems/zigbee/zcl/ZclCluster.java:515-538 | Neither ingestion path adds or removes an attribute key. |
| `ReportIngestion.AppliedKeepsKeyedById` | com.zsmartsystems.zigbee/src/main/java/com/zsmartsystems/zigbee/zcl/ZclCluster.java:515-538 | Ingestion keeps every holder registered under its own id. |
| `ReportIngestion.HolderCount` | com.zsmartsystems.zigbee/src/main/java/com/zsmartsystems/zigbee/zcl/ZclCluster.java:272-276 | When holders are keyed by their own ids, n registered ids give n distinct holders. |
| `ReportIngestion.OnlyValuesChange` | com.zsmartsystems.zigbee/src/main/java/com/zsmartsystems/zigbee/zcl/ZclCluster.java:521-535 | Ingestion changes only the value of a holder. Its id, data type and name stay. |
| `ReportIngestion.Notifications` | com.zsmartsystems.zigbee/src/main/java/com/zsmartsystems/zigbee/zcl/ZclCluster.java:515-538 | Applying n updates with L listeners submits exactly n * L callbacks. |
| `ReportIngestion.NotificationPosition` | com.zsmartsystems.zigbee/src/main/java/com/zsmartsystems/zigbee/zcl/ZclCluster.java:498-524 | The callback for update i and listener j is at position i * L + j. So updates are notified in batch order, and within each update the listeners in registration order. |
| `ReportIngestion.KnownPrefix` | com.zsmartsystems.zigbee/src/main/java/com/zsmartsystems/zigbee/zcl/ZclCluster.java:516-520 | Every report before the cut-off has a registered id. The report at the cut-off, if any, does not. |
| `ReportIngestion.StopsAtUnknown` | com.zsmartsystems.zigbee/src/main/java/com/zsmartsystems/zigbee/zcl/ZclCluster.java:517-520 | The first unregistered id met while scanning the batch is exactly where the report loop returns. |
| `ReportIngestion.AllKnownAppliesAll` | com.zsmartsystems.zigbee/src/main/java/com/zsmartsystems/zigbee/zcl/ZclCluster.java:515-538 | When every id is registered, the report path applies the whole batch, just as the status path does. |
| `ReportIngestion.PrefixDecides` | com.zsmartsystems.zigbee/src/main/java/com/zsmartsystems/zigbee/zcl/ZclCluster.java:516-523 | The effect of the first n updates does not depend on anything that follows them. |
| `ReportIngestion.UnknownIdentifierEndsBatch` | com.zsmartsystems.zigbee/src/main/java/com/zsmartsystems/zigbee/zcl/ZclCluster.java:516-520 | Once a batch holds an unregistered id, appending any further reports changes neither the registry nor the callbacks. |
| `ReportIngestion.TruncatedBatch` | com.zsmartsystems.zigbee/src/main/java/com/zsmartsystems/zigbee/zcl/ZclCluster.java:515-524 | For the batch [known, unknown, known], only the first report is applied. The third attribute keeps its holder. |
| `ReportIngestion.LastUpdateWins` | com.zsmartsystems.zigbee/src/main/java/com/zsmartsystems/zigbee/zcl/ZclCluster.java:516-522 | For an id updated more than once, the last of those updates decides the final value. |
| `ReportIngestion.UntouchedAttributeKept` | com.zsmartsystems.zigbee/src/main/java/com/zsmartsystems/zigbee/zcl/ZclCluster.java:516-522 | An attribute that no applied update names keeps its holder unchanged. |
| `ZclClusterModel.Cluster.GetCommandFromId` | com.zsmartsystems.zigbee/src/main/java/com/zsmartsystems/zigbee/zcl/ZclCluster.java:547-549 | The base cluster knows no command for any id. |
| `ZclClusterModel.Cluster.GetResponseFromId` | com.zsmartsystems.zigbee/src/main/java/com/zsmartsystems/zigbee/zcl/ZclCluster.java:558-560 | The base cluster knows no response for any id. |

## Left out

- Transport: `unicast`, `sendCommand`, the returned futures and `ZclResponseMatcher` are not modelled. Each operation returns the command that would be handed over.
- Faults: `InterruptedException`, `ExecutionException` and `ZigBeeException` are not modelled. The fault of the blocking wait appears only as `ReadOutcome.Faulted`. A failure to send a Default Response is swallowed by the source and has no effect to model.
- Notification executor: `NotificationService.execute` runs callbacks concurrently. Its effect is modelled as an ordered log of submitted callbacks. When or in what order the listeners actually run is not modelled.
- Concurrency: the receive thread and application threads may race on the registry. The model is sequential.
- Logging: the logger and `printStackTrace` are not modelled.
- `initializeAttributes` is abstract and is defined by concrete clusters that are not part of this model. The initial map is a constructor parameter.
- `ZclAttribute.updateValue`: only the value is modelled. Its bookkeeping, such as the last report time, is not.
- `ZclClusterModel.Cluster.GetAttribute`: returns the holder by value. The source returns the shared `ZclAttribute` object, and a caller holding it sees values stored by later ingestion; the model's copy does not change afterwards.
- `ZclClusterModel.Cluster.GetAttributes`: returns the holders by value. The source returns a set of the shared `ZclAttribute` objects, which later ingestion updates in place; the model's snapshot does not change afterwards.
- Shared attribute objects: Java listeners receive the shared `ZclAttribute` object and see its value at run time. The model logs only the attribute id.
- Opaque types: data types, values, IEEE and endpoint addresses, and listeners are opaque tags compared only for equality.
- Default direction: the command classes are not part of this model. A freshly built general command is assumed to carry client-to-server (`BuiltDirection`) until `send` looks at the role.
- `ZclClusterModel.Cluster.BindLocal`: does not model looking up node 0 in the network directory, or a missing node 0. Node 0's IEEE address is a parameter.
- `ZclClusterModel.Cluster.UnbindLocal`: does not model looking up node 0 in the network directory, or a missing node 0. Node 0's IEEE address is a parameter.
- `ZclClusterModel.ReadSyncValue`: does not model the call to `read` that precedes the wait, nor a response of an unexpected class. It requires a non-empty record list on success, because the source would fail with an index error on an empty one.
- `ZclClusterModel.Cluster.HandleAttributeStatus`: requires every identifier to be registered, because the source faults with a null dereference on an unregistered one.
- `ZclClusterModel.Cluster.SendDefaultResponse`: does not model a null command identifier.
- Integer widths: intervals, identifiers and endpoint numbers are passed through unchanged. No 16-bit range is checked or truncated by this layer; that is the codec's job.
- `getClusterId`, `getClusterName` and `getZigBeeAddress` simply read the cluster's constant fields (`clusterId`, `clusterName`, `endpoint.address`). They have no members of their own.
