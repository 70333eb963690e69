# MeEventSource event dispatcher — a Dafny model

MeEventSource receives device telemetry events from IoT devices (MeBoost
heaters, MeReceiver and MeThermostat devices, YueDong water heaters). Each
event carries a tag and a payload, for example a power-on or a mode change.
`save` first checks the message envelope against a JSON schema. It then
looks the device up in the device directory. A per-tag rule decides which
partial update to request from the directory and which audit event to
append to the event store. The control network report instead starts one
independent network-status check per device listed in the payload.

This project models that core, `lib/me-event-source.js`, as pure
functions over immutable datatypes:

- `json.dfy` (`Json`): JavaScript values after JSON decoding, with
  `undefined`, property access and truthiness.
- `tags.dfy` (`Tags`): the event tags, their wire names and the schema
  enumeration.
- `schema.dfy` (`Schema`): the envelope gate `OPERATION_SCHEMAS.save`.
- `remote.dfy` (`Remote`): device records, the lookup-reply handling of
  `getDevice`, and the requests sent to the directory (`deviceUpdate`)
  and to the event store (`saveEvent`).
- `rules.dfy` (`Rules`): the chain of per-tag branches and its code tables.
- `network.dfy` (`Network`): the network fan-out loop and the per-item
  helper `updateDeviceNetwork` with its dedup check.
- `pipeline.dfy` (`Pipeline`): `save` as one function. It takes the
  message and the replies of the lookup, the update and the publish. It
  returns what the caller receives, the remote calls issued in order, and
  the network tasks started.

Remote replies are inputs, so every error path is an ordinary case. A
lookup can fail, succeed with a record, or succeed without a device (no
data, an empty array, or a null first entry). An
update can fail. A publish can fail, and that reply is ignored.

Some outcomes in the code give the caller no answer at all. These are
modelled as their own outcomes instead of as hangs:
- A registered tag with no branch: `Silent`.
- A TypeError thrown inside a callback: `Fault`. The model covers two
  such cases. A lookup without a device leaves it null or `undefined`. A
  `null` or `undefined` item in the network array throws on `item.uuid`.

Descriptions that append a runtime value to a fixed text are kept as
constructors of `Remote.Description`, for example `PowerReportTo(status)`
for "device power report to " + status. Fixed texts are copied exactly,
trailing periods included.

Three facts about the code shape the model:
- The water heating texts end with a period ("device start heating.").
- Five registered tags have no branch in the chain: the MeReceiver
  exception and power-on reports and the three MeThermostat reports. The
  model gives them no rule.
- `EVENT_DEV_MEBOOST_EXCEPTION_REPORT` has a branch but is missing from the
  schema enumeration. The rule is modelled, and `Pipeline.BoostExceptionNeverDispatched`
  proves that `save` never reaches it.

## Model

| member | source | states |
|---|---|---|
| Tags.Parse | lib/me-event-source.js:16-32 | A recognised string is exactly the wire name of the tag returned. An unrecognised string is the name of no tag. |
| Tags.SchemaEnumIsRegistered | lib/me-event-source.js:16-32 | The 15 schema enum strings are exactly the wire names of the registered tags, that is, every tag except the MeBoost exception report. |
| Tags.BoostExceptionOutsideSchema | lib/me-event-source.js:16-32 | "EVENT_DEV_MEBOOST_EXCEPTION_REPORT" is not in the schema enumeration. |
| Schema.Validate | lib/me-event-source.js:10-44 | An accepted message has a registered tag whose wire name is its `eventTag`. Its `eventData` is an object, and the extracted uuid is that object's string `uuid`. |
| Schema.ValidateIsSchema | lib/me-event-source.js:10-44 | The gate accepts a message exactly when `eventTag` is a string of the enumeration and `eventData` is an object whose `uuid` is a string. |
| Schema.BoostExceptionRejected | lib/me-event-source.js:14-33 | The gate rejects every message tagged as a MeBoost exception report. |
| Remote.Resolve | lib/me-event-source.js:60-70 | A lookup fails exactly when retCode is not 200, and then carries that code and description verbatim. On 200, a single record is the device and an array yields its first element. No data, an empty array or a null first entry yields no device. |
| Remote.EventFor | lib/me-event-source.js:164-173 | An audit event copies userId, owner, uuid, name and type id from the resolved record. It carries the event's tag and level 0. |
| Network.TargetFor | lib/me-event-source.js:363 | The target is "CONNECTED" exactly when `online` is truthy, and "DISCONNECTED" otherwise. |
| Network.Tasks | lib/me-event-source.js:360-365 | The loop starts one task per item, in array order, carrying the item's uuid and target. It stops at the first null or undefined item, and only there. |
| Network.FanOutUnique | lib/me-event-source.js:360-365 | The loop's outcome is fully determined by the per-item description (tasks in order, halt only at a null item). |
| Network.HaltsIffNullishItem | lib/me-event-source.js:361-364 | The loop throws exactly when some item is null or undefined. Otherwise every item starts a task. |
| Network.StartFanOut | lib/me-event-source.js:360-365 | The item-by-item loop produces the same tasks and halt flag as the recursive definition. |
| Network.SyncNetwork | lib/me-event-source.js:72-118 | An item always issues its lookup first. It issues an update of `status.network` to the target exactly when the lookup found a device whose network differs from the target. After a successful update it publishes "device network " + target about the looked-up device. |
| Network.SyncSettlesNetwork | lib/me-event-source.js:74-85 | Once an item's update has been applied to the record, the same item issues nothing beyond its lookup. The dedup check makes the update idempotent. |
| Network.SyncNetworkAsWritten | lib/me-event-source.js:74-86 | As written, an item never issues an update. It throws a ReferenceError exactly when the dedup check asks for an update. |
| Network.AsWrittenDropsUpdate | lib/me-event-source.js:82-84 | Concrete case: a device stored as DISCONNECTED and reported online. As written, the helper throws and updates nothing. The corrected helper updates and audits. |
| Rules.BoostExceptionText | lib/me-event-source.js:195-216 | The description is non-empty exactly for the numbers 0xFFF1 to 0xFFF5, each with its table text. Every other value, non-numbers included, leaves "". |
| Rules.BoostMode | lib/me-event-source.js:246-277 | The switch is OFF exactly for code 4 and ON exactly for codes 1, 2, 3 and 5. It is ERR for every other value. Texts come from the 0x0001 to 0x0005 table, with default "device exception!". |
| Rules.ReceiverThreshold | lib/me-event-source.js:320-349 | Type ids 040B09050101/111/201 map to 256, 102/112/202 to 768, and 103/113/203 to 1792. Every other type id has no threshold. |
| Rules.ReceiverSwitch | lib/me-event-source.js:320-349 | A receiver's switch is set only for the nine known types. It is OFF exactly when the status equals the type's threshold, and ON otherwise. |
| Rules.HeatingText | lib/me-event-source.js:393-398 | The text is "device start heating." exactly when status is the number 2, and "device heating off." otherwise. |
| Rules.Rule | lib/me-event-source.js:174-408 | A tag has no branch exactly when it is one of the five unhandled registered tags. An update is requested exactly for the six updating tags, always for the resolved device. When a branch fires, it yields an audit event built from the resolved device for every tag but the control network report. Only the control network report starts tasks or throws. |
| Rules.BoostBasicStatusRule | lib/me-event-source.js:235-286 | The update sets exactly `extra.items.mode` and `status.switch`. `extra.items.mode` is always the reported status. `status.switch` is ON for 1, 2, 3, 5, OFF for 4 and ERR otherwise, with the matching text. |
| Rules.BoostHeatingOffExample | lib/me-event-source.js:263-266 | Status 0x0004 updates mode 4 and switch OFF, with "Device heating off.". |
| Rules.BoostPowerAndExceptionRules | lib/me-event-source.js:174-306 | Power-on sets switch ON with "device power on". The power report sets switch ON and `extra.items.power`, with an empty description. An exception sets switch ERR. Its description is the code table's text for the status, and it is empty exactly outside the table. |
| Rules.ReceiverBasicStatusRule | lib/me-event-source.js:307-357 | The update sets `extra.items.status` and possibly `status.switch`, and no other key. The status is always stored in `extra.items.status` and reported as "device power report to " + status. `status.switch` is present exactly for the nine known types and is OFF exactly at the type's threshold. |
| Rules.WaterExceptionRule | lib/me-event-source.js:368-387 | A water exception sets switch ERR, and the description is `errorMSG` itself. |
| Rules.WaterHeatingRule | lib/me-event-source.js:392-400 | A heating report requests no update, and its text is "device start heating." exactly for status 2. |
| Rules.WaterReportRules | lib/me-event-source.js:388-408 | The power, heating-mode and network water reports request no update. Each only publishes its description. |
| Rules.ControlNetworkRule | lib/me-event-source.js:358-367 | The control network report requests no update and builds no audit event. An array payload starts the loop's tasks, and any other payload starts none. |
| Pipeline.Dispatch | lib/me-event-source.js:163-432 | After the lookup, at most an update and an audit event follow, both about the resolved device. The update is the one the rule asks for, and it comes first. On success the rule's audit event comes last and nothing else is sent. The started tasks are the rule's. A failed update is answered with its own code and description, and nothing follows it. Without a firing branch, nothing follows the lookup. The answer is 200 "Success." exactly when a branch fires and its update, if any, succeeds. The outcome is `Silent` exactly for the tags without a branch, and `Fault` exactly when the rule throws. |
| Pipeline.Respond | lib/me-event-source.js:146-432 | A rejected message issues no call. An accepted one always issues its lookup first. Updates and audit events follow only for a found device and always name it. For a found device, the calls after the lookup are the update and audit event of that tag's rule (none when the rule does not fire), and the tasks are the rule's. An error answer never comes with a published audit event. |
| Pipeline.Save | lib/me-event-source.js:142-435 | The caller gets the validator's error exactly when the gate rejects, and then no call is issued. Otherwise the first call looks up `eventData.uuid`. Any later call concerns the successfully resolved device. For a found device, the calls after the lookup are the update and audit event of the message's rule (none when the rule does not fire), and the tasks are the rule's. An audit event is never published alongside an error answer. |
| Pipeline.InvalidMessageIssuesNothing | lib/me-event-source.js:146-150 | A message outside the schema gets the validator's error, and no lookup, update or publish is issued. |
| Pipeline.BoostExceptionNeverDispatched | lib/me-event-source.js:146-150 | A MeBoost exception report is rejected before any call, so its branch is unreachable through `save`. |
| Pipeline.LookupFailureShortCircuits | lib/me-event-source.js:154-161 | A failed lookup is answered with exactly its retCode and description. Nothing follows the lookup. |
| Pipeline.EmptyLookupFaults | lib/me-event-source.js:163-169 | A successful lookup with no data, an empty array or a null first entry leaves the device null or undefined. Building the event throws, nothing follows the lookup, and the caller is never answered. |
| Pipeline.NoRuleIsSilent | lib/me-event-source.js:174-408 | With a found device, the outcome is `Silent` (no answer, no throw) exactly for the tags without a branch. For those tags, only the lookup is issued. |
| Pipeline.UpdateFailureSuppressesAudit | lib/me-event-source.js:412-416 | A failed update is answered with its code and description. Exactly the lookup and the update were issued, and no audit event was published. |
| Pipeline.SuccessfulSave | lib/me-event-source.js:412-431 | Take a message that passes the gate and finds its device, with a tag that has a branch, a rule that does not throw, and a successful update where one is needed. The answer is then 200 "Success.". The calls are the lookup, the update if the tag updates, and the audit event last for every tag except the control network report. |
| Pipeline.BasicStatusSaveStoresMode | lib/me-event-source.js:235-286 | A MeBoost basic status report that passes the gate and finds its device asks, right after the lookup, to store the reported status as `extra.items.mode` of that device. |
| Pipeline.PublishReplyIgnored | lib/me-event-source.js:418-431 | The event store's reply never changes the answer or the calls. |
| Pipeline.ControlNetworkAnswersAtOnce | lib/me-event-source.js:358-367 | Take a control network report that passes the gate and finds its device, and whose `network` is not an array holding a null or undefined item. It answers 200 "Success." after its lookup and the loop. It issues no update and no publish, and hands over the started tasks. |
| Pipeline.NullNetworkItemFaults | lib/me-event-source.js:358-367 | Take a control network report that passes the gate and finds its device, and whose `network` array holds a null or undefined item. The loop throws at that item. The caller is never answered, nothing follows the lookup, and only the tasks of the items before it have started. |
| Pipeline.PowerOnExample | lib/me-event-source.js:174-192 | A MeBoost power-on report for device "d1" runs three calls: the lookup, an update of `status.switch` to ON, then the audit "device power on". It is answered 200 "Success.". |

## Left out

- The RPC transport (`self.message`), service-instance selection (`configurator.getConfRandom`), the `VirtualDevice` base class and logging are not modelled. Remote replies are parameters. Failures that the code only logs are not recorded.
- `messageValidate` is not part of this model. The gate models what the schema states: the enum, the required `eventTag`/`eventData`, the `object`/`string` types and the string `uuid`. The content of the validator's error object is abstract (`Rejected`).
- Concurrency and timing of the network fan-out are not modelled. Each item is an independent sequential decision (`Network.SyncNetwork`), and the interleavings are out of scope.
- Numbers are integers. Fractional numbers and NaN do not occur in any code the core compares against.
- String conversion of runtime values in descriptions is not modelled. Such descriptions keep the value as a `Description` constructor.
- The success and error-code replies carry `data: {}`. This constant is omitted, and `retCode` is an integer. A rejected message is answered with the validator's error object itself, which is abstract (`Rejected`).
- Device records are reduced to the six fields the core reads. Records without a `type` or `status` object (another TypeError) are not modelled.
- A field whose value is `undefined` stays in the update parameters as `Undefined`. Whether the transport drops such keys when serialising is not modelled.
- Network.SyncNetwork: the corrected update names the helper's `uuid` argument. The code as written names an identifier that does not exist (see Findings).

## Findings

| source | as written | input that shows it | evidently intended | confidence | as-written member | corrected member |
|---|---|---|---|---|---|---|
| lib/me-event-source.js:83 | `updateDeviceNetwork` builds its update with `"uuid": item.uuid`. `item` is a variable of the loop in `save`, not in scope in the helper, so building the request throws a ReferenceError. | An EVENT_CONTROL_UPDATE_NETWORK item `{uuid: "d1", online: true}` whose device is stored with `status.network` "DISCONNECTED" | Update the item's own device, `uuid` (the helper's argument), and then publish "device network CONNECTED" | high; not executed | Network.SyncNetworkAsWritten | Network.SyncNetwork |
