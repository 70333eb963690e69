/**
 * `EventSource.prototype.save` (lib/me-event-source.js:142-435) as a pure
 * function of the message and of the replies the remote services give:
 * the answer to the caller and the remote calls issued, in order.
 */
module Pipeline {
  import opened Wrappers
  import opened Json
  import opened Tags
  import opened Remote
  import opened Schema
  import opened Network
  import opened Rules

  /** What the caller of `save` receives. */
  datatype Outcome =
      /** `peerCallback` with `{retCode, description, data: {}}`. */
    | Replied(retCode: int, description: string)
      /** `peerCallback` with the validator's own error. */
    | Rejected
      /** `peerCallback` is never called: the tag has no branch. */
    | Silent
      /** A TypeError is thrown inside a callback; `peerCallback` is never called. */
    | Fault

  /** The answer, the calls of the primary path in order, and the network tasks started. */
  datatype SaveResult = SaveResult(outcome: Outcome, calls: seq<Call>, fanOut: seq<NetworkTask>)

  const SuccessText: string := "Success."

  /** The final waterfall callback without an error (lines 417-431): publish the event if any, answer success. */
  function Finish(calls: seq<Call>, audit: Option<AuditEvent>, tasks: seq<NetworkTask>): SaveResult {
    match audit
    case Some(e) => SaveResult(Replied(Ok, SuccessText), calls + [SaveEvent(e)], tasks)
    case None => SaveResult(Replied(Ok, SuccessText), calls, tasks)
  }

  /** Every call on the primary path names the resolved device; the audit event, if any, comes last. */
  predicate CallsAboutDevice(calls: seq<Call>, d: Device) {
    forall i :: 0 <= i < |calls| ==>
      && (calls[i].DeviceUpdate? ==> calls[i].update.uuid == d.uuid)
      && (calls[i].SaveEvent? ==> DescribesDevice(calls[i].event, d) && i == |calls| - 1)
  }

  /**
   * After the first `k` calls, `r` sends what the rule outcome `o` asks for:
   * its update right away, its audit event last once the answer is success,
   * nothing else, and the rule's network tasks. Without a firing branch
   * nothing follows.
   */
  predicate SendsRuleOutputs(r: SaveResult, o: RuleOutcome, k: nat) {
    && (o.Fires? && o.update.Some? ==> |r.calls| > k && r.calls[k] == DeviceUpdate(o.update.value))
    && (o.Fires? && r.outcome == Replied(Ok, SuccessText) ==>
          && |r.calls| == k + (if o.update.Some? then 1 else 0) + (if o.audit.Some? then 1 else 0)
          && (o.audit.Some? ==> r.calls[|r.calls| - 1] == SaveEvent(o.audit.value)))
    && (!o.Fires? ==> |r.calls| == k)
    && (!o.NoRule? ==> r.fanOut == o.fanOut)
  }

  /**
   * The second waterfall step and the final callback (lines 163-432) for a
   * resolved device, after the calls in `issued`.
   */
  function Dispatch(tag: Tag, data: Value, d: Device, issued: seq<Call>, update: Status): (r: SaveResult)
    ensures |issued| <= |r.calls| <= |issued| + 2 && r.calls[..|issued|] == issued
    ensures CallsAboutDevice(r.calls[|issued|..], d)
    ensures r.outcome.Replied? && r.outcome.retCode != Ok ==> forall c :: c in r.calls[|issued|..] ==> !c.SaveEvent?
    ensures r.outcome.Silent? <==> HasNoRule(tag)
    ensures r.outcome != Rejected
    ensures r.fanOut != [] ==> tag == ControlUpdateNetwork
    ensures SendsRuleOutputs(r, Rule(tag, data, d), |issued|)
    ensures var o := Rule(tag, data, d);
            r.outcome == Replied(Ok, SuccessText) <==> o.Fires? && (o.update.None? || update.retCode == Ok)
    ensures r.outcome.Fault? <==> Rule(tag, data, d).Throws?
    ensures var o := Rule(tag, data, d);
            o.Fires? && o.update.Some? && update.retCode != Ok ==>
              r.outcome == Replied(update.retCode, update.description) && |r.calls| == |issued| + 1
  {
    match Rule(tag, data, d)
    case NoRule => SaveResult(Silent, issued, [])
    case Throws(tasks) => SaveResult(Fault, issued, tasks)
    case Fires(None, audit, tasks) => Finish(issued, audit, tasks)
    case Fires(Some(u), audit, tasks) =>
      var calls := issued + [DeviceUpdate(u)];
      if update.retCode != Ok then SaveResult(Replied(update.retCode, update.description), calls, tasks)
      else Finish(calls, audit, tasks)
  }

  /** `save` after the gate: `None` is the validator's error. */
  function Respond(checked: Option<Envelope>, lookup: LookupReply, update: Status): (r: SaveResult)
    ensures r.outcome.Rejected? <==> checked.None?
    ensures r.outcome.Rejected? ==> r.calls == [] && r.fanOut == []
    ensures checked.Some? ==> 1 <= |r.calls| <= 3 && r.calls[0] == GetDevice(Str(checked.value.uuid))
    ensures |r.calls| > 1 ==> Resolve(lookup).Found? && CallsAboutDevice(r.calls[1..], Resolve(lookup).device)
    ensures r.outcome.Replied? && r.outcome.retCode != Ok ==> forall c :: c in r.calls ==> !c.SaveEvent?
    ensures r.fanOut != [] ==> checked.Some? && checked.value.tag == ControlUpdateNetwork
    ensures checked.Some? && Resolve(lookup).Found? ==>
              SendsRuleOutputs(r, Rule(checked.value.tag, checked.value.data, Resolve(lookup).device), 1)
  {
    match checked
    case None => SaveResult(Rejected, [], [])
    case Some(env) =>
      var lookupCall := [GetDevice(Str(env.uuid))];
      match Resolve(lookup)
      case Failed(errorId, errorMsg) => SaveResult(Replied(errorId, errorMsg), lookupCall, [])
      case NoRecord => SaveResult(Fault, lookupCall, [])
      case Found(d) => Dispatch(env.tag, env.data, d, lookupCall, update)
  }

  /** The uuid `save` looks up: `eventData.uuid`. */
  function EventUuid(m: Value): Value {
    Get(Get(m, "eventData"), "uuid")
  }

  /**
   * `save`. The reply to `saveEvent` is an input only to show that it is
   * ignored: the caller is answered without waiting for it.
   */
  function Save(m: Value, lookup: LookupReply, update: Status, publish: Status): (r: SaveResult)
    ensures r.outcome.Rejected? <==> Validate(m).None?
    ensures r.outcome.Rejected? ==> r.calls == [] && r.fanOut == []
    ensures !r.outcome.Rejected? ==> 1 <= |r.calls| <= 3 && r.calls[0] == GetDevice(EventUuid(m))
    ensures |r.calls| > 1 ==> Resolve(lookup).Found? && CallsAboutDevice(r.calls[1..], Resolve(lookup).device)
    ensures r.outcome.Replied? && r.outcome.retCode != Ok ==> forall c :: c in r.calls ==> !c.SaveEvent?
    ensures Validate(m).Some? && Resolve(lookup).Found? ==>
              SendsRuleOutputs(r, Rule(Validate(m).value.tag, Validate(m).value.data, Resolve(lookup).device), 1)
  {
    Respond(Validate(m), lookup, update)
  }

  /** A message outside the schema gets the validator's error and causes no remote call. */
  lemma InvalidMessageIssuesNothing(m: Value, lookup: LookupReply, update: Status, publish: Status)
    requires !Conforms(m)
    ensures Save(m, lookup, update, publish) == SaveResult(Rejected, [], [])
  {
  }

  /** The MeBoost exception branch is unreachable through `save`. */
  lemma BoostExceptionNeverDispatched(m: Value, lookup: LookupReply, update: Status, publish: Status)
    requires Get(m, "eventTag") == Str(Name(MeBoostException))
    ensures Save(m, lookup, update, publish) == SaveResult(Rejected, [], [])
  {
  }

  /** A failed lookup is answered with its own code and text; nothing is updated or published. */
  lemma LookupFailureShortCircuits(m: Value, lookup: LookupReply, update: Status, publish: Status)
    requires Validate(m).Some? && lookup.retCode != Ok
    ensures Save(m, lookup, update, publish)
         == SaveResult(Replied(lookup.retCode, lookup.description), [GetDevice(EventUuid(m))], [])
  {
  }

  /**
   * A successful lookup whose data holds no device (no data, an empty array
   * or a null first entry) leaves the device null or undefined: the next
   * step throws.
   */
  lemma EmptyLookupFaults(m: Value, lookup: LookupReply, update: Status, publish: Status)
    requires Validate(m).Some? && lookup.retCode == Ok && HoldsNoDevice(lookup.data)
    ensures Save(m, lookup, update, publish) == SaveResult(Fault, [GetDevice(EventUuid(m))], [])
  {
  }

  /** A tag that passed the gate but has no branch is never answered. */
  lemma NoRuleIsSilent(m: Value, lookup: LookupReply, update: Status, publish: Status)
    requires Validate(m).Some? && Resolve(lookup).Found?
    ensures Save(m, lookup, update, publish).outcome.Silent? <==> HasNoRule(Validate(m).value.tag)
    ensures HasNoRule(Validate(m).value.tag) ==> Save(m, lookup, update, publish).calls == [GetDevice(EventUuid(m))]
  {
  }

  /** A failed update is answered with its own code and text, and no audit event is published. */
  lemma UpdateFailureSuppressesAudit(m: Value, lookup: LookupReply, update: Status, publish: Status)
    requires Validate(m).Some? && Resolve(lookup).Found?
    requires UpdatesDevice(Validate(m).value.tag) && update.retCode != Ok
    ensures var r := Save(m, lookup, update, publish);
            && r.outcome == Replied(update.retCode, update.description)
            && |r.calls| == 2 && r.calls[0] == GetDevice(EventUuid(m))
            && r.calls[1].DeviceUpdate? && r.calls[1].update.uuid == Resolve(lookup).device.uuid
  {
    var env := Validate(m).value;
    var outcome := Rule(env.tag, env.data, Resolve(lookup).device);
    assert outcome.Fires? && outcome.update.Some?;
  }

  /**
   * When every call the branch needs succeeds, the caller gets 200
   * "Success.", and an audit event of the resolved device is published
   * last unless the tag is the control network report.
   */
  lemma SuccessfulSave(m: Value, lookup: LookupReply, update: Status, publish: Status)
    requires Validate(m).Some? && Resolve(lookup).Found?
    requires !HasNoRule(Validate(m).value.tag)
    requires !Rule(Validate(m).value.tag, Validate(m).value.data, Resolve(lookup).device).Throws?
    requires UpdatesDevice(Validate(m).value.tag) ==> update.retCode == Ok
    ensures var r := Save(m, lookup, update, publish);
            var tag := Validate(m).value.tag;
            && r.outcome == Replied(Ok, SuccessText)
            && |r.calls| == (if UpdatesDevice(tag) then 2 else 1) + (if tag == ControlUpdateNetwork then 0 else 1)
            && (tag != ControlUpdateNetwork <==> r.calls[|r.calls| - 1].SaveEvent?)
  {
  }

  /**
   * A MeBoost basic status report that passes the gate and finds its device
   * asks the directory, right after the lookup, to store the reported
   * status as that device's mode.
   */
  lemma BasicStatusSaveStoresMode(m: Value, lookup: LookupReply, update: Status, publish: Status)
    requires Validate(m).Some? && Validate(m).value.tag == MeBoostBasicStatus && Resolve(lookup).Found?
    ensures var r := Save(m, lookup, update, publish);
            && |r.calls| >= 2 && r.calls[1].DeviceUpdate?
            && r.calls[1].update.uuid == Resolve(lookup).device.uuid
            && "extra.items.mode" in r.calls[1].update.fields
            && r.calls[1].update.fields["extra.items.mode"] == Get(Validate(m).value.data, "status")
  {
    BoostBasicStatusRule(Validate(m).value.data, Resolve(lookup).device);
  }

  /** The event store's reply never changes what `save` does. */
  lemma PublishReplyIgnored(m: Value, lookup: LookupReply, update: Status, p: Status, q: Status)
    ensures Save(m, lookup, update, p) == Save(m, lookup, update, q)
  {
  }

  /**
   * The control network report answers success as soon as the loop has
   * started its tasks; it neither updates nor publishes on the primary path.
   */
  lemma ControlNetworkAnswersAtOnce(m: Value, lookup: LookupReply, update: Status, publish: Status)
    requires Validate(m).Some? && Validate(m).value.tag == ControlUpdateNetwork && Resolve(lookup).Found?
    requires var network := Get(Validate(m).value.data, "network");
             network.Arr? ==> !Tasks(network.items).halted
    ensures var network := Get(Validate(m).value.data, "network");
            Save(m, lookup, update, publish) ==
              SaveResult(Replied(Ok, SuccessText), [GetDevice(EventUuid(m))],
                         if network.Arr? then Tasks(network.items).tasks else [])
  {
  }

  /**
   * A control network report whose `network` array holds a null or
   * undefined item throws inside the loop: the caller is never answered,
   * nothing follows the lookup, and only the tasks before that item start.
   */
  lemma NullNetworkItemFaults(m: Value, lookup: LookupReply, update: Status, publish: Status)
    requires Validate(m).Some? && Validate(m).value.tag == ControlUpdateNetwork && Resolve(lookup).Found?
    requires var network := Get(Validate(m).value.data, "network");
             network.Arr? && Tasks(network.items).halted
    ensures var network := Get(Validate(m).value.data, "network");
            Save(m, lookup, update, publish) ==
              SaveResult(Fault, [GetDevice(EventUuid(m))], Tasks(network.items).tasks)
  {
  }

  /** A MeBoost power-on report for device "d1". */
  lemma PowerOnExample(d: Device, update: Status, publish: Status)
    requires d.uuid == Str("d1") && update.retCode == Ok
    ensures var m := Obj(map["eventTag" := Str("EVENT_DEV_MEBOOST_POWERON_REPORT"),
                             "eventData" := Obj(map["uuid" := Str("d1")])]);
            Save(m, LookupReply(Ok, SuccessText, One(d)), update, publish) ==
              SaveResult(Replied(200, "Success."),
                         [GetDevice(Str("d1")),
                          DeviceUpdate(Update(Str("d1"), map["status.switch" := Str("ON")])),
                          SaveEvent(EventFor(d, MeBoostPowerOn, Text("device power on")))],
                         [])
  {
  }
}
