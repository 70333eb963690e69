/**
 * The network fan-out of EVENT_CONTROL_UPDATE_NETWORK: the loop over
 * `eventData.network` in `save` (lib/me-event-source.js:360-365) and the
 * per-item helper `updateDeviceNetwork` (lib/me-event-source.js:72-118).
 * Each item is an independent, sequential decision; the items' interleaving
 * in time is not modelled.
 */
module Network {
  import opened Json
  import opened Tags
  import opened Remote

  const Connected: string := "CONNECTED"
  const Disconnected: string := "DISCONNECTED"

  /** One started `updateDeviceNetwork` call: the item's uuid and its target network status. */
  datatype NetworkTask = NetworkTask(uuid: Value, target: string)

  /** The target status of an item: `item.online ? "CONNECTED" : "DISCONNECTED"`. */
  function TargetFor(online: Value): (s: string)
    ensures s == Connected <==> Truthy(online)
    ensures s == Disconnected <==> !Truthy(online)
  {
    if Truthy(online) then Connected else Disconnected
  }

  /** The task for one array item that is not null or undefined. */
  function TaskFor(item: Value): NetworkTask {
    NetworkTask(Get(item, "uuid"), TargetFor(Get(item, "online")))
  }

  /**
   * The outcome of the loop: the tasks started, in array order, and whether
   * the loop stopped on an item whose `item.uuid` throws a TypeError.
   */
  datatype FanOut = FanOut(tasks: seq<NetworkTask>, halted: bool)

  /**
   * `f` is what the loop does on `items`: one task per item in order, up to
   * the first null or undefined item, where it halts.
   */
  predicate IsFanOutOf(items: seq<Value>, f: FanOut) {
    && |f.tasks| <= |items|
    && (forall i :: 0 <= i < |f.tasks| ==> !Nullish(items[i]) && f.tasks[i] == TaskFor(items[i]))
    && (f.halted ==> |f.tasks| < |items| && Nullish(items[|f.tasks|]))
    && (!f.halted ==> |f.tasks| == |items|)
  }

  /** The loop at lines 361-364, as a recursive definition. */
  function Tasks(items: seq<Value>): (r: FanOut)
    ensures IsFanOutOf(items, r)
    decreases |items|
  {
    if items == [] then FanOut([], false)
    else if Nullish(items[0]) then FanOut([], true)
    else
      var rest := Tasks(items[1..]);
      FanOut([TaskFor(items[0])] + rest.tasks, rest.halted)
  }

  /** The description of the loop's outcome determines it. */
  lemma FanOutUnique(items: seq<Value>, f: FanOut, g: FanOut)
    requires IsFanOutOf(items, f) && IsFanOutOf(items, g)
    ensures f == g
  {
  }

  /** The loop halts exactly when some item is null or undefined; otherwise every item starts a task. */
  lemma HaltsIffNullishItem(items: seq<Value>)
    ensures Tasks(items).halted <==> exists i :: 0 <= i < |items| && Nullish(items[i])
    ensures !Tasks(items).halted ==> |Tasks(items).tasks| == |items|
  {
  }

  /** The loop itself, item by item. */
  method StartFanOut(items: seq<Value>) returns (tasks: seq<NetworkTask>, halted: bool)
    ensures IsFanOutOf(items, FanOut(tasks, halted))
    ensures FanOut(tasks, halted) == Tasks(items)
  {
    tasks := [];
    halted := false;
    var i := 0;
    while i < |items|
      invariant 0 <= i <= |items|
      invariant |tasks| == i
      invariant forall k :: 0 <= k < i ==> !Nullish(items[k]) && tasks[k] == TaskFor(items[k])
    {
      var item := items[i];
      if Nullish(item) {
        halted := true;
        FanOutUnique(items, FanOut(tasks, halted), Tasks(items));
        return;
      }
      tasks := tasks + [TaskFor(item)];
      i := i + 1;
    }
    FanOutUnique(items, FanOut(tasks, halted), Tasks(items));
  }

  /** The `deviceUpdate` an item issues: its target as the new `status.network`. */
  function NetworkUpdate(task: NetworkTask): Update {
    Update(task.uuid, map["status.network" := Str(task.target)])
  }

  /** The audit text of a network change: "device network " and the target. */
  function NetworkText(target: string): Description {
    Text("device network " + target)
  }

  /** The dedup rule: the device resolved and its stored network differs from the target. */
  predicate NeedsUpdate(task: NetworkTask, lookup: LookupReply) {
    var res := Resolve(lookup);
    res.Found? && res.device.network != Str(task.target)
  }

  /**
   * The calls one item issues, in order, given the replies of the directory.
   * Lookup failures and update failures end the item silently (they are
   * only logged). The update names the helper's `uuid` argument.
   */
  function SyncNetwork(task: NetworkTask, tag: Tag, lookup: LookupReply, update: Status): (calls: seq<Call>)
    ensures 1 <= |calls| <= 3 && calls[0] == GetDevice(task.uuid)
    ensures |calls| > 1 <==> NeedsUpdate(task, lookup)
    ensures |calls| > 1 ==> calls[1] == DeviceUpdate(NetworkUpdate(task))
    ensures |calls| == 3 <==> NeedsUpdate(task, lookup) && update.retCode == Ok
    ensures |calls| == 3 ==>
              && calls[2].SaveEvent?
              && DescribesDevice(calls[2].event, Resolve(lookup).device)
              && calls[2].event.eventTag == tag
              && calls[2].event.eventDescription == NetworkText(task.target)
  {
    var lookupCall := [GetDevice(task.uuid)];
    match Resolve(lookup)
    case Found(d) =>
      if d.network == Str(task.target) then lookupCall
      else if update.retCode != Ok then lookupCall + [DeviceUpdate(NetworkUpdate(task))]
      else lookupCall + [DeviceUpdate(NetworkUpdate(task)), SaveEvent(EventFor(d, tag, NetworkText(task.target)))]
    case _ => lookupCall
  }

  /**
   * Once an item's update has been applied, the same item against the
   * updated record issues nothing but its lookup.
   */
  lemma SyncSettlesNetwork(task: NetworkTask, tag: Tag, lookup: LookupReply, update: Status,
                           description: string, next: Status)
    requires NeedsUpdate(task, lookup)
    ensures var patched := Patch(Resolve(lookup).device, NetworkUpdate(task));
            SyncNetwork(task, tag, LookupReply(Ok, description, One(patched)), next) == [GetDevice(task.uuid)]
  {
  }

  /** The run of one item as the helper is written. */
  datatype ItemRun = ItemRun(calls: seq<Call>, referenceError: bool)

  /**
   * `updateDeviceNetwork` as written: building the update's parameters reads
   * `item.uuid`, and `item` is not in scope there, so every item that needs
   * an update throws a ReferenceError before the update is sent.
   */
  function SyncNetworkAsWritten(task: NetworkTask, tag: Tag, lookup: LookupReply, update: Status): (r: ItemRun)
    ensures r.calls == [GetDevice(task.uuid)]
    ensures r.referenceError <==> NeedsUpdate(task, lookup)
  {
    match Resolve(lookup)
    case Found(d) => ItemRun([GetDevice(task.uuid)], d.network != Str(task.target))
    case _ => ItemRun([GetDevice(task.uuid)], false)
  }

  /**
   * A device that is stored as disconnected and reported online: as written
   * the helper throws and never updates; the corrected helper updates and audits.
   */
  lemma AsWrittenDropsUpdate()
    ensures var task := NetworkTask(Str("d1"), Connected);
            var d := Device(Str("d1"), Str("u1"), Str("o1"), Str("boiler"), Str("040B09050101"), Str(Disconnected));
            var lookup := LookupReply(Ok, "Success.", One(d));
            var update := Status(Ok, "Success.");
            && SyncNetworkAsWritten(task, ControlUpdateNetwork, lookup, update) == ItemRun([GetDevice(Str("d1"))], true)
            && SyncNetwork(task, ControlUpdateNetwork, lookup, update)
               == [GetDevice(Str("d1")),
                   DeviceUpdate(Update(Str("d1"), map["status.network" := Str(Connected)])),
                   SaveEvent(EventFor(d, ControlUpdateNetwork, Text("device network CONNECTED")))]
  {
    assert "device network " + Connected == "device network CONNECTED";
  }
}
