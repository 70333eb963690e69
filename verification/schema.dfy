/**
 * The envelope gate of `save`: the JSON schema `OPERATION_SCHEMAS.save`
 * (lib/me-event-source.js:10-44) as far as it constrains a message.
 */
module Schema {
  import opened Wrappers
  import opened Json
  import opened Tags

  /** A message that passed the gate: its tag, its `eventData` object and the device uuid. */
  datatype Envelope = Envelope(tag: Tag, data: Value, uuid: string)

  /**
   * The schema, read literally: `eventTag` is a string of the enumeration and
   * `eventData` is an object whose `uuid` is a string.
   */
  predicate Conforms(m: Value) {
    var tag := Get(m, "eventTag");
    var data := Get(m, "eventData");
    && tag.Str?
    && tag.str in SchemaEnum
    && data.Obj?
    && Get(data, "uuid").Str?
  }

  /** Checks a message and, when it passes, extracts what the rest of `save` uses. */
  function Validate(m: Value): (r: Option<Envelope>)
    ensures r.Some? ==> Registered(r.value.tag)
    ensures r.Some? ==> Get(m, "eventTag") == Str(Name(r.value.tag))
    ensures r.Some? ==> r.value.data == Get(m, "eventData") && r.value.data.Obj?
    ensures r.Some? ==> Get(r.value.data, "uuid") == Str(r.value.uuid)
  {
    var tag := Get(m, "eventTag");
    var data := Get(m, "eventData");
    if !tag.Str? || !data.Obj? || !Get(data, "uuid").Str? then None
    else match Parse(tag.str)
      case None => None
      case Some(t) => if Registered(t) then Some(Envelope(t, data, Get(data, "uuid").str)) else None
  }

  /** The gate accepts exactly the messages the schema describes. */
  lemma ValidateIsSchema(m: Value)
    ensures Validate(m).Some? <==> Conforms(m)
  {
    var tag := Get(m, "eventTag");
    if tag.Str? {
      SchemaEnumIsRegistered(tag.str);
    }
  }

  /** No message carrying the MeBoost exception tag passes the gate. */
  lemma BoostExceptionRejected(m: Value)
    requires Get(m, "eventTag") == Str(Name(MeBoostException))
    ensures Validate(m).None?
  {
  }
}
