/**
 * The two records exchanged by the agent-to-agent protocol, `AgentCard` and
 * `AgentMessage`, and their dict conversions: `to_dict` is `asdict`, and
 * `from_dict` is `cls(**data)`, which rejects a non-mapping, an unknown field
 * and a missing required field, and gives every missing optional field its
 * declared default.
 */
module AgentCards {
  import opened Python

  // ---------------------------------------------------------------------------
  // Field codecs
  // ---------------------------------------------------------------------------

  /** A list of strings as a JSON list. */
  function Texts(xs: seq<string>): (vs: seq<Value>)
    ensures |vs| == |xs|
    ensures forall i :: 0 <= i < |xs| ==> vs[i] == JStr(xs[i])
  {
    if xs == [] then [] else [JStr(xs[0])] + Texts(xs[1..])
  }

  /** A JSON list read back as a list of strings; None when some element is not a string. */
  function AsTexts(vs: seq<Value>): (r: Option<seq<string>>)
    ensures r.Some? <==> forall i :: 0 <= i < |vs| ==> vs[i].JStr?
    ensures r.Some? ==> |r.value| == |vs| && forall i :: 0 <= i < |vs| ==> vs[i] == JStr(r.value[i])
  {
    if vs == [] then Some([])
    else if !vs[0].JStr? then None
    else
      var rest := AsTexts(vs[1..]);
      if rest.None? then None else Some([vs[0].s] + rest.value)
  }

  lemma {:induction false} TextsRoundTrip(xs: seq<string>)
    ensures AsTexts(Texts(xs)) == Some(xs)
  {
    if xs != [] {
      TextsRoundTrip(xs[1..]);
      assert Texts(xs)[1..] == Texts(xs[1..]);
      assert [xs[0]] + xs[1..] == xs;
    }
  }

  lemma AsTextsInverse(vs: seq<Value>)
    requires AsTexts(vs).Some?
    ensures Texts(AsTexts(vs).value) == vs
  {
  }

  /** The capability match of the registry query: a list holds the string element iff the decoded list holds the string. */
  lemma AsTextsHolds(vs: seq<Value>, x: string)
    requires AsTexts(vs).Some?
    ensures JStr(x) in vs <==> x in AsTexts(vs).value
  {
    var xs := AsTexts(vs).value;
    if JStr(x) in vs {
      var i :| 0 <= i < |vs| && vs[i] == JStr(x);
      assert xs[i] == x;
    }
    if x in xs {
      var i :| 0 <= i < |xs| && xs[i] == x;
      assert vs[i] == JStr(x);
    }
  }

  function AsText(v: Value): Option<string> {
    if v.JStr? then Some(v.s) else None
  }

  function AsTextList(v: Value): Option<seq<string>> {
    if v.JArr? then AsTexts(v.items) else None
  }

  function AsObject(v: Value): Option<map<string, Value>> {
    if v.JObj? then Some(v.fields) else None
  }

  function AsBool(v: Value): Option<bool> {
    if v.JBool? then Some(v.b) else None
  }

  /** An `Optional[int]` field: None or an integer. */
  function AsOptionalInt(v: Value): Option<Option<int>> {
    match v
    case JNull => Some(None)
    case JInt(i) => Some(Some(i))
    case _ => None
  }

  /** An `Optional[str]` field: None or a string. */
  function AsOptionalText(v: Value): Option<Option<string>> {
    match v
    case JNull => Some(None)
    case JStr(s) => Some(Some(s))
    case _ => None
  }

  /** A float field; an integer is accepted as the same number. */
  function AsNumber(v: Value): Option<real> {
    match v
    case JFloat(r) => Some(r)
    case JInt(i) => Some(i as real)
    case _ => None
  }

  function OptionalInt(x: Option<int>): Value {
    if x.Some? then JInt(x.value) else JNull
  }

  function OptionalText(x: Option<string>): Value {
    if x.Some? then JStr(x.value) else JNull
  }

  // ---------------------------------------------------------------------------
  // AgentCard
  // ---------------------------------------------------------------------------

  /** The identity and capability descriptor of one agent. */
  datatype AgentCard = AgentCard(
    agentId: string,
    name: string,
    description: string,
    version: string,
    capabilities: seq<string>,
    inputSchema: map<string, Value>,
    outputSchema: map<string, Value>,
    authRequired: bool,
    rateLimit: Option<int>,
    metadata: map<string, Value>)

  const CardFields: set<string> :=
    {"agent_id", "name", "description", "version", "capabilities",
     "input_schema", "output_schema", "auth_required", "rate_limit", "metadata"}

  /** The fields without a default value. */
  const CardRequired: set<string> := {"agent_id", "name", "description", "version", "capabilities"}

  /** The defaults of the optional fields. */
  const CardDefaults: map<string, Value> :=
    map["input_schema" := EmptyObject, "output_schema" := EmptyObject, "auth_required" := JBool(false),
        "rate_limit" := JNull, "metadata" := EmptyObject]

  /** `AgentCard.to_dict` */
  function CardToDict(c: AgentCard): (d: Value)
    ensures d.JObj? && d.fields.Keys == CardFields
    ensures d.fields["agent_id"] == JStr(c.agentId)
    ensures d.fields["capabilities"] == JArr(Texts(c.capabilities))
  {
    JObj(map[
      "agent_id" := JStr(c.agentId),
      "name" := JStr(c.name),
      "description" := JStr(c.description),
      "version" := JStr(c.version),
      "capabilities" := JArr(Texts(c.capabilities)),
      "input_schema" := JObj(c.inputSchema),
      "output_schema" := JObj(c.outputSchema),
      "auth_required" := JBool(c.authRequired),
      "rate_limit" := OptionalInt(c.rateLimit),
      "metadata" := JObj(c.metadata)])
  }

  /** The card built from a dict in which every field is present. */
  function CardFromFields(g: map<string, Value>): Option<AgentCard>
    requires CardFields <= g.Keys
  {
    var agentId, name, description, version :=
      AsText(g["agent_id"]), AsText(g["name"]), AsText(g["description"]), AsText(g["version"]);
    var capabilities := AsTextList(g["capabilities"]);
    var inputSchema, outputSchema, metadata :=
      AsObject(g["input_schema"]), AsObject(g["output_schema"]), AsObject(g["metadata"]);
    var authRequired, rateLimit := AsBool(g["auth_required"]), AsOptionalInt(g["rate_limit"]);
    if agentId.Some? && name.Some? && description.Some? && version.Some? && capabilities.Some? &&
       inputSchema.Some? && outputSchema.Some? && authRequired.Some? && rateLimit.Some? && metadata.Some?
    then
      Some(AgentCard(agentId.value, name.value, description.value, version.value, capabilities.value,
                     inputSchema.value, outputSchema.value, authRequired.value, rateLimit.value, metadata.value))
    else
      None
  }

  /** `AgentCard.from_dict` */
  function CardFromDict(d: Value): (r: Result<AgentCard, Exception>)
    ensures !d.JObj? ==> r.Err?
    ensures d.JObj? && !(d.fields.Keys <= CardFields) ==> r.Err?
    ensures d.JObj? && !(CardRequired <= d.fields.Keys) ==> r.Err?
    ensures r.Err? ==> r.error.TypeError?
  {
    if !d.JObj? then Err(TypeError("argument after ** must be a mapping"))
    else if !(d.fields.Keys <= CardFields) then Err(TypeError("__init__() got an unexpected keyword argument"))
    else if !(CardRequired <= d.fields.Keys) then Err(TypeError("__init__() missing a required argument"))
    else
      var card := CardFromFields(CardDefaults + d.fields);
      if card.Some? then Ok(card.value) else Err(TypeError("a field has a value of the wrong type"))
  }

  /** A complete field map holding a card's encoded fields decodes to that card. */
  lemma CardFromFieldsOf(c: AgentCard, g: map<string, Value>)
    requires CardFields <= g.Keys
    requires g["agent_id"] == JStr(c.agentId) && g["name"] == JStr(c.name)
    requires g["description"] == JStr(c.description) && g["version"] == JStr(c.version)
    requires g["capabilities"] == JArr(Texts(c.capabilities))
    requires g["input_schema"] == JObj(c.inputSchema) && g["output_schema"] == JObj(c.outputSchema)
    requires g["auth_required"] == JBool(c.authRequired) && g["rate_limit"] == OptionalInt(c.rateLimit)
    requires g["metadata"] == JObj(c.metadata)
    ensures CardFromFields(g) == Some(c)
  {
    TextsRoundTrip(c.capabilities);
  }

  /** The fields of a card's dict. */
  lemma CardDictFields(c: AgentCard)
    ensures var f := CardToDict(c).fields;
      && f["agent_id"] == JStr(c.agentId) && f["name"] == JStr(c.name)
      && f["description"] == JStr(c.description) && f["version"] == JStr(c.version)
      && f["capabilities"] == JArr(Texts(c.capabilities))
      && f["input_schema"] == JObj(c.inputSchema) && f["output_schema"] == JObj(c.outputSchema)
      && f["auth_required"] == JBool(c.authRequired) && f["rate_limit"] == OptionalInt(c.rateLimit)
      && f["metadata"] == JObj(c.metadata)
  {
  }

  /** Converting a card to a dict and back gives the same card. */
  lemma CardRoundTrip(c: AgentCard)
    ensures CardFromDict(CardToDict(c)) == Ok(c)
  {
    var f := CardToDict(c).fields;
    CardDictFields(c);
    CardFromFieldsOf(c, CardDefaults + f);
  }

  /** A complete field map that decodes to a card is that card's dict. */
  lemma CardFromFieldsInverse(g: map<string, Value>)
    requires g.Keys == CardFields && CardFromFields(g).Some?
    ensures CardToDict(CardFromFields(g).value).fields == g
  {
    var c := CardFromFields(g).value;
    AsTextsInverse(g["capabilities"].items);
    assert g["agent_id"] == JStr(c.agentId) && g["name"] == JStr(c.name);
    assert g["description"] == JStr(c.description) && g["version"] == JStr(c.version);
    assert g["capabilities"] == JArr(Texts(c.capabilities));
    assert g["input_schema"] == JObj(c.inputSchema) && g["output_schema"] == JObj(c.outputSchema);
    assert g["auth_required"] == JBool(c.authRequired) && g["rate_limit"] == OptionalInt(c.rateLimit);
    assert g["metadata"] == JObj(c.metadata);
    var e := CardToDict(c).fields;
    forall k | k in e ensures e[k] == g[k] {
    }
  }

  /** A dict that from_dict accepts is the card's dict with the omitted optional fields left at their defaults. */
  lemma CardFromDictFillsDefaults(d: Value)
    requires CardFromDict(d).Ok?
    ensures CardToDict(CardFromDict(d).value) == JObj(CardDefaults + d.fields)
  {
    var g := CardDefaults + d.fields;
    assert g.Keys == CardFields;
    CardFromFieldsInverse(g);
  }

  // ---------------------------------------------------------------------------
  // AgentMessage
  // ---------------------------------------------------------------------------

  /** One message between two agents. */
  datatype AgentMessage = AgentMessage(
    messageId: string,
    senderId: string,
    recipientId: string,
    content: map<string, Value>,
    correlationId: Option<string>,
    timestamp: real,
    ttl: Option<int>)

  /** The values the default factories would produce (`uuid.uuid4()` and `time.time()`) when a message is built. */
  datatype Stamp = Stamp(messageId: string, timestamp: real)

  const MessageFields: set<string> :=
    {"message_id", "sender_id", "recipient_id", "content", "correlation_id", "timestamp", "ttl"}

  /** Every field of a message has a default. */
  function MessageDefaults(stamp: Stamp): (m: map<string, Value>)
    ensures m.Keys == MessageFields
    ensures m["message_id"] == JStr(stamp.messageId) && m["timestamp"] == JFloat(stamp.timestamp)
    ensures m["sender_id"] == JStr("") && m["recipient_id"] == JStr("") && m["content"] == EmptyObject
    ensures m["correlation_id"] == JNull && m["ttl"] == JNull
  {
    map["message_id" := JStr(stamp.messageId), "sender_id" := JStr(""), "recipient_id" := JStr(""),
        "content" := EmptyObject, "correlation_id" := JNull, "timestamp" := JFloat(stamp.timestamp),
        "ttl" := JNull]
  }

  /** `AgentMessage.to_dict` */
  function MessageToDict(m: AgentMessage): (d: Value)
    ensures d.JObj? && d.fields.Keys == MessageFields && Truthy(d)
    ensures d.fields["message_id"] == JStr(m.messageId)
    ensures d.fields["sender_id"] == JStr(m.senderId) && d.fields["recipient_id"] == JStr(m.recipientId)
    ensures d.fields["content"] == JObj(m.content)
  {
    var d := JObj(map[
      "message_id" := JStr(m.messageId),
      "sender_id" := JStr(m.senderId),
      "recipient_id" := JStr(m.recipientId),
      "content" := JObj(m.content),
      "correlation_id" := OptionalText(m.correlationId),
      "timestamp" := JFloat(m.timestamp),
      "ttl" := OptionalInt(m.ttl)]);
    assert "message_id" in d.fields;
    d
  }

  /** The message built from a dict in which every field is present. */
  function MessageFromFields(g: map<string, Value>): Option<AgentMessage>
    requires MessageFields <= g.Keys
  {
    var messageId, senderId, recipientId :=
      AsText(g["message_id"]), AsText(g["sender_id"]), AsText(g["recipient_id"]);
    var content, correlationId := AsObject(g["content"]), AsOptionalText(g["correlation_id"]);
    var timestamp, ttl := AsNumber(g["timestamp"]), AsOptionalInt(g["ttl"]);
    if messageId.Some? && senderId.Some? && recipientId.Some? && content.Some? && correlationId.Some? &&
       timestamp.Some? && ttl.Some?
    then
      Some(AgentMessage(messageId.value, senderId.value, recipientId.value, content.value,
                        correlationId.value, timestamp.value, ttl.value))
    else
      None
  }

  /** `AgentMessage.from_dict`; `stamp` supplies the defaults of a missing id and timestamp. */
  function MessageFromDict(d: Value, stamp: Stamp): (r: Result<AgentMessage, Exception>)
    ensures !d.JObj? ==> r.Err?
    ensures d.JObj? && !(d.fields.Keys <= MessageFields) ==> r.Err?
    ensures r.Err? ==> r.error.TypeError?
  {
    if !d.JObj? then Err(TypeError("argument after ** must be a mapping"))
    else if !(d.fields.Keys <= MessageFields) then Err(TypeError("__init__() got an unexpected keyword argument"))
    else
      var message := MessageFromFields(MessageDefaults(stamp) + d.fields);
      if message.Some? then Ok(message.value) else Err(TypeError("a field has a value of the wrong type"))
  }

  /** The fields of a message's dict. */
  lemma MessageDictFields(m: AgentMessage)
    ensures var f := MessageToDict(m).fields;
      && f["message_id"] == JStr(m.messageId) && f["sender_id"] == JStr(m.senderId)
      && f["recipient_id"] == JStr(m.recipientId) && f["content"] == JObj(m.content)
      && f["correlation_id"] == OptionalText(m.correlationId) && f["timestamp"] == JFloat(m.timestamp)
      && f["ttl"] == OptionalInt(m.ttl)
  {
  }

  /** A complete field map holding a message's encoded fields decodes to that message. */
  lemma MessageFromFieldsOf(m: AgentMessage, g: map<string, Value>)
    requires MessageFields <= g.Keys
    requires g["message_id"] == JStr(m.messageId) && g["sender_id"] == JStr(m.senderId)
    requires g["recipient_id"] == JStr(m.recipientId) && g["content"] == JObj(m.content)
    requires g["correlation_id"] == OptionalText(m.correlationId) && g["timestamp"] == JFloat(m.timestamp)
    requires g["ttl"] == OptionalInt(m.ttl)
    ensures MessageFromFields(g) == Some(m)
  {
  }

  /** Converting a message to a dict and back gives the same message, whatever the defaults would have been. */
  lemma MessageRoundTrip(m: AgentMessage, stamp: Stamp)
    ensures MessageFromDict(MessageToDict(m), stamp) == Ok(m)
  {
    var f := MessageToDict(m).fields;
    MessageDictFields(m);
    MessageFromFieldsOf(m, MessageDefaults(stamp) + f);
  }

  /** A complete field map that decodes to a message, with a float timestamp, is that message's dict. */
  lemma MessageFromFieldsInverse(g: map<string, Value>)
    requires g.Keys == MessageFields && MessageFromFields(g).Some? && g["timestamp"].JFloat?
    ensures MessageToDict(MessageFromFields(g).value).fields == g
  {
    var m := MessageFromFields(g).value;
    MessageDictFields(m);
    assert g["message_id"] == JStr(m.messageId) && g["sender_id"] == JStr(m.senderId);
    assert g["recipient_id"] == JStr(m.recipientId) && g["content"] == JObj(m.content);
    assert g["correlation_id"] == OptionalText(m.correlationId) && g["timestamp"] == JFloat(m.timestamp);
    assert g["ttl"] == OptionalInt(m.ttl);
    var e := MessageToDict(m).fields;
    forall k | k in e ensures e[k] == g[k] {
    }
  }

  /** A dict that from_dict accepts is the message's dict with the omitted fields at their defaults (for a float timestamp). */
  lemma MessageFromDictFillsDefaults(d: Value, stamp: Stamp)
    requires MessageFromDict(d, stamp).Ok?
    requires "timestamp" in d.fields ==> d.fields["timestamp"].JFloat?
    ensures MessageToDict(MessageFromDict(d, stamp).value) == JObj(MessageDefaults(stamp) + d.fields)
  {
    var g := MessageDefaults(stamp) + d.fields;
    assert g.Keys == MessageFields;
    assert g["timestamp"].JFloat?;
    MessageFromFieldsInverse(g);
  }
}
