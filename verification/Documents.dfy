/** JSON messages: the ones that the client makes and the ones that it receives. */
module Documents {
  import opened Bits
  import opened Ids

  datatype Option<+T> = None | Some(value: T)

  datatype Json =
    | Text(text: string)
    | TextList(items: seq<string>)
    | Parsed(source: string)  // whatever json-c parses from a text

  type Doc = map<string, Json>

  const HANDSHAKE_CHANNEL := "/meta/handshake"

  /** `make_connect`. */
  function ConnectDoc(): Doc {
    map["channel" := Text("/meta/connect"), "connectionType" := Text("long-polling")]
  }

  /** `make_handshake`. */
  function HandshakeDoc(): Doc {
    map["channel" := Text(HANDSHAKE_CHANNEL),
        "version" := Text("1.0"),
        "supportedConnectionTypes" := TextList(["long-polling"])]
  }

  /** `make_publish`. */
  function PublishDoc(channel: string, data: string): Doc {
    map["channel" := Text(channel), "data" := Parsed(data)]
  }

  /** `make_subscribe`. */
  function SubscribeDoc(channel: string): Doc {
    map["channel" := Text("/meta/subscribe"), "subscription" := Text(channel)]
  }

  /** `make_unsubscribe`. */
  function UnsubscribeDoc(channel: string): Doc {
    map["channel" := Text("/meta/unsubscribe"), "subscription" := Text(channel)]
  }

  /** A document with the fields that are added when it is sent. */
  function Labelled(doc: Doc, msgId: Word, clientId: Option<string>): Doc {
    var withId := doc["id" := Text(IdText(msgId))];
    if clientId.Some? then withId["clientId" := Text(clientId.value)] else withId
  }

  /** A document without the fields that are added when it is sent. */
  function Unlabelled(doc: Doc): Doc {
    doc - {"id", "clientId"}
  }

  /** The id that a document carries, as the server would echo it. */
  ghost predicate CarriesId(doc: Doc, msgId: Word) {
    "id" in doc && doc["id"] == Text(IdText(msgId))
  }

  lemma LabellingKeepsTheRest(doc: Doc, msgId: Word, clientId: Option<string>)
    ensures Unlabelled(Labelled(doc, msgId, clientId)) == Unlabelled(doc)
    ensures CarriesId(Labelled(doc, msgId, clientId), msgId)
    ensures clientId.Some? ==>
      "clientId" in Labelled(doc, msgId, clientId) &&
      Labelled(doc, msgId, clientId)["clientId"] == Text(clientId.value)
  {
  }

  /** What application code asks of the client. Callbacks and contexts are named by numbers. */
  datatype ApiCall =
    | Publish(channel: string, data: string)
    | Subscribe(channel: string, callback: int, context: int)
    | Unsubscribe(channel: string)

  datatype AdviceField = AdviceField(reconnect: Option<string>, interval: Option<int>)

  /** A message received from the server: the fields that the client looks at, absent when missing
      or of the wrong type. `reactions[k]` is what application code will call, in order, from
      inside the k-th event callback that the message causes; beyond the end it calls nothing. */
  datatype Incoming = Incoming(
    advice: Option<AdviceField>,
    id: Option<string>,
    channel: Option<string>,
    data: Option<string>,
    clientId: Option<string>,
    successful: Option<bool>,
    reactions: seq<seq<ApiCall>>)
  {
    function Reaction(k: nat): seq<ApiCall> {
      if k < |reactions| then reactions[k] else []
    }
  }

  /** A json-c object: fields that are updated in place, and a reference count. */
  class JsonObject {
    var fields: Doc
    var refs: nat

    /** `json_object_new_object` and the fields set right after it. */
    constructor (doc: Doc)
      ensures fields == doc && refs == 1
    {
      fields := doc;
      refs := 1;
    }

    /** `json_object_get`. */
    method Get()
      modifies this`refs
      ensures refs == old(refs) + 1
    {
      refs := refs + 1;
    }

    /** `json_object_put`; at zero the object is freed. */
    method Put()
      requires refs > 0
      modifies this`refs
      ensures refs == old(refs) - 1
    {
      refs := refs - 1;
    }

    /** `json_set_string`. */
    method SetString(key: string, value: string)
      modifies this`fields
      ensures fields == old(fields)[key := Text(value)]
    {
      fields := fields[key := Text(value)];
    }
  }
}
