/** The event publisher: a producer that exists only between module start-up
    and shut-down, and the messages it hands to the Kafka cluster. */
module Kafka {
  import opened Wrappers
  import opened JsValues

  /** The value of a message: a string payload as it is, any other payload
      as its JSON text (`JSON.stringify(payload)`, left uninterpreted). */
  datatype MessageValue = Verbatim(text: string) | JsonOf(payload: JsValue)

  datatype Message = Message(value: MessageValue, key: Option<string>, headers: Option<map<string, string>>)

  /** The argument of one `producer.send`. */
  datatype ProducerRecord = ProducerRecord(topic: string, messages: seq<Message>)

  /** KafkaEmitOptions: `key` and `headers` are None when null or undefined. */
  datatype EmitOptions = EmitOptions(
    topic: string,
    payload: JsValue,
    key: Option<string>,
    headers: Option<map<string, string>>)

  /** Why a publish failed: ensureProducer found no producer, or the cluster
      did not acknowledge the send. */
  datatype KafkaError = ProducerNotConnected | SendFailed

  /** The text of the error ensureProducer throws. */
  const ProducerNotConnectedMessage: string := "Kafka producer is not connected. Ensure KafkaModule is initialized."

  /** `typeof payload === 'string' ? payload : JSON.stringify(payload)`. */
  function EncodeValue(payload: JsValue): (v: MessageValue)
    ensures v.Verbatim? <==> payload.JsString?
    ensures v.Verbatim? ==> v.text == payload.s
    ensures v.JsonOf? ==> v.payload == payload
  {
    if payload.JsString? then Verbatim(payload.s) else JsonOf(payload)
  }

  /** What a consumer reads from a message value: the text of a string
      payload, the parse of the JSON text otherwise, and nothing when
      `JSON.stringify` gave undefined (an undefined payload). The choice
      between the first two reads the model's tag on the value; on the wire
      both are bare text, so this is a consumer that knows which kind of
      payload the topic carries. */
  function ReadValue(value: MessageValue): Option<JsValue> {
    match value
    case Verbatim(text) => Some(JsString(text))
    case JsonOf(p) => if p.JsUndefined? then None else Some(JsonReparse(p))
  }

  /** A consumer reads back exactly the payload that was sent when undefined
      occurs nowhere in it; an undefined payload reads as nothing. */
  lemma EncodeValueRoundTrip(payload: JsValue)
    ensures ReadValue(EncodeValue(payload)) == Some(payload) <==> IsJson(payload)
    ensures payload.JsUndefined? ==> ReadValue(EncodeValue(payload)) == None
  {
    JsonReparseExact(payload);
  }

  /** An undefined property is lost on the way: the consumer reads the
      object without it. */
  lemma UndefinedPropertyIsDropped(key: string)
    ensures ReadValue(EncodeValue(JsObject(map[key := JsUndefined]))) == Some(JsObject(map[]))
  {
    var r := JsonReparse(JsObject(map[key := JsUndefined]));
    assert r.props.Keys == {};
  }

  /** stringifyHeaders: `String(v)` of every value, same keys. */
  function StringifyHeaders(headers: map<string, string>): (r: map<string, string>)
    ensures r.Keys == headers.Keys
    ensures forall k :: k in headers ==> r[k] == headers[k]
  {
    map k | k in headers :: headers[k]
  }

  /** The one message emit sends: the key only when it is not null, the
      headers only when there is at least one. */
  function EmitMessage(options: EmitOptions): (m: Message)
    ensures m.value == EncodeValue(options.payload)
    ensures m.key.Some? <==> options.key.Some?
    ensures m.key.Some? ==> m.key == options.key
    ensures m.headers.Some? <==> options.headers.Some? && |options.headers.value| > 0
    ensures m.headers.Some? ==> m.headers.value == StringifyHeaders(options.headers.value)
  {
    var headers :=
      if options.headers.Some? && |options.headers.value| > 0
      then Some(StringifyHeaders(options.headers.value))
      else None;
    Message(EncodeValue(options.payload), options.key, headers)
  }

  /** An empty key is still a key: only null and undefined leave it out. */
  lemma EmptyKeyIsKept(topic: string, payload: JsValue)
    ensures EmitMessage(EmitOptions(topic, payload, Some(""), None)).key == Some("")
  {
  }

  /** sendMessage sends what emit sends with neither key nor headers. */
  lemma SendMessageIsPlainEmit(topic: string, message: JsValue)
    ensures EmitMessage(EmitOptions(topic, message, None, None)) == Message(EncodeValue(message), None, None)
  {
  }

  class KafkaService {
    /** `producer !== null`. */
    var connected: bool
    /** The records the cluster has acknowledged, in order; it stands in for
        the broker and is not state of the gateway. */
    ghost var sent: seq<ProducerRecord>

    constructor ()
      ensures !connected && sent == []
    {
      connected := false;
      sent := [];
    }

    /** onModuleInit: create the producer and connect it. */
    method OnModuleInit()
      modifies this
      ensures connected && sent == old(sent)
    {
      connected := true;
    }

    /** onModuleDestroy: disconnect and drop the producer if there is one,
        otherwise nothing; so a second call changes nothing. */
    method OnModuleDestroy()
      modifies this
      ensures !connected && sent == old(sent)
    {
      if connected {
        connected := false;
      }
    }

    /** ensureProducer: throws exactly when there is no producer. */
    method EnsureProducer() returns (o: Outcome<KafkaError>)
      ensures o.Pass? <==> connected
      ensures o.Fail? ==> o.error == ProducerNotConnected
    {
      if !connected {
        return Fail(ProducerNotConnected);
      }
      return Pass;
    }

    /** `producer.send(record)`: the cluster acknowledges it, and then it is
        published, or it does not acknowledge it. */
    method Send(record: ProducerRecord) returns (o: Outcome<KafkaError>)
      requires connected
      modifies this
      ensures connected
      ensures o.Pass? ==> sent == old(sent) + [record]
      ensures o.Fail? ==> o.error == SendFailed && sent == old(sent)
    {
      var acknowledged: bool :| true;
      if acknowledged {
        sent := sent + [record];
        return Pass;
      }
      return Fail(SendFailed);
    }

    /** sendMessage: one message, no key, no headers. */
    method SendMessage(topic: string, message: JsValue) returns (o: Outcome<KafkaError>)
      modifies this
      ensures connected == old(connected)
      ensures !old(connected) ==> o == Fail(ProducerNotConnected)
      ensures old(connected) && o.Fail? ==> o.error == SendFailed
      ensures o.Pass? ==> sent == old(sent) + [ProducerRecord(topic, [Message(EncodeValue(message), None, None)])]
      ensures o.Fail? ==> sent == old(sent)
    {
      o := EnsureProducer();
      if o.Fail? {
        return;
      }
      o := Send(ProducerRecord(topic, [Message(EncodeValue(message), None, None)]));
    }

    /** emit: one message built from the options. */
    method Emit(options: EmitOptions) returns (o: Outcome<KafkaError>)
      modifies this
      ensures connected == old(connected)
      ensures !old(connected) ==> o == Fail(ProducerNotConnected)
      ensures old(connected) && o.Fail? ==> o.error == SendFailed
      ensures o.Pass? ==> sent == old(sent) + [ProducerRecord(options.topic, [EmitMessage(options)])]
      ensures o.Fail? ==> sent == old(sent)
    {
      o := EnsureProducer();
      if o.Fail? {
        return;
      }
      o := Send(ProducerRecord(options.topic, [EmitMessage(options)]));
    }
  }

  /** The lifecycle from the outside: a publish before start-up and one
      after shut-down (done twice) both fail as not connected, and nothing
      is published then; in between at most one record per call. */
  method PublisherLifecycle(topic: string, message: JsValue) returns (before: Outcome<KafkaError>, after: Outcome<KafkaError>)
    ensures before == Fail(ProducerNotConnected) && after == Fail(ProducerNotConnected)
  {
    var kafka := new KafkaService();
    before := kafka.SendMessage(topic, message);
    assert kafka.sent == [];
    kafka.OnModuleInit();
    var o := kafka.SendMessage(topic, message);
    assert |kafka.sent| <= 1;
    ghost var published := kafka.sent;
    kafka.OnModuleDestroy();
    kafka.OnModuleDestroy();
    after := kafka.SendMessage(topic, message);
    assert kafka.sent == published;
  }
}
