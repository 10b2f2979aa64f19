/** recordAnswer: an answer is not forwarded over HTTP but published on the
    word-progress topic, and the caller is told only that it was accepted. */
module WordProgress {
  import opened Wrappers
  import opened JsValues
  import opened Kafka
  import opened WordProgressDto

  const RecordAnswerTopic: string := "word-progress_record-answer"

  /** WordProgressRecordAnswerPayload: the message that is published. Its
      declared quality is a member's number; the quality actually carried
      is whatever the body passed @IsEnum with. */
  datatype RecordAnswerPayload = RecordAnswerPayload(userLoginId: string, wordId: string, quality: SentQuality)

  /** RecordAnswerAcceptedDto. */
  datatype RecordAnswerAccepted = RecordAnswerAccepted(accepted: bool)

  /** The payload as the JSON object that is serialised. */
  function PayloadJson(p: RecordAnswerPayload): (v: JsValue)
    ensures v.JsObject? && v.props.Keys == {"userLoginId", "wordId", "quality"}
  {
    JsObject(map[
      "userLoginId" := JsString(p.userLoginId),
      "wordId" := JsString(p.wordId),
      "quality" := SentQualityJson(p.quality)])
  }

  /** What a consumer reads back from a message value: a string user id, and
      an answer that passes the same checks as the HTTP body. */
  function DecodePayload(value: MessageValue): (r: Option<RecordAnswerPayload>)
    ensures r.Some? ==> ReadValue(value).Some? && ReadValue(value).value.JsObject?
  {
    match ReadValue(value)
    case Some(JsObject(props)) =>
      if !Prop(props, "userLoginId").JsString? then None
      else
        (match ToRecordAnswer(RecordAnswerFrom(props))
         case None => None
         case Some(dto) => Some(RecordAnswerPayload(Prop(props, "userLoginId").s, dto.wordId, dto.quality)))
    case _ => None
  }

  /** The payload of the corrected recordAnswer: the caller's id and the
      body's two fields. */
  function PayloadOf(userLoginId: string, body: RecordAnswerDto): (p: RecordAnswerPayload)
    ensures p.userLoginId == userLoginId
    ensures p.wordId == body.wordId && p.quality == body.quality
  {
    RecordAnswerPayload(userLoginId, body.wordId, body.quality)
  }

  /** The record the corrected recordAnswer publishes: one message, no key,
      no headers. */
  function RecordAnswerRecord(userLoginId: string, body: RecordAnswerDto): ProducerRecord {
    ProducerRecord(RecordAnswerTopic, [Message(EncodeValue(PayloadJson(PayloadOf(userLoginId, body))), None, None)])
  }

  /** The published payload holds only strings and numbers. */
  lemma PayloadJsonIsJson(p: RecordAnswerPayload)
    ensures IsJson(PayloadJson(p))
  {
  }

  /** Publishing and consuming, corrected: the consumer reads the caller's id
      and the answer that was sent, and the record goes to the record-answer
      topic. */
  lemma PublishedAnswerRoundTrip(userLoginId: string, body: RecordAnswerDto)
    requires IsUuidString(body.wordId)
    ensures RecordAnswerRecord(userLoginId, body).topic == RecordAnswerTopic
    ensures |RecordAnswerRecord(userLoginId, body).messages| == 1
    ensures DecodePayload(RecordAnswerRecord(userLoginId, body).messages[0].value)
            == Some(PayloadOf(userLoginId, body))
  {
    var v := PayloadJson(PayloadOf(userLoginId, body));
    PayloadJsonIsJson(PayloadOf(userLoginId, body));
    JsonReparseExact(v);
    assert v.props == map["userLoginId" := JsString(userLoginId)] + RecordAnswerProps(body);
    WordProgressDto.RecordAnswerRoundTrip(body);
  }

  /** `{ userLoginId, ...body }` as the source writes it: object spread, so a
      key of the body replaces the one written before it. */
  function PayloadAsWritten(userLoginId: string, body: map<string, JsValue>): (p: map<string, JsValue>)
    ensures p.Keys == body.Keys + {"userLoginId"}
    ensures forall k | k in body :: p[k] == body[k]
  {
    map["userLoginId" := JsString(userLoginId)] + body
  }

  /** The record recordAnswer publishes as written. */
  function RecordAnswerRecordAsWritten(userLoginId: string, body: map<string, JsValue>): (r: ProducerRecord)
    ensures r.topic == RecordAnswerTopic && |r.messages| == 1
    ensures r.messages[0].key.None? && r.messages[0].headers.None?
    ensures r.messages[0].value.JsonOf? && r.messages[0].value.payload.JsObject?
    ensures r.messages[0].value.payload.props.Keys == body.Keys + {"userLoginId"}
  {
    ProducerRecord(RecordAnswerTopic, [Message(EncodeValue(JsObject(PayloadAsWritten(userLoginId, body))), None, None)])
  }

  /** A body that named its quality publishes the name, not the number
      the payload type declares. */
  lemma NamedQualityPublishedAsName(userLoginId: string, wordId: string, q: AnswerQuality)
    ensures var record := RecordAnswerRecordAsWritten(userLoginId, RecordAnswerProps(RecordAnswerDto(wordId, ByName(q))));
      record.messages[0].value.JsonOf? && record.messages[0].value.payload.props["quality"] == JsString(QualityName(q))
  {
  }

  /** The spread keeps the caller's id exactly when the body has no
      userLoginId of its own, or the same one. */
  lemma PayloadAsWrittenKeepsCaller(userLoginId: string, body: map<string, JsValue>)
    ensures PayloadAsWritten(userLoginId, body)["userLoginId"] == JsString(userLoginId)
            <==> ("userLoginId" !in body || body["userLoginId"] == JsString(userLoginId))
  {
  }

  /** What the consumer reads from the record as written, for a JSON body
      that validated: the body's answer, in the name of whatever userLoginId
      the spread left, and nothing when that is not a string. */
  lemma AsWrittenRecordDecodes(userLoginId: string, body: map<string, JsValue>)
    requires IsJson(JsObject(body)) && ToRecordAnswer(RecordAnswerFrom(body)).Some?
    ensures var published := PayloadAsWritten(userLoginId, body)["userLoginId"];
      var dto := ToRecordAnswer(RecordAnswerFrom(body)).value;
      DecodePayload(RecordAnswerRecordAsWritten(userLoginId, body).messages[0].value)
      == if published.JsString? then Some(RecordAnswerPayload(published.s, dto.wordId, dto.quality)) else None
  {
    var props := PayloadAsWritten(userLoginId, body);
    assert IsJson(JsObject(props));
    JsonReparseExact(JsObject(props));
    assert RecordAnswerFrom(props) == RecordAnswerFrom(body);
  }

  /** The discrepancy: a body that validates as a RecordAnswerDto but also
      carries userLoginId publishes an answer in another user's name. */
  lemma PayloadAsWrittenImpersonates(userLoginId: string, other: string, body: RecordAnswerDto)
    requires other != userLoginId && IsUuidString(body.wordId)
    ensures DecodePayload(RecordAnswerRecordAsWritten(userLoginId,
              RecordAnswerProps(body)["userLoginId" := JsString(other)]).messages[0].value)
            == Some(RecordAnswerPayload(other, body.wordId, body.quality))
  {
    var sent := RecordAnswerProps(body)["userLoginId" := JsString(other)];
    WordProgressDto.RecordAnswerRoundTrip(body);
    assert RecordAnswerFrom(sent) == RecordAnswerFrom(RecordAnswerProps(body));
    assert IsJson(JsObject(sent));
    AsWrittenRecordDecodes(userLoginId, sent);
  }

  /** On a body holding only the DTO's fields the record as written and the
      corrected record are the same. */
  lemma PayloadAsWrittenAgreesOnDtoFields(userLoginId: string, body: RecordAnswerDto)
    ensures RecordAnswerRecordAsWritten(userLoginId, RecordAnswerProps(body)) == RecordAnswerRecord(userLoginId, body)
  {
    assert JsObject(PayloadAsWritten(userLoginId, RecordAnswerProps(body))) == PayloadJson(PayloadOf(userLoginId, body));
  }

  class WordProgressService {
    const kafkaService: KafkaService

    constructor (kafkaService: KafkaService)
      ensures this.kafkaService == kafkaService
    {
      this.kafkaService := kafkaService;
    }

    /** recordAnswer: publish `{ userLoginId, ...body }` for a body that
        passed validation, extra keys and all, then report it accepted; a
        publish error reaches the caller as it is. */
    method RecordAnswer(userLoginId: string, body: map<string, JsValue>) returns (r: Result<RecordAnswerAccepted, KafkaError>)
      requires ToRecordAnswer(RecordAnswerFrom(body)).Some?
      modifies kafkaService
      ensures kafkaService.connected == old(kafkaService.connected)
      ensures r.Success? ==> r.value == RecordAnswerAccepted(true)
      ensures r.Success? ==> kafkaService.sent == old(kafkaService.sent) + [RecordAnswerRecordAsWritten(userLoginId, body)]
      ensures r.Failure? ==> kafkaService.sent == old(kafkaService.sent)
      ensures !old(kafkaService.connected) ==> r == Failure(ProducerNotConnected)
      ensures old(kafkaService.connected) && r.Failure? ==> r.error == SendFailed
    {
      var o := kafkaService.SendMessage(RecordAnswerTopic, JsObject(PayloadAsWritten(userLoginId, body)));
      if o.Fail? {
        return Failure(o.error);
      }
      return Success(RecordAnswerAccepted(true));
    }
  }
}
