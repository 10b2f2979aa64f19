/** The request DTOs of the word-progress endpoints: the answer quality
    enum, the answer bodies and the due-words query, with the checks the
    class-validator decorators put on them. */
module WordProgressDto {
  import opened Wrappers
  import opened JsValues

  /** AnswerQuality, ordered from COMPLETE_BLACKOUT (0) to PERFECT (5). */
  datatype AnswerQuality =
    | CompleteBlackout
    | Incorrect
    | IncorrectButEasy
    | CorrectWithDifficulty
    | CorrectWithHesitation
    | Perfect

  function QualityValue(q: AnswerQuality): (n: int)
    ensures 0 <= n <= 5
  {
    match q
    case CompleteBlackout => 0
    case Incorrect => 1
    case IncorrectButEasy => 2
    case CorrectWithDifficulty => 3
    case CorrectWithHesitation => 4
    case Perfect => 5
  }

  /** The member names, which TypeScript also stores in the enum object. */
  function QualityName(q: AnswerQuality): string {
    match q
    case CompleteBlackout => "COMPLETE_BLACKOUT"
    case Incorrect => "INCORRECT"
    case IncorrectButEasy => "INCORRECT_BUT_EASY"
    case CorrectWithDifficulty => "CORRECT_WITH_DIFFICULTY"
    case CorrectWithHesitation => "CORRECT_WITH_HESITATION"
    case Perfect => "PERFECT"
  }

  /** The member with a given value, if there is one. */
  function QualityOf(n: int): (q: Option<AnswerQuality>)
    ensures q.Some? <==> 0 <= n <= 5
    ensures q.Some? ==> QualityValue(q.value) == n
  {
    match n
    case 0 => Some(CompleteBlackout)
    case 1 => Some(Incorrect)
    case 2 => Some(IncorrectButEasy)
    case 3 => Some(CorrectWithDifficulty)
    case 4 => Some(CorrectWithHesitation)
    case 5 => Some(Perfect)
    case _ => None
  }

  /** The enum has exactly the values 0..5, one member each. */
  lemma QualityValuesExact(n: int)
    ensures (exists q :: QualityValue(q) == n) <==> 0 <= n <= 5
  {
    if 0 <= n <= 5 {
      assert QualityValue(QualityOf(n).value) == n;
    }
  }

  lemma QualityValueInjective(p: AnswerQuality, q: AnswerQuality)
    ensures QualityValue(p) == QualityValue(q) ==> p == q
  {
  }

  /** @IsEnum(AnswerQuality) as the source has it: class-validator accepts
      every value of the enum object, and for a numeric enum that object
      holds the member names too (its reverse mapping). */
  predicate IsAnswerQualityEnumAsWritten(v: JsValue) {
    || (v.JsNumber? && exists q :: v.n == QualityValue(q) as real)
    || (v.JsString? && exists q :: v.s == QualityName(q))
  }

  /** The intended check: the number of a member, 0..5. */
  predicate IsAnswerQuality(v: JsValue) {
    v.JsNumber? && exists q :: v.n == QualityValue(q) as real
  }

  /** The intended check accepts exactly the integers 0..5. */
  lemma IsAnswerQualityExact(v: JsValue)
    ensures IsAnswerQuality(v) <==> (IsInt(v) && 0.0 <= v.n <= 5.0)
  {
    if IsInt(v) && 0.0 <= v.n <= 5.0 {
      var q := QualityOf(v.n.Floor).value;
      assert v.n == QualityValue(q) as real;
    }
  }

  /** The check as written lets a member name through as the quality. */
  lemma EnumNameAcceptedAsWritten()
    ensures IsAnswerQualityEnumAsWritten(JsString("PERFECT"))
    ensures !IsAnswerQuality(JsString("PERFECT"))
  {
    assert JsString("PERFECT").s == QualityName(Perfect);
  }

  /** On numbers the two checks agree; they differ only on the names. */
  lemma EnumChecksAgreeOnNumbers(v: JsValue)
    requires !v.JsString?
    ensures IsAnswerQualityEnumAsWritten(v) <==> IsAnswerQuality(v)
  {
  }

  // ---------------------------------------------------------------------
  // RecordAnswerDto and BulkRecordAnswersDto

  /** A record-answer body as received: the raw values of its two fields. */
  datatype RecordAnswerInput = RecordAnswerInput(wordId: JsValue, quality: JsValue)

  /** The quality of a body that passed @IsEnum: the member's number, or
      the member's name, which the check as written lets through too. */
  datatype SentQuality = ByValue(member: AnswerQuality) | ByName(member: AnswerQuality)

  /** The JSON value a sent quality came as. */
  function SentQualityJson(s: SentQuality): JsValue {
    match s
    case ByValue(m) => JsNumber(QualityValue(m) as real)
    case ByName(m) => JsString(QualityName(m))
  }

  /** The member with a given name, if there is one. */
  function QualityNamed(s: string): (q: Option<AnswerQuality>)
    ensures q.Some? ==> QualityName(q.value) == s
  {
    match s
    case "COMPLETE_BLACKOUT" => Some(CompleteBlackout)
    case "INCORRECT" => Some(Incorrect)
    case "INCORRECT_BUT_EASY" => Some(IncorrectButEasy)
    case "CORRECT_WITH_DIFFICULTY" => Some(CorrectWithDifficulty)
    case "CORRECT_WITH_HESITATION" => Some(CorrectWithHesitation)
    case "PERFECT" => Some(Perfect)
    case _ => None
  }

  /** Every member is found under its own name. */
  lemma QualityNamedInverse(q: AnswerQuality)
    ensures QualityNamed(QualityName(q)) == Some(q)
  {
  }

  /** The validated body. */
  datatype RecordAnswerDto = RecordAnswerDto(wordId: string, quality: SentQuality)

  /** @IsUUID() on wordId and @IsEnum(AnswerQuality) on quality, as the
      source has them. */
  predicate ValidRecordAnswer(d: RecordAnswerInput) {
    IsUuid(d.wordId) && IsAnswerQualityEnumAsWritten(d.quality)
  }

  /** The intended check: a UUID and the number of a member. */
  predicate ValidRecordAnswerIntended(d: RecordAnswerInput) {
    IsUuid(d.wordId) && IsAnswerQuality(d.quality)
  }

  /** The body's fields as the JSON object they come from. */
  function RecordAnswerProps(dto: RecordAnswerDto): map<string, JsValue> {
    map["wordId" := JsString(dto.wordId), "quality" := SentQualityJson(dto.quality)]
  }

  /** The fields a nested answer object is read through. */
  function RecordAnswerFrom(props: map<string, JsValue>): RecordAnswerInput {
    RecordAnswerInput(Prop(props, "wordId"), Prop(props, "quality"))
  }

  /** A name the enum check accepts belongs to a member. */
  lemma AcceptedNameIsMember(v: JsValue)
    requires v.JsString? && IsAnswerQualityEnumAsWritten(v)
    ensures QualityNamed(v.s).Some?
  {
    var q :| v.s == QualityName(q);
    QualityNamedInverse(q);
  }

  /** Validation of one body: a DTO exactly when the checks pass, and then
      one carrying the very values that were sent. */
  function ToRecordAnswer(d: RecordAnswerInput): (r: Option<RecordAnswerDto>)
    ensures r.Some? <==> ValidRecordAnswer(d)
    ensures r.Some? ==> d.wordId == JsString(r.value.wordId) && IsUuidString(r.value.wordId)
    ensures r.Some? ==> d.quality == SentQualityJson(r.value.quality)
  {
    if !ValidRecordAnswer(d) then None
    else if d.quality.JsNumber? then
      IsAnswerQualityExact(d.quality);
      Some(RecordAnswerDto(d.wordId.s, ByValue(QualityOf(d.quality.n.Floor).value)))
    else
      AcceptedNameIsMember(d.quality);
      Some(RecordAnswerDto(d.wordId.s, ByName(QualityNamed(d.quality.s).value)))
  }

  /** A body that meets the intended check validates, with its quality
      given by number; the check as written accepts more. */
  lemma IntendedAnswerIsByValue(d: RecordAnswerInput)
    requires ValidRecordAnswerIntended(d)
    ensures ValidRecordAnswer(d)
    ensures ToRecordAnswer(d).Some? && ToRecordAnswer(d).value.quality.ByValue?
  {
  }

  /** A member name with a UUID makes a valid body, whose quality is that
      name. */
  lemma NamedQualityValidates(wordId: string, q: AnswerQuality)
    requires IsUuidString(wordId)
    ensures ToRecordAnswer(RecordAnswerInput(JsString(wordId), JsString(QualityName(q))))
            == Some(RecordAnswerDto(wordId, ByName(q)))
    ensures !ValidRecordAnswerIntended(RecordAnswerInput(JsString(wordId), JsString(QualityName(q))))
  {
    QualityNamedInverse(q);
  }

  /** A validated body read back from its own JSON object validates to itself. */
  lemma RecordAnswerRoundTrip(dto: RecordAnswerDto)
    requires IsUuidString(dto.wordId)
    ensures ToRecordAnswer(RecordAnswerFrom(RecordAnswerProps(dto))) == Some(dto)
  {
    var d := RecordAnswerFrom(RecordAnswerProps(dto));
    assert d == RecordAnswerInput(JsString(dto.wordId), SentQualityJson(dto.quality));
    match dto.quality {
      case ByValue(m) =>
        assert IsAnswerQualityEnumAsWritten(d.quality);
        QualityValueInjective(ToRecordAnswer(d).value.quality.member, m);
      case ByName(m) =>
        assert IsAnswerQualityEnumAsWritten(d.quality);
        QualityNamedInverse(m);
    }
  }

  /** @ValidateNested on one element: an object whose fields validate. */
  predicate ValidNestedAnswer(v: JsValue) {
    v.JsObject? && ValidRecordAnswer(RecordAnswerFrom(v.props))
  }

  /** A bulk body: the raw value of `answers`. */
  datatype BulkRecordAnswersInput = BulkRecordAnswersInput(answers: JsValue)

  /** @IsArray() and @ValidateNested({each: true}). */
  predicate ValidBulkRecordAnswers(d: BulkRecordAnswersInput) {
    d.answers.JsArray? && forall i :: 0 <= i < |d.answers.items| ==> ValidNestedAnswer(d.answers.items[i])
  }

  /** The elements validated one by one, in order; None at the first that fails. */
  function ToRecordAnswers(items: seq<JsValue>): (r: Option<seq<RecordAnswerDto>>)
    ensures r.Some? <==> forall i :: 0 <= i < |items| ==> ValidNestedAnswer(items[i])
    ensures r.Some? ==> |r.value| == |items|
    ensures r.Some? ==> forall i :: 0 <= i < |items| ==>
              Some(r.value[i]) == ToRecordAnswer(RecordAnswerFrom(items[i].props))
  {
    if items == [] then Some([])
    else if !ValidNestedAnswer(items[0]) then None
    else
      match ToRecordAnswers(items[1..])
      case None => None
      case Some(rest) =>
        assert forall i :: 1 <= i < |items| ==> items[i] == items[1..][i - 1];
        Some([ToRecordAnswer(RecordAnswerFrom(items[0].props)).value] + rest)
  }

  /** Validation of a bulk body: every answer validated, or none. */
  function ToBulkRecordAnswers(d: BulkRecordAnswersInput): (r: Option<seq<RecordAnswerDto>>)
    ensures r.Some? <==> ValidBulkRecordAnswers(d)
    ensures r.Some? ==> |r.value| == |d.answers.items|
  {
    if d.answers.JsArray? then ToRecordAnswers(d.answers.items) else None
  }

  /** One bad answer invalidates the whole bulk body, wherever it is. */
  lemma BulkRejectsAnyBadAnswer(items: seq<JsValue>, k: nat)
    requires k < |items| && !ValidNestedAnswer(items[k])
    ensures !ValidBulkRecordAnswers(BulkRecordAnswersInput(JsArray(items)))
  {
  }

  /** An answers value that is not an array is rejected, even an object. */
  lemma BulkRequiresArray(v: JsValue)
    requires !v.JsArray?
    ensures ToBulkRecordAnswers(BulkRecordAnswersInput(v)) == None
  {
  }

  // ---------------------------------------------------------------------
  // GetDueWordsQueryDto

  /** What @Type(() => Number) made of a `limit` query parameter: a finite
      number, or NaN / an infinity (not finite). */
  datatype NumberValue = Finite(r: real) | NotFinite

  /** A due-words query as received; `limit` is None when the parameter is
      absent, the other fields are undefined when absent. */
  datatype GetDueWordsQueryInput = GetDueWordsQueryInput(
    courseId: JsValue,
    lessonId: JsValue,
    limit: Option<NumberValue>,
    includeNew: JsValue)

  /** The validated query the service receives. */
  datatype GetDueWordsQuery = GetDueWordsQuery(
    courseId: Option<string>,
    lessonId: Option<string>,
    limit: int,
    includeNew: bool)

  const DefaultLimit := 20

  /** The field initializer applies when the parameter is absent. */
  function EffectiveLimit(limit: Option<NumberValue>): NumberValue {
    limit.GetOr(Finite(DefaultLimit as real))
  }

  /** @IsInt(), @Min(1), @Max(100). */
  predicate ValidLimit(n: NumberValue) {
    n.Finite? && IsIntegral(n.r) && 1.0 <= n.r <= 100.0
  }

  /** The @Transform on includeNew: 'true' and true give true, 'false' and
      false give false, anything else (absence included) gives true. */
  function IncludeNew(value: JsValue): (b: bool)
    ensures !b <==> value == JsString("false") || value == JsBool(false)
  {
    if value == JsString("true") || value == JsBool(true) then true
    else if value == JsString("false") || value == JsBool(false) then false
    else true
  }

  /** The query's checks; @IsBoolean on includeNew always holds, since the
      @Transform runs first and yields a boolean. */
  predicate ValidDueWordsQuery(q: GetDueWordsQueryInput) {
    && Optional(q.courseId, IsUuid)
    && Optional(q.lessonId, IsUuid)
    && ValidLimit(EffectiveLimit(q.limit))
  }

  function PresentString(v: JsValue): Option<string> {
    if v.JsString? then Some(v.s) else None
  }

  /** Validation and transformation of the query. */
  function ToDueWordsQuery(q: GetDueWordsQueryInput): (r: Option<GetDueWordsQuery>)
    ensures r.Some? <==> ValidDueWordsQuery(q)
    ensures r.Some? ==> 1 <= r.value.limit <= 100
    ensures r.Some? && q.limit.None? ==> r.value.limit == DefaultLimit
    ensures r.Some? && q.limit.Some? ==> q.limit.value == Finite(r.value.limit as real)
    ensures r.Some? ==> r.value.includeNew == IncludeNew(q.includeNew)
    ensures r.Some? ==> (r.value.courseId.Some? <==> !IsMissing(q.courseId))
    ensures r.Some? ==> (r.value.lessonId.Some? <==> !IsMissing(q.lessonId))
    ensures r.Some? && r.value.courseId.Some? ==> q.courseId == JsString(r.value.courseId.value) && IsUuidString(r.value.courseId.value)
    ensures r.Some? && r.value.lessonId.Some? ==> q.lessonId == JsString(r.value.lessonId.value) && IsUuidString(r.value.lessonId.value)
  {
    if ValidDueWordsQuery(q) then
      var limit := EffectiveLimit(q.limit);
      Some(GetDueWordsQuery(PresentString(q.courseId), PresentString(q.lessonId),
                            limit.r.Floor, IncludeNew(q.includeNew)))
    else None
  }

  /** The query with no parameters at all is valid: limit 20, new words included. */
  lemma EmptyQueryDefaults()
    ensures ToDueWordsQuery(GetDueWordsQueryInput(JsUndefined, JsUndefined, None, JsUndefined))
              == Some(GetDueWordsQuery(None, None, 20, true))
  {
  }

  /** limit outside [1, 100], fractional or not a number: the query is rejected. */
  lemma LimitBounds(q: GetDueWordsQueryInput, r: real)
    requires q.limit == Some(Finite(r))
    requires r < 1.0 || r > 100.0 || !IsIntegral(r)
    ensures ToDueWordsQuery(q) == None
  {
  }

  lemma LimitNotANumber(q: GetDueWordsQueryInput)
    requires q.limit == Some(NotFinite)
    ensures ToDueWordsQuery(q) == None
  {
  }

  /** An id filter that is not a UUID rejects the query. */
  lemma CourseIdMustBeUuid(q: GetDueWordsQueryInput)
    requires q.courseId.JsString? && !IsUuidString(q.courseId.s)
    ensures ToDueWordsQuery(q) == None
  {
  }
}
