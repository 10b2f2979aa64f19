/** The request DTOs of the course endpoints and the class-validator checks
    their decorators declare. Each DTO holds the raw value of every field it
    declares (undefined when the body lacks it). */
module CoursesDto {
  import opened Wrappers
  import opened JsValues

  /** A required string: @IsString() and @IsNotEmpty(). */
  predicate RequiredString(v: JsValue) {
    IsString(v) && IsNotEmpty(v)
  }

  /** An optional string: @IsString() and @IsOptional(). */
  predicate OptionalString(v: JsValue) {
    Optional(v, IsString)
  }

  /** An optional number: @IsNumber() and @IsOptional(). */
  predicate OptionalNumber(v: JsValue) {
    Optional(v, IsNumber)
  }

  datatype CreateCourseDto = CreateCourseDto(name: JsValue, coverImageUrl: JsValue) {
    predicate Valid() {
      RequiredString(name) && OptionalString(coverImageUrl)
    }
  }

  datatype CreateCourseLessonDto = CreateCourseLessonDto(
    name: JsValue,
    coverImageUrl: JsValue,
    maxWords: JsValue,
    orderIndex: JsValue)
  {
    predicate Valid() {
      RequiredString(name) && OptionalString(coverImageUrl)
        && OptionalNumber(maxWords) && OptionalNumber(orderIndex)
    }
  }

  datatype CreateCourseLessonWordDto = CreateCourseLessonWordDto(
    word: JsValue,
    meaning: JsValue,
    pronunciation: JsValue,
    partOfSpeech: JsValue,
    audioUrl: JsValue)
  {
    predicate Valid() {
      RequiredString(word) && RequiredString(meaning)
        && OptionalString(pronunciation) && OptionalString(partOfSpeech) && OptionalString(audioUrl)
    }
  }

  datatype ReorderLessonsDto = ReorderLessonsDto(lessonId: JsValue, targetOrderIndex: JsValue) {
    /** @IsUUID() and @IsNotEmpty() on lessonId; @IsInt() and @Min(1) on the
        1-based target position. */
    predicate Valid() {
      IsUuid(lessonId) && IsNotEmpty(lessonId) && IsInt(targetOrderIndex) && Min(targetOrderIndex, 1.0)
    }
  }

  /** A required string is a string other than ''; anything else, a missing
      field included, is rejected. */
  lemma RequiredStringExact(v: JsValue)
    ensures RequiredString(v) <==> (v.JsString? && v.s != "")
  {
  }

  /** An optional string may be missing or null, and is otherwise a string. */
  lemma OptionalStringExact(v: JsValue)
    ensures OptionalString(v) <==> (v.JsUndefined? || v.JsNull? || v.JsString?)
  {
  }

  /** CreateCourseDto: a non-empty name; any cover URL string, or none. */
  lemma CreateCourseRules(d: CreateCourseDto)
    ensures d.Valid() ==> d.name.JsString? && d.name.s != ""
    ensures d.Valid() ==> !d.coverImageUrl.JsNumber? && !d.coverImageUrl.JsBool?
    ensures d.name.JsString? && d.name.s != "" && d.coverImageUrl.JsUndefined? ==> d.Valid()
  {
  }

  /** IsNotEmpty does not trim: a blank name passes. */
  lemma BlankNameAccepted()
    ensures CreateCourseDto(JsString(" "), JsUndefined).Valid()
  {
  }

  /** CreateCourseLessonDto: a non-empty name; maxWords and orderIndex are
      any numbers when present (fractions and negatives included). */
  lemma CreateCourseLessonRules(d: CreateCourseLessonDto)
    ensures d.Valid() ==> d.name.JsString? && d.name.s != ""
    ensures d.Valid() && !IsMissing(d.maxWords) ==> d.maxWords.JsNumber?
    ensures d.Valid() && !IsMissing(d.orderIndex) ==> d.orderIndex.JsNumber?
    ensures (RequiredString(d.name) && OptionalString(d.coverImageUrl)
             && d.maxWords == JsNumber(-1.5) && d.orderIndex.JsUndefined?) ==> d.Valid()
  {
  }

  /** CreateCourseLessonWordDto: word and meaning non-empty strings, the three
      others strings when present. */
  lemma CreateCourseLessonWordRules(d: CreateCourseLessonWordDto)
    ensures d.Valid() <==>
              && d.word.JsString? && d.word.s != ""
              && d.meaning.JsString? && d.meaning.s != ""
              && (IsMissing(d.pronunciation) || d.pronunciation.JsString?)
              && (IsMissing(d.partOfSpeech) || d.partOfSpeech.JsString?)
              && (IsMissing(d.audioUrl) || d.audioUrl.JsString?)
  {
  }

  /** ReorderLessonsDto: a UUID lesson id (the non-empty check is implied by
      it) and a whole-number position of at least 1. */
  lemma ReorderLessonsRules(d: ReorderLessonsDto)
    ensures d.Valid() <==>
              && d.lessonId.JsString? && IsUuidString(d.lessonId.s)
              && d.targetOrderIndex.JsNumber? && IsIntegral(d.targetOrderIndex.n)
              && d.targetOrderIndex.n >= 1.0
  {
  }

  /** Position 0 and fractional positions are rejected. */
  lemma ReorderPositionIsOneBased(lessonId: JsValue, position: real)
    requires position < 1.0 || !IsIntegral(position)
    ensures !ReorderLessonsDto(lessonId, JsNumber(position)).Valid()
  {
  }

  // ---------------------------------------------------------------------
  // The typed bodies a handler receives once validation has passed

  /** An optional field as the handler reads it: None when missing. */
  function Present<T>(v: JsValue, read: JsValue -> T): Option<T> {
    if IsMissing(v) then None else Some(read(v))
  }

  function StringOf(v: JsValue): string {
    if v.JsString? then v.s else ""
  }

  function NumberOf(v: JsValue): real {
    if v.JsNumber? then v.n else 0.0
  }

  /** An optional string or number written back: undefined when None. */
  function OptionalStringJson(o: Option<string>): JsValue {
    if o.Some? then JsString(o.value) else JsUndefined
  }

  function OptionalNumberJson(o: Option<real>): JsValue {
    if o.Some? then JsNumber(o.value) else JsUndefined
  }

  datatype CreateCourse = CreateCourse(name: string, coverImageUrl: Option<string>)

  /** A CreateCourseDto body, typed exactly when it is valid. */
  function ToCreateCourse(d: CreateCourseDto): (r: Option<CreateCourse>)
    ensures r.Some? <==> d.Valid()
    ensures r.Some? ==> d.name == JsString(r.value.name) && r.value.name != ""
    ensures r.Some? ==> (r.value.coverImageUrl.None? <==> IsMissing(d.coverImageUrl))
    ensures r.Some? && r.value.coverImageUrl.Some? ==> d.coverImageUrl == JsString(r.value.coverImageUrl.value)
  {
    if d.Valid() then Some(CreateCourse(d.name.s, Present(d.coverImageUrl, StringOf))) else None
  }

  function CreateCourseJson(c: CreateCourse): CreateCourseDto {
    CreateCourseDto(JsString(c.name), OptionalStringJson(c.coverImageUrl))
  }

  /** Every course with a non-empty name is sent as a body that validates
      back to it. */
  lemma CreateCourseRoundTrip(c: CreateCourse)
    requires c.name != ""
    ensures ToCreateCourse(CreateCourseJson(c)) == Some(c)
  {
  }

  datatype CreateCourseLesson = CreateCourseLesson(
    name: string,
    coverImageUrl: Option<string>,
    maxWords: Option<real>,
    orderIndex: Option<real>)

  /** A CreateCourseLessonDto body, typed exactly when it is valid. */
  function ToCreateCourseLesson(d: CreateCourseLessonDto): (r: Option<CreateCourseLesson>)
    ensures r.Some? <==> d.Valid()
    ensures r.Some? ==> d.name == JsString(r.value.name) && r.value.name != ""
    ensures r.Some? ==> (r.value.coverImageUrl.None? <==> IsMissing(d.coverImageUrl))
    ensures r.Some? && r.value.coverImageUrl.Some? ==> d.coverImageUrl == JsString(r.value.coverImageUrl.value)
    ensures r.Some? ==> (r.value.maxWords.None? <==> IsMissing(d.maxWords))
    ensures r.Some? && r.value.maxWords.Some? ==> d.maxWords == JsNumber(r.value.maxWords.value)
    ensures r.Some? ==> (r.value.orderIndex.None? <==> IsMissing(d.orderIndex))
    ensures r.Some? && r.value.orderIndex.Some? ==> d.orderIndex == JsNumber(r.value.orderIndex.value)
  {
    if d.Valid() then
      Some(CreateCourseLesson(d.name.s, Present(d.coverImageUrl, StringOf),
        Present(d.maxWords, NumberOf), Present(d.orderIndex, NumberOf)))
    else None
  }

  function CreateCourseLessonJson(l: CreateCourseLesson): CreateCourseLessonDto {
    CreateCourseLessonDto(JsString(l.name), OptionalStringJson(l.coverImageUrl),
      OptionalNumberJson(l.maxWords), OptionalNumberJson(l.orderIndex))
  }

  /** Every lesson with a non-empty name round-trips, whatever its numbers. */
  lemma CreateCourseLessonRoundTrip(l: CreateCourseLesson)
    requires l.name != ""
    ensures ToCreateCourseLesson(CreateCourseLessonJson(l)) == Some(l)
  {
  }

  datatype CreateCourseLessonWord = CreateCourseLessonWord(
    word: string,
    meaning: string,
    pronunciation: Option<string>,
    partOfSpeech: Option<string>,
    audioUrl: Option<string>)

  /** A CreateCourseLessonWordDto body, typed exactly when it is valid. */
  function ToCreateCourseLessonWord(d: CreateCourseLessonWordDto): (r: Option<CreateCourseLessonWord>)
    ensures r.Some? <==> d.Valid()
    ensures r.Some? ==> d.word == JsString(r.value.word) && r.value.word != ""
    ensures r.Some? ==> d.meaning == JsString(r.value.meaning) && r.value.meaning != ""
    ensures r.Some? ==> (r.value.pronunciation.None? <==> IsMissing(d.pronunciation))
    ensures r.Some? && r.value.pronunciation.Some? ==> d.pronunciation == JsString(r.value.pronunciation.value)
    ensures r.Some? ==> (r.value.partOfSpeech.None? <==> IsMissing(d.partOfSpeech))
    ensures r.Some? && r.value.partOfSpeech.Some? ==> d.partOfSpeech == JsString(r.value.partOfSpeech.value)
    ensures r.Some? ==> (r.value.audioUrl.None? <==> IsMissing(d.audioUrl))
    ensures r.Some? && r.value.audioUrl.Some? ==> d.audioUrl == JsString(r.value.audioUrl.value)
  {
    if d.Valid() then
      Some(CreateCourseLessonWord(d.word.s, d.meaning.s, Present(d.pronunciation, StringOf),
        Present(d.partOfSpeech, StringOf), Present(d.audioUrl, StringOf)))
    else None
  }

  function CreateCourseLessonWordJson(w: CreateCourseLessonWord): CreateCourseLessonWordDto {
    CreateCourseLessonWordDto(JsString(w.word), JsString(w.meaning), OptionalStringJson(w.pronunciation),
      OptionalStringJson(w.partOfSpeech), OptionalStringJson(w.audioUrl))
  }

  /** Every word with a non-empty word and meaning round-trips. */
  lemma CreateCourseLessonWordRoundTrip(w: CreateCourseLessonWord)
    requires w.word != "" && w.meaning != ""
    ensures ToCreateCourseLessonWord(CreateCourseLessonWordJson(w)) == Some(w)
  {
  }

  datatype ReorderLessons = ReorderLessons(lessonId: string, targetOrderIndex: int)

  /** A ReorderLessonsDto body, typed exactly when it is valid: a UUID and a
      whole position of at least 1. */
  function ToReorderLessons(d: ReorderLessonsDto): (r: Option<ReorderLessons>)
    ensures r.Some? <==> d.Valid()
    ensures r.Some? ==> d.lessonId == JsString(r.value.lessonId) && IsUuidString(r.value.lessonId)
    ensures r.Some? ==> d.targetOrderIndex == JsNumber(r.value.targetOrderIndex as real) && r.value.targetOrderIndex >= 1
  {
    if d.Valid() then Some(ReorderLessons(d.lessonId.s, d.targetOrderIndex.n.Floor)) else None
  }

  function ReorderLessonsJson(m: ReorderLessons): ReorderLessonsDto {
    ReorderLessonsDto(JsString(m.lessonId), JsNumber(m.targetOrderIndex as real))
  }

  /** Every move to a position of at least 1 round-trips. */
  lemma ReorderLessonsRoundTrip(m: ReorderLessons)
    requires IsUuidString(m.lessonId) && m.targetOrderIndex >= 1
    ensures ToReorderLessons(ReorderLessonsJson(m)) == Some(m)
  {
  }
}
