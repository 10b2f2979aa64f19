# Wordsly API gateway — a Dafny model of its core

The Wordsly API gateway is a NestJS service in front of the vocabulary,
courses and authentication back ends. Most of its endpoints just forward a
request over HTTP. The parts that make their own decisions are modelled here:

- **Error handler** (`ErrorHandler`): translates an upstream HTTP status,
  an RPC error code or an Axios failure into one of six gateway exceptions.
- **Event publisher** (`Kafka`, `KafkaModule`):
  - a Kafka producer that exists only between module start-up and shut-down;
  - how `sendMessage` and `emit` build the one message they send;
  - how the broker list is parsed from the comma-separated configuration
    string.
- **Answer recording** (`WordProgress`): `recordAnswer` publishes the
  answer on the `word-progress_record-answer` topic and only then reports
  it accepted.
- **Request validation** (`WordProgressDto`, `CoursesDto`): the
  class-validator rules on the word-progress and courses DTOs, and the
  `includeNew` query coercion. Each rule is a predicate over raw JSON
  values (`JsValues`).
- **Authentication controller** (`Auth`): which cookie is set or cleared,
  and which response is sent, for each outcome of the token check and of
  the authentication back end, in `googleRedirect`, `refresh` and `logout`.
- **Passport strategies** (`GoogleStrategy`, `JwtStrategy`): the records
  that the `validate` callbacks build.

Modelling choices:

- Stateful objects are classes:
  - `KafkaService` has a `connected` flag. It also has a ghost log of the
    records the cluster acknowledged, which stands in for the broker.
  - The Express `Response` keeps the list of the effects applied to it.
  - `AuthService` keeps the list of the calls made on it.
- Their methods are proved equal to pure functions of their inputs
  (`RefreshEffects`, `RefreshCalls`, `GoogleRedirectEffects`,
  `LogoutEffectsAsWritten`, `EmitMessage`, `RecordAnswerRecordAsWritten`). The properties are lemmas about
  those functions.
- The parts of the outside world that decide outcomes are parameters
  (arrow-typed fields or arguments):
  - the back end's `handleOAuthLogin`, `handleRefreshToken`, `handleLogout`
    and `getRefreshTokenCookieOptions`;
  - `JwtService.verify`;
  - the `ms` duration parser;
  - whether the Kafka cluster acknowledges a send.
- `JSON.stringify` is left symbolic (`JsonOf(payload)`, and the `json`
  rendering of a thrown value, which is absent when stringify throws).
  What a consumer parses back from it is modelled (`JsonReparse`):
  undefined object properties are dropped and undefined array entries
  become null.
- The browser's cookie jar files a cookie under its name and the path it
  resolves: the Path attribute when it starts with "/", otherwise the
  default path of the request that set it (section 5.2.4 of RFC 6265).
- Express's `res.cookie` is modelled by the checks its cookie serialiser
  (the `cookie` package, 0.7 series) makes on the options used here: the
  path first, then sameSite. `ms('')` throws before `res.cookie` is reached.
- The UUID check is validator.js's loose shape: 8-4-4-4-12 hexadecimal
  digits in either case. Newer validator.js releases also check the version
  and variant digits; the model does not.
- `recordAnswer` takes its `RecordAnswerDto` from `src/word-progress/dto/word-progress.dto.ts`, which is not part of this model. The model validates its body with the `RecordAnswerDto` of `src/vocabulary/dto/word-progress.dto.ts`, so it assumes the two carry the same decorators. The second row of "## Findings" ("published as a string") depends on that.
- The gateway is assumed to run with a global `ValidationPipe` with
  `transform: true` and with `cookie-parser` installed. The DTO models
  (rejecting invalid bodies, the `limit` default of 20, the `includeNew`
  transform) describe that pipe's effect, and `refresh` reads
  `req.cookies`, which cookie-parser fills. Neither is installed by the
  `main.ts` and `app.module.ts` shown. Without cookie-parser,
  `req.cookies['refresh_token']` throws before the handler's `try`.

Where the documented behaviour and the code differ, the model follows the
code:

- `refresh` without a cookie answers 401 with the message
  `Refresh token not found`. When it fails later, the message is
  `HandleRefreshToken failed, error: ` followed by the error text.
- `logout` clears the cookie only after `handleLogout` resolves. When
  `handleLogout` throws, the response is left untouched.
- `logout` clears the cookie without options, so at path "/", whatever
  path the cookie was set with (`LogoutEffectsAsWritten`). The corrected
  version is `LogoutEffects`.
- `@IsEnum(AnswerQuality)` accepts a member's name as well as its number.
  So the validated body, and the published payload, may carry the name
  (`SentQuality`). The intended check, numbers 0..5 only, is
  `ValidRecordAnswerIntended`.
- An error thrown while setting the refresh cookie lands in the handler's
  `catch`. In `googleRedirect` that means the error redirect. In `refresh`
  it means a 401 after the back end has already issued new tokens.

## Model

| member | source | states |
|---|---|---|
| ErrorHandler.HandleHttpError | src/error-handler/error-handler.service.ts:27-60 | The message is kept. A non-internal kind has exactly the given status. The result is InternalError exactly when the status is none of 404, 401, 403, 504, 400. |
| ErrorHandler.HandleRpcError | src/error-handler/error-handler.service.ts:62-95 | The message is kept. A non-internal kind has exactly the given code. The result is InternalError exactly when the code is none of NOT_FOUND, UNAUTHORIZED, FORBIDDEN, GATEWAY_TIMEOUT, BAD_REQUEST. |
| ErrorHandler.TranslateAxiosError | src/error-handler/error-handler.service.ts:97-114 | No response gives InternalError with "Unknown error". A response gives handleHttpError of its status and data message. Null data is the TypeError of reading `message` from null. |
| ErrorHandler.HttpMappingExact | src/error-handler/error-handler.service.ts:40-59 | Each of the six kinds is what its own status maps to, with the message unchanged. |
| ErrorHandler.RpcMappingExact | src/error-handler/error-handler.service.ts:75-94 | Each of the six kinds is what its own RPC code maps to, with the message unchanged. |
| ErrorHandler.HttpAndRpcAgree | src/error-handler/error-handler.service.ts:40-94 | The RPC code named X and the HTTP status named X give the same exception. |
| KafkaModule.Split | src/kafka/kafka.module.ts:21 | `split(',')` gives at least one piece, and no piece holds a comma. |
| KafkaModule.JoinSplit | src/kafka/kafka.module.ts:21 | Joining the pieces with commas gives back the input, so nothing is lost or reordered. |
| KafkaModule.SplitJoin | src/kafka/kafka.module.ts:21 | Splitting the comma-join of comma-free pieces gives back those pieces. |
| KafkaModule.SplitCommaFree | src/kafka/kafka.module.ts:21 | A comma-free string splits into itself alone. |
| KafkaModule.SplitConcat | src/kafka/kafka.module.ts:21 | Splitting `a,b` gives the pieces of a followed by the pieces of b. |
| KafkaModule.TrimStart | src/kafka/kafka.module.ts:22 | The result is a suffix of the input. Only whitespace is dropped, and the result does not start with whitespace. |
| KafkaModule.TrimEnd | src/kafka/kafka.module.ts:22 | The result is a prefix of the input. Only whitespace is dropped, and the result does not end with whitespace. |
| KafkaModule.Trim | src/kafka/kafka.module.ts:22 | The result neither starts nor ends with ECMAScript whitespace. |
| KafkaModule.TrimIsInfix | src/kafka/kafka.module.ts:22 | The trimmed string is a contiguous part of the input. |
| KafkaModule.TrimBlank | src/kafka/kafka.module.ts:22 | Trimming gives "" exactly when the input is all whitespace. |
| KafkaModule.TrimIdempotent | src/kafka/kafka.module.ts:22 | Trimming twice is trimming once. |
| KafkaModule.MapTrim | src/kafka/kafka.module.ts:22 | Same length, and each entry is the trim of the piece at the same position. |
| KafkaModule.MapTrimConcat | src/kafka/kafka.module.ts:22 | Trimming each piece distributes over concatenation. |
| KafkaModule.FilterNonEmpty | src/kafka/kafka.module.ts:23 | `filter(Boolean)` keeps only non-empty pieces, each taken from the input. |
| KafkaModule.FilterNonEmptyConcat | src/kafka/kafka.module.ts:23 | Filtering distributes over concatenation, so the order is kept. |
| KafkaModule.ParseBrokers | src/kafka/kafka.module.ts:20-23 | No broker is empty, and every broker is trimmed. |
| KafkaModule.ParseBrokersConcat | src/kafka/kafka.module.ts:20-23 | The brokers of `a,b` are those of a followed by those of b, so the input order is kept. |
| KafkaModule.ParseBrokersSingle | src/kafka/kafka.module.ts:20-23 | A comma-free input gives exactly its trim when that is not blank, and nothing otherwise. |
| KafkaModule.ParseBrokersBlank | src/kafka/kafka.module.ts:20-23 | A string of only commas and whitespace gives no brokers. |
| KafkaModule.BrokersFromConfig | src/kafka/kafka.module.ts:13-23 | A missing `kafka.brokers` setting gives the empty broker list. |
| Kafka.EncodeValue | src/kafka/kafka.service.ts:53-54 | A string payload is sent verbatim. Any other payload is sent as its JSON encoding. |
| Kafka.EncodeValueRoundTrip | src/kafka/kafka.service.ts:53-54 | A consumer that knows whether the topic carries strings or JSON reads back exactly the payload sent if and only if undefined occurs nowhere in it. An undefined payload reads as nothing. |
| Kafka.UndefinedPropertyIsDropped | src/kafka/kafka.service.ts:53-54 | A property whose value is undefined is not seen by the consumer. |
| JsValues.JsonReparse | src/kafka/kafka.service.ts:53-54 | Parsing JSON.stringify's text gives a value with no undefined anywhere. |
| JsValues.JsonReparseExact | src/kafka/kafka.service.ts:53-54 | The parse gives back the value itself if and only if undefined occurs nowhere in it. |
| Kafka.StringifyHeaders | src/kafka/kafka.service.ts:93-99 | The key set and every value are preserved. |
| Kafka.EmitMessage | src/kafka/kafka.service.ts:67-81 | The value is the encoded payload. The key is present exactly when it is not null, and is then the given key. Headers are present exactly when given and non-empty, and are then the stringified headers. |
| Kafka.EmptyKeyIsKept | src/kafka/kafka.service.ts:75 | An empty-string key is not null, so it is sent. |
| Kafka.SendMessageIsPlainEmit | src/kafka/kafka.service.ts:53-57 | The message of sendMessage is emit's message without key or headers. |
| Kafka.KafkaService.constructor | src/kafka/kafka.service.ts:26 | Initially there is no producer and nothing has been sent. |
| Kafka.KafkaService.OnModuleInit | src/kafka/kafka.service.ts:30-34 | The producer is connected, and nothing is sent. |
| Kafka.KafkaService.OnModuleDestroy | src/kafka/kafka.service.ts:36-42 | Afterwards there is no producer, and nothing is sent. A second call therefore ends in the same state as one. |
| Kafka.KafkaService.EnsureProducer | src/kafka/kafka.service.ts:85-91 | It passes exactly when connected, and otherwise fails with ProducerNotConnected. |
| Kafka.KafkaService.Send | src/kafka/kafka.service.ts:55-58 | An acknowledged send appends exactly that record to the log. An unacknowledged one fails with SendFailed and appends nothing. |
| Kafka.KafkaService.SendMessage | src/kafka/kafka.service.ts:48-59 | Unconnected: fails with ProducerNotConnected and sends nothing. Connected: success appends exactly one record, one message with the encoded value and no key or headers, on the given topic; failure is SendFailed and appends nothing. |
| Kafka.KafkaService.Emit | src/kafka/kafka.service.ts:65-83 | The same pattern as SendMessage, with the record holding EmitMessage(options) on options.topic. |
| Kafka.PublisherLifecycle | src/kafka/kafka.service.ts:30-59 | A publish before onModuleInit, and one after onModuleDestroy (called twice), both fail with ProducerNotConnected. |
| WordProgress.PayloadJson | src/kafka/messages/word-progress.messages.ts:7-11 | The published object has exactly the keys userLoginId, wordId and quality. |
| WordProgress.NamedQualityPublishedAsName | src/word-progress/word-progress.service.ts:29-36 | A body whose quality is a member name publishes that name as a string, not the number the payload type declares. |
| WordProgress.DecodePayload | src/kafka/messages/word-progress.messages.ts:7-11 | A payload is decoded only from a message that parses to an object. |
| WordProgress.PayloadJsonIsJson | src/kafka/messages/word-progress.messages.ts:7-11 | The published object holds no undefined, so it survives JSON unchanged. |
| WordProgress.PayloadOf | src/word-progress/word-progress.service.ts:29-32 | Corrected payload: the caller's userLoginId and the body's wordId and quality, whatever else the body holds. |
| WordProgress.PublishedAnswerRoundTrip | src/word-progress/word-progress.service.ts:29-36 | Corrected record: it goes to `word-progress_record-answer` and holds one message. A consumer decoding that message reads back the caller's id and the answer. |
| WordProgress.PayloadAsWritten | src/word-progress/word-progress.service.ts:29-32 | `{ userLoginId, ...body }` has the body's keys plus userLoginId. |
| WordProgress.PayloadAsWrittenKeepsCaller | src/word-progress/word-progress.service.ts:29-32 | The spread keeps the caller's id exactly when the body has no userLoginId of its own, or the same one. |
| WordProgress.RecordAnswerRecordAsWritten | src/word-progress/word-progress.service.ts:29-36 | The record recordAnswer publishes: one message on `word-progress_record-answer`, with no key or headers, whose JSON value is an object with the body's keys plus userLoginId. |
| WordProgress.AsWrittenRecordDecodes | src/word-progress/word-progress.service.ts:29-36 | For a JSON body that validated, the record as written decodes to the body's answer in the name of the userLoginId the spread left. It decodes to nothing when that is not a string. |
| WordProgress.PayloadAsWrittenImpersonates | src/word-progress/word-progress.service.ts:29-32 | A valid answer body that also carries another userLoginId is decoded as that other user's answer. |
| WordProgress.PayloadAsWrittenAgreesOnDtoFields | src/word-progress/word-progress.service.ts:29-36 | On a body holding only the DTO's fields, the record as written equals the corrected record. |
| WordProgress.WordProgressService.RecordAnswer | src/word-progress/word-progress.service.ts:25-38 | Called with the raw body, which must validate. Every success is `{accepted: true}` and has published exactly one record, `{userLoginId, ...body}` on the record-answer topic (RecordAnswerRecordAsWritten). A failure publishes nothing. When unconnected, the error is ProducerNotConnected; when connected, SendFailed, untranslated. The connection state is unchanged. |
| WordProgressDto.QualityValue | src/vocabulary/dto/word-progress.dto.ts:16-23 | Every answer quality is numbered within 0..5. |
| WordProgressDto.QualityOf | src/vocabulary/dto/word-progress.dto.ts:16-23 | A member exists for n exactly when 0 <= n <= 5, and it has value n. |
| WordProgressDto.QualityValuesExact | src/vocabulary/dto/word-progress.dto.ts:16-23 | The enum's values are exactly 0..5. |
| WordProgressDto.QualityValueInjective | src/vocabulary/dto/word-progress.dto.ts:16-23 | No two members share a value. |
| WordProgressDto.IsAnswerQualityExact | src/vocabulary/dto/word-progress.dto.ts:38 | The quality check accepts exactly the integers 0..5. |
| WordProgressDto.EnumNameAcceptedAsWritten | src/vocabulary/dto/word-progress.dto.ts:38 | `@IsEnum` as written accepts the member name "PERFECT", which the intended check rejects. |
| WordProgressDto.EnumChecksAgreeOnNumbers | src/vocabulary/dto/word-progress.dto.ts:38 | On anything but a string the two checks agree. |
| WordProgressDto.IsAnswerQualityEnumAsWritten | src/vocabulary/dto/word-progress.dto.ts:38 | `@IsEnum` as written: the number of a member, or the name of one. |
| WordProgressDto.IsAnswerQuality | src/vocabulary/dto/word-progress.dto.ts:33-39 | The intended quality check: the number of a member. |
| WordProgressDto.QualityNamed | src/vocabulary/dto/word-progress.dto.ts:16-23 | The member found under a name has that name. |
| WordProgressDto.QualityNamedInverse | src/vocabulary/dto/word-progress.dto.ts:16-23 | Every member is found under its own name, so names are distinct. |
| WordProgressDto.ValidRecordAnswer | src/vocabulary/dto/word-progress.dto.ts:25-40 | The checks as written: `@IsUUID` on wordId and `@IsEnum` on quality. |
| WordProgressDto.ValidRecordAnswerIntended | src/vocabulary/dto/word-progress.dto.ts:25-40 | The intended checks: a UUID and a quality number 0..5. |
| WordProgressDto.ToRecordAnswer | src/vocabulary/dto/word-progress.dto.ts:25-40 | A DTO results exactly when wordId is a UUID and quality passes `@IsEnum` as written. It carries the wordId sent, and a quality whose JSON form is the value sent: a member number or a member name. |
| WordProgressDto.IntendedAnswerIsByValue | src/vocabulary/dto/word-progress.dto.ts:33-39 | A body meeting the intended check also passes the check as written, with its quality given by number. |
| WordProgressDto.NamedQualityValidates | src/vocabulary/dto/word-progress.dto.ts:38 | A UUID with a member name validates to a DTO carrying that name, though the intended check rejects it. |
| WordProgressDto.RecordAnswerRoundTrip | src/vocabulary/dto/word-progress.dto.ts:25-40 | A DTO, with a quality sent by number or by name, validates back to itself from its own fields. |
| WordProgressDto.ValidNestedAnswer | src/vocabulary/dto/word-progress.dto.ts:47-50 | `@ValidateNested` on one element: an object whose fields pass the RecordAnswerDto checks. |
| WordProgressDto.ValidBulkRecordAnswers | src/vocabulary/dto/word-progress.dto.ts:46-50 | `@IsArray` and `@ValidateNested({each: true})`: `answers` is an array and every element is a valid nested answer. |
| WordProgressDto.ToRecordAnswers | src/vocabulary/dto/word-progress.dto.ts:47-50 | All answers validate or none do. The result has the same length, and each entry is that element's DTO. |
| WordProgressDto.ToBulkRecordAnswers | src/vocabulary/dto/word-progress.dto.ts:42-51 | A result exists exactly when `answers` is an array whose every element is a valid answer object, and it has one DTO per element. |
| WordProgressDto.BulkRejectsAnyBadAnswer | src/vocabulary/dto/word-progress.dto.ts:47-50 | One invalid element rejects the whole body. |
| WordProgressDto.BulkRequiresArray | src/vocabulary/dto/word-progress.dto.ts:47 | A non-array `answers` is rejected. |
| WordProgressDto.IncludeNew | src/vocabulary/dto/word-progress.dto.ts:184-191 | The value is false exactly for 'false' and false. Everything else, absence included, is true. |
| WordProgressDto.ValidDueWordsQuery | src/vocabulary/dto/word-progress.dto.ts:148-192 | `@IsOptional @IsUUID` on courseId and lessonId, and `@IsInt @Min(1) @Max(100)` on the limit after its default of 20. `@IsBoolean` on includeNew always holds after the transform. |
| WordProgressDto.ToDueWordsQuery | src/vocabulary/dto/word-progress.dto.ts:148-192 | A query results exactly when the rules hold. Its limit is within 1..100, is 20 when absent, and otherwise is the given number. includeNew is coerced. courseId and lessonId are present exactly when sent, and are then the UUID strings sent. |
| WordProgressDto.EmptyQueryDefaults | src/vocabulary/dto/word-progress.dto.ts:148-192 | An empty query gives limit 20, includeNew true, and no course or lesson. |
| WordProgressDto.LimitBounds | src/vocabulary/dto/word-progress.dto.ts:172-177 | A limit below 1, above 100 or fractional is rejected. |
| WordProgressDto.LimitNotANumber | src/vocabulary/dto/word-progress.dto.ts:172-177 | A limit that is not a finite number is rejected. |
| WordProgressDto.CourseIdMustBeUuid | src/vocabulary/dto/word-progress.dto.ts:153-155 | A courseId that is present but not a UUID is rejected. |
| CoursesDto.RequiredStringExact | src/courses/dto/courses.dto.ts:44-46 | `@IsString() @IsNotEmpty()` accepts exactly the non-empty strings. |
| CoursesDto.OptionalStringExact | src/courses/dto/courses.dto.ts:48-50 | `@IsOptional() @IsString()` accepts exactly undefined, null and strings. |
| CoursesDto.CreateCourseDto.Valid | src/courses/dto/courses.dto.ts:43-51 | The decorators of CreateCourseDto. |
| CoursesDto.CreateCourseLessonDto.Valid | src/courses/dto/courses.dto.ts:59-75 | The decorators of CreateCourseLessonDto. |
| CoursesDto.CreateCourseLessonWordDto.Valid | src/courses/dto/courses.dto.ts:77-97 | The decorators of CreateCourseLessonWordDto. |
| CoursesDto.ReorderLessonsDto.Valid | src/courses/dto/courses.dto.ts:99-117 | The decorators of ReorderLessonsDto. |
| CoursesDto.CreateCourseRules | src/courses/dto/courses.dto.ts:43-51 | A valid course has a non-empty string name and no number or boolean cover image. A non-empty name without a cover image is valid. |
| CoursesDto.BlankNameAccepted | src/courses/dto/courses.dto.ts:44-46 | A name of one space passes, because `@IsNotEmpty` only rejects ''. |
| CoursesDto.CreateCourseLessonRules | src/courses/dto/courses.dto.ts:59-75 | The name is required and non-empty. A present maxWords or orderIndex is a number, and any number, even -1.5, is accepted. |
| CoursesDto.CreateCourseLessonWordRules | src/courses/dto/courses.dto.ts:77-97 | Valid exactly when word and meaning are non-empty strings and pronunciation, partOfSpeech and audioUrl are optional strings. |
| CoursesDto.ReorderLessonsRules | src/courses/dto/courses.dto.ts:99-117 | Valid exactly when lessonId is a UUID and targetOrderIndex is an integer >= 1. |
| CoursesDto.ReorderPositionIsOneBased | src/courses/dto/courses.dto.ts:114-116 | A position below 1 is rejected, whatever the lesson id. |
| CoursesDto.ToCreateCourse | src/courses/dto/courses.dto.ts:43-51 | A typed course results exactly when the body is valid. Its name is the non-empty string sent, and its cover URL is absent exactly when the field is missing or null, and otherwise the string sent. |
| CoursesDto.CreateCourseRoundTrip | src/courses/dto/courses.dto.ts:43-51 | Every course with a non-empty name, sent as JSON, validates back to itself. |
| CoursesDto.ToCreateCourseLesson | src/courses/dto/courses.dto.ts:59-75 | A typed lesson results exactly when the body is valid. It carries the name and each optional field as sent, absent exactly when missing or null. |
| CoursesDto.CreateCourseLessonRoundTrip | src/courses/dto/courses.dto.ts:59-75 | Every lesson with a non-empty name validates back to itself, whatever its numbers. |
| CoursesDto.ToCreateCourseLessonWord | src/courses/dto/courses.dto.ts:77-97 | A typed word results exactly when the body is valid. It carries word and meaning and each optional field as sent, absent exactly when missing or null. |
| CoursesDto.CreateCourseLessonWordRoundTrip | src/courses/dto/courses.dto.ts:77-97 | Every word with a non-empty word and meaning validates back to itself. |
| CoursesDto.ToReorderLessons | src/courses/dto/courses.dto.ts:99-117 | A typed move results exactly when the body is valid. Its lesson id is the UUID sent, and its position is the whole number of at least 1 that was sent. |
| CoursesDto.ReorderLessonsRoundTrip | src/courses/dto/courses.dto.ts:99-117 | Every move of a UUID lesson to a position of at least 1 validates back to itself. |
| JwtStrategy.Validate | src/strategy/jwt.strategy.ts:24-29 | userLoginId and jti are copied, and an absent jti stays absent. |
| JwtStrategy.ValidateDropsOtherClaims | src/strategy/jwt.strategy.ts:24-29 | Payloads that differ only in exp, iat, iss, sub, aud or nbf give the same user. |
| JwtStrategy.ValidateInjectiveOnIdentity | src/strategy/jwt.strategy.ts:24-29 | Equal users come from payloads with equal userLoginId and jti. |
| GoogleStrategy.First | src/auth/strategy/google.strategy.ts:30-31 | `list[0]?.value`: present exactly when the list is non-empty, and then the first entry. |
| GoogleStrategy.ToOAuthUser | src/auth/strategy/google.strategy.ts:25-33 | id, displayName and provider are copied. email and picture are the first entries of emails and photos. |
| GoogleStrategy.Validate | src/auth/strategy/google.strategy.ts:19-37 | done is called exactly once, with no error and the constructed user. |
| GoogleStrategy.ProviderNotChecked | src/auth/strategy/google.strategy.ts:32-36 | Whatever the provider string, done is called with no error and the user carries that provider. |
| GoogleStrategy.EmptyProfileLists | src/auth/strategy/google.strategy.ts:30-31 | Empty emails and photos give no email and no picture. |
| GoogleStrategy.OnlyFirstEntriesMatter | src/auth/strategy/google.strategy.ts:25-33 | Two profiles give the same user exactly when they agree on id, name, provider, and the first email and photo. |
| Auth.RefreshCookie | src/auth/auth.controller.ts:113-124 | A cookie results exactly when the configured options are accepted. It is `refresh_token` with the given token; httpOnly, secure, sameSite and path come from the configured options, and maxAge is ms of the configured duration. Otherwise the error is ms's for an empty duration, then the path error, then the sameSite error. |
| Auth.SameSiteAccepted | src/auth/auth.controller.ts:120 | `res.cookie` accepts an empty sameSite, or lax, strict or none in any case. |
| Auth.PathAccepted | src/auth/auth.controller.ts:121 | `res.cookie` accepts a path of printable ASCII other than ';' and '<'. |
| Auth.CookieOptionsAccepted | src/auth/auth.controller.ts:113-124 | setRefreshTokenCookie throws nothing: a non-empty duration and an accepted path and sameSite. |
| Auth.Lower | src/auth/auth.controller.ts:120 | ASCII lower-casing: each ASCII capital is lowered, everything else is kept, and a string with no capitals is unchanged. It stands for the serialiser's `toLowerCase()` on sameSite, with which it agrees on the test against lax, strict and none. |
| Auth.CookieOptionsExamples | src/auth/auth.controller.ts:113-124 | The production options (sameSite none, path /auth) and "Lax" are accepted. |
| Auth.CookieErrorExamples | src/auth/auth.controller.ts:113-124 | "bogus", a path with ';' and an empty duration each give their own error. |
| Auth.GoogleRedirectEffects | src/auth/auth.controller.ts:41-56 | At most two effects, each a cookie or a redirect. |
| Auth.GoogleRedirectEscapes | src/auth/auth.controller.ts:52-56 | The error leaves the handler exactly when the login failed with an error JSON.stringify cannot render. |
| Auth.GoogleRedirectOutcomes | src/auth/auth.controller.ts:41-56 | A successful login with accepted options sets the refresh cookie, then redirects to `url?access_token=<token>`. With options that throw it redirects to `url?error={}`. A failed login whose error renders redirects to `url?error=<json>`. |
| Auth.GoogleRedirectEndsInRedirect | src/auth/auth.controller.ts:41-56 | Nothing is sent exactly when the error escapes. Otherwise the handler ends in exactly one redirect. It sets a cookie exactly when the login succeeded and the options are accepted. |
| Auth.RefreshCalls | src/auth/auth.controller.ts:64-81 | At most one call, a handleRefreshToken call with the request's IP address. |
| Auth.RefreshEffects | src/auth/auth.controller.ts:64-90 | One or two effects, ending with a JSON response. |
| Auth.RefreshWithoutCookie | src/auth/auth.controller.ts:66-69 | A missing or empty cookie gives 401 "Refresh token not found", and no back-end call. |
| Auth.RefreshForwardsOnlyVerified | src/auth/auth.controller.ts:71-81 | handleRefreshToken is called exactly when the cookie is present and verify accepts it, and then once, with the verified payload. |
| Auth.RefreshRejectedToken | src/auth/auth.controller.ts:72-73 | A token that verify rejects gives 401 with the error text, and no back-end call. |
| Auth.RefreshCookieOnlyOnSuccess | src/auth/auth.controller.ts:71-90 | A cookie is set exactly when the refresh succeeds: the token is verified, the back end issues tokens and the cookie options are accepted. It then holds the new refresh token, followed by 200 with the new access token. Any failure is a single 401. |
| Auth.RefreshCookieRejectedAfterRotation | src/auth/auth.controller.ts:71-90 | With options that throw, handleRefreshToken has already been called, yet the answer is a single 401 with the cookie error's text. |
| Auth.LogoutFlag | src/auth/auth.controller.ts:103-104 | null or undefined becomes false, and any other value is passed unchanged. |
| Auth.LogoutDefaultsToThisDevice | src/auth/auth.controller.ts:103-104 | An empty body, or a null flag, logs out this device only. |
| Auth.LogoutEffectsAsWritten | src/auth/auth.controller.ts:105-110 | Nothing is sent exactly when handleLogout throws. No cookie is set, and every clear is at path "/". Success clears `refresh_token` at "/" and ends with 200 "Logged out successfully". |
| Auth.LogoutEffects | src/auth/auth.controller.ts:105-110 | The corrected logout: nothing is sent exactly when handleLogout throws. No cookie is set, and every clear is at the configured path. Success clears `refresh_token` there and ends with 200 "Logged out successfully". |
| Auth.LogoutAgreesAtRootPath | src/auth/auth.controller.ts:109 | With the cookie path "/", the code as written and the corrected logout do the same. |
| Auth.StoredPath | src/auth/auth.controller.ts:121 | The browser files a cookie under its path when that starts with "/", and under the request's default path otherwise. |
| Auth.ApplyEffectsConcat | src/auth/auth.controller.ts:109 | The browser's cookie jar applies the effects of one response one after the other. |
| Auth.LogoutAsWrittenClearsRoot | src/auth/auth.controller.ts:109 | On any jar, a successful logout as written removes `refresh_token` filed under "/" and nothing else. |
| Auth.AfterLoginHoldsToken | src/auth/auth.controller.ts:113-124 | After login the jar holds just the refresh token, filed under the configured path resolved against the login request. |
| Auth.LogoutAsWrittenKeepsScopedCookie | src/auth/auth.controller.ts:109 | After login and a successful logout as written, the refresh token is still in the browser exactly when it was filed under a path other than "/". |
| Auth.LogoutClearsRefreshCookie | src/auth/auth.controller.ts:109 | On any jar, the corrected logout removes `refresh_token` filed under the configured path, as the logout request resolves it, and no other cookie. |
| Auth.LogoutClearsLoginCookie | src/auth/auth.controller.ts:109 | After login, the corrected logout empties the jar exactly when the configured path resolves the same for both requests. It always does when the path starts with "/". |
| Auth.CookiesAlwaysConfigured | src/auth/auth.controller.ts:113-124 | Every cookie that any handler sets is `refresh_token`, with the configured options. |
| Auth.AuthController.SetRefreshTokenCookie | src/auth/auth.controller.ts:113-124 | With accepted options, nothing is thrown and exactly the RefreshCookie is appended. Otherwise that error is thrown and nothing is appended. |
| Auth.Response.Cookie | src/auth/auth.controller.ts:117-123 | `res.cookie` throws the serialiser's error and appends nothing, or appends exactly that cookie. |
| Auth.AuthController.GoogleRedirect | src/auth/auth.controller.ts:30-57 | One handleOAuthLogin call. The effects appended are GoogleRedirectEffects of its outcome. The result tells whether the error escaped. |
| Auth.AuthController.Refresh | src/auth/auth.controller.ts:59-91 | The calls appended are RefreshCalls, and the effects appended are RefreshEffects, of the cookie, the verify outcome, the back end's outcome and the cookie options. |
| Auth.AuthController.Logout | src/auth/auth.controller.ts:93-111 | One handleLogout call with the defaulted flag. Its error, if any, is passed on, and the effects appended are LogoutEffectsAsWritten of its outcome, clearing at "/". |

## Left out

- HTTP pass-through services and controllers are not modelled. This covers courses, dictionary, words, users, vocabulary and the other word-progress methods: they only format URLs and call axios.
- The health check aggregation in `app.service.ts` is not modelled: it is network probes only.
- Module wiring, `main.ts`, the axios instances and `config/configuration.ts` are not modelled: they construct objects and read the environment. The validation pipe and cookie-parser the handlers rely on are assumed, as stated above; the `main.ts` shown installs neither.
- The Kafka client and its SSL options are not modelled; only the broker list it receives is.
- JWT signing and verification, the OAuth handshake, `ms` on a non-empty duration and `JSON.stringify` are parameters or symbolic values, not computed.
- `AuthService` as shipped defines none of `handleOAuthLogin`, `handleRefreshToken`, `handleLogout` or `getRefreshTokenCookieOptions`. Their outcomes are arbitrary functions of their arguments.
- JwtStrategy.Validate: `ignoreExpiration: false` and the RS256 restriction act before `validate` runs, inside passport-jwt. They are not modelled: `validate` accepts every payload that reaches it, and that is all the model states.
- The guard decorators (`AuthGuard('google')`, `AuthGuard('jwt')`) are not modelled. The handlers receive `req.user` as an argument.
- In `logout`, `req.user` is typed as a JWT payload but holds what JwtStrategy.Validate returned. The model passes that `AuthenticatedUser`.
- A failure to connect or disconnect the producer is not modelled: it aborts start-up or shut-down, and the gateway does nothing with it.
- Kafka.KafkaService.SendMessage: the `RecordMetadata[]` the cluster returns is not modelled. Only success or failure is.
- Kafka.StringifyHeaders: the headers are typed as strings, so `String(v)` is the identity here. Values of other types are not modelled.
- The validation error messages that class-validator produces, and the NestJS exception bodies, are not modelled. Only acceptance and rejection are.
- WordProgressDto.ToDueWordsQuery: turning query-string text into a number (`@Type(() => Number)`) is not modelled. The limit arrives as a finite number or as not-a-number.
- WordProgressDto.ToRecordAnswers: nested arrays inside `answers` are not modelled, and neither is `@Type`'s instance conversion. Each element must be an object whose fields validate.
- Response-shape DTOs and their floating-point fields are not modelled. Neither are the Swagger decorators.
- A redirect URL that is undefined in the configuration is not modelled: `frontendRedirectUrl` is a string.
- Auth.RefreshCookie: the serialiser's expiry check is not modelled. `res.cookie` sets expires to the current time plus maxAge, and throws when that passes the largest date (8.64e15 ms). That depends on the clock, so a very large maxAge is modelled as accepted.
- Auth.RefreshCookie: the serialiser's value encoding is not modelled. `encodeURIComponent` throws on a lone surrogate, which a token from the back end does not hold.
- Auth.RefreshEffects: `'' + error` in the catch is taken to succeed. A thrown value with no string conversion would escape the handler.
- Auth.GoogleRedirectEscapes: what the framework answers when the error escapes is not modelled.
- GoogleStrategy.ToOAuthUser: `emails` and `photos` are always lists in the model. When Google's profile lacks one, `emails[0]?.value` throws a TypeError in the source; that case is not modelled.
- Kafka.EncodeValueRoundTrip: the model's message value records whether the payload was a string, which the wire value does not. `sendMessage(t, "42")` and `sendMessage(t, 42)` send the same bytes, so the round trip holds only for a consumer that knows which kind of payload the topic carries.
- ErrorHandler.TranslateAxiosError: the response data's `message` follows the source's declared type, `message?: string`. A back end that sends an array of messages (a NestJS validation error) has that array passed into the exception unchanged; the model cannot represent it.
- Auth.ApplyEffects: the jar stores a `SameSite=None` cookie even when it is not `Secure`. Current browsers reject such a cookie, so with `isSecure` false and sameSite none the refresh cookie never reaches the jar.
- Auth.StoredPath: the default path is a parameter. Computing it from the request URI is not modelled.

## Findings

| source | as written | input that shows it | evidently intended | confidence | as-written member | corrected member |
|---|---|---|---|---|---|---|
| src/word-progress/word-progress.service.ts:29-32 | `{ userLoginId, ...body }` puts the body after the caller's id, so a `userLoginId` in the body replaces it. No validation pipe strips unknown properties. | A body `{"wordId": <uuid>, "quality": 4, "userLoginId": "someone-else"}` publishes the answer as "someone-else". | The published userLoginId is always the authenticated caller's. | medium, not executed | WordProgress.PayloadAsWrittenImpersonates | WordProgress.PublishedAnswerRoundTrip |
| src/vocabulary/dto/word-progress.dto.ts:38 | `@IsEnum(AnswerQuality)` on a numeric TypeScript enum accepts every value of the enum object. That object also holds the member names, through its reverse mapping. | `quality: "PERFECT"` passes validation and is published as a string. | Only the numbers 0..5 are accepted. | medium, not executed | WordProgressDto.NamedQualityValidates | WordProgressDto.IntendedAnswerIsByValue |
| src/auth/auth.controller.ts:109 | `res.clearCookie('refresh_token')` passes no options, so Express clears the cookie at path "/". The cookie was set at the configured path. | getRefreshTokenCookieOptions returning path "/auth": after logout the browser still holds the refresh token. | Logout clears the cookie at the path it was set with. | low, not executed | Auth.LogoutAsWrittenKeepsScopedCookie | Auth.LogoutClearsLoginCookie |
