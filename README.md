# GuestMind core, modelled in Dafny

GuestMind is a hotel-feedback service. Guests sign up and log in with JWT
cookies. Their feedback is labelled with an emotion, logged and indexed for
similarity search, and answered by a chatbot. A daily job summarises the
emotion counts.

This project models the rule-based logic around the external services, one
Dafny module per source file:

- the password, signup, login, refresh, current-user and logout decisions of
  the authentication routes;
- account creation and password login over a users table;
- the JWT payloads and their verification;
- the optional login from a bearer token;
- the e-mail normalisation listeners and the `__repr__` of a user;
- the fallback chain of the chat-model emotion analysis, with its log, RAG
  and commit sequence;
- the guards and the label lookup of the local classifier;
- the reply generators: tone tables, similar-case summary, KoBART prompt,
  and the chatbot's de-duplication loop and digest;
- the fail-open chat API;
- the daily summary counts.

The external services are parameters: the JWT codec, bcrypt, the chat model,
the classifiers, the vector search and the clock. They are either functions
(`Codec`, `hasher`, `verify`, `jsonLoads`, `refine`, `generate`, `classify`,
`search`, `infer`) or flags (`queryFails`, `commitFails`, `refreshFails`,
`ragFails` say whether a call raises; `modelLoaded` whether the classifier loaded). A collaborator that
raises is modelled as returning `None`.

State the source changes in place is a class:

- the users table (`UserService.UserTable`);
- the response's cookies (`AuthRoutes.Response`);
- the user being saved (`UserModel.User`);
- the emotion session and the RAG store (`EmotionService.EmotionSession`,
  `EmotionService.RagStore`);
- the reply generator's GPT switch (`ResponseGeneration.ResponseGenerator`);
- the summaries table (`SummaryService.SummaryTable`).

The chatbot's loop is a method with its invariants
(`ChatbotService.CollectContext`). The pure decision chains are functions.

Tokens follow RFC 7519:

- the registered claim `sub` (section 4.1.2 of RFC 7519);
- the registered claim `exp`, a NumericDate in seconds (section 4.1.4 of RFC 7519);
- the private claim `type` (section 4.3 of RFC 7519).

Modules: `Values` (Option, Result, JSON values with Python truthiness,
HTTP errors), `Text` (ASCII strip, lower, split and join), `TokenService`,
`UserService`, `AuthRoutes`, `AuthUtils`, `UserModel`, `EmotionService`,
`LocalEmotionModel`, `ResponseGeneration`, `KoBartResponse`,
`ChatbotService`, `ChatApi`, `SummaryService`.

Where the code's own data model and the code that uses it disagree, the
model follows the evident schema, the one the code is written against, and
says what the code does as written:

- `login` and `refresh_token` read `settings.ENVIRONMENT`, which the settings class in app/config.py does not define, so both raise AttributeError and answer 500 (see Findings). The flag is modelled as written (`AuthRoutes.SecureFlagAsWritten`) and as evidently intended, from the `APP_ENV` setting (`AuthRoutes.SecureFlag`); `Login`, `Refresh` and the cookie functions use the intended flag.
- The `EmotionLog` class shown has no `text` or `reason` column, yet analyze_emotion passes both. The model stores the four fields the code passes (see Left out for what happens as written).
- The `User` class shown has `email` and `password` and no `username` or `password_hash`, yet user_service and the routes use the latter. The users table is modelled as the routes use it, keyed by username (see Left out).
- get_user_from_token looks the user up by `User.id == sub`, while the tokens the routes issue carry a username. The lookup is the collaborator `findById`.
- The RAG service shown has no `search_similar_feedback`, and chat_api imports an `EmotionService` that emotion_service.py does not define. Both are abstract collaborators.
- The docstring of analyze_emotion says that any failure rolls everything back. The vector store, however, is not part of the transaction: `EmotionService.AnalyzeEmotion` keeps the indexed document when the commit fails, and commits the log when indexing fails, as the code does.

## Model

| member | source | states |
|---|---|---|
| AuthRoutes.ValidatePassword | app/routes/auth.py:35-45 | accepted exactly when the password has at least 8 characters, an ASCII letter and a digit; a short password is refused with the length message whatever its characters, and a long one without both classes with the letter-and-digit message |
| AuthRoutes.SecureFlag | app/routes/auth.py:100 | the flag evidently meant: secure exactly when the APP_ENV setting reads "production" |
| AuthRoutes.SecureFlagAsWrittenAlwaysFails | app/routes/auth.py:100 | as written, reading settings.ENVIRONMENT fails for every settings value, with FastAPI's 500 |
| AuthRoutes.SecureOnlyInProduction | app/config.py:19 | the cookies are secure exactly when app_env is "production", and not with the default "development" |
| AuthRoutes.Response.SetCookie | app/routes/auth.py:102-117 | set_cookie replaces exactly the named cookie and no other |
| AuthRoutes.Response.DeleteCookie | app/routes/auth.py:183-184 | delete_cookie replaces exactly the named cookie by an empty one that expires at once |
| AuthRoutes.SignupResult | app/routes/auth.py:65-79 | the password rules are applied first; then signup's own existence query, whose failure nothing catches (a 500); then a taken username is refused with the route's own 400 before create_user runs; then create_user's rules and its commit and refresh; success exactly when the password is valid, the name is free and at least 3 long, and no query, commit or refresh fails |
| AuthRoutes.Signup | app/routes/auth.py:65-79 | answers as SignupResult; the table gains exactly (username, hash(password)) when the password is valid and create_user's commit goes through, which every success implies, even when the refresh after it then fails; otherwise the table is unchanged |
| AuthRoutes.CookieLifetimesMatchTokens | app/routes/auth.py:102-117 | the access cookie's max_age is minutes×60 and the refresh cookie's days×24×60×60, each equal to the distance from now to its token's exp; 3600 and 604800 with the default settings |
| AuthRoutes.LoginAsWrittenAlwaysFails | app/routes/auth.py:94-100 | as written, every login fails and one with correct credentials fails with 500: line 99 passes {"sub": …} to generate_token_pair, which reads "username"; with only that line corrected, line 100's settings.ENVIRONMENT still fails |
| AuthRoutes.LoginTokenRequest | app/routes/auth.py:99 | the corrected request {"username": …} always yields a token pair |
| AuthRoutes.LoginTokensNameTheUser | app/routes/auth.py:99-117 | with the corrected request both tokens verify, each only as its own type, and both name the user who logged in |
| AuthRoutes.Login | app/routes/auth.py:85-120 | with lines 99 and 100 corrected: a failed authentication passes its error on and sets no cookie; a successful one sets exactly the access and refresh cookies for the user's token pair, with the APP_ENV secure flag |
| AuthRoutes.RefreshResult | app/routes/auth.py:126-140 | the route's decisions before its set_cookie: 401 without a refresh cookie, 401 when it does not verify as a refresh token, and 401 when its sub is falsy; otherwise a new access token for exactly that sub |
| AuthRoutes.RefreshWithoutCookieNeverDecodes | app/routes/auth.py:128-130 | without a refresh cookie the answer does not depend on the codec |
| AuthRoutes.RefreshRefusesAccessToken | app/routes/auth.py:132-134 | an access token in the refresh cookie is refused |
| AuthRoutes.RefreshRefusesEmptySubject | app/routes/auth.py:136-138 | a refresh token with an empty subject passes verify_token but is refused by the route's own truthiness check |
| AuthRoutes.RefreshAfterLogin | app/routes/auth.py:132-140 | the refresh token issued at login renews an access token that verifies and names the same user |
| AuthRoutes.RefreshAsWrittenAlwaysFails | app/routes/auth.py:126-152 | as written no refresh succeeds: the route's own 401s are kept, and every request that passes them gets a 500 from line 146 instead of a cookie |
| AuthRoutes.Refresh | app/routes/auth.py:126-152 | with line 146 corrected: on success only the access cookie is replaced, with the APP_ENV secure flag, and the new token is returned; on every error no cookie is set |
| AuthRoutes.CurrentUser | app/routes/auth.py:158-175 | 401 without a cookie, 401 when decoding fails, the distinct 401 for a missing sub; a failing user query is a 500, exactly when decoding succeeded with a sub; 401 for an unknown user; every other error is a 401; success exactly when the query works and the subject names a stored user |
| AuthRoutes.CurrentUserAcceptsRefreshToken | app/routes/auth.py:163-169 | the token type is not checked, so a refresh token in the access cookie logs the user in |
| AuthRoutes.Logout | app/routes/auth.py:181-186 | both cookies are replaced by expired empty ones and no other cookie changes |
| UserService.CreateUserResult | app/services/user_service.py:19-43 | success exactly when username ≥ 3, password ≥ 6, the existence query works, the name is free and the commit and refresh go through; empty fields, short fields, a failing query (outside the try, so a 500 from FastAPI), a taken name and a failing commit or refresh each give their own error, in that order |
| UserService.CreateUserCommits | app/services/user_service.py:24-35 | the insert is committed exactly when the checks pass, the query works, the name is free and the commit succeeds |
| UserService.UserTable.CreateUser | app/services/user_service.py:19-43 | answers as CreateUserResult; when the insert is committed the table gains exactly username ↦ (username, hash(password)), with no other entry changed, even when the refresh after the commit fails; otherwise, including the rolled-back insert, the table is unchanged; every record stays filed under its own name |
| UserService.UserTable.Authenticate | app/services/user_service.py:46-66 | 400 for empty credentials; success exactly when the query works, the user exists and the password verifies, and then the stored record is returned; every other failure with usable credentials is the same 401 |
| UserService.UnknownUserLooksLikeWrongPassword | app/services/user_service.py:55-57 | an unknown user gets the same 401 as a wrong password |
| UserService.CreatedUserCanAuthenticate | app/services/user_service.py:33-60 | an account that create_user stored logs in with the same password whenever bcrypt accepts its own hash |
| TokenService.Attribute | app/config.py:49-56 | the upper-case settings names read their fields, and ENVIRONMENT, which has no alias, is the only one that is missing |
| TokenService.WithExpiry | app/utils/token_service.py:11-13 | the payload is the caller's claims plus exp and type; a caller's own exp or type is overridden and every other claim is kept |
| TokenService.CreateAccessToken | app/utils/token_service.py:9-14 | for a codec whose decoding undoes encoding, the token decodes to exactly the access payload |
| TokenService.CreateRefreshToken | app/utils/token_service.py:18-23 | for such a codec, the token decodes to exactly the refresh payload |
| TokenService.AccessClaimsShape | app/utils/token_service.py:9-14 | the access payload expires minutes×60 seconds after now and has the type "access" |
| TokenService.RefreshClaimsShape | app/utils/token_service.py:18-23 | the refresh payload expires days×86400 seconds after now and has the type "refresh" |
| TokenService.VerifyToken | app/utils/token_service.py:27-45 | the payload is returned unchanged exactly when decoding succeeds, the type is the expected one and sub is present and not None; otherwise None |
| TokenService.GenerateTokenPair | app/utils/token_service.py:49-55 | a KeyError exactly when "username" is missing; otherwise both tokens are issued for {"sub": user["username"]} |
| TokenService.AccessTokenVerifiesOnlyAsAccess | app/utils/token_service.py:33-43 | if decoding undoes encoding, an access token with a subject verifies as "access", yielding the signed payload, and never as "refresh" |
| TokenService.RefreshTokenVerifiesOnlyAsRefresh | app/utils/token_service.py:18-45 | a refresh token with a subject verifies as "refresh" and never as "access" |
| TokenService.NoSubjectNeverVerifies | app/utils/token_service.py:39-41 | a token without a subject never verifies, whatever its type |
| TokenService.TokenPairSameSubject | app/utils/token_service.py:53-55 | both tokens of a pair verify and carry the same sub, user["username"] |
| AuthUtils.GetUserFromToken | app/core/auth_utils.py:17-40 | a decoding failure is the only 401; a missing sub, an unknown user and a failing query all become 500; success exactly when the subject is present and found |
| AuthUtils.GetCurrentUserOptional | app/core/auth_utils.py:43-57 | None for a missing or empty token; otherwise the user exactly when get_user_from_token succeeds, and None for every error it raises |
| AuthUtils.NoTokenNeverDecodes | app/core/auth_utils.py:49-51 | without a token the answer is None whatever the codec and the database do |
| AuthUtils.MissingSubjectIsServerError | app/core/auth_utils.py:20-40 | a signed token without a subject gives 500, not 401 |
| AuthUtils.ValidTokenGivesUser | app/core/auth_utils.py:17-57 | a signed token whose subject the database finds gives exactly that user, from both functions |
| UserModel.NormalizedEmail | app/models/user.py:33-34 | None and "" are kept; any other email becomes one that is no longer than before, has no surrounding whitespace and no ASCII capital |
| UserModel.NormalizedEmailIdempotent | app/models/user.py:37-40 | normalising twice is normalising once |
| UserModel.NormalizedEmailFixesNormal | app/models/user.py:33-34 | an email that is already trimmed and lower-case is left as it is |
| UserModel.User.NormalizeEmailBeforeInsert | app/models/user.py:31-34 | only the email field may change, and it becomes the normalisation of its old value |
| UserModel.User.NormalizeEmailBeforeUpdate | app/models/user.py:37-40 | the same rewrite before an update, touching only the email |
| UserModel.InsertThenUpdate | app/models/user.py:31-40 | inserting and then updating leaves the email normalised once, trimmed and lower-case |
| UserModel.User.Repr | app/models/user.py:26-27 | __repr__ starts with "<User(id=" and the id's str(), shows the email verbatim between its quotes, and ends with ")>" |
| UserModel.ReprOf | app/models/user.py:27 | the same layout, for any id, email, name and is_active values |
| UserModel.ShowNatInjective | app/models/user.py:27 | decimal notation of naturals is unambiguous |
| UserModel.ShowIntInjective | app/models/user.py:27 | str() of integers is unambiguous |
| UserModel.ReprDeterminesId | app/models/user.py:26-27 | two users with the same repr have the same id |
| EmotionService.FirstTruthy | app/services/emotion_service.py:37-38 | the first truthy value of parsed[k1] and parsed[k2], else the fallback; truthy whenever the fallback is |
| EmotionService.ParseAnalysis | app/services/emotion_service.py:35-41 | non-JSON gives ("중립", "GPT 응답 파싱 실패"); JSON that is not an object crashes; an object gives the fallback chains for emotion and reason; a labelled result is always truthy |
| EmotionService.Analyse | app/services/emotion_service.py:20-41 | OpenAIError is its own outcome; any other failure of the call crashes; otherwise the stripped reply is parsed |
| EmotionService.AnalyzeResult | app/services/emotion_service.py:54-67 | a successful commit returns the analysed pair; OpenAIError gives ("오류", "OpenAI 호출 실패"); a crash or a failed commit gives ("오류", "서버 내부 오류") |
| EmotionService.Metadata | app/services/emotion_service.py:48-51 | the RAG metadata has exactly the keys user_id, emotion and reason, with the log's values |
| EmotionService.EmotionSession.Commit | app/services/emotion_service.py:54 | a successful commit moves everything pending into the committed log; a failed one changes nothing |
| EmotionService.EmotionSession.Add | app/services/emotion_service.py:44-45 | db.add appends the log to what is pending |
| EmotionService.EmotionSession.Rollback | app/services/emotion_service.py:59-65 | db.rollback drops everything pending |
| EmotionService.EmotionSession.Close | app/services/emotion_service.py:69-70 | db.close ends the session, and the open transaction with it |
| EmotionService.RagStore.AddDocument | app/services/rag_service.py:56-67 | reports failure as False instead of raising; adds the document exactly when it succeeds |
| EmotionService.StoreAnalysis | app/services/emotion_service.py:43-55 | after a successful analysis: the log is committed exactly when the commit works, the document is indexed exactly when indexing works, and nothing is left pending |
| EmotionService.AnalyzeEmotion | app/services/emotion_service.py:14-70 | the result is AnalyzeResult; the session is closed with nothing pending; exactly one log (user, text, emotion, reason) is committed when analysis and commit succeed, otherwise nothing; the RAG store gains the document with matching metadata whenever analysis succeeds and indexing works, even if the commit then fails |
| EmotionService.ResultIsNeverEmpty | app/services/emotion_service.py:37-67 | the caller always receives a truthy emotion and reason |
| EmotionService.UnparsableReplyIsStoredAsNeutral | app/services/emotion_service.py:39-54 | a reply that is not JSON is still logged and returned as neutral with the parse-failure reason |
| EmotionService.KoreanKeysAreFallbacks | app/services/emotion_service.py:37-38 | the Korean keys are used only when the English ones are falsy |
| EmotionService.OpenAIFailureStoresNothing | app/services/emotion_service.py:59-62 | an OpenAI failure gives its fixed result whatever the parser and the database would do, and nothing is analysed |
| LocalEmotionModel.LabelAt | app/services/local_emotion_model.py:50 | Python list indexing into LABELS: defined exactly for -3..2, label i for 0 ≤ i < 3, always one of LABELS |
| LocalEmotionModel.AnalyzeEmotionLocal | app/services/local_emotion_model.py:23-57 | blank text gives its fixed answer before anything else; a missing model gives its fixed answer; an inference error or an out-of-range index gives 중립 with the error reason; the emotion is always one of LABELS |
| LocalEmotionModel.ClassIndexToLabel | app/services/local_emotion_model.py:49-53 | the predicted classes 0, 1 and 2 give 부정, 중립 and 긍정 |
| LocalEmotionModel.GuardsIgnoreInference | app/services/local_emotion_model.py:31-36 | blank input and a missing model are answered without consulting the model |
| LocalEmotionModel.NonNeutralMeansPredicted | app/services/local_emotion_model.py:31-57 | an emotion other than 중립 comes only from a successful prediction, with the model's reason |
| ResponseGeneration.Tone | app/services/response_generator.py:34-38 | the tone is keyed by positive, negative and neutral, with the default for any other label |
| ResponseGeneration.Summary | app/services/response_generator.py:40-43 | the first case's text is quoted exactly when cases is a non-empty list whose first element has "text"; otherwise the fixed no-cases sentence |
| ResponseGeneration.SummaryQuotesFirstCase | app/services/response_generator.py:40-43 | the quoted text can be read back out of the summary exactly when there was a case to quote, and it is that case's text verbatim |
| ResponseGeneration.BaseResponse | app/services/response_generator.py:32-45 | the base response starts with the tone and continues with the summary |
| ResponseGeneration.KoreanLabelsGetDefaultTone | app/services/response_generator.py:34-38 | the Korean labels 긍정, 부정 and 중립 get the default tone |
| ResponseGeneration.ResponseGenerator.constructor | app/services/response_generator.py:11-16 | GPT polishing is on exactly when requested and an API key is set |
| ResponseGeneration.ResponseGenerator.Compose | app/services/response_generator.py:18-30 | the base response when polishing is off or the GPT call fails, GPT's text when it succeeds |
| ResponseGeneration.ComposeFallsBackToBase | app/services/response_generator.py:22-30 | a failed GPT call cannot be told from polishing being off, and without polishing the reply depends on neither the GPT call nor the text |
| KoBartResponse.FirstCases | app/services/response_service_kobart.py:19 | cases[:3]: a prefix of at most three cases, all of them when there are no more than three |
| KoBartResponse.Context | app/services/response_service_kobart.py:17-19 | "" for None or no cases; a KeyError exactly when one of the first three cases lacks "text"; otherwise their texts joined by one space |
| KoBartResponse.ContextSplitsIntoCaseTexts | app/services/response_service_kobart.py:19 | when no text has a space, splitting the context on spaces gives the first three texts back, in order |
| KoBartResponse.Guidance | app/services/response_service_kobart.py:24-28 | the guidance is keyed by the three English labels, with the default otherwise, and is a single line |
| KoBartResponse.PromptIsJoin | app/services/response_service_kobart.py:30-35 | _build_prompt is the four labelled lines joined by line breaks |
| KoBartResponse.PromptLines | app/services/response_service_kobart.py:30-35 | the prompt is exactly the four lines feedback, context, guidance and "AI 응답:" when the feedback and the context are single lines |
| KoBartResponse.PromptQuotesVerbatim | app/services/response_service_kobart.py:30-35 | the feedback and the context stand in the prompt verbatim after their labels |
| KoBartResponse.Compose | app/services/response_service_kobart.py:15-21 | fails exactly when the context does; otherwise the model's answer to the prompt |
| KoBartResponse.NoCasesEmptyContext | app/services/response_service_kobart.py:17-18 | without cases the model is asked with an empty context line |
| ChatbotService.DocTexts | app/services/chatbot_service.py:26 | each document's text, or "" when it has none, in order |
| ChatbotService.FirstOccurrences | app/services/chatbot_service.py:25-29 | nothing is kept exactly when every text is empty |
| ChatbotService.FirstOccurrencesMembers | app/services/chatbot_service.py:24-29 | a text is kept exactly when it is non-empty and retrieved |
| ChatbotService.FirstOccurrencesDistinct | app/services/chatbot_service.py:27-29 | no raw text is kept twice and the empty text never |
| ChatbotService.FirstOccurrencesShorter | app/services/chatbot_service.py:25-29 | there are never more kept texts than retrieved documents |
| ChatbotService.FirstOccurrencesExtend | app/services/chatbot_service.py:25-29 | each document appends its text at the end exactly when that text is non-empty and not seen before, so first-occurrence order is kept |
| ChatbotService.DedupKeyIsRawText | app/services/chatbot_service.py:26-29 | two different raw texts are both kept, stripped, even when they strip to the same string |
| ChatbotService.CollectContext | app/services/chatbot_service.py:22-29 | the loop over the documents, with its list and its seen set, yields the stripped first occurrences |
| ChatbotService.ContextTexts | app/services/chatbot_service.py:22-29 | no more entries than documents, and none exactly when no document has a non-empty text |
| ChatbotService.CollectStep | app/services/chatbot_service.py:25-29 | one pass of the loop body appends the text exactly when it is non-empty and not yet seen |
| ChatbotService.Digest | app/services/chatbot_service.py:41-42 | a prefix of the first three entries joined by " / ", at most 200 long; the whole join when it fits, else exactly its first 200 characters |
| ChatbotService.FirstThree | app/services/chatbot_service.py:41 | context_texts[:3]: a prefix of at most three entries, all of them when there are no more, exactly three otherwise |
| ChatbotService.DigestIgnoresLaterEntries | app/services/chatbot_service.py:41 | entries after the third never change the digest |
| ChatbotService.ToneFor | app/services/chatbot_service.py:32-37 | the tone table is keyed by 긍정 and 부정, and every other label, 중립 included, gets the 중립 entry |
| ChatbotService.Header | app/services/chatbot_service.py:37 | the header names the emotion verbatim after "감정 분석 결과: **" and ends with its tone |
| ChatbotService.Reply | app/services/chatbot_service.py:37-42 | the reply opens with the emotion header and tone; the attachment appears exactly when there is context, and its length is bounded |
| ChatbotService.ChatbotResponse | app/services/chatbot_service.py:10-49 | the method, with its loop, answers as ChatbotReply |
| ChatbotService.ChatbotReply | app/services/chatbot_service.py:10-49 | blank input gives the fixed prompt; a failing classifier or search gives the fixed apology; otherwise the reply for get("emotion", "중립") and the de-duplicated context |
| ChatbotService.BlankInputSkipsCollaborators | app/services/chatbot_service.py:12-13 | blank input is answered without the classifier or the search |
| ChatbotService.FailureGivesApology | app/services/chatbot_service.py:47-49 | a failing classifier or search gives the fixed apology |
| ChatbotService.ReplyShape | app/services/chatbot_service.py:32-37 | otherwise the reply starts with "감정 분석 결과: **{emotion}**" and its tone, and there are no more context entries than documents |
| ChatbotService.UnknownEmotionGetsNeutralTone | app/services/chatbot_service.py:37 | an emotion outside the table gets the 중립 tone |
| ChatApi.EmotionOf | app/api/chat_api.py:32-35 | a dict answer gives get("emotion", "중립"), and a bare name is used as it is |
| ChatApi.ProcessMessage | app/api/chat_api.py:18-56 | blank input gives the "none" answer; any failure gives the "error" answer with no cases; otherwise the emotion, the cases searched with top_k 3, and the reply composed from those same cases |
| ChatApi.BlankInputSkipsCollaborators | app/api/chat_api.py:20-25 | blank input is answered without any collaborator |
| ChatApi.ReplyUsesReturnedCases | app/api/chat_api.py:38-48 | the cases returned are those the reply quotes from, and without GPT the reply is the rule-based one |
| ChatApi.CasesOnlyFromSearch | app/api/chat_api.py:21-56 | only a real answer carries cases, and they are exactly the search's |
| SummaryService.Recent | app/services/summary_service.py:9 | the logs kept are exactly those stamped at or after the start of yesterday, each with its multiplicity, and no others |
| SummaryService.RecentAppend | app/services/summary_service.py:9 | the filter keeps the stored order: it distributes over concatenation |
| SummaryService.RecentSingle | app/services/summary_service.py:9 | a single log is kept exactly when it is recent |
| SummaryService.CountLabel | app/services/summary_service.py:15-17 | an exact-match count within 0..len(logs): zero exactly when no log has the label, and all exactly when every log has it |
| SummaryService.CountLabelAppend | app/services/summary_service.py:15-17 | counting distributes over concatenation |
| SummaryService.OtherLabelsCountedInNone | app/services/summary_service.py:15-17 | a label other than the three English ones, such as 긍정, changes none of the counts |
| SummaryService.CountsWithinTotal | app/services/summary_service.py:15-17 | positives + negatives + neutrals ≤ total |
| SummaryService.Summarize | app/services/summary_service.py:11-25 | no summary exactly when there are no logs; otherwise today's date, the total, and each ratio as count over total |
| SummaryService.SummaryRatiosAreProper | app/services/summary_service.py:22-24 | each ratio has a positive denominator and lies in [0, 1], and the three together are at most 1 |
| SummaryService.UpdateDailySummary | app/services/summary_service.py:6-29 | a failing query or commit raises and commits nothing; otherwise returns the number of recent logs; with none, stores nothing; else appends exactly the one summary Summarize gives |
| Text.Strip | app/models/user.py:34 | no whitespace at either end; empty exactly when the input is all whitespace; the result is a contiguous part of the input with only whitespace around it |
| Text.StripIdempotent | app/models/user.py:34 | stripping twice is stripping once |
| Text.LowerNoUpper | app/models/user.py:34 | lower() leaves no ASCII capital |
| Text.SplitJoin | app/services/response_service_kobart.py:30-35 | splitting a join on its separator gives the parts back when none of them contains it |

## Left out

- Text: Python's Unicode `str.strip()`, `str.lower()` and regex `\d` are modelled on ASCII only. Whitespace is ASCII space, \t to \r and \x1c to \x1f; capitals are A to Z; digits are 0 to 9.
- JSON numbers are integers; floats are not modelled. The summary's ratios are kept exact as numerator and denominator rather than as Python floats.
- bcrypt hashing and verification, JWT signing, decoding and expiry checks are the abstract parameters `hasher`, `verify` and `Codec`. The clock is the parameter `now`, and a token that has expired is one the codec does not decode. The proofs that need decoding to undo encoding, or tokens to be non-empty, take exactly that as a precondition.
- The LLM and ML calls are abstract parameters. These are the OpenAI completion, `_refine_with_gpt`, KoBART `_generate_response`, and the transformers tokenizer and argmax.
- The RAG layer is reduced to one document per `add_document`. Text splitting into chunks, embeddings and the similarity search are the library's; search is the abstract `search`.
- Logging, the Jinja templates and login/signup pages, S3, the scheduler, the ORM column definitions, and the thin passlib/jose wrappers in app/services/auth_service.py and app/utils/security.py are not part of this model.
- UserService.UserTable.Authenticate: a `verify_password` that raises (a malformed hash, which becomes a 500) is not modelled. `verify` is total.
- UserService.UserTable.CreateUser: the database's own constraints are not modelled apart from the commit; a failing `hash_password` is not modelled, `hasher` is total.
- UserService.UserTable.CreateUser, UserService.UserTable.Authenticate, AuthRoutes.Signup, AuthRoutes.CurrentUser: as written, `User.username` is not a column of the `User` class shown, so every query that filters on it (app/routes/auth.py:72 and 171, app/services/user_service.py:27 and 52) raises AttributeError. Signup and the current-user check would answer 500, and create_user and authenticate_user would fail the same way. The model follows the schema those queries are written against.
- AuthRoutes.Signup: its own existence query and create_user's are one flag, `queryFails`, so they are assumed to fail or succeed together and to see the same table.
- AuthRoutes.Login, AuthRoutes.Refresh, AuthRoutes.RefreshResult, AuthRoutes.RefreshAfterLogin: these model login and refresh_token with lines 99, 100 and 146 of app/routes/auth.py corrected. As written, neither route ever sets a cookie (see Findings).
- EmotionService.AnalyzeEmotion: the chat model's reply content is a string. A missing content, whose `.strip()` raises, is one of the failures `OtherFailure` covers.
- EmotionService.AnalyzeEmotion: as written, `EmotionLog(text=…, reason=…)` names columns the `EmotionLog` class shown does not have, so the constructor raises TypeError. Every analysis that gets that far then ends in the rollback and ("오류", "서버 내부 오류"), and nothing is logged or indexed. The model follows the columns the call is written against.
- ChatApi.ProcessMessage: the emotion service's dict answer is modelled with string values. A non-string emotion reaching the tone table and `len()` of a non-list search result are not modelled separately; both are exceptions that end in the same "error" answer as a failing collaborator.
- ChatbotService.ChatbotResponse: the classifier is abstract. The module it is imported from is not part of this model, although app/services/local_emotion_model.py carries that module's name in its header.
- UserModel.User.Repr: `is_active` and the other fields are modelled as optional values; the `created_at` and `updated_at` columns and the relationships are left out.

## Findings

| source | as written | input that shows it | evidently intended | confidence | as-written member | corrected member |
|---|---|---|---|---|---|---|
| app/routes/auth.py:99 | login calls `generate_token_pair({"sub": user.username})`, which reads `user["username"]` (app/utils/token_service.py:53) and raises KeyError; FastAPI answers 500 | any login with a correct username and password | pass `{"username": user.username}`, so that both tokens get `sub = username`; together with the fix at line 100, the cookies are then set | not executed | AuthRoutes.LoginAsWrittenAlwaysFails | AuthRoutes.LoginTokensNameTheUser |
| app/routes/auth.py:100 | `settings.ENVIRONMENT` is not an attribute of the settings class (app/config.py defines `APP_ENV`), so login raises AttributeError after the tokens are made; FastAPI answers 500 and no cookie is set | any login with a correct username and password, even with line 99 corrected | `is_secure = settings.APP_ENV == "production"` | not executed | AuthRoutes.LoginAsWrittenAlwaysFails | AuthRoutes.SecureOnlyInProduction |
| app/routes/auth.py:146 | the same read in refresh_token raises before set_cookie, so every request that passes the route's checks gets a 500 and no new access cookie | a refresh cookie holding a refresh token with a non-empty sub | `secure=settings.APP_ENV == "production"` | not executed | AuthRoutes.RefreshAsWrittenAlwaysFails | AuthRoutes.RefreshAfterLogin |
