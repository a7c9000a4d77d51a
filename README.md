# Quizzo backend core, modelled in Dafny

This project models the logic of the Quizzo quiz backend (a Go web service) that is more than
HTTP and SQL plumbing. It covers six areas:

- **Normalising generated quizzes** (`GenerateQuiz`). The generation service returns free-form
  text. The model strips its Markdown fences and trims it. It splits each option into an optional
  letter label and its content, and marks the correct options by label or by content.
- **Bulk-insert statements** (`QuizQuery`). These build the positional placeholders `($n,…)` and
  the flat argument lists for a quiz's questions and options, with the question-id count check.
- **Content extraction** (`ExtractContent`). This dispatches on the lower-cased file extension.
  It covers the 10-page PDF cap with per-page skipping, the pre-order HTML text walk, the JSON
  fallback, and the 50 000-byte text cap.
- **Quiz handlers** (`QuizController`):
  - the upload gate and the order of its store steps;
  - the attempt gate;
  - assembling an attempt's per-question detail.
- **Invite codes and study groups** (`InviteCode`, `StudyGroupQuery`): the code generator, the
  retry loop on code conflicts, joining a group, and looking a group up.
- **Likes, comments and follows** (`SocialsQuery`, `UserQuery`), held as tables inside store
  objects.

Foreign libraries and services are parameters of the operations that use them. These are the
MIME sniffer, the generation service, the JSON decoder, the PDF reader, the HTML parser, the JSON
re-indenter, `uuid.Parse`, the random source and the database. The model proves what the
service's own code does with whatever they return.

Helper modules:

- `Wrappers`: `Option` and `Result`.
- `Text`: the parts of Go's `strings` package that the core uses. Case mapping is ASCII.
- `Numbers`: `strconv.Atoi` (its error and the number it returns beside the error) and `%d`.
- `Models`: the records of `app/models`.

Strings are sequences of characters, and bytes are integers in 0..255.

## Model

| member | source | states |
|---|---|---|
| GenerateQuiz.MimeTypeIgnoresTail | pkg/utils/generate_quiz.go:27-32 | the MIME type is sniffed from at most the first 512 bytes: whatever follows them never changes it |
| GenerateQuiz.EmptyFilePasses | pkg/utils/generate_quiz.go:27-36 | an empty file is never refused by the archive/Office gate |
| GenerateQuiz.CleanResponse | pkg/utils/generate_quiz.go:110-112 | the cleaned text contains no "```" anywhere and neither begins nor ends with whitespace |
| GenerateQuiz.SplitLabel | pkg/utils/generate_quiz.go:144-153 | the content part of a split option has no surrounding whitespace |
| GenerateQuiz.LabelIsLetter | pkg/utils/generate_quiz.go:147-149 | the `"A" <= ToUpper(first) <= "Z"` test on trimmed text holds exactly when its first character is an ASCII letter of either case |
| GenerateQuiz.SplitLabelRule | pkg/utils/generate_quiz.go:144-153 | trimmed text starting with a letter and then '.' or ')' gets the upper-case letter as label and the trimmed remainder as content; any other option gets no label and keeps its whole trimmed text |
| GenerateQuiz.CorrectnessRule | pkg/utils/generate_quiz.go:154-159 | an option is correct iff it is labelled and the upper-cased answer is its letter, or the answer is non-empty and, trimmed, equals the content up to case (both directions) |
| GenerateQuiz.EmptyAnswerMarksNothing | pkg/utils/generate_quiz.go:154-159 | an empty `correct_answer` marks no option correct |
| GenerateQuiz.LabelledOption | pkg/utils/generate_quiz.go:144-153 | "X. text" splits into label X and content text |
| GenerateQuiz.LabelAnswer | pkg/utils/generate_quiz.go:154-159 | "X. text" answered X or x is correct by its label; answered with another letter Y it is correct only when the text is Y up to case |
| GenerateQuiz.TwoCorrect | pkg/utils/generate_quiz.go:154-167 | nothing limits a question to one correct option: with answer X both "X. Y" and "Y. X" are marked correct |
| GenerateQuiz.BuildQuiz | pkg/utils/generate_quiz.go:131-168 | the quiz has the response's title, the caller's difficulty, and one question per response question in order; question text and explanation are copied, and each option string becomes one normalised option in order |
| GenerateQuiz.GenerateQuiz | pkg/utils/generate_quiz.go:16-36 | the answer is the one `Answers` describes: a missing API key fails before the file is read; read failure and refused MIME types give errors; a service error is returned; no candidates or an undecodable text give a diagnostic result rather than an error; a decoded response gives the normalised quiz |
| QuizQuery.InsertQuiz | app/queries/quiz_query.go:17-29 | a creator that is not a UUID fails before any row is sent; otherwise the row carries title, description, difficulty, a NULL time limit and the parsed creator, and the insert's outcome is returned |
| QuizQuery.ScanAllOk | app/queries/quiz_query.go:52-59 | the ids are collected iff every row scans, and then they are the rows' ids in row order |
| QuizQuery.ScanAllErrExtends | app/queries/quiz_query.go:53-57 | once a row fails to scan, later rows do not change the outcome |
| QuizQuery.InsertQuestionsBulk | app/queries/quiz_query.go:31-65 | no questions gives no ids, no error and no statement; otherwise row i gets `($2i+1,$2i+2)` and args `[quizID, text_i]`, there are 2·n args in input order, and the ids come back in row order unless a scan, the query or the iteration fails |
| QuizQuery.OptionRowAt | app/queries/quiz_query.go:80-91 | option j of question i is row number (options before question i) + j and carries that question's id |
| QuizQuery.OptionRowsLength | app/queries/quiz_query.go:87-91 | there is one row per option of all questions |
| QuizQuery.ExtraIdsIgnored | app/queries/quiz_query.go:80-86 | ids beyond the number of questions do not change the rows |
| QuizQuery.OptionArgsAt | app/queries/quiz_query.go:88-89 | row k's args are at 3k, 3k+1, 3k+2: question id, content, is-correct |
| QuizQuery.OptionPlaceholdersSnoc | app/queries/quiz_query.go:88-90 | each new row's placeholders continue the running index `($3k+1,$3k+2,$3k+3)` |
| QuizQuery.AppendOptionRows | app/queries/quiz_query.go:87-91 | appending one question's options keeps placeholders, args and the running index in step with the rows so far |
| QuizQuery.InsertOptionsBulk | app/queries/quiz_query.go:76-103 | more questions than ids gives "questionIDs length mismatch" with no statement; no options at all gives success with no statement; otherwise the statement holds every option row's placeholders and args in question-then-option order and its error is returned |
| ExtractContent.RouteIgnoresCase | pkg/utils/extract_content.go:16-29 | the dispatch does not depend on the case of the file name |
| ExtractContent.ExtOfExtension | pkg/utils/extract_content.go:16 | the extension of a name ending in '.' and characters other than '.' and '/' is that ending |
| ExtractContent.RouteBySuffix | pkg/utils/extract_content.go:16-29 | only the lower-cased extension decides the extractor, whatever precedes it |
| ExtractContent.RoutePdf | pkg/utils/extract_content.go:21-22 | ".pdf" and ".PDF" names go to the PDF reader |
| ExtractContent.RouteHtm | pkg/utils/extract_content.go:23-24 | ".Htm" names go to the HTML walk |
| ExtractContent.RouteUnknown | pkg/utils/extract_content.go:27-28 | an extension none of the cases names (".docx") is read as plain text |
| ExtractContent.PdfTextAppend | pkg/utils/extract_content.go:47-55 | the text of consecutive pages is the concatenation of their texts |
| ExtractContent.FailedPageSkipped | pkg/utils/extract_content.go:49-52 | a page whose text extraction fails contributes nothing and does not stop the loop |
| ExtractContent.PageContributes | pkg/utils/extract_content.go:53-54 | a successful page contributes its text and then "\n", in page order |
| ExtractContent.PagesAfterTenthIgnored | pkg/utils/extract_content.go:45-47 | pages after the tenth do not affect the result |
| ExtractContent.ExtractPdf | pkg/utils/extract_content.go:32-58 | a read or reader error is returned; otherwise the text of pages 1..min(pages, 10) |
| ExtractContent.HtmlTextShape | pkg/utils/extract_content.go:77-89 | the walk's output is empty or starts with non-space text and ends with one space |
| ExtractContent.NoTextNoOutput | pkg/utils/extract_content.go:77-89 | a tree with no text node yields no text |
| ExtractContent.Walk | pkg/utils/extract_content.go:77-89 | the builder gains exactly the pre-order concatenation of the trimmed non-empty text nodes, each followed by one space |
| ExtractContent.ExtractHtml | pkg/utils/extract_content.go:60-75 | a read or parse error is returned; otherwise the walk's text of the document |
| ExtractContent.InvalidJsonVerbatim | pkg/utils/extract_content.go:98-100 | input that does not parse as JSON is returned verbatim, with no error |
| ExtractContent.ExtractJson | pkg/utils/extract_content.go:91-108 | a read error is returned; otherwise the re-indented document, or the input verbatim when re-indenting fails |
| ExtractContent.Read | pkg/utils/extract_content.go:114 | one read copies min(available, buffer size) bytes into the buffer; an empty file reports end of file |
| ExtractContent.TextIsCappedPrefix | pkg/utils/extract_content.go:110-120 | plain text is a prefix of the file of at most 50 000 bytes, and the whole file when it is shorter |
| ExtractContent.ExtractTextFile | pkg/utils/extract_content.go:110-120 | a read failure is an error and end of file is not; otherwise the bytes read |
| ExtractContent.ExtractContent | pkg/utils/extract_content.go:15-30 | each routed extension gets its extractor's result |
| QuizController.UserOf | app/controllers/quiz_controller.go:42-61 | a user id is obtained iff the claims are a map carrying one, and it is that `user_id`; claims that are not a map give "Invalid token claims", a map without a text `user_id` gives "Invalid user id in token" |
| Numbers.AtoiValue | app/controllers/quiz_controller.go:31 | the question count is the number `Atoi` returns with its error dropped: always a 64-bit integer, and the text's own value whenever `Atoi` accepts the text |
| Numbers.AtoiValueSaturates | app/controllers/quiz_controller.go:31 | a decimal number beyond 64 bits is refused by `Atoi` but read as the nearest 64-bit bound |
| Numbers.AtoiValueNoDigits | app/controllers/quiz_controller.go:31 | text with no digit where the number should start is refused and read as 0 |
| Numbers.AtoiValueTrailing | app/controllers/quiz_controller.go:31 | digits followed by another character are refused; they read as 0 while the digits fit in 64 unsigned bits, and as the upper bound once they do not |
| QuizController.WideQuestionCount | app/controllers/quiz_controller.go:31 | a question count beyond 64 bits reaches generation as the nearest 64-bit bound, not as 0 |
| QuizController.TimeLimit | app/controllers/quiz_controller.go:33-40 | the time limit is absent exactly when the field is empty; a refused one is "invalid time_limit"; an accepted one is a 64-bit integer, the value `Atoi` reads from the text |
| QuizController.WideTimeLimit | app/controllers/quiz_controller.go:33-40 | a time limit beyond 64 bits is refused |
| QuizController.NonDigitTimeLimit | app/controllers/quiz_controller.go:33-40 | a time limit with a character other than a digit after its optional sign is refused |
| QuizController.DecimalTimeLimit | app/controllers/quiz_controller.go:33-40 | any 64-bit integer written in decimal is accepted as itself |
| QuizController.Admit | app/controllers/quiz_controller.go:25-84 | in this order: missing num_questions or difficulty is a 400 with the "required" message; an invalid time limit a 400; bad claims a 401 with `UserOf`'s message; no file a 400 "file is required"; a file that cannot be opened a 500 "failed to open uploaded file", one that cannot be read a 500 "failed to read uploaded file"; the request goes on iff every check passes, carrying `Atoi`'s count, the claims' user id and the file's bytes |
| QuizController.PersistContent | app/controllers/quiz_controller.go:139-156 | from the questions insert for the new quiz id on, the steps started and the reply form a run of the chain: each step starts only after the previous one succeeded, and the reply is the last step's failure or, after the commit, the id the quiz insert gave |
| QuizController.Persist | app/controllers/quiz_controller.go:106-157 | the steps started and the reply are a run of the store chain for the job: the database check and `Begin`, the quiz insert, the file saved under the inserted id, the questions, the options for the ids the questions insert returned, the commit; each starts iff the previous one succeeded, and the first failure is a 500 with that step's message |
| QuizController.UploadAndGenerateQuiz | app/controllers/quiz_controller.go:19-160 | generation is asked iff every request check passes, with the file's bytes, `Atoi`'s count and the difficulty; a rejection starts no store step; a generation error is a 500 "failed to generate quiz: …" and a diagnostic map a 500 "invalid quiz format", neither starting a store step; a generated quiz is persisted by a run of the store chain for that quiz, the caller and the form's description; the steps are in chain order, and `committed` holds iff the reply is a quiz id |
| QuizController.RunInChainOrder | app/controllers/quiz_controller.go:106-157 | the steps of a run are started in chain order, none skipped, at most six |
| QuizController.RunSucceeds | app/controllers/quiz_controller.go:106-159 | the reply is a quiz id iff all six steps ran and succeeded; the run is then: begin, insert the quiz, save the file under that id, insert the questions, insert the options for the returned ids, commit |
| QuizController.RunUnique | app/controllers/quiz_controller.go:106-159 | what the store answers decides the run: one job has one sequence of steps and one reply |
| QuizController.AttemptQuiz | app/controllers/quiz_controller.go:211-261 | an already-attempted quiz is a 400 with no evaluation and no insert; a failed evaluation inserts nothing; otherwise the inserted attempt carries the evaluated score and total and completed = true, and the reply its id |
| QuizController.OptionContentFound | app/controllers/quiz_controller.go:386-398 | an option id is found among a question's options iff one of them has it, and the content found is that option's |
| QuizController.MyAnswerBelongs | app/controllers/quiz_controller.go:379-399 | `my_answer` is "" or the content of the question's own option that the user chose last; choosing an option of another question gives "" |
| QuizController.CorrectIsLastFlagged | app/controllers/quiz_controller.go:387-393 | `correct_answer` is the content of the last option flagged correct |
| QuizController.NoCorrectOption | app/controllers/quiz_controller.go:387-393 | with no option flagged correct, `correct_answer` is "" |
| QuizController.AnswerMap | app/controllers/quiz_controller.go:373-376 | each question maps to the option of its last answer, and unanswered questions are absent |
| QuizController.OptionTable | app/controllers/quiz_controller.go:386-393 | the content table and the correct content agree with the question's options, the later option winning |
| QuizController.AssembleQuestions | app/controllers/quiz_controller.go:373-410 | one row per quiz question in quiz order, with its id, quiz id, text, explanation, `my_answer` and `correct_answer` |
| QuizController.GetAttemptDetail | app/controllers/quiz_controller.go:348-433 | a bad token is a 401, an empty id a 400, a query error a 500 and a missing attempt a 404; another user's attempt is a 403; the owner gets the assembled rows and the nullable time limit; `total_questions` is the stored attempt total if positive, else the number of quiz questions |
| InviteCode.FirstFailure | pkg/utils/invite_code.go:12-16 | no failing draw among the first n iff all of them succeed; a failure found is a failing draw |
| InviteCode.FirstFailureIsFirst | pkg/utils/invite_code.go:12-16 | every draw before the first failure succeeds |
| InviteCode.FirstFailureLater | pkg/utils/invite_code.go:12-16 | later draws do not change which failure comes first |
| InviteCode.CodeOf | pkg/utils/invite_code.go:11-19 | the code has exactly the requested length and every character is from the 62-character alphabet |
| InviteCode.GenerateInviteCode | pkg/utils/invite_code.go:10-20 | a draw failing at any position gives "" and that draw's error; otherwise a code of exactly the requested length whose every character is from the 62-character alphabet; length 0 gives "" with no error |
| StudyGroupQuery.GroupWithId | app/queries/study_group_query.go:69-80 | the group found has that id and is in the table; none is found iff no group has it |
| StudyGroupQuery.Store.CreateStudyGroup | app/queries/study_group_query.go:18-67 | at most 3 attempts, each with a fresh 8-character code; every attempt before the last conflicted with a stored code; success stores and returns the row with an unused code; a code-generation error or any other insert error is returned at once; three conflicts give "failed to generate unique invite code after multiple attempts"; failures change nothing |
| StudyGroupQuery.Store.GetStudyGroup | app/queries/study_group_query.go:69-80 | a query failure is its error; otherwise the reply is the stored group with that id, or no group and no error when none has it |
| StudyGroupQuery.Store.JoinStudyGroup | app/queries/study_group_query.go:94-98 | the membership is added; joining a group one is already in changes nothing |
| SocialsQuery.Toggled | app/queries/socials_query.go:41-55 | after a toggle the pair is present iff it was absent, and every other pair is unchanged |
| SocialsQuery.ToggleTwice | app/queries/socials_query.go:41-55 | toggling the same pair twice restores the likes |
| SocialsQuery.ToggleCount | app/queries/socials_query.go:58-68 | a toggle moves its quiz's like count by exactly one and leaves other quizzes' counts alone |
| SocialsQuery.Store.HasLiked | app/queries/socials_query.go:15-29 | a non-UUID quiz or user id is an error; otherwise liked iff the pair is stored |
| SocialsQuery.Store.ToggleLike | app/queries/socials_query.go:31-56 | a non-UUID id or a failed query changes nothing; otherwise the likes are toggled for the pair and the result is whether it is now liked |
| SocialsQuery.Store.CountLikes | app/queries/socials_query.go:58-68 | the number of users who liked that quiz |
| SocialsQuery.Store.DeleteComment | app/queries/socials_query.go:87-108 | a malformed id or a failed delete returns that error and changes nothing; otherwise the comment is removed exactly when both its id and its author match; a failed affected-row count then returns its error with the removal already done; without it the reply is success iff the comment was removed, else "not found or not owner" |
| SocialsQuery.LimitClause | app/queries/socials_query.go:116-118 | a LIMIT clause is added exactly when the limit is positive |
| SocialsQuery.LimitClauseRoundTrip | app/queries/socials_query.go:116-118 | the clause is " LIMIT " followed by the limit in decimal, which reads back as the limit |
| SocialsQuery.GetComments | app/queries/socials_query.go:110-136 | a non-UUID quiz id sends no query; the query is the newest-first query plus the limit clause; the comments are the rows in order, or the first scan error or the iteration error |
| UserQuery.ExpPointsReadBack | app/queries/user_query.go:63-67 | a readable 64-bit score sum is what the points read back as, whatever is stored |
| UserQuery.FollowCounts | app/queries/user_query.go:22-31 | a new follow adds one follower to the followed user and one followee to the follower, and changes no one else's counts |
| UserQuery.Store.GetUserByID | app/queries/user_query.go:18-70 | a query failure gives "unable to get user, DB error" and no row gives "user not found"; otherwise the stored user with its follower and following counts, and its points: the decimal score sum when that could be read, else the stored value, or "0" when it is NULL |
| UserQuery.Store.GetUserByEmail | app/queries/user_query.go:72-95 | no matching row gives exactly "user not found", any other failure "unable to get user, DB error"; success is a user with that email, carrying only the selected columns |
| UserQuery.EmailColumns | app/queries/user_query.go:75-85 | uid, username, email, password and both timestamps are copied; role, image, points and the follow counts keep their zero values |
| UserQuery.Store.DeleteUser | app/queries/user_query.go:118-135 | a failed delete is "unable to delete user, DB error"; deleting no row is "no user deleted" |
| UserQuery.Store.FollowUser | app/queries/user_query.go:137-150 | following oneself is "cannot follow yourself", before the table is touched; a duplicate is "already following"; other errors are returned as they are; otherwise the pair is added |
| UserQuery.Store.UnfollowUser | app/queries/user_query.go:152-166 | the pair is removed; if it was not there, "not following" |
| Numbers.AtoiDecimal | app/controllers/quiz_controller.go:31-40 | a 64-bit integer printed in decimal parses back to itself |

## Left out

- **The exchange with the generation service** (pkg/utils/generate_quiz.go:37-108): building the prompt, base64, the HTTP call and decoding the envelope. It is a parameter returning an error, an envelope without candidates, or the first part's text. `json.Unmarshal` of the cleaned text is a parameter too.
- **Library parsers.** The PDF reader, `html.Parse`, `json.Unmarshal`/`MarshalIndent`, `http.DetectContentType`, `uuid.Parse` and `crypto/rand` are parameters. Their own behaviour is not modelled.
- **Unicode case mapping.** `strings.ToUpper`, `ToLower` and `EqualFold` are modelled on ASCII letters only.
- **Byte-wise label split.** The label split indexes bytes (`content[:1]`, `content[1]`), and the model indexes characters. The two differ only when the first character is not ASCII. No such character passes the letter test in either form, so the label decision is unaffected.
- **Bytes as text.** `string(bytes)` maps each byte to one character. This agrees with Go for ASCII text.
- **SQL semantics.** Statements are values, and the database is a parameter or a table held by a store object.
  - `QuizQuery.InsertQuiz`, `InsertQuestionsBulk` and `InsertOptionsBulk` return the statement they would send. The database's reply is a parameter.
  - Uniqueness is an explicit assumption, since the schema is not part of this model. Error code 23505 arises exactly when the invite code, or the (follower, followed) pair, is already stored.
  - Failures other than conflicts are parameters.
  - Columns the database fills in (ids, timestamps, `member_count`) come from a parameter.
- SocialsQuery.GetComments: does not prove newest-first order. That order is what the query's ORDER BY clause asks of the database, and the model keeps the rows in the order the query returns them.
- SocialsQuery.Store.HasLiked: reads a count greater than 0 as membership in a set of pairs. This relies on the like table never holding two rows for one pair. Calls of `ToggleLike` made one after another never create such a row, but concurrent ones can (see Concurrency). `CountLikes` and `ToggleCount` count pairs, not rows, and rely on the same thing.
- **Concurrency.** Requests are modelled one at a time. Two concurrent `ToggleLike` calls for the same pair can both find no like (app/queries/socials_query.go:41) and both insert (app/queries/socials_query.go:52), since the insert has no conflict clause. The table then holds two rows for one pair, and the like count counts both.
- **Atomicity.** It is not claimed. The upload handler opens a transaction but runs every insert outside it (app/controllers/quiz_controller.go:111-125), so a rollback does not undo them. The model states the order of the steps, what each step's outcome is, and the early exit.
- **The parsed time limit.** The upload handler calls `InsertQuiz` with four arguments (app/controllers/quiz_controller.go:125), but the definition takes three and stores a NULL time limit (app/queries/quiz_query.go:17-25). The model follows the definition, so the time limit from the form is dropped.
- **Queries whose bodies are not part of this model.** These are parameters, and no scoring rule is invented for them:
  - `HasUserAttemptedQuiz`, `EvaluateQuizAttempt` and `InsertQuizAttempt`;
  - the attempt-detail query and the score-sum query;
  - `utils.SaveFile` (pkg/utils/save_file.go).
- **Token parsing.** It is not modelled. The claims and `ExtractUserID` outcomes are inputs.
- UserQuery.Store.DeleteUser: removes the user by its key. Its SQL filters on a column named `id`, where every other users query uses `uid`. With the schema not shown, a missing `id` column would surface as the generic delete failure, which the model only has as a parameter.
- InviteCode.GenerateInviteCode: takes a natural-number length. A negative length makes Go's `make` panic, and the only caller passes 8.
- ExtractContent.Read: assumes one read fills min(available, 50 000) bytes. A reader may legitimately return fewer, and the model does not cover that.
- GenerateQuiz.SplitLabel: states only that its content is trimmed. The full split rule is stated and proved by `GenerateQuiz.SplitLabelRule`.
- **Other code.** These are not part of this model:
  - the handlers other than the three quiz handlers;
  - auth;
  - routing;
  - logging;
  - file export;
  - the other quiz, study-group and user queries (`GetQuizByUserId`, `UpdateStudyGroup`, `DeleteStudyGroup`, `AddComment`, `CreateUser`, `GetRecommendedUsers`).
