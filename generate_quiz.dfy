/** `GenerateQuiz` (pkg/utils/generate_quiz.go): the credential and file-type gate in front of
    the generation service, and the normaliser that turns the service's free-form answer into
    a `models.Quiz`.

    The HTTP exchange itself (building the prompt, sending it, decoding the envelope) is a
    collaborator: `Gemini.exchange` gives its outcome for a request, and `Gemini.decode` is
    `json.Unmarshal` of the cleaned text into the expected shape. */
module GenerateQuiz {
  import opened Wrappers
  import opened Text
  import opened Models

  // ------------------------------------------------------------ collaborators

  /** One question as the service's JSON states it. */
  datatype AiQuestion = AiQuestion(
    question: string, options: seq<string>, correctAnswer: string, explanation: string)

  /** The decoded response (`aiResp`). */
  datatype AiResponse = AiResponse(title: string, questions: seq<AiQuestion>)

  /** What `json.Unmarshal` makes of the cleaned text. */
  datatype Decoded = Decoded(response: AiResponse) | DecodeFailed(reason: string)

  /** What the request carries that the model can observe. */
  datatype GeminiRequest = GeminiRequest(
    questionCount: int, difficulty: string, mimeType: string, file: seq<byte>)

  /** The outcome of one request: a transport or decoding error, an envelope with no
      candidate text (its raw body kept), or the first part's text. */
  datatype Exchange = ExchangeFailed(error: string) | NoCandidates(rawBody: string) | Candidate(text: string)

  /** The environment `GenerateQuiz` runs in: the `GOOGLE_API_KEY` variable, the MIME
      sniffer `http.DetectContentType`, the service, and the JSON decoder. */
  datatype Gemini = Gemini(
    apiKey: string,
    detect: seq<byte> -> string,
    exchange: GeminiRequest -> Exchange,
    decode: string -> Decoded)

  /** What `GenerateQuiz` returns: an error, one of the two diagnostic maps it returns with a
      nil error, or a quiz. */
  datatype Generated =
    | GenerateFailed(error: string)
    | NoCandidatesReport(rawResponse: string)
    | ParseFailureReport(rawResponse: string, error: string)
    | GeneratedQuiz(quiz: Quiz)

  const NoCandidatesError := "No candidates or parts found in Gemini response"

  // ------------------------------------------------------------ the MIME gate

  const OctetStream := "application/octet-stream"

  /** The MIME type sent with the file: sniffed from at most its first 512 bytes; an empty
      file is `application/octet-stream`. */
  function MimeType(file: seq<byte>, detect: seq<byte> -> string): string {
    if |file| >= 512 then detect(file[..512])
    else if |file| > 0 then detect(file)
    else OctetStream
  }

  /** The sniffer sees at most the first 512 bytes: whatever follows them never changes the
      type. */
  lemma MimeTypeIgnoresTail(file: seq<byte>, more: seq<byte>, detect: seq<byte> -> string)
    requires |file| >= 512
    ensures MimeType(file + more, detect) == MimeType(file, detect)
  {
    assert (file + more)[..512] == file[..512];
  }

  /** Archives and Office documents are refused. */
  predicate Unsupported(mime: string) {
    Contains(mime, "zip") || Contains(mime, "officedocument") || Contains(mime, "msword")
  }

  function UnsupportedMessage(mime: string): string {
    "file mime type " + mime + " not supported by Gemini. Please extract the archive and "
    + "upload a supported file (PDF, TXT, HTML, image), or provide the extracted content as text"
  }

  /** A pattern occurs only in text that holds each of its characters. */
  lemma OccurrenceHoldsChar(s: string, p: string, j: nat)
    requires j < |p|
    ensures Contains(s, p) ==> p[j] in s
  {
    if Contains(s, p) {
      var k :| 0 <= k <= |s| && OccursAt(s, p, k);
      assert s[k..k + |p|][j] == s[k + j];
    }
  }

  /** An empty file passes the gate. */
  lemma EmptyFilePasses(detect: seq<byte> -> string)
    ensures !Unsupported(MimeType([], detect))
  {
    var m := OctetStream;
    assert 'z' !in m && 'f' !in m && 'w' !in m by {
      assert m == ['a','p','p','l','i','c','a','t','i','o','n','/','o','c','t','e','t','-','s','t','r','e','a','m'];
    }
    OccurrenceHoldsChar(m, "zip", 0);
    OccurrenceHoldsChar(m, "officedocument", 1);
    OccurrenceHoldsChar(m, "msword", 2);
  }

  // ------------------------------------------------------------ fence stripping

  const Fence := "```"
  const JsonFence := "```json"

  /** Lines 110-112: drop every "```json", then every "```", then surrounding whitespace. */
  function CleanResponse(result: string): (clean: string)
    ensures !Contains(clean, Fence)
    ensures clean == [] || (!IsSpace(clean[0]) && !IsSpace(clean[|clean| - 1]))
  {
    var unfenced := RemoveAll(RemoveAll(result, JsonFence), Fence);
    NoFenceAfterRemoval(RemoveAll(result, JsonFence));
    var left := TrimLeft(unfenced);
    TrimLeftIsSuffix(unfenced);
    NotContainsSlice(unfenced, Fence, |unfenced| - |left|, |unfenced|);
    assert unfenced[|unfenced| - |left|..|unfenced|] == left;
    TrimRightIsPrefix(left);
    NotContainsSlice(left, Fence, 0, |TrimRight(left)|);
    TrimSpace(unfenced)
  }

  predicate StartsWithTwoTicks(s: string) {
    |s| >= 2 && s[0] == '`' && s[1] == '`'
  }

  /** Removal keeps a first character that is not a backtick. */
  lemma RemovalKeepsHead(t: string)
    requires t != [] && t[0] != '`'
    ensures RemoveAll(t, Fence) != [] && RemoveAll(t, Fence)[0] == t[0]
  {
  }

  /** Removal cannot make a text start with two backticks. */
  lemma RemovalKeepsNoDoubleTick(t: string)
    requires !StartsWithTwoTicks(t)
    ensures !StartsWithTwoTicks(RemoveAll(t, Fence))
  {
    if t != [] && t[0] != '`' {
      RemovalKeepsHead(t);
    } else if |t| >= 3 {
      assert t[..3] != Fence;
      RemovalKeepsHead(t[1..]);
    }
  }

  /** The scan leaves no fence behind: the text before a removed fence never ends in a
      backtick (else the fence would have been found one position earlier), so pieces joined
      across a removal cannot form a new one. */
  lemma {:induction false} NoFenceAfterRemoval(s: string)
    ensures !Contains(RemoveAll(s, Fence), Fence)
    decreases |s|
  {
    var r := RemoveAll(s, Fence);
    if |s| < 3 {
      assert r == s;
    } else if s[..3] == Fence {
      NoFenceAfterRemoval(s[3..]);
    } else {
      var rest := RemoveAll(s[1..], Fence);
      NoFenceAfterRemoval(s[1..]);
      assert r == [s[0]] + rest;
      ContainsCons(s[0], rest, Fence);
      if s[0] == '`' {
        assert !StartsWithTwoTicks(s[1..]);
        RemovalKeepsNoDoubleTick(s[1..]);
      }
      assert !HasPrefix(r, Fence);
    }
  }

  // ------------------------------------------------------------ one option

  /** An option split into its label (empty, or one upper-case letter) and its content. */
  datatype Labelled = Labelled(letter: string, content: string)

  /** Lines 144-153. */
  function SplitLabel(opt: string): (r: Labelled)
    ensures r.content == [] || (!IsSpace(r.content[0]) && !IsSpace(r.content[|r.content| - 1]))
  {
    var content := TrimSpace(opt);
    if |content| >= 2 then
      var first := TrimSpace(content[..1]);
      var sep := content[1];
      if (sep == '.' || sep == ')') && LexLe("A", Upper(first)) && LexLe(Upper(first), "Z")
      then Labelled(Upper(first), TrimSpace(content[2..]))
      else Labelled("", content)
    else Labelled("", content)
  }

  /** The bounds test of line 149 on the first character of trimmed text holds exactly for
      an ASCII letter, whose upper case it then is. */
  lemma LabelIsLetter(content: string)
    requires |content| >= 2 && !IsSpace(content[0])
    ensures TrimSpace(content[..1]) == [content[0]]
    ensures Upper([content[0]]) == [UpperChar(content[0])]
    ensures (LexLe("A", Upper(TrimSpace(content[..1]))) && LexLe(Upper(TrimSpace(content[..1])), "Z"))
            <==> IsAsciiLetter(content[0])
  {
    TrimSpaceOfTrimmed(content[..1]);
    assert content[..1] == [content[0]];
    var u := UpperChar(content[0]);
    assert Upper([content[0]]) == [u];
    LexOneChar('A', u);
    LexOneChar(u, 'Z');
  }

  /** The label rule: trimmed text that begins with a letter of either case followed by '.'
      or ')' is labelled with the upper-case letter and keeps the trimmed remainder as
      content; any other option keeps its whole trimmed text and has no label. */
  lemma SplitLabelRule(opt: string)
    ensures var t := TrimSpace(opt);
      if |t| >= 2 && IsAsciiLetter(t[0]) && (t[1] == '.' || t[1] == ')')
      then SplitLabel(opt) == Labelled([UpperChar(t[0])], TrimSpace(t[2..]))
      else SplitLabel(opt) == Labelled("", t)
  {
    var t := TrimSpace(opt);
    if |t| >= 2 {
      LabelIsLetter(t);
    }
  }

  /** Lines 154-159: a label match first, else a case-insensitive content match. */
  predicate IsCorrect(opt: Labelled, correctAnswer: string) {
    if opt.letter != "" && Upper(correctAnswer) == opt.letter then true
    else correctAnswer != "" && EqualFold(TrimSpace(correctAnswer), opt.content)
  }

  /** The option record built for one option string. */
  function NormalizedOption(opt: string, correctAnswer: string): QuizOption {
    var l := SplitLabel(opt);
    QuizOption(NilUuid, NilUuid, l.content, IsCorrect(l, correctAnswer))
  }

  /** The correctness rule in terms of the raw option text `t` (trimmed): a labelled option
      is correct iff the upper-cased answer is its letter or the trimmed answer equals its
      remainder up to case; an unlabelled one iff the answer is non-empty and, trimmed,
      equals `t` up to case. */
  lemma CorrectnessRule(opt: string, correctAnswer: string)
    ensures var t := TrimSpace(opt);
      var answer := TrimSpace(correctAnswer);
      if |t| >= 2 && IsAsciiLetter(t[0]) && (t[1] == '.' || t[1] == ')') then
        NormalizedOption(opt, correctAnswer).isCorrect
        <==> Upper(correctAnswer) == [UpperChar(t[0])]
             || (correctAnswer != "" && EqualFold(answer, TrimSpace(t[2..])))
      else
        NormalizedOption(opt, correctAnswer).isCorrect
        <==> correctAnswer != "" && EqualFold(answer, t)
  {
    SplitLabelRule(opt);
  }

  /** An empty `correct_answer` marks no option correct. */
  lemma EmptyAnswerMarksNothing(opt: string)
    ensures !NormalizedOption(opt, "").isCorrect
  {
    var l := SplitLabel(opt);
    assert Upper("") == "";
  }

  /** Trimmed text whose first character is an upper-case letter and whose second is '.'
      is split at that letter. */
  lemma SplitAtLetter(opt: string, x: char, rest: string)
    requires 'A' <= x <= 'Z'
    requires |opt| >= 2 && opt[0] == x && opt[1] == '.'
    requires TrimSpace(opt) == opt && TrimSpace(opt[..1]) == [x] && Upper([x]) == [x]
    requires TrimSpace(opt[2..]) == rest
    ensures SplitLabel(opt) == Labelled([x], rest)
  {
    LexOneChar('A', x);
    LexOneChar(x, 'Z');
  }

  /** A labelled option "X. text" is split into the letter and the text. */
  lemma LabelledOption(x: char, rest: string)
    requires 'A' <= x <= 'Z'
    requires rest != [] && !IsSpace(rest[0]) && !IsSpace(rest[|rest| - 1])
    ensures SplitLabel([x, '.', ' '] + rest) == Labelled([x], rest)
  {
    var opt := [x, '.', ' '] + rest;
    assert TrimSpace(opt) == opt by { TrimSpaceOfTrimmed(opt); }
    assert TrimSpace(opt[..1]) == [x] by {
      assert opt[..1] == [x];
      TrimSpaceOfTrimmed([x]);
    }
    assert Upper([x]) == [x];
    assert TrimSpace(opt[2..]) == rest by {
      assert opt[2..] == [' '] + rest;
      TrimSpaceSkipsSpace(' ', rest);
      TrimSpaceOfTrimmed(rest);
    }
    SplitAtLetter(opt, x, rest);
  }

  /** "X. text" answered with the letter X, in either case, is correct through its label;
      answered with another letter Y it is correct only if the text is Y up to case. */
  lemma LabelAnswer(x: char, y: char, rest: string)
    requires 'A' <= x <= 'Z' && 'A' <= y <= 'Z' && x != y
    requires rest != [] && !IsSpace(rest[0]) && !IsSpace(rest[|rest| - 1])
    ensures NormalizedOption([x, '.', ' '] + rest, [x]) == QuizOption(NilUuid, NilUuid, rest, true)
    ensures NormalizedOption([x, '.', ' '] + rest, [LowerChar(x)]).isCorrect
    ensures NormalizedOption([x, '.', ' '] + rest, [y]).isCorrect <==> Lower(rest) == [LowerChar(y)]
  {
    LabelledOption(x, rest);
    assert Upper([x]) == [x];
    assert Upper([LowerChar(x)]) == [x];
    assert Upper([y]) == [y];
    TrimSpaceOfTrimmed([y]);
    assert Lower([y]) == [LowerChar(y)];
  }

  /** Nothing limits a question to one correct option: with answer X, both "X. Y" (by its
      label) and "Y. X" (by its content) are marked correct. */
  lemma TwoCorrect(x: char, y: char)
    requires 'A' <= x <= 'Z' && 'A' <= y <= 'Z' && x != y
    ensures NormalizedOption([x, '.', ' ', y], [x]).isCorrect
    ensures NormalizedOption([y, '.', ' ', x], [x]).isCorrect
  {
    assert [x, '.', ' ', y] == [x, '.', ' '] + [y];
    assert [y, '.', ' ', x] == [y, '.', ' '] + [x];
    LabelAnswer(x, y, [y]);
    LabelAnswer(y, x, [x]);
    assert Lower([x]) == [LowerChar(x)];
  }

  // ------------------------------------------------------------ the quiz

  /** `q` is the question record built from `aq`: text and explanation copied, one option per
      option string, in order. */
  predicate NormalizedQuestion(q: Question, aq: AiQuestion) {
    && q.id == NilUuid && q.quizId == NilUuid
    && q.question == aq.question && q.explanation == aq.explanation
    && |q.options| == |aq.options|
    && forall j :: 0 <= j < |aq.options| ==> q.options[j] == NormalizedOption(aq.options[j], aq.correctAnswer)
  }

  /** `quiz` is the quiz built from `resp`: its title, the caller's difficulty, one question per
      response question, in order; every other field is Go's zero value. */
  predicate Normalized(quiz: Quiz, resp: AiResponse, difficulty: string) {
    && quiz.id == NilUuid && quiz.title == resp.title && quiz.description == ""
    && quiz.difficulty == difficulty && quiz.timeLimit == None && quiz.createdBy == ""
    && quiz.attempts == 0 && quiz.totalQuestions == None && quiz.createdAt == 0
    && |quiz.questions| == |resp.questions|
    && forall i :: 0 <= i < |resp.questions| ==> NormalizedQuestion(quiz.questions[i], resp.questions[i])
  }

  /** Lines 131-168: the question and option loops. */
  method BuildQuiz(resp: AiResponse, difficulty: string) returns (quiz: Quiz)
    ensures Normalized(quiz, resp, difficulty)
  {
    var questions: seq<Question> := [];
    var i := 0;
    while i < |resp.questions|
      invariant 0 <= i <= |resp.questions|
      invariant |questions| == i
      invariant forall k :: 0 <= k < i ==> NormalizedQuestion(questions[k], resp.questions[k])
    {
      var q := resp.questions[i];
      var options: seq<QuizOption> := [];
      var j := 0;
      while j < |q.options|
        invariant 0 <= j <= |q.options|
        invariant |options| == j
        invariant forall k :: 0 <= k < j ==> options[k] == NormalizedOption(q.options[k], q.correctAnswer)
      {
        options := options + [NormalizedOption(q.options[j], q.correctAnswer)];
        j := j + 1;
      }
      questions := questions + [Question(NilUuid, NilUuid, q.question, options, q.explanation)];
      i := i + 1;
    }
    quiz := Quiz(NilUuid, resp.title, "", difficulty, None, "", 0, None, questions, 0);
  }

  // ------------------------------------------------------------ the whole call

  /** The request sent for a file that passed the gate. */
  function RequestFor(gemini: Gemini, file: seq<byte>, questionCount: int, difficulty: string): GeminiRequest {
    GeminiRequest(questionCount, difficulty, MimeType(file, gemini.detect), file)
  }

  /** `r` is what `GenerateQuiz` answers for `file`, `questionCount` and `difficulty`: a
      missing key fails before the file is looked at, then a read failure, then a refused
      MIME type; a passing file is sent, and the exchange's error, the no-candidates report,
      the parse-failure report or the normalised quiz is the answer. */
  predicate Answers(gemini: Gemini, file: Result<seq<byte>>, questionCount: int, difficulty: string, r: Generated) {
    if gemini.apiKey == "" then r == GenerateFailed("GOOGLE_API_KEY not set")
    else if file.Err? then r == GenerateFailed("failed to read file: " + file.error)
    else if Unsupported(MimeType(file.value, gemini.detect)) then
      r == GenerateFailed(UnsupportedMessage(MimeType(file.value, gemini.detect)))
    else
      match gemini.exchange(RequestFor(gemini, file.value, questionCount, difficulty))
      case ExchangeFailed(e) => r == GenerateFailed(e)
      case NoCandidates(raw) => r == NoCandidatesReport(raw)
      case Candidate(text) =>
        match gemini.decode(CleanResponse(text))
        case DecodeFailed(reason) =>
          r == ParseFailureReport(text, "failed to parse generated JSON: " + reason)
        case Decoded(resp) => r.GeneratedQuiz? && Normalized(r.quiz, resp, difficulty)
  }

  /** `GenerateQuiz`. `file` is the outcome of reading the uploaded file. */
  method GenerateQuiz(gemini: Gemini, file: Result<seq<byte>>, questionCount: int, difficulty: string)
    returns (r: Generated)
    ensures Answers(gemini, file, questionCount, difficulty, r)
  {
    if gemini.apiKey == "" {
      return GenerateFailed("GOOGLE_API_KEY not set");
    }
    if file.Err? {
      return GenerateFailed("failed to read file: " + file.error);
    }
    var fileBytes := file.value;
    var mimeType := MimeType(fileBytes, gemini.detect);
    if Unsupported(mimeType) {
      return GenerateFailed(UnsupportedMessage(mimeType));
    }
    var reply := gemini.exchange(GeminiRequest(questionCount, difficulty, mimeType, fileBytes));
    match reply {
      case ExchangeFailed(e) =>
        return GenerateFailed(e);
      case NoCandidates(raw) =>
        return NoCandidatesReport(raw);
      case Candidate(result) =>
        var clean := CleanResponse(result);
        match gemini.decode(clean) {
          case DecodeFailed(reason) =>
            return ParseFailureReport(result, "failed to parse generated JSON: " + reason);
          case Decoded(aiResp) =>
            var quiz := BuildQuiz(aiResp, difficulty);
            return GeneratedQuiz(quiz);
        }
    }
  }
}
