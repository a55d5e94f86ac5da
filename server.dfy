/**
 * The request logic of the HTTP server: the upload file filter, the request
 * rules of the upload and demo endpoints, the question generator with its
 * fallback to placeholder questions, the prompt it sends and the extraction of
 * a JSON array from the model's reply.
 *
 * The PDF text extractor, the chat-completion service and `JSON.parse` are
 * outside the model: the extractor's outcome and the service are parameters,
 * and so is the parser, which turns the selected text into a question list or
 * fails.
 */
module Server {
  import opened Common
  import opened JsRuntime
  import opened Questions

  // ---------------------------------------------------------------------------
  // Upload filter

  const PdfMimeType := "application/pdf"

  /** The upload middleware's file filter: only the PDF MIME type passes. */
  predicate AcceptsUpload(mimeType: string) {
    mimeType == PdfMimeType
  }

  // ---------------------------------------------------------------------------
  // Placeholder questions

  const MockOptions: seq<(string, string)> := [
    ("A", "Option A - First possible answer"),
    ("B", "Option B - Second possible answer"),
    ("C", "Option C - Third possible answer"),
    ("D", "Option D - Fourth possible answer")
  ]

  const AnswerLetters: seq<string> := ["A", "B", "C", "D"]

  const MockChoicePrefix := "Sample Multiple Choice Question "
  const MockChoiceSuffix := " based on the document content?"
  const MockShortPrefix := "Sample Short Answer Question "
  const MockShortSuffix := " based on the document?"
  const MockSampleAnswer := "This is a sample answer " + "that would be generated " + "based on the document content."

  /** The placeholder question at index `i`: multiple choice at even indices, short answer at odd ones. */
  function MockQuestion(i: nat): Question {
    if i % 2 == 0 then
      MultipleChoice(MockChoicePrefix + NatToString(i / 2 + 1) + MockChoiceSuffix, MockOptions, AnswerLetters[i % 4])
    else
      ShortAnswer(MockShortPrefix + NatToString(i / 2 + 1) + MockShortSuffix, MockSampleAnswer)
  }

  /** The list the placeholder generator returns for a requested count. */
  function MockQuestions(n: int): seq<Question> {
    if n <= 0 then [] else seq(n, i requires 0 <= i => MockQuestion(i))
  }

  /** The placeholder generator: a loop that pushes one question per index below `numQuestions`. */
  method GenerateMockQuestions(numQuestions: int) returns (questions: seq<Question>)
    ensures questions == MockQuestions(numQuestions)
  {
    questions := [];
    var i := 0;
    while i < numQuestions
      invariant 0 <= i && (i <= numQuestions || i == 0)
      invariant |questions| == i
      invariant forall k :: 0 <= k < i ==> questions[k] == MockQuestion(k)
    {
      if i % 2 == 0 {
        questions := questions + [MultipleChoice(
          MockChoicePrefix + NatToString(i / 2 + 1) + MockChoiceSuffix, MockOptions, AnswerLetters[i % 4])];
      } else {
        questions := questions + [ShortAnswer(
          MockShortPrefix + NatToString(i / 2 + 1) + MockShortSuffix, MockSampleAnswer)];
      }
      i := i + 1;
    }
    if numQuestions > 0 {
      assert forall k :: 0 <= k < i ==> MockQuestions(numQuestions)[k] == MockQuestion(k);
    }
  }

  /** Exactly `n` questions for a positive count, none otherwise. */
  lemma MockQuestionsLength(n: int)
    ensures |MockQuestions(n)| == if n <= 0 then 0 else n
  {
  }

  /** The kind of each placeholder question follows the parity of its index. */
  lemma MockQuestionKind(n: int, i: nat)
    requires i < |MockQuestions(n)|
    ensures MockQuestions(n)[i].MultipleChoice? <==> i % 2 == 0
    ensures MockQuestions(n)[i].ShortAnswer? <==> i % 2 == 1
  {
  }

  /**
   * The correct answer of a placeholder multiple-choice question is the letter
   * `i % 4` of A..D; since only even indices are multiple choice, it is A or C.
   */
  lemma MockCorrectAnswer(n: int, i: nat)
    requires i < |MockQuestions(n)| && i % 2 == 0
    ensures MockQuestions(n)[i].correctAnswer == AnswerLetters[i % 4]
    ensures MockQuestions(n)[i].correctAnswer == (if i % 4 == 0 then "A" else "C")
  {
  }

  lemma MockOptionKeys()
    ensures |MockOptions| == 4
    ensures forall j :: 0 <= j < 4 ==> MockOptions[j].0 == AnswerLetters[j]
    ensures DistinctKeys(MockOptions)
  {
  }

  lemma MockQuestionWellFormed(i: nat)
    ensures WellFormed(MockQuestion(i))
  {
    if i % 2 == 0 {
      MockOptionKeys();
      assert MockOptions[i % 4].0 == AnswerLetters[i % 4];
    }
  }

  /** Every placeholder question satisfies the data-model invariant. */
  lemma MockQuestionsWellFormed(n: int)
    ensures forall i :: 0 <= i < |MockQuestions(n)| ==> WellFormed(MockQuestions(n)[i])
  {
    forall i | 0 <= i < |MockQuestions(n)|
      ensures WellFormed(MockQuestions(n)[i])
    {
      MockQuestionWellFormed(i);
    }
  }

  /** The text before the question number: it names the kind of the question. */
  function MockNumberPrefix(i: nat): string {
    if i % 2 == 0 then MockChoicePrefix else MockShortPrefix
  }

  /**
   * The number in the text of placeholder question `i` reads back as
   * `floor(i / 2) + 1`: a multiple-choice question and the short-answer
   * question after it share their number.
   */
  lemma MockQuestionNumber(n: int, i: nat)
    requires i < |MockQuestions(n)|
    ensures |MockNumberPrefix(i)| <= |MockQuestions(n)[i].question|
    ensures MockQuestions(n)[i].question[..|MockNumberPrefix(i)|] == MockNumberPrefix(i)
    ensures ParseInt(MockQuestions(n)[i].question[|MockNumberPrefix(i)|..]) == Some(i / 2 + 1)
  {
    var prefix := MockNumberPrefix(i);
    var suffix := if i % 2 == 0 then MockChoiceSuffix else MockShortSuffix;
    assert suffix[0] == ' ';
    ParseIntAfterPrefix(MockQuestions(n)[i].question, prefix, i / 2 + 1, suffix);
  }

  // ---------------------------------------------------------------------------
  // Request rules

  const UploadDefaultCount := 5
  const DemoDefaultCount := 6

  /**
   * `parseInt(raw) || default`: the parsed count, or the default when the value
   * is `NaN` or zero. An absent field reaches `parseInt` as "undefined".
   */
  function CountOrDefault(raw: Option<string>, default: int): (count: int)
    ensures default != 0 ==> count != 0
  {
    var parsed := ParseInt(if raw.Some? then raw.value else "undefined");
    if parsed.None? || parsed.value == 0 then default else parsed.value
  }

  /** A count written in decimal (possibly followed by non-digits) is taken as written, unless it is zero. */
  lemma CountOfRendered(z: int, rest: string, default: int)
    requires rest == [] || !(IsDecimalDigit(rest[0]) || rest[0] == 'x' || rest[0] == 'X')
    ensures CountOrDefault(Some(IntToString(z) + rest), default) == if z == 0 then default else z
  {
    ParseIntOfRendered(z, rest);
  }

  /** A missing field and a value without any decimal digit both give the default. */
  lemma CountWithoutDigits(raw: Option<string>, default: int)
    requires raw.Some? ==> forall k :: 0 <= k < |raw.value| ==> !IsDecimalDigit(raw.value[k])
    ensures CountOrDefault(raw, default) == default
  {
    var s := if raw.Some? then raw.value else "undefined";
    forall k | 0 <= k < |s| ensures !IsDecimalDigit(s[k]) {
      if raw.None? {
        assert s[k] in "undefined";
      }
    }
    ParseIntWithoutDigits(s);
  }

  // ---------------------------------------------------------------------------
  // The prompt and the reply

  const ModelName := "gpt-3.5-turbo"
  const SystemMessage :=
    "You are an educational assistant that generates high-quality questions based on provided text. "
    + "Always respond with valid JSON."
  const TextLimit := 3000

  /** The request sent to the chat-completion service; the temperature 0.7 is kept in tenths. */
  datatype ChatRequest = ChatRequest(
    apiKey: string, model: string, systemMessage: string, userMessage: string,
    temperatureTenths: nat, maxTokens: nat)

  const PromptIntro := "Based on the following text, generate "

  /** The instructions that follow the count, up to the text to analyse. */
  const PromptInstructions :=
    " educational questions. For each question, provide:\n"
    + "1. A multiple choice question with 4 options (A, B, C, D) and indicate the correct answer\n"
    + "2. A short answer question\n"
    + "\n"
    + "Format the response as a JSON array with this structure:\n"
    + "[\n"
    + "  {\n"
    + "    \"type\": \"multiple_choice\",\n"
    + "    \"question\": \"Question text\",\n"
    + "    \"options\": {\n"
    + "      \"A\": \"Option A\",\n"
    + "      \"B\": \"Option B\",\n"
    + "      \"C\": \"Option C\",\n"
    + "      \"D\": \"Option D\"\n"
    + "    },\n"
    + "    \"correct_answer\": \"A\"\n"
    + "  },\n"
    + "  {\n"
    + "    \"type\": \"short_answer\",\n"
    + "    \"question\": \"Question text\",\n"
    + "    \"sample_answer\": \"A brief sample answer\"\n"
    + "  }\n"
    + "]\n"
    + "\n"
    + "Text to analyze:\n"

  /** The fixed part of the prompt, before the text to analyse. */
  function PromptHeader(numQuestions: int): string {
    PromptIntro + IntToString(numQuestions) + PromptInstructions
  }

  function Prompt(text: string, numQuestions: int): string {
    PromptHeader(numQuestions) + Substring(text, 0, TextLimit)
  }

  /** The prompt ends with at most the first 3000 characters of the text, and with nothing after them. */
  lemma PromptEmbedsTextPrefix(text: string, numQuestions: int)
    ensures |PromptHeader(numQuestions)| <= |Prompt(text, numQuestions)| <= |PromptHeader(numQuestions)| + TextLimit
    ensures Prompt(text, numQuestions)[..|PromptHeader(numQuestions)|] == PromptHeader(numQuestions)
    ensures Prompt(text, numQuestions)[|PromptHeader(numQuestions)|..] == text[..Min(TextLimit, |text|)]
  {
    SubstringPrefix(text, TextLimit);
    SplitAppend(Prompt(text, numQuestions), PromptHeader(numQuestions), Substring(text, 0, TextLimit));
  }

  function ChatRequestFor(apiKey: string, text: string, numQuestions: int): ChatRequest {
    ChatRequest(apiKey, ModelName, SystemMessage, Prompt(text, numQuestions), 7, 2000)
  }

  /** Texts that agree on their first 3000 characters lead to the same request. */
  lemma RequestSeesOnlyTextPrefix(apiKey: string, t1: string, t2: string, numQuestions: int)
    requires t1[..Min(TextLimit, |t1|)] == t2[..Min(TextLimit, |t2|)]
    ensures ChatRequestFor(apiKey, t1, numQuestions) == ChatRequestFor(apiKey, t2, numQuestions)
  {
    SubstringPrefix(t1, TextLimit);
    SubstringPrefix(t2, TextLimit);
  }

  function FirstIndexOf(s: string, c: char): (r: Option<nat>)
    ensures r.Some? ==> r.value < |s| && s[r.value] == c && forall k :: 0 <= k < r.value ==> s[k] != c
    ensures r.None? ==> forall k :: 0 <= k < |s| ==> s[k] != c
  {
    if s == [] then None
    else if s[0] == c then Some(0)
    else match FirstIndexOf(s[1..], c)
      case None => None
      case Some(i) => Some(i + 1)
  }

  function LastIndexOf(s: string, c: char): (r: Option<nat>)
    ensures r.Some? ==> r.value < |s| && s[r.value] == c && forall k :: r.value < k < |s| ==> s[k] != c
    ensures r.None? ==> forall k :: 0 <= k < |s| ==> s[k] != c
  {
    if s == [] then None
    else if s[|s| - 1] == c then Some(|s| - 1)
    else LastIndexOf(s[..|s| - 1], c)
  }

  /**
   * The match of the pattern `\[[\s\S]*\]` in the reply: the leftmost match
   * starts at the first `[`, and the greedy star makes it end at the last `]`.
   */
  function GreedyBracketMatch(s: string): Option<string> {
    match FirstIndexOf(s, '[')
    case None => None
    case Some(i) =>
      match LastIndexOf(s, ']')
      case None => None
      case Some(j) => if i < j then Some(s[i..j + 1]) else None
  }

  /**
   * There is a match exactly when some `[` is followed by a `]`; the match is
   * then the substring from the first `[` to the last `]`.
   */
  lemma GreedyBracketMatchSpec(s: string)
    ensures GreedyBracketMatch(s).None? <==>
            !exists i, j :: 0 <= i < j < |s| && s[i] == '[' && s[j] == ']'
    ensures GreedyBracketMatch(s).Some? ==>
            exists i, j :: 0 <= i < j < |s| && s[i] == '[' && s[j] == ']'
                           && GreedyBracketMatch(s).value == s[i..j + 1]
                           && (forall k :: 0 <= k < i ==> s[k] != '[')
                           && (forall k :: j < k < |s| ==> s[k] != ']')
  {
    var first := FirstIndexOf(s, '[');
    var last := LastIndexOf(s, ']');
    if first.Some? && last.Some? && first.value < last.value {
      var i, j := first.value, last.value;
      assert s[i] == '[' && s[j] == ']';
    }
  }

  /** The text handed to `JSON.parse`: the bracket match when there is one, else the whole reply. */
  function JsonCandidate(reply: string): (r: string)
    ensures GreedyBracketMatch(reply).None? ==> r == reply
    ensures GreedyBracketMatch(reply).Some? ==> |r| >= 2 && r[0] == '[' && r[|r| - 1] == ']'
    ensures GreedyBracketMatch(reply).Some? ==>
            exists i, j :: 0 <= i < j < |reply| && reply[i] == '[' && reply[j] == ']' && r == reply[i..j + 1]
                           && (forall k :: 0 <= k < i ==> reply[k] != '[')
                           && (forall k :: j < k < |reply| ==> reply[k] != ']')
  {
    GreedyBracketMatchSpec(reply);
    match GreedyBracketMatch(reply)
    case Some(m) => m
    case None => reply
  }

  // ---------------------------------------------------------------------------
  // The question generator

  /** `!process.env.OPENAI_API_KEY` is false for a missing and for an empty key. */
  predicate ApiKeyConfigured(apiKey: Option<string>) {
    apiKey.Some? && apiKey.value != ""
  }

  /**
   * What the generator returns: the placeholder list when no key is configured,
   * when the service call fails or when the selected reply text does not parse;
   * otherwise the parsed list.
   */
  function Generated(
    text: string, numQuestions: int, apiKey: Option<string>,
    service: ChatRequest -> Result<string>, parseJson: string -> Option<seq<Question>>): seq<Question>
  {
    if !ApiKeyConfigured(apiKey) then MockQuestions(numQuestions)
    else match service(ChatRequestFor(apiKey.value, text, numQuestions))
      case Failure(_) => MockQuestions(numQuestions)
      case Success(content) =>
        match parseJson(JsonCandidate(content))
        case Some(parsed) => parsed
        case None => MockQuestions(numQuestions)
  }

  /** The generator never fails: every failure path gives the placeholder list. */
  method GenerateQuestions(
    text: string, numQuestions: int, apiKey: Option<string>,
    service: ChatRequest -> Result<string>, parseJson: string -> Option<seq<Question>>)
    returns (questions: seq<Question>)
    ensures questions == Generated(text, numQuestions, apiKey, service, parseJson)
  {
    if !ApiKeyConfigured(apiKey) {
      questions := GenerateMockQuestions(numQuestions);
      return;
    }
    var reply := service(ChatRequestFor(apiKey.value, text, numQuestions));
    match reply {
      case Failure(_) =>
        questions := GenerateMockQuestions(numQuestions);
      case Success(content) =>
        var parsed := parseJson(JsonCandidate(content));
        match parsed {
          case Some(list) => questions := list;
          case None => questions := GenerateMockQuestions(numQuestions);
        }
    }
  }

  /** Without a key the service is never consulted: any two services give the same questions. */
  lemma UnconfiguredIgnoresService(
    text: string, numQuestions: int, apiKey: Option<string>,
    s1: ChatRequest -> Result<string>, s2: ChatRequest -> Result<string>,
    parseJson: string -> Option<seq<Question>>)
    requires !ApiKeyConfigured(apiKey)
    ensures Generated(text, numQuestions, apiKey, s1, parseJson) == Generated(text, numQuestions, apiKey, s2, parseJson)
    ensures Generated(text, numQuestions, apiKey, s1, parseJson) == MockQuestions(numQuestions)
  {
  }

  /** Only the first 3000 characters of the text can influence the generated questions. */
  lemma GeneratedSeesOnlyTextPrefix(
    t1: string, t2: string, numQuestions: int, apiKey: Option<string>,
    service: ChatRequest -> Result<string>, parseJson: string -> Option<seq<Question>>)
    requires t1[..Min(TextLimit, |t1|)] == t2[..Min(TextLimit, |t2|)]
    ensures Generated(t1, numQuestions, apiKey, service, parseJson) == Generated(t2, numQuestions, apiKey, service, parseJson)
  {
    if ApiKeyConfigured(apiKey) {
      RequestSeesOnlyTextPrefix(apiKey.value, t1, t2, numQuestions);
    }
  }

  // ---------------------------------------------------------------------------
  // The endpoints

  /** What the upload middleware knows about the file part of the request. */
  datatype UploadedFile = UploadedFile(originalName: string, mimeType: string)

  datatype Response =
    | UploadSucceeded(questions: seq<Question>, extractedTextLength: nat)   // 200 on the upload endpoint
    | DemoSucceeded(questions: seq<Question>)                               // 200 on the demo endpoint, demo: true
    | BadRequest(error: string)                                             // 400
    | ServerError(error: string)                                            // 500
    | UploadRefused(error: string)    // the file filter's error, passed on before the route handler runs

  const SampleText :=
    "Photosynthesis is the process by which green plants "
    + "convert light energy into chemical energy."

  /**
   * `POST /api/upload` after the rate limiter. `extraction` is what the PDF text
   * extractor yields for the stored file; `unlinked` tells whether the handler
   * goes on to delete the temporary file.
   */
  method PostUpload(
    file: Option<UploadedFile>, numQuestionsField: Option<string>, extraction: Result<string>,
    apiKey: Option<string>, service: ChatRequest -> Result<string>, parseJson: string -> Option<seq<Question>>)
    returns (response: Response, unlinked: bool)
    ensures file.Some? && !AcceptsUpload(file.value.mimeType) ==>
              response == UploadRefused("Only PDF files are allowed!") && !unlinked
    ensures file.None? ==> response == BadRequest("No file uploaded") && !unlinked
    ensures file.Some? && AcceptsUpload(file.value.mimeType) && extraction.Failure? ==>
              response == ServerError("Error processing PDF: " + extraction.error) && !unlinked
    ensures file.Some? && AcceptsUpload(file.value.mimeType) && extraction.Success? && IsBlank(extraction.value) ==>
              response == BadRequest("Could not extract text from PDF") && !unlinked
    ensures file.Some? && AcceptsUpload(file.value.mimeType) && extraction.Success? && !IsBlank(extraction.value) ==>
              && response == UploadSucceeded(
                   Generated(extraction.value, CountOrDefault(numQuestionsField, UploadDefaultCount), apiKey, service, parseJson),
                   Utf16Length(extraction.value))
              && unlinked
  {
    unlinked := false;
    if file.Some? && !AcceptsUpload(file.value.mimeType) {
      response := UploadRefused("Only PDF files are allowed!");
      return;
    }
    if file.None? {
      response := BadRequest("No file uploaded");
      return;
    }
    var numQuestions := CountOrDefault(numQuestionsField, UploadDefaultCount);
    match extraction {
      case Failure(message) =>
        response := ServerError("Error processing PDF: " + message);
      case Success(text) =>
        TrimEmptyIffBlank(text);
        if |Trim(text)| == 0 {
          response := BadRequest("Could not extract text from PDF");
          return;
        }
        var questions := GenerateQuestions(text, numQuestions, apiKey, service, parseJson);
        unlinked := true;
        response := UploadSucceeded(questions, Utf16Length(text));
    }
  }

  /** `GET /api/demo`: the fixed sample sentence stands in for the document. */
  method GetDemo(
    numQuestionsQuery: Option<string>,
    apiKey: Option<string>, service: ChatRequest -> Result<string>, parseJson: string -> Option<seq<Question>>)
    returns (response: Response)
    ensures response == DemoSucceeded(
              Generated(SampleText, CountOrDefault(numQuestionsQuery, DemoDefaultCount), apiKey, service, parseJson))
  {
    var numQuestions := CountOrDefault(numQuestionsQuery, DemoDefaultCount);
    var questions := GenerateQuestions(SampleText, numQuestions, apiKey, service, parseJson);
    response := DemoSucceeded(questions);
  }

  /**
   * Without a key, `/api/demo?numQuestions=4` yields four placeholder questions
   * that alternate multiple choice and short answer.
   */
  lemma DemoOfFourWithoutKey(
    apiKey: Option<string>, service: ChatRequest -> Result<string>, parseJson: string -> Option<seq<Question>>)
    requires !ApiKeyConfigured(apiKey)
    ensures var qs := Generated(SampleText, CountOrDefault(Some("4"), DemoDefaultCount), apiKey, service, parseJson);
            qs == MockQuestions(4) && |qs| == 4 && forall i :: 0 <= i < 4 ==> (qs[i].MultipleChoice? <==> i % 2 == 0)
  {
    assert NatToString(4) == "4";
    assert IntToString(4) + "" == "4";
    CountOfRendered(4, "", DemoDefaultCount);
    var qs := Generated(SampleText, 4, apiKey, service, parseJson);
    assert qs == MockQuestions(4);
    forall i | 0 <= i < 4 ensures qs[i].MultipleChoice? <==> i % 2 == 0 {
      MockQuestionKind(4, i);
    }
  }
}
