/**
 * The browser front end of the question generator: the question cards it
 * renders, the plain-text export of the current question list, the
 * drag-and-drop file check, and the page state those handlers share.
 * Styles, loading indicators, scrolling and the Blob download are left to the
 * DOM and are not modelled.
 */
module Frontend {
  import opened Common
  import opened JsRuntime
  import opened Questions
  import Server

  // ---------------------------------------------------------------------------
  // Question cards

  /** One option row of a multiple-choice card; `correct` gives it the correct class and the indicator. */
  datatype OptionItem = OptionItem(key: string, value: string, correct: bool)

  datatype Card =
    | MultipleChoiceCard(number: nat, question: string, items: seq<OptionItem>)
    | ShortAnswerCard(number: nat, question: string, sampleAnswer: string)

  /** The card for `q` under the heading "Question `number`". */
  function CreateQuestionCard(q: Question, number: nat): (card: Card)
    ensures card.number == number && card.question == q.question
    ensures card.MultipleChoiceCard? <==> q.MultipleChoice?
  {
    match q
    case MultipleChoice(text, options, correct) =>
      MultipleChoiceCard(number, text,
        seq(|options|, j requires 0 <= j < |options| => OptionItem(options[j].0, options[j].1, options[j].0 == correct)))
    case ShortAnswer(text, sample) =>
      ShortAnswerCard(number, text, sample)
  }

  /**
   * A multiple-choice card lists the options in order and marks an option
   * exactly when its key is the correct answer; for a well-formed question
   * exactly one option is marked.
   */
  lemma CardMarksCorrectOption(q: Question, number: nat)
    requires q.MultipleChoice?
    ensures var items := CreateQuestionCard(q, number).items;
            && |items| == |q.options|
            && forall j :: 0 <= j < |items| ==>
                 items[j].key == q.options[j].0 && items[j].value == q.options[j].1
                 && (items[j].correct <==> q.options[j].0 == q.correctAnswer)
    ensures WellFormed(q) ==>
            var items := CreateQuestionCard(q, number).items;
            exists j :: 0 <= j < |items| && items[j].correct
                        && forall j' :: 0 <= j' < |items| && items[j'].correct ==> j' == j
  {
    if WellFormed(q) {
      var items := CreateQuestionCard(q, number).items;
      var j :| 0 <= j < |q.options| && q.options[j].0 == q.correctAnswer;
      assert items[j].correct;
    }
  }

  /** `displayQuestions`: one card per question, numbered from 1 in list order. */
  method DisplayQuestions(questions: seq<Question>) returns (cards: seq<Card>)
    ensures |cards| == |questions|
    ensures forall k :: 0 <= k < |questions| ==> cards[k] == CreateQuestionCard(questions[k], k + 1)
  {
    cards := [];
    var index := 0;
    while index < |questions|
      invariant index <= |questions|
      invariant |cards| == index
      invariant forall k :: 0 <= k < index ==> cards[k] == CreateQuestionCard(questions[k], k + 1)
    {
      cards := cards + [CreateQuestionCard(questions[index], index + 1)];
      index := index + 1;
    }
  }

  // ---------------------------------------------------------------------------
  // Plain-text export

  /** The correct-answer marker character. */
  const Check := '\U{2713}'

  /** The width of the rules under the title and between blocks. */
  const RuleWidth := 50

  function Header(): string {
    "AI Generated Questions\n" + Repeat('=', RuleWidth) + "\n\n"
  }

  function Separator(): string {
    "\n" + Repeat('-', RuleWidth) + "\n\n"
  }

  /** The label chosen by comparing the record's `type` field with "multiple_choice". */
  function TypeLabel(q: Question): string {
    if TypeTag(q) == "multiple_choice" then "Multiple Choice" else "Short Answer"
  }

  function OptionLine(key: string, value: string, correctAnswer: string): string {
    "   " + key + ". " + value + (if key == correctAnswer then [' ', Check] else "") + "\n"
  }

  function OptionLines(options: seq<(string, string)>, correctAnswer: string): string {
    if options == [] then ""
    else
      var last := options[|options| - 1];
      OptionLines(options[..|options| - 1], correctAnswer) + OptionLine(last.0, last.1, correctAnswer)
  }

  function QuestionLine(number: nat): string {
    "Question " + NatToString(number) + ":\n"
  }

  function TypeLine(q: Question): string {
    "Type: " + TypeLabel(q) + "\n"
  }

  function TextLine(q: Question): string {
    "Q: " + q.question + "\n\n"
  }

  function CorrectAnswerLine(correctAnswer: string): string {
    "\nCorrect Answer: " + correctAnswer + "\n"
  }

  function BlockHead(number: nat, q: Question): string {
    QuestionLine(number) + TypeLine(q) + TextLine(q)
  }

  function BlockBody(q: Question): string {
    match q
    case MultipleChoice(_, options, correct) =>
      OptionLines(options, correct) + CorrectAnswerLine(correct)
    case ShortAnswer(_, sample) =>
      "Sample Answer: " + sample + "\n"
  }

  /** The block of question `number`. */
  function Block(number: nat, q: Question): string {
    BlockHead(number, q) + BlockBody(q) + Separator()
  }

  /** The blocks of a list, numbered from 1. */
  function Blocks(questions: seq<Question>): string {
    if questions == [] then ""
    else Blocks(questions[..|questions| - 1]) + Block(|questions|, questions[|questions| - 1])
  }

  /** The exported document; there is none for an empty list. */
  function ExportDocument(questions: seq<Question>): (doc: Option<string>)
    ensures doc.None? <==> questions == []
    ensures doc.Some? ==> |Header()| <= |doc.value| && doc.value[..|Header()|] == Header()
  {
    if questions == [] then None else Some(Header() + Blocks(questions))
  }

  /** The download handler's serializer, building the text with `+=` over the questions. */
  method ExportText(questions: seq<Question>) returns (content: Option<string>)
    ensures content == ExportDocument(questions)
  {
    if |questions| == 0 {
      return None;
    }
    var text := "AI Generated Questions\n";
    text := text + (Repeat('=', RuleWidth) + "\n\n");
    assert text == Header() + Blocks(questions[..0]);
    var index := 0;
    while index < |questions|
      invariant index <= |questions|
      invariant text == Header() + Blocks(questions[..index])
    {
      ghost var done := Blocks(questions[..index]);
      ghost var block := Block(index + 1, questions[index]);
      text := AppendBlock(text, index + 1, questions[index]);
      BlocksStep(questions, index);
      AppendAssociative(Header(), done, block);
      index := index + 1;
    }
    assert questions[..index] == questions;
    content := Some(text);
  }

  lemma BlocksStep(questions: seq<Question>, index: nat)
    requires index < |questions|
    ensures Blocks(questions[..index + 1]) == Blocks(questions[..index]) + Block(index + 1, questions[index])
  {
    assert questions[..index + 1][..index] == questions[..index];
  }

  /** The body of the per-question callback: the block of question `number` appended to `text`. */
  method AppendBlock(text: string, number: nat, q: Question) returns (out: string)
    ensures out == text + Block(number, q)
  {
    out := text + ("Question " + NatToString(number) + ":\n");
    out := out + ("Type: " + (if q.MultipleChoice? then "Multiple Choice" else "Short Answer") + "\n");
    out := out + ("Q: " + q.question + "\n\n");
    assert out == text + BlockHead(number, q) by {
      AppendAssociative(text, QuestionLine(number), TypeLine(q));
      AppendAssociative(text, QuestionLine(number) + TypeLine(q), TextLine(q));
    }
    ghost var head := out;
    if q.MultipleChoice? {
      out := AppendOptionLines(out, q.options, q.correctAnswer);
      out := out + ("\nCorrect Answer: " + q.correctAnswer + "\n");
      AppendAssociative(head, OptionLines(q.options, q.correctAnswer), CorrectAnswerLine(q.correctAnswer));
    } else {
      out := out + ("Sample Answer: " + q.sampleAnswer + "\n");
    }
    assert out == head + BlockBody(q);
    out := out + ("\n" + Repeat('-', RuleWidth) + "\n\n");
    AppendAssociative(text, BlockHead(number, q), BlockBody(q));
    AppendAssociative(text, BlockHead(number, q) + BlockBody(q), Separator());
  }

  /** The inner loop over the option entries of a multiple-choice question. */
  method AppendOptionLines(text: string, options: seq<(string, string)>, correctAnswer: string) returns (out: string)
    ensures out == text + OptionLines(options, correctAnswer)
  {
    out := text;
    var j := 0;
    while j < |options|
      invariant j <= |options|
      invariant out == text + OptionLines(options[..j], correctAnswer)
    {
      var (key, value) := options[j];
      var marker := if key == correctAnswer then [' ', Check] else "";
      assert options[..j + 1][..j] == options[..j];
      AppendAssociative(text, OptionLines(options[..j], correctAnswer), OptionLine(key, value, correctAnswer));
      out := out + ("   " + key + ". " + value + marker + "\n");
      j := j + 1;
    }
    assert options[..j] == options;
  }

  // ---------------------------------------------------------------------------
  // What the export promises

  /** The header is the title line, a rule of 50 `=` and a blank line. */
  lemma HeaderShape()
    ensures |Header()| == 75
    ensures Header()[..23] == "AI Generated Questions\n"
    ensures forall k :: 23 <= k < 73 ==> Header()[k] == '='
    ensures Header()[73..] == "\n\n"
  {
  }

  /** Every block ends with a newline, a rule of 50 `-` and a blank line. */
  lemma BlockEndsWithSeparator(number: nat, q: Question)
    ensures |Separator()| == 53 && Separator()[0] == '\n' && Separator()[51..] == "\n\n"
    ensures forall k :: 1 <= k < 51 ==> Separator()[k] == '-'
    ensures |Separator()| <= |Block(number, q)|
    ensures Block(number, q)[|Block(number, q)| - |Separator()|..] == Separator()
  {
  }

  /** Every block opens with its question line. */
  lemma BlockStartsWithQuestionLine(number: nat, q: Question)
    ensures IsPrefix(QuestionLine(number), Block(number, q))
  {
    var head := BlockHead(number, q);
    PrefixOfAppend(QuestionLine(number), TypeLine(q));
    PrefixOfAppend(QuestionLine(number) + TypeLine(q), TextLine(q));
    PrefixTransitive(QuestionLine(number), QuestionLine(number) + TypeLine(q), head);
    PrefixOfAppend(head, BlockBody(q));
    PrefixOfAppend(head + BlockBody(q), Separator());
    PrefixTransitive(head, head + BlockBody(q), Block(number, q));
    PrefixTransitive(QuestionLine(number), head, Block(number, q));
  }

  /** The question line is "Question ", then the number, then a colon. */
  lemma QuestionLineNumber(number: nat)
    ensures QuestionLine(number)[..9] == "Question "
    ensures ParseInt(QuestionLine(number)[9..]) == Some(number)
  {
    ParseIntAfterPrefix(QuestionLine(number), "Question ", number, ":\n");
  }

  /** The blocks of the first `k` questions are a prefix of the blocks of the whole list. */
  lemma {:induction false} BlocksPrefix(questions: seq<Question>, k: nat)
    requires k <= |questions|
    ensures IsPrefix(Blocks(questions[..k]), Blocks(questions))
  {
    if k == |questions| {
      assert questions[..k] == questions;
      PrefixReflexive(Blocks(questions));
    } else {
      var init := questions[..|questions| - 1];
      assert init[..k] == questions[..k];
      BlocksPrefix(init, k);
      PrefixOfAppend(Blocks(init), Block(|questions|, questions[|questions| - 1]));
      PrefixTransitive(Blocks(questions[..k]), Blocks(init), Blocks(questions));
    }
  }

  lemma BlockNonEmpty(number: nat, q: Question)
    ensures |Block(number, q)| > 0
  {
  }

  /** Where the block of the question at index `k` starts in the document. */
  function BlockOffset(questions: seq<Question>, k: nat): nat
    requires k <= |questions|
  {
    |Header()| + |Blocks(questions[..k])|
  }

  /**
   * The document holds the block of question `k + 1` between the offsets of
   * indices `k` and `k + 1`: the blocks appear once each, numbered 1 to L, in list order.
   */
  lemma ExportBlockAt(questions: seq<Question>, k: nat)
    requires k < |questions|
    ensures BlockOffset(questions, k) < BlockOffset(questions, k + 1) <= |ExportDocument(questions).value|
    ensures ExportDocument(questions).value[BlockOffset(questions, k)..BlockOffset(questions, k + 1)]
            == Block(k + 1, questions[k])
  {
    BlocksStep(questions, k);
    BlocksPrefix(questions, k + 1);
    BlockNonEmpty(k + 1, questions[k]);
    SliceOfPrefix(ExportDocument(questions).value, Header(), Blocks(questions), Blocks(questions[..k]),
      Block(k + 1, questions[k]), BlockOffset(questions, k), BlockOffset(questions, k + 1));
  }

  /** The number of entries of `options` whose key is `key`. */
  function KeyCount(options: seq<(string, string)>, key: string): nat {
    if options == [] then 0
    else KeyCount(options[..|options| - 1], key) + (if options[|options| - 1].0 == key then 1 else 0)
  }

  lemma {:induction false} KeyCountOfMissing(options: seq<(string, string)>, key: string)
    requires !HasKey(options, key)
    ensures KeyCount(options, key) == 0
  {
    if options != [] {
      var init := options[..|options| - 1];
      KeyCountOfMissing(init, key);
    }
  }

  /** With distinct keys, a key that is present occurs exactly once. */
  lemma {:induction false} KeyCountOfDistinct(options: seq<(string, string)>, key: string)
    requires DistinctKeys(options) && HasKey(options, key)
    ensures KeyCount(options, key) == 1
  {
    var n := |options|;
    var init := options[..n - 1];
    assert DistinctKeys(init);
    if options[n - 1].0 == key {
      KeyCountOfMissing(init, key);
    } else {
      var j :| 0 <= j < n && options[j].0 == key;
      assert init[j].0 == key;
      KeyCountOfDistinct(init, key);
    }
  }

  /** The text of `q` does not itself contain the marker character. */
  predicate MarkerFree(q: Question) {
    && Check !in q.question
    && match q
       case MultipleChoice(_, options, correct) =>
         Check !in correct && forall j :: 0 <= j < |options| ==> Check !in options[j].0 && Check !in options[j].1
       case ShortAnswer(_, sample) => Check !in sample
  }

  // The fixed texts of the document do not contain the marker.

  lemma HeaderNoMarker()
    ensures Check !in Header()
  {
    assert Check !in "AI Generated Questions\n";
  }

  lemma SeparatorNoMarker()
    ensures Check !in Separator()
  {
  }

  lemma BlockHeadNoMarker(number: nat, q: Question)
    requires Check !in q.question
    ensures Check !in BlockHead(number, q)
  {
    assert Check !in NatToString(number);
    assert Check !in QuestionLine(number);
    assert Check !in TypeLine(q);
    assert Check !in TextLine(q);
  }

  lemma OptionLineMarkers(key: string, value: string, correct: string)
    requires Check !in key && Check !in value
    ensures Count(OptionLine(key, value, correct), Check) == if key == correct then 1 else 0
  {
    var text := "   " + key + ". " + value;
    var marker: string := if key == correct then [' ', Check] else "";
    assert OptionLine(key, value, correct) == text + marker + "\n";
    CountAbsent(text, Check);
    CountAbsent("\n", Check);
    CountAppend(text, marker, Check);
    CountAppend(text + marker, "\n", Check);
    if key == correct {
      assert marker[..1] == [' '];
      CountAbsent(marker[..1], Check);
    }
  }

  lemma {:induction false} OptionLinesMarkers(options: seq<(string, string)>, correct: string)
    requires forall j :: 0 <= j < |options| ==> Check !in options[j].0 && Check !in options[j].1
    ensures Count(OptionLines(options, correct), Check) == KeyCount(options, correct)
  {
    if options != [] {
      var last := options[|options| - 1];
      var init := options[..|options| - 1];
      OptionLinesMarkers(init, correct);
      OptionLineMarkers(last.0, last.1, correct);
      CountAppend(OptionLines(init, correct), OptionLine(last.0, last.1, correct), Check);
    }
  }

  /**
   * The marker appears in a block once per option whose key is the correct
   * answer, and never in a short-answer block.
   */
  lemma BodyMarkers(q: Question)
    requires MarkerFree(q)
    ensures Count(BlockBody(q), Check) == if q.MultipleChoice? then KeyCount(q.options, q.correctAnswer) else 0
  {
    match q
    case MultipleChoice(_, options, correct) =>
      OptionLinesMarkers(options, correct);
      assert Check !in CorrectAnswerLine(correct);
      CountAbsent(CorrectAnswerLine(correct), Check);
      CountAppend(OptionLines(options, correct), CorrectAnswerLine(correct), Check);
    case ShortAnswer(_, sample) =>
      assert Check !in BlockBody(q);
      CountAbsent(BlockBody(q), Check);
  }

  lemma BlockMarkers(number: nat, q: Question)
    requires MarkerFree(q)
    ensures Count(Block(number, q), Check) ==
            if q.MultipleChoice? then KeyCount(q.options, q.correctAnswer) else 0
  {
    BlockHeadNoMarker(number, q);
    SeparatorNoMarker();
    CountAbsent(BlockHead(number, q), Check);
    CountAbsent(Separator(), Check);
    BodyMarkers(q);
    CountOfParts(Block(number, q), BlockHead(number, q), BlockBody(q), Separator(), Check);
  }

  function CountMultipleChoice(questions: seq<Question>): nat {
    if questions == [] then 0
    else CountMultipleChoice(questions[..|questions| - 1]) + (if questions[|questions| - 1].MultipleChoice? then 1 else 0)
  }

  lemma {:induction false} BlocksMarkers(questions: seq<Question>)
    requires forall i :: 0 <= i < |questions| ==> WellFormed(questions[i]) && MarkerFree(questions[i])
    ensures Count(Blocks(questions), Check) == CountMultipleChoice(questions)
  {
    if questions != [] {
      var n := |questions|;
      var q := questions[n - 1];
      var init := questions[..n - 1];
      BlocksMarkers(init);
      BlockMarkers(n, q);
      if q.MultipleChoice? {
        KeyCountOfDistinct(q.options, q.correctAnswer);
      }
      CountOfSplit(Blocks(questions), Blocks(init), Block(n, q), Check);
    }
  }

  /** For well-formed questions, the export carries one marker per multiple-choice question. */
  lemma ExportMarkers(questions: seq<Question>)
    requires questions != []
    requires forall i :: 0 <= i < |questions| ==> WellFormed(questions[i]) && MarkerFree(questions[i])
    ensures Count(ExportDocument(questions).value, Check) == CountMultipleChoice(questions)
  {
    BlocksMarkers(questions);
    HeaderNoMarker();
    CountAfterAbsent(ExportDocument(questions).value, Header(), Blocks(questions), Check);
  }

  /** Of `n` placeholder questions, ceil(n / 2) are multiple choice. */
  lemma {:induction false} PlaceholderChoiceCount(n: nat)
    ensures CountMultipleChoice(Server.MockQuestions(n)) == (n + 1) / 2
  {
    if n > 0 {
      assert Server.MockQuestions(n)[..n - 1] == Server.MockQuestions(n - 1);
      PlaceholderChoiceCount(n - 1);
    }
  }

  /** Every character is ASCII. The marker is not, so an ASCII text cannot contain it. */
  predicate Ascii(s: string) {
    forall k :: 0 <= k < |s| ==> s[k] as int < 128
  }

  lemma AsciiNoMarker(s: string)
    requires Ascii(s)
    ensures Check !in s
  {
  }

  lemma AsciiOfParts(s: string, a: string, b: string, c: string)
    requires s == a + b + c && Ascii(a) && Ascii(b) && Ascii(c)
    ensures Ascii(s)
  {
    forall k | 0 <= k < |s| ensures s[k] as int < 128 {
      if k < |a| {
        assert s[k] == a[k];
      } else if k < |a| + |b| {
        assert s[k] == b[k - |a|];
      } else {
        assert s[k] == c[k - |a| - |b|];
      }
    }
  }

  // The fixed placeholder texts are ASCII, one small lemma per group of literals.

  lemma ChoicePrefixAscii()
    ensures Ascii(Server.MockChoicePrefix)
  {
  }

  lemma ChoiceSuffixAscii()
    ensures Ascii(Server.MockChoiceSuffix)
  {
  }

  lemma ShortPrefixAscii()
    ensures Ascii(Server.MockShortPrefix)
  {
  }

  lemma ShortSuffixAscii()
    ensures Ascii(Server.MockShortSuffix)
  {
  }

  lemma SampleAnswerHeadAscii()
    ensures Ascii("This is a sample answer ")
  {
  }

  lemma SampleAnswerMiddleAscii()
    ensures Ascii("that would be generated ")
  {
  }

  lemma SampleAnswerTailAscii()
    ensures Ascii("based on the document content.")
  {
  }

  lemma SampleAnswerAscii()
    ensures Ascii(Server.MockSampleAnswer)
  {
    SampleAnswerHeadAscii();
    SampleAnswerMiddleAscii();
    SampleAnswerTailAscii();
    AsciiOfParts(Server.MockSampleAnswer, "This is a sample answer ", "that would be generated ",
                 "based on the document content.");
  }

  lemma FirstOptionAscii()
    ensures Ascii(Server.MockOptions[0].0) && Ascii(Server.MockOptions[0].1)
  {
  }

  lemma SecondOptionAscii()
    ensures Ascii(Server.MockOptions[1].0) && Ascii(Server.MockOptions[1].1)
  {
  }

  lemma ThirdOptionAscii()
    ensures Ascii(Server.MockOptions[2].0) && Ascii(Server.MockOptions[2].1)
  {
  }

  lemma FourthOptionAscii()
    ensures Ascii(Server.MockOptions[3].0) && Ascii(Server.MockOptions[3].1)
  {
  }

  lemma AnswerLettersAscii()
    ensures forall j :: 0 <= j < |Server.AnswerLetters| ==> Ascii(Server.AnswerLetters[j])
  {
  }

  lemma MockOptionsAscii()
    ensures |Server.MockOptions| == 4
    ensures forall j :: 0 <= j < |Server.MockOptions| ==> Ascii(Server.MockOptions[j].0) && Ascii(Server.MockOptions[j].1)
  {
    FirstOptionAscii();
    SecondOptionAscii();
    ThirdOptionAscii();
    FourthOptionAscii();
  }

  /** The placeholder texts are ASCII, hence free of the marker. */
  lemma PlaceholderMarkerFree(i: nat)
    ensures MarkerFree(Server.MockQuestion(i))
  {
    var number := NatToString(i / 2 + 1);
    assert Ascii(number);
    if i % 2 == 0 {
      ChoicePrefixAscii();
      ChoiceSuffixAscii();
      AsciiOfParts(Server.MockQuestion(i).question, Server.MockChoicePrefix, number, Server.MockChoiceSuffix);
      AsciiNoMarker(Server.MockQuestion(i).question);
      MockOptionsAscii();
      forall j | 0 <= j < |Server.MockOptions|
        ensures Check !in Server.MockOptions[j].0 && Check !in Server.MockOptions[j].1
      {
        AsciiNoMarker(Server.MockOptions[j].0);
        AsciiNoMarker(Server.MockOptions[j].1);
      }
      AnswerLettersAscii();
      AsciiNoMarker(Server.AnswerLetters[i % 4]);
    } else {
      ShortPrefixAscii();
      ShortSuffixAscii();
      AsciiOfParts(Server.MockQuestion(i).question, Server.MockShortPrefix, number, Server.MockShortSuffix);
      AsciiNoMarker(Server.MockQuestion(i).question);
      SampleAnswerAscii();
      AsciiNoMarker(Server.MockSampleAnswer);
    }
  }

  /** The export of `n` placeholder questions carries ceil(n / 2) correct-answer marks. */
  lemma PlaceholderExportMarkers(n: nat)
    requires n > 0
    ensures Count(ExportDocument(Server.MockQuestions(n)).value, Check) == (n + 1) / 2
  {
    var qs := Server.MockQuestions(n);
    forall i | 0 <= i < |qs| ensures WellFormed(qs[i]) && MarkerFree(qs[i]) {
      Server.MockQuestionWellFormed(i);
      PlaceholderMarkerFree(i);
    }
    ExportMarkers(qs);
    PlaceholderChoiceCount(n);
  }

  // ---------------------------------------------------------------------------
  // Drag and drop

  /** A file in a drop event's file list, with its name and MIME type. */
  datatype DroppedFile = DroppedFile(name: string, mimeType: string)

  /** The drop handler accepts a drop when there is a first file and its type is the PDF MIME type. */
  predicate AcceptsDrop(files: seq<DroppedFile>) {
    |files| > 0 && files[0].mimeType == Server.PdfMimeType
  }

  /** A drop is accepted exactly when the server's upload filter would accept its first file. */
  lemma DropAgreesWithUploadFilter(files: seq<DroppedFile>)
    ensures AcceptsDrop(files) <==> |files| > 0 && Server.AcceptsUpload(files[0].mimeType)
    ensures files == [] ==> !AcceptsDrop(files)
  {
  }

  // ---------------------------------------------------------------------------
  // Replies of the generate and demo handlers

  datatype Endpoint = DemoEndpoint | UploadEndpoint

  /**
   * The parts of a JSON reply the handlers look at: the HTTP status being a
   * success, the `success` flag, the `questions` list and the `error` text.
   */
  datatype ApiReply = ApiReply(ok: bool, success: bool, questions: Option<seq<Question>>, error: Option<string>)

  /** What a handler does with a reply: show the questions, or show an error message. */
  datatype Reaction = ShowQuestions(questions: seq<Question>) | ShowError(message: string)

  function FailureMessage(endpoint: Endpoint): string {
    if endpoint == DemoEndpoint then "Failed to generate demo questions" else "Failed to generate questions"
  }

  function NothingMessage(endpoint: Endpoint): string {
    if endpoint == DemoEndpoint then "No demo questions were generated" else "No questions were generated"
  }

  /**
   * A failed status shows the reply's error, or the endpoint's failure message
   * when the error is missing or empty; a successful reply with a question list
   * (possibly empty) shows it; anything else shows the "no questions" message.
   */
  function ReactionTo(endpoint: Endpoint, reply: ApiReply): (r: Reaction)
    ensures r.ShowQuestions? <==> reply.ok && reply.success && reply.questions.Some?
    ensures r.ShowQuestions? ==> r.questions == reply.questions.value
    ensures r.ShowError? ==> |r.message| > 0
    ensures !reply.ok && reply.error.Some? && reply.error.value != "" ==> r == ShowError(reply.error.value)
  {
    if !reply.ok then
      ShowError(if reply.error.Some? && reply.error.value != "" then reply.error.value else FailureMessage(endpoint))
    else if reply.success && reply.questions.Some? then
      ShowQuestions(reply.questions.value)
    else
      ShowError(NothingMessage(endpoint))
  }

  /** The JSON body the server sends for a response of a route handler. */
  function ReplyOf(response: Server.Response): (reply: Option<ApiReply>)
    ensures reply.None? <==> response.UploadRefused?
  {
    match response
    case UploadSucceeded(questions, _) => Some(ApiReply(true, true, Some(questions), None))
    case DemoSucceeded(questions) => Some(ApiReply(true, true, Some(questions), None))
    case BadRequest(error) => Some(ApiReply(false, false, None, Some(error)))
    case ServerError(error) => Some(ApiReply(false, false, None, Some(error)))
    case UploadRefused(_) => None
  }

  /**
   * End to end: the page shows exactly the server's questions when the route
   * succeeds, and the server's error text when it fails with a non-empty one.
   */
  lemma ReactionToServer(endpoint: Endpoint, response: Server.Response)
    requires !response.UploadRefused?
    ensures response.UploadSucceeded? || response.DemoSucceeded? ==>
            ReactionTo(endpoint, ReplyOf(response).value) == ShowQuestions(response.questions)
    ensures (response.BadRequest? || response.ServerError?) && response.error != "" ==>
            ReactionTo(endpoint, ReplyOf(response).value) == ShowError(response.error)
  {
  }

  // ---------------------------------------------------------------------------
  // Page state

  /** What a reply handler leaves on screen. */
  datatype Outcome = ResultsShown(cards: seq<Card>) | ErrorShown(message: string)

  /**
   * The page's shared state: the current question list, the file input's
   * files and the file-name text.
   */
  class Page {
    var currentQuestions: seq<Question>
    var selectedFiles: seq<DroppedFile>
    var fileNameText: string

    /** The loaded page. The file-name label's initial text comes from markup and is taken to be empty. */
    constructor()
      ensures currentQuestions == [] && selectedFiles == [] && fileNameText == ""
    {
      currentQuestions := [];
      selectedFiles := [];
      fileNameText := "";
    }

    /** The drop handler: an accepted drop replaces the files and shows the first name; otherwise nothing changes. */
    method Drop(files: seq<DroppedFile>)
      modifies this
      ensures currentQuestions == old(currentQuestions)
      ensures AcceptsDrop(files) ==> selectedFiles == files && fileNameText == files[0].name
      ensures !AcceptsDrop(files) ==> selectedFiles == old(selectedFiles) && fileNameText == old(fileNameText)
    {
      if |files| > 0 && files[0].mimeType == Server.PdfMimeType {
        selectedFiles := files;
        fileNameText := files[0].name;
      }
    }

    /**
     * The body of the demo and generate handlers once the reply has arrived:
     * on success the list becomes the current questions and is rendered as
     * cards; on failure an error is shown and the current list is kept.
     */
    method ReceiveReply(endpoint: Endpoint, reply: ApiReply) returns (outcome: Outcome)
      modifies this
      ensures selectedFiles == old(selectedFiles) && fileNameText == old(fileNameText)
      ensures ReactionTo(endpoint, reply).ShowQuestions? ==>
              && currentQuestions == ReactionTo(endpoint, reply).questions
              && outcome.ResultsShown?
              && |outcome.cards| == |currentQuestions|
              && forall k :: 0 <= k < |currentQuestions| ==>
                   outcome.cards[k] == CreateQuestionCard(currentQuestions[k], k + 1)
      ensures ReactionTo(endpoint, reply).ShowError? ==>
              && currentQuestions == old(currentQuestions)
              && outcome == ErrorShown(ReactionTo(endpoint, reply).message)
    {
      if !reply.ok {
        var message := if reply.error.Some? && reply.error.value != "" then reply.error.value else FailureMessage(endpoint);
        outcome := ErrorShown(message);
      } else if reply.success && reply.questions.Some? {
        currentQuestions := reply.questions.value;
        var cards := DisplayQuestions(reply.questions.value);
        outcome := ResultsShown(cards);
      } else {
        outcome := ErrorShown(NothingMessage(endpoint));
      }
    }

    /** The download handler: nothing for an empty list, otherwise the export of the current questions. */
    method Download() returns (content: Option<string>)
      ensures content == ExportDocument(currentQuestions)
    {
      content := ExportText(currentQuestions);
    }
  }
}
