# PDF quiz generator — a Dafny model

This project models the AI quiz generator. It has three parts:

- **A Node/Express server** (`server.js`):
  - It accepts an uploaded PDF and extracts its text.
  - It asks an OpenAI chat model for a JSON array of questions.
  - It falls back to deterministic placeholder questions when no API key is configured or the model call fails.
  - It serves a demo endpoint that runs the same generator on a fixed sample sentence.
- **A browser front end** (`public/script.js`):
  - It accepts a dropped PDF.
  - It shows every returned question as a card and marks the correct option.
  - It exports the current questions as a plain-text document.
- **A standalone quiz player** (`script.js`):
  - It steps through a list of multiple-choice items and keeps a score.
  - It shows a progress label and, at the end, a final score.

The model is split into six modules:

- `Common` — `Option`/`Result`, `Min`, and sequence lemmas:
  - prefixes and slices;
  - `Count`, the number of occurrences of an element.
- `JsRuntime` — the ECMAScript built-ins the code depends on:
  - white space and `String.prototype.trim`;
  - `parseInt` (leading white space, sign, `0x` prefix, longest digit prefix);
  - integer-to-string conversion;
  - `String.prototype.repeat` and `String.prototype.substring`.
- `Questions` — the question record:
  - multiple choice, with options in `Object.entries` order and a correct key;
  - short answer, with a sample answer;
  - well-formedness: the option keys are distinct and the correct key is one of them.
- `Server` — the server:
  - the upload filter and the placeholder generator (a loop, as a method);
  - the `numQuestions` parsing rule, the prompt and the request sent to the model;
  - the greedy `[...]` extraction;
  - the generator with its two fallbacks;
  - the upload and demo endpoints, as methods returning the response.
  The text extractor, the chat service and `JSON.parse` are parameters.
- `StandaloneQuiz` — the quiz player: class `Player`, whose fields are the page's global state.
- `Frontend` — the front end:
  - card construction and the export serializer (its loops are methods proved against the functions that specify them);
  - the drop predicate and the reaction to an API reply;
  - class `Page`, which holds `currentQuestions`, the selected files and the file-name label.

## Model

| member | source | states |
|---|---|---|
| `Server.AcceptsUpload` | server.js:39-45 | Definition: the file filter passes exactly the MIME type `application/pdf`. Characterised by `Server.PostUpload` and `Frontend.DropAgreesWithUploadFilter`. |
| `Server.MockQuestion` | server.js:135-153 | Definition: placeholder `i`. Characterised by `Server.MockQuestionKind`, `Server.MockCorrectAnswer`, `Server.MockQuestionNumber` and `Server.MockQuestionWellFormed`. |
| `Server.MockQuestions` | server.js:133-155 | Definition: the placeholder list for a count. Characterised by `Server.MockQuestionsLength` and `Server.GenerateMockQuestions`. |
| `Server.GenerateMockQuestions` | server.js:132-156 | The loop yields exactly the placeholder list `MockQuestions(numQuestions)`: entry `i` is question `i` for every `i` below the count. |
| `Server.MockQuestionsLength` | server.js:133-134 | The placeholder list has `n` entries for positive `n` and none otherwise. |
| `Server.MockQuestionKind` | server.js:135-153 | Placeholder `i` is multiple choice exactly when `i` is even and short answer exactly when it is odd. |
| `Server.MockCorrectAnswer` | server.js:135-145 | The correct answer of multiple-choice placeholder `i` is letter `i % 4` of A–D. For an even `i` this is "A" or "C". |
| `Server.MockOptionKeys` | server.js:139-144 | The placeholder options are four entries keyed A, B, C, D in that order, with no key repeated. |
| `Server.MockQuestionWellFormed` | server.js:134-153 | Every single placeholder question is well formed. |
| `Server.MockQuestionsWellFormed` | server.js:132-156 | Every placeholder question is well formed: its correct answer names one of its distinct option keys. |
| `Server.MockQuestionNumber` | server.js:138-150 | The number after placeholder `i`'s fixed prefix reads back with `parseInt` as `floor(i/2)+1`. The multiple-choice and short-answer series are each numbered from 1. |
| `Server.CountOrDefault` | server.js:165 | `parseInt(raw) \|\| default` never yields 0 when the default is non-zero. |
| `Server.CountOfRendered` | server.js:165 | A count written as a decimal integer is taken as that integer, and 0 falls back to the default. The requires asks that the next character be neither a digit nor `x`/`X`. That is stronger than needed, since `parseInt` switches to hex only after a lone `0`. |
| `Server.CountWithoutDigits` | server.js:205 | A missing count, or one with no decimal digit at all, gives `NaN`, so the default is used. |
| `Server.Prompt` | server.js:74-99 | Definition: the prompt text. Characterised by `Server.PromptEmbedsTextPrefix`. |
| `Server.ChatRequestFor` | server.js:101-115 | Definition: the chat request (model, system message, prompt, temperature 0.7, 2000 tokens). Characterised by `Server.RequestSeesOnlyTextPrefix`. |
| `Server.PromptEmbedsTextPrefix` | server.js:74-99 | The prompt is the fixed instruction header followed by exactly the first 3000 characters of the text, or all of it when the text is shorter. |
| `Server.RequestSeesOnlyTextPrefix` | server.js:99-115 | Two texts that agree on their first 3000 characters produce the same chat request. |
| `Server.GreedyBracketMatch` | server.js:119 | Definition: the optional match of `/\[[\s\S]*\]/`. Characterised by `Server.GreedyBracketMatchSpec`. |
| `Server.GreedyBracketMatchSpec` | server.js:119 | `/\[[\s\S]*\]/` matches iff there is a `[` before a later `]`. The match runs from the first `[` to the last `]`. |
| `Server.JsonCandidate` | server.js:119-123 | The string handed to `JSON.parse` is the whole reply when nothing matches. Otherwise it is the slice of the reply from a `[` that no earlier `[` precedes to a `]` that no later `]` follows. |
| `Server.ApiKeyConfigured` | server.js:63 | Definition: the key counts as configured when it is present and non-empty (JavaScript truthiness). Characterised by `Server.UnconfiguredIgnoresService`. |
| `Server.Generated` | server.js:61-128 | Definition: the generator's result. Characterised by `Server.GenerateQuestions`, `Server.UnconfiguredIgnoresService` and `Server.GeneratedSeesOnlyTextPrefix`. |
| `Server.GenerateQuestions` | server.js:61-129 | The generator's result is `Generated(...)`: placeholders without a key, the parsed array on success, and placeholders after any failure of the chat call or of `JSON.parse`. |
| `Server.UnconfiguredIgnoresService` | server.js:63-66 | Without an API key the chat service is never consulted: the result is the placeholder list, whatever the service would answer. |
| `Server.GeneratedSeesOnlyTextPrefix` | server.js:74-128 | Text beyond the first 3000 characters never influences the generated questions. |
| `Server.PostUpload` | server.js:159-195 | All five paths of the upload handler, with their responses, and whether the temporary file was deleted: missing file 400, refused file type, extraction failure 500, blank text 400, success. On success `extractedTextLength` is the text's UTF-16 length. |
| `Server.GetDemo` | server.js:203-216 | The demo response carries the generator's questions for the fixed sample sentence. The count defaults to 6. |
| `Server.DemoOfFourWithoutKey` | server.js:203-212 | Asking the demo for 4 questions without an API key gives four placeholders: multiple choice at even positions, short answer at odd ones. |
| `JsRuntime.TrimStart` | server.js:170 | Trimming the front removes a leading run of white space and stops at the first visible character. |
| `JsRuntime.TrimEnd` | server.js:170 | Trimming the back removes a trailing run of white space and stops at the last visible character. |
| `JsRuntime.Trim` | server.js:170 | Definition: `TrimEnd` after `TrimStart`. Characterised by `JsRuntime.TrimEmptyIffBlank`. |
| `JsRuntime.TrimEmptyIffBlank` | server.js:170 | `text.trim().length === 0` holds exactly when the text is all white space. |
| `JsRuntime.SubstringPrefix` | server.js:99 | `substring(0, n)` is the first `n` characters, or the whole string when it is shorter. |
| `JsRuntime.Utf16Length` | server.js:188 | `text.length` counts UTF-16 code units. It lies between the number of characters and twice it, and equals the number of characters exactly when none lies outside the Basic Multilingual Plane. |
| `JsRuntime.Utf16LengthAppend` | server.js:188 | The code-unit length of a concatenation is the sum of the parts' lengths. |
| `JsRuntime.Repeat` | public/script.js:185 | `c.repeat(n)` has length `n` and every character is `c`. |
| `JsRuntime.ParseInt` | server.js:165 | Definition: `parseInt` with no radix, `None` standing for `NaN`. Characterised by `JsRuntime.ParseIntOfRendered` and `JsRuntime.ParseIntWithoutDigits`. |
| `JsRuntime.ParseIntOfRendered` | server.js:165 | `parseInt` reads back any integer rendered in decimal and followed by a non-digit, non-`x` character. |
| `JsRuntime.ParseIntWithoutDigits` | server.js:205 | `parseInt` of a string with no decimal digit is `NaN`. |
| `JsRuntime.ParseIntAfterPrefix` | script.js:45 | After a fixed prefix, a rendered integer reads back with `parseInt`. This is what the numbered labels rely on. |
| `StandaloneQuiz.Player.constructor` | script.js:1-3 | The player starts with no questions, question index 0 and score 0. |
| `StandaloneQuiz.Player.Load` | script.js:5-10 | Loading stores the data and shows its first question. An empty list fails as the source does when it reads `questions[0]`. |
| `StandaloneQuiz.Player.LoadQuestion` | script.js:12-27 | The loop builds one button per choice, in order, each with its own index. The screen shows the current question and its progress label. |
| `StandaloneQuiz.Player.Finished` | script.js:34 | Definition: the terminal state is reached when the index equals the number of questions. Characterised by `StandaloneQuiz.Player.SelectAnswer`. |
| `StandaloneQuiz.FinishedHtml` | script.js:37-38 | Definition: the final score markup. Characterised by `StandaloneQuiz.Player.SelectAnswer`. |
| `StandaloneQuiz.Player.SelectAnswer` | script.js:29-40 | Score goes up by one exactly when the index equals the item's answer, and the player advances. It then shows the next question, or the final screen after the last one. The score stays the number of correct picks so far. |
| `StandaloneQuiz.ScoreAtMostPicks` | script.js:30-33 | The score never exceeds the number of answers given. |
| `StandaloneQuiz.ScoreAllCorrect` | script.js:30-33 | Answering every item correctly scores one point per answer. |
| `StandaloneQuiz.ScoreAllWrong` | script.js:30-33 | Answering every item wrongly scores 0. |
| `StandaloneQuiz.FinalScore` | script.js:34-38 | At the end the final score is the total for a perfect run and 0 for an all-wrong run. |
| `StandaloneQuiz.ProgressLabel` | script.js:45 | Definition: "Question k of n". Characterised by `StandaloneQuiz.ProgressLabelPosition` and `StandaloneQuiz.ProgressLabelTotal`. |
| `StandaloneQuiz.ProgressLabelPosition` | script.js:45 | "Question k of n": the number after "Question " reads back as the 1-based position. |
| `StandaloneQuiz.ProgressLabelTotal` | script.js:45 | The progress label ends with the total number of questions. |
| `Frontend.CreateQuestionCard` | public/script.js:142-178 | A card keeps the question's number and text and its kind. A multiple-choice card lists the options in order. |
| `Frontend.CardMarksCorrectOption` | public/script.js:154-160 | For a well-formed question, exactly the option whose key is the correct answer is marked, and one option is marked. |
| `Frontend.DisplayQuestions` | public/script.js:132-139 | The loop yields one card per question, numbered from 1 in order. |
| `Frontend.ExportDocument` | public/script.js:181-203 | There is no export exactly when there are no questions. Otherwise the document starts with the header. |
| `Frontend.ExportText` | public/script.js:181-203 | The string-building loop produces exactly `ExportDocument`. |
| `Frontend.AppendBlock` | public/script.js:187-202 | Appending one question adds exactly its block. |
| `Frontend.AppendOptionLines` | public/script.js:192-197 | The inner loop appends exactly one option line per option, in order. |
| `Frontend.BlocksStep` | public/script.js:187-202 | Each loop iteration extends the specified text by the next question's block. |
| `Frontend.Header` | public/script.js:184-185 | Definition: the document header. Characterised by `Frontend.HeaderShape` and `Frontend.HeaderNoMarker`. |
| `Frontend.OptionLine` | public/script.js:194-195 | Definition: one option line with its optional marker. Characterised by `Frontend.OptionLineMarkers`. |
| `Frontend.Block` | public/script.js:188-202 | Definition: one question's block. Characterised by `Frontend.BlockStartsWithQuestionLine`, `Frontend.BlockEndsWithSeparator`, `Frontend.BlockMarkers` and `Frontend.AppendBlock`. |
| `Frontend.Blocks` | public/script.js:187-203 | Definition: the blocks of a list of questions, numbered from 1. Characterised by `Frontend.BlocksStep`, `Frontend.BlocksPrefix`, `Frontend.ExportBlockAt` and `Frontend.BlocksMarkers`. |
| `Frontend.HeaderShape` | public/script.js:184-185 | The header is the title line, 50 `=` and a blank line. |
| `Frontend.BlockEndsWithSeparator` | public/script.js:202 | Every block ends with a line of 50 `-` followed by a blank line. |
| `Frontend.BlockStartsWithQuestionLine` | public/script.js:188 | Every block starts with its "Question N:" line. |
| `Frontend.QuestionLineNumber` | public/script.js:188 | The number on a "Question N:" line reads back as N. |
| `Frontend.BlocksPrefix` | public/script.js:187 | The text after the first `k` questions is a prefix of the whole export: the loop only appends. |
| `Frontend.BlockNonEmpty` | public/script.js:187-202 | Every block is non-empty text. |
| `Frontend.ExportBlockAt` | public/script.js:187-203 | Question `k`'s block, numbered `k+1`, sits at a computed offset in the exported document. Question order is kept and nothing lies between blocks. |
| `Frontend.KeyCountOfMissing` | public/script.js:194 | A key that is absent from the options is matched by no option. |
| `Frontend.KeyCountOfDistinct` | public/script.js:194 | A key that is present once, among distinct keys, is matched by exactly one option. |
| `Frontend.HeaderNoMarker` | public/script.js:184-185 | The header contains no ✓. |
| `Frontend.SeparatorNoMarker` | public/script.js:202 | The separator contains no ✓. |
| `Frontend.BlockHeadNoMarker` | public/script.js:188-190 | The number, text and type lines contain no ✓ unless the question text does. |
| `Frontend.OptionLineMarkers` | public/script.js:194-195 | An option line carries ✓ once if its key is the correct answer and never otherwise. |
| `Frontend.OptionLinesMarkers` | public/script.js:193-196 | The option lines carry as many ✓ as there are options whose key equals the correct answer. |
| `Frontend.BodyMarkers` | public/script.js:192-200 | The body of a short-answer question has no ✓. A multiple-choice body has one per option keyed by the correct answer. |
| `Frontend.BlockMarkers` | public/script.js:187-202 | A block of a ✓-free question carries as many ✓ as its options have entries keyed by the correct answer when it is multiple choice, and none when it is short answer. By `Frontend.KeyCountOfDistinct`, that is one for a well-formed question. |
| `Frontend.BlocksMarkers` | public/script.js:187-203 | All blocks together carry one ✓ per multiple-choice question. |
| `Frontend.ExportMarkers` | public/script.js:181-203 | For well-formed questions whose text is free of ✓, the exported document has exactly one ✓ per multiple-choice question. |
| `Frontend.PlaceholderChoiceCount` | server.js:134-153 | Among `n` placeholder questions, `ceil(n/2)` are multiple choice. |
| `Frontend.AsciiNoMarker` | public/script.js:194 | An ASCII text contains no ✓. |
| `Frontend.PlaceholderMarkerFree` | server.js:135-153 | Every placeholder's question text, options, keys and sample answer are ASCII, so none contains ✓. |
| `Frontend.PlaceholderExportMarkers` | public/script.js:181-203 | Exporting `n > 0` placeholder questions gives a document with exactly `ceil(n/2)` ✓ marks, one per multiple-choice placeholder. |
| `Frontend.AcceptsDrop` | public/script.js:76-79 | Definition: a drop is taken when its first file has the PDF MIME type. Characterised by `Frontend.DropAgreesWithUploadFilter` and `Frontend.Page.Drop`. |
| `Frontend.DropAgreesWithUploadFilter` | public/script.js:76-79 | A drop is accepted exactly when the first file is a PDF by the same MIME test the server applies. An empty drop is refused. |
| `Frontend.ReactionTo` | public/script.js:111-121 | Questions are shown iff the reply is ok, successful and carries a question list. Otherwise an error is shown whose message is never empty: the server's error text when it sent one. |
| `Frontend.ReplyOf` | server.js:185-214 | Every endpoint response except the refused upload becomes a JSON reply. |
| `Frontend.ReactionToServer` | public/script.js:28-38 | A successful response from either endpoint shows exactly its questions. A 400/500 with an error text shows that text. |
| `Frontend.Page.constructor` | public/script.js:14 | The page starts with no questions, as declared. It has no selected file and an empty file-name label; the label's initial text lives in markup that is not modelled, so empty is assumed. |
| `Frontend.Page.Drop` | public/script.js:70-80 | An accepted drop selects the files and shows the first file's name. A refused drop changes nothing. The questions never change. |
| `Frontend.Page.ReceiveReply` | public/script.js:111-121 | A successful reply replaces `currentQuestions` and renders one card per question, numbered from 1. An error keeps the old questions and reports the message. |
| `Frontend.Page.Download` | public/script.js:181-203 | The download content is the export of the page's current questions, or nothing when there are none. |

## Left out

- Express routing, CORS, static file serving, the `/api/health` endpoint and the server start-up are plumbing without logic to prove.
- The upload rate limiter (`express-rate-limit`) depends on a clock and a per-client store, so it is not modelled.
- multer's disk storage and file naming with `Date.now()` are I/O.
  - How multer refuses a non-PDF is not modelled: the Express error handler sends a non-JSON page. `Server.Response.UploadRefused` stands for it, and so `Frontend.ReplyOf` maps it to no JSON reply.
  - Deleting the temporary file is modelled only as the `unlinked` flag.
- `pdf-parse`, the OpenAI client and `JSON.parse` are calls into code this project cannot see. They are parameters:
  - an extraction `Result`;
  - a chat-service function from request to `Result`;
  - a parser from text to an optional question list.
  Whether `JSON.parse` returns an array of well-formed question objects is the parser's business.
- A `JSON.parse` that succeeds with a value that is not an array is returned as `questions` with no fallback (server.js:121-123). The parser parameter yields a question list or fails, so the model cannot represent such values.
  - For `null` the front end shows "No questions were generated" (public/script.js:115, 120).
  - For a bare object it sets `currentQuestions` and then shows the message of the `forEach` `TypeError` (public/script.js:116-117, 125).
  - The success case of `Frontend.ReactionToServer` (questions shown exactly) holds only because the model's questions are always a list.
- The upload handler deletes the uploaded file only on the success path. The 400 for blank text and the 500 for a failed extraction return without deleting it. The model follows the code (`unlinked` is true only on success): the unlink at server.js:178-183 is reached only on the success path.
- Question types other than `multiple_choice` and `short_answer` are not represented: the question record has exactly those two kinds.
- The DOM is modelled as values (cards, screens, outcomes):
  - styles, class names and HTML markup;
  - the hidden/visible toggling of sections;
  - the loading spinner and scrolling;
  - the Blob/object-URL download mechanics.
- The progress bar's percentage width in `script.js` is floating-point arithmetic. It is not modelled; the progress label is.
- The front end's file-input change handler, its drag-over styling and its "Please select a PDF file" check before submitting are UI event plumbing around the modelled drop predicate.
- A `fetch` that rejects (a `TypeError`) or a body that `response.json()` cannot parse (a `SyntaxError`) ends in the front end's catch. That catch shows the exception's own message, which is never empty, so the generic "An error occurred..." text is not what appears. Such bodies include the rate limiter's plain-text message (server.js:17) and multer's refusal page. Only replies that parse as JSON are modelled.
- An empty question array is truthy in JavaScript, so the front end shows an empty result list. The model does the same. The "No questions were generated" message is reached only when `success` is false or `questions` is missing.
- Strings are sequences of code points, while JavaScript indexes UTF-16 code units. `extractedTextLength` (server.js:188) is modelled in code units by `JsRuntime.Utf16Length`. Everything else counts code points: `substring(0, 3000)` (server.js:99) and every other index and length differ from the source on text with characters outside the Basic Multilingual Plane. For example, a surrogate pair cut in half at the 3000-unit boundary is not modelled.
- Number-to-string conversion is modelled for integers only. Exponent notation and precision loss above 2^53 in `parseInt` results are left out.
- A query parameter given twice (an array in Express) and a non-string `numQuestions` body field are outside the model: the count is an optional string.
- The standalone player's data fetch (`fetch('questions.json')`) is I/O. Its callback is `StandaloneQuiz.Player.Load`.
