# Document-ingestion gateway: file dispatch and Textract polling, in Dafny

This project models the two pieces of orchestration logic of the upload
gateway in `gpt.controller.ts` and `file-to-text-aws.use-case.ts`:

- **The `file-processing` route** (`GptController.FileProcessing`). It rejects a
  missing or empty file list. Otherwise it walks the uploaded files in
  submission order. For each file it derives the lower-cased extension from the
  original name and sends the file down exactly one extraction path:
  - PDF: the text layer is used when it is not blank. A blank layer goes to
    bucket OCR when the PDF has more than one page, and to single-shot OCR
    otherwise.
  - DOCX text.
  - Audio transcription.
  - Image OCR.
  - Anything else is rejected.

  The route appends one labelled block per file to a text that starts with a
  fixed whitespace prefix. The first file that fails aborts the batch with
  `Error processing file: <name>`. When every file succeeds, the assembled text
  is forwarded to the generative-text service.
- **The multer `filename` callback** (`GptController.StoredName`). It stores an
  upload as `<name without last '.'-piece>-<timestamp>.<last piece>`.
- **The two Textract use cases** (`TextractUseCase.FileToText`,
  `TextractUseCase.FileToTextWithBucket`). Both keep the text of `LINE` blocks,
  each followed by one space. The bucket variant uploads the file to
  `textract_documents/<name>` and starts an asynchronous analysis of that same
  key. It then polls `GetDocumentAnalysis`:
  - On `SUCCEEDED`, it collects the page's lines and follows `NextToken`.
  - On `FAILED`, it throws the backend's status message and drops any text
    gathered so far.
  - On any other status, it sends the identical query again.

Every external collaborator is an input. An SDK or library call is a `Reply`
(`Returned(value)` or `Threw`). The asynchronous Textract backend is a finite
script of replies to the successive status queries. The source polls without
a bound. The model instead ends with a distinct `Pending` outcome
(`AwaitingAnalysis` at the route level) when the script runs out before the
job ends. Each method also returns the calls it made: the collaborator
invocations per file, or the AWS requests in order. The properties can
therefore speak about which paths ran and which queries were sent.

The JavaScript builtins the code leans on are written out in `JsStrings`:
- `split('.')`, `pop()`, `slice(0, -1)` and `join('.')`;
- `trim()`;
- `toLowerCase()`;
- the decimal rendering of `Date.now()`;
- `JSON.stringify` of `{ CONTENIDO: text }`.

JavaScript truthiness is kept where the code depends on it:
- an empty `NextToken` ends the loop;
- an undefined block `Text` contributes `"undefined "`;
- an undefined `StatusMessage` reads `undefined` in the error.

Consequences of the code worth knowing:
- The poll loop sends one status query per reply. Two in-progress replies
  followed by two result pages therefore take four queries, the last carrying
  the first page's `NextToken` (`TwoPagesAfterWaiting`).
- An unsupported extension is thrown inside the per-file `try`. The caller
  sees only `Error processing file: <name>`, without the extension, and no
  collaborator runs for that file (`UnsupportedFails`).
- The bucket OCR path is taken when `totalPages > 1`. A blank PDF with a page
  count of 0 or 1 takes the synchronous path (`ScannedPdfGoesToOcr`).
- Re-running the route on the same batch with the same collaborator answers
  gives the same text. This holds by construction: every specification here is
  a function.

## Model

| member | source | states |
|---|---|---|
| `GptController.FileProcessing` | gpt.controller.ts:86-178 | The route is the loop over the files. A missing or empty file list is rejected with "No files uploaded" before any collaborator runs. Otherwise the outcome and the collaborator calls are those of `Assemble` from the whitespace prefix, over each file's `ProcessFile` run. |
| `GptController.ExtractBlock` | gpt.controller.ts:97-168 | One file's `try` body. The block it appends, or its failure, and the collaborators it calls are exactly `ProcessFile` of the file. |
| `GptController.AppendOcr` | gpt.controller.ts:109-123 | No further collaborator is called. The file gets a block exactly when the OCR use case resolved, fails exactly when it threw, and stays pending exactly when its job is still polling. The block holds `JSON.stringify({CONTENIDO})` of the resolved text, whose escaped body decodes back to that text. |
| `GptController.StoredName` | gpt.controller.ts:69-75 | The stored name keeps the original's last '.'-piece, and so its extension. Dispatch reads the original name (gpt.controller.ts:99), not the stored one. |
| `GptController.FileExtension` | gpt.controller.ts:99 | The extension is dot-free, as long as the piece after the name's final dot, and holds no upper-case ASCII letter. |
| `GptController.ExtensionOfFinalPiece` | gpt.controller.ts:99 | The extension of `<stem>.<e>`, for a dot-free `e`, is `e` lower-cased, whatever the stem holds. |
| `GptController.RouteOf` | gpt.controller.ts:102-168 | An extension is given an extraction path exactly when it is one of pdf, docx, m4a, mp3, png, jpg, jpeg, gif. |
| `GptController.DispatchByExtension` | gpt.controller.ts:99-168 | The extension alone fixes which collaborators a file reaches. Each direction of each equivalence holds: "pdf" calls pdf-parse first, "docx" calls only mammoth, "m4a"/"mp3" only the transcription, "png"/"jpg"/"jpeg"/"gif" only synchronous Textract, and any other extension calls nothing. |
| `GptController.UnsupportedFails` | gpt.controller.ts:164-174 | An unsupported extension fails the file with no collaborator called. |
| `GptController.PdfTextLayerUsedVerbatim` | gpt.controller.ts:102-130 | A PDF whose text layer is not all whitespace is embedded as extracted, untrimmed, in a PDF-layout block. Only pdf-parse runs and no OCR path is taken. |
| `GptController.ScannedPdfGoesToOcr` | gpt.controller.ts:105-123 | A blank text layer leads to a page count. More than one page gives the calls pdf-parse, page count, bucket Textract; otherwise the last call is synchronous Textract. The block content is that use case's result. |
| `GptController.AllAppendedForwardsBlocksInOrder` | gpt.controller.ts:90-177 | When every file yields a block, the forwarded text is the start text followed by each file's block in submission order. The collaborator calls are each file's calls in that order. |
| `GptController.FirstFailureStopsBatch` | gpt.controller.ts:169-174 | At the first file that yields no block, the batch is rejected with "Error processing file: <that name>", or waits on that file's OCR job. Only the collaborators of the files up to and including it have run. |
| `GptController.ForwardedOnlyIfAllAppended` | gpt.controller.ts:169-177 | Text is forwarded only when every file yielded its block. |
| `GptController.StoredNameKeepsExtension` | gpt.controller.ts:69-75 | The stored name keeps the original's last '.'-piece, and its stem is the original stem followed by "-<timestamp>". A dot-less name becomes "-<timestamp>.<name>". |
| `JsStrings.Split` | gpt.controller.ts:99 | `split('.')` yields at least one piece and no piece holds a dot. There are two or more pieces exactly when the name holds a dot. |
| `JsStrings.JoinSplit` | gpt.controller.ts:70-73 | Joining the pieces of `split('.')` with '.' gives the name back. |
| `JsStrings.SplitAppendSegment` | gpt.controller.ts:75 | Appending "." and a dot-free piece to a string adds exactly that piece to its split. |
| `JsStrings.SplitAtFinalDot` | gpt.controller.ts:70-74 | `pop()` gives the dot-free text after the final '.'. The stem is the text before it, so the name is the stem, '.', and the last piece. A dot-less name is all last piece with an empty stem. |
| `JsStrings.TrimEmptyIffBlank` | gpt.controller.ts:105 | `trim() === ''` holds exactly when every character is ECMAScript whitespace or a line terminator. |
| `JsStrings.Decimal` | gpt.controller.ts:75 | The timestamp renders as a non-empty run of decimal digits, so it adds no '.' to the stored name. |
| `JsStrings.DecimalRoundTrip` | gpt.controller.ts:75 | Reading the rendered timestamp back gives the timestamp. |
| `JsStrings.JsonRoundTrip` | gpt.controller.ts:113 | The string body `JSON.stringify` writes for the OCR text decodes back to that text, so the block loses nothing. |
| `JsStrings.UnescapeEscapeChar` | gpt.controller.ts:159 | Each character's JSON escape decodes to that character, whatever follows it. |
| `TextractUseCase.AppendLines` | file-to-text-aws.use-case.ts:30-37 | The block loop appends the text of the response's blocks to the text so far. A missing `Blocks` adds nothing. |
| `TextractUseCase.LineTextIsLinesWithSpaces` | file-to-text-aws.use-case.ts:31-36 | The collected text is the `Text` of each block whose type is exactly "LINE", in block order, each followed by one space. Other block types add nothing. |
| `TextractUseCase.LineTextAppend` | file-to-text-aws.use-case.ts:102-106 | The text of two block runs, one after the other, is the text of the first followed by that of the second. |
| `TextractUseCase.FileToText` | file-to-text-aws.use-case.ts:12-42 | Outcome and requests are those of the specification `TextractUseCase.AnalyzeRun`. One AnalyzeDocument request is sent, with the features TABLES, FORMS, LAYOUT, SIGNATURES. A thrown call is rethrown, and otherwise the result is `{CONTENIDO: <LINE text>}`. |
| `TextractUseCase.FileToTextWithBucket` | file-to-text-aws.use-case.ts:44-129 | Outcome and requests are those of the specification `TextractUseCase.BucketRun`. The first request is the PutObject of `textract_documents/<name>` in the bucket. The second, when reached, is StartDocumentAnalysis of that same key with the fixed features. Then come the status queries of the poll loop, and the outcome is the loop's. |
| `TextractUseCase.PollAnalysis` | file-to-text-aws.use-case.ts:91-121 | The `while (!analysisComplete)` loop ends and sends its queries as `Poll` from the query with no token and empty text. |
| `TextractUseCase.StepContinues` | file-to-text-aws.use-case.ts:99-120 | A reply that does not end the loop leads to the next query by `NextQuery`, and only a SUCCEEDED page adds its LINE text. |
| `TextractUseCase.PollRunsToFirstEnd` | file-to-text-aws.use-case.ts:95-121 | When the k-th reply is the first that ends the loop, exactly k+1 queries are sent. A thrown call propagates its error. FAILED gives the message with StatusMessage and none of the text gathered so far. SUCCEEDED gives the LINE text of every SUCCEEDED page through k, in order. |
| `TextractUseCase.PollExhausts` | file-to-text-aws.use-case.ts:95-120 | When no reply ends the loop, one query is sent per reply and the run is still pending when the replies run out. |
| `TextractUseCase.PollThreadsToken` | file-to-text-aws.use-case.ts:92-120 | The first query is the initial one, and every query keeps the JobId. Each next query is the previous one with the NextToken of a SUCCEEDED page that carries a non-empty one, and otherwise unchanged. There are never more queries than replies. |
| `TextractUseCase.PollInProgress` | file-to-text-aws.use-case.ts:117-120 | A status other than SUCCEEDED or FAILED adds no text and is followed by the identical query. |
| `TextractUseCase.TwoPagesAfterWaiting` | file-to-text-aws.use-case.ts:95-114 | Two in-progress replies, then a page with a token, then a last page: four queries, the last carrying the token. The result is both pages' LINE text in order. |
| `TextractUseCase.FailedDiscardsText` | file-to-text-aws.use-case.ts:115-116 | A FAILED reply with message "bad scan" after a page of text ends with "Análisis de documento fallido: bad scan" and no text. |

## Left out

- gpt.service.ts is not part of this model. The collaborators the route
  reaches through it are the reply fields of `GptController.Upload`:
  `pdfText` (pdf-parse), `pageCount` (pdf-lib), `docxText` (mammoth),
  `transcript` (the transcription use case), `analyze` (synchronous Textract)
  and `bucket` (the S3 upload and asynchronous Textract job). The route never
  calls the service's image readers, since images go to Textract. The final
  OpenAI `fileProcessing` call is not modelled: the route's result is the
  prompt it would hand over, `Forwarded(prompt)`.
- Strings are sequences of Unicode scalar values, where JavaScript strings
  are UTF-16. A lone surrogate cannot be represented, so the `\uDXXX` escape
  `JSON.stringify` writes for one has no counterpart in `JsonEscape`.
- The other routes (orthography check, streaming, minimal data) are not
  modelled. They only forward to OpenAI or stream its chunks.
- Disk and upload plumbing is not modelled: the multer destination callback
  and `mkdirSync`, `readFileSync`, the 5 MB and 20-file limits, and all
  `console` logging. They are I/O with no effect on the assembled text.
- `PDFDocument.load`/`getPageCount` is the `pageCount` reply, and `Date.now()`
  is the `now` parameter of `StoredName`.
- The S3 and Textract clients are out of scope. Their failures are opaque
  `CallFailed` errors naming the request that threw, since the code rethrows
  them unchanged.
- The five-second `setTimeout` between polls is not modelled. An in-progress
  reply simply consumes one scripted reply.
- Unbounded polling is not modelled. When the script runs out, the outcome is
  `Pending`, where the source would keep polling.
- `TextractUseCase.PollAnalysis`: a `PARTIAL_SUCCESS` status counts as in
  progress, exactly as in the code, which polls it again.
- A JobId that StartDocumentAnalysis leaves undefined is not modelled: the job
  id is a string.
- A JobStatus the SDK leaves undefined is represented as the empty string.
  Both behave like any other non-matching status.
- `GptController.FileExtension`: `toLowerCase()` is modelled on ASCII letters
  only. No non-ASCII character lower-cases into a supported extension, so
  dispatch is unchanged.
- The unused `prompt` option of the use cases and the transcription options
  are not modelled. The transcript is an opaque reply string, which also
  covers `transcription + ''`.
- `GptController.ProcessFile` records which use case ran for a file, but not
  the AWS requests inside it. Those are stated per use case in
  `TextractUseCase`.
- Concurrency is not modelled: the files of a batch are processed strictly
  one after another.
