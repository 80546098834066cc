/**
  The `file-processing` route of gpt.controller.ts and the multer `filename`
  callback that names stored uploads.

  `FileProcessing` takes the uploaded files in submission order, derives each
  file's lower-cased extension, sends the file down exactly one extraction
  path (PDF text layer or OCR, DOCX, audio transcription, image OCR), and
  appends one labelled block per file to a single text that it then forwards
  to the generative-text service. The first file that fails aborts the whole
  batch with an error naming that file.

  Every collaborator (pdf-parse, pdf-lib's page count, mammoth, the
  transcription use case, the two Textract use cases) is replaced by its
  answer for the file, carried in the `Upload` record.
 */
module GptController {
  import opened Wrappers
  import opened JsStrings
  import T = TextractUseCase

  // ---------------------------------------------------------------------------
  // The diskStorage `filename` callback
  // ---------------------------------------------------------------------------

  /**
    The name an upload is stored under: the original name without its last
    '.'-piece, a dash, the millisecond timestamp `now`, a dot and that last
    piece. The stored name keeps the original's last '.'-piece, and so its
    extension; dispatch itself reads the original name, not this one.
   */
  function StoredName(originalName: string, now: nat): (stored: string)
    ensures LastSegment(stored) == LastSegment(originalName)
    ensures FileExtension(stored) == FileExtension(originalName)
  {
    SplitAtFinalDot(originalName);
    SplitAppendSegment(Stem(originalName) + "-" + Decimal(now), LastSegment(originalName));
    Stem(originalName) + "-" + Decimal(now) + "." + LastSegment(originalName)
  }

  /**
    Renaming keeps the final extension and inserts "-<timestamp>" right before
    the final dot; a name without a dot becomes "-<timestamp>.<name>".
   */
  lemma StoredNameKeepsExtension(originalName: string, now: nat)
    ensures LastSegment(StoredName(originalName, now)) == LastSegment(originalName)
    ensures Stem(StoredName(originalName, now)) == Stem(originalName) + "-" + Decimal(now)
    ensures '.' !in originalName ==> StoredName(originalName, now) == "-" + Decimal(now) + "." + originalName
  {
    SplitAtFinalDot(originalName);
    var stem := Stem(originalName) + "-" + Decimal(now);
    SplitAppendSegment(stem, LastSegment(originalName));
    JoinSplit(stem);
    var parts := Split(stem) + [LastSegment(originalName)];
    assert parts[..|parts| - 1] == Split(stem);
  }

  // ---------------------------------------------------------------------------
  // Dispatch
  // ---------------------------------------------------------------------------

  /**
    `file.originalname.split('.').pop().toLowerCase()`: a dot-free piece of
    the name's length after its final dot, with no upper-case ASCII letter.
   */
  function FileExtension(originalName: string): (extension: string)
    ensures '.' !in extension
    ensures |extension| == |LastSegment(originalName)|
    ensures forall i :: 0 <= i < |extension| ==> !('A' <= extension[i] <= 'Z')
  {
    SplitAtFinalDot(originalName);
    Lower(LastSegment(originalName))
  }

  /**
    The extension of a name is its final dot-free piece, lower-cased: "Photo.JPG"
    and "photo.jpg" have the same extension.
   */
  lemma ExtensionOfFinalPiece(stem: string, e: string)
    requires '.' !in e
    ensures FileExtension(stem + "." + e) == Lower(e)
  {
    SplitAppendSegment(stem, e);
  }

  /** The extraction path chosen from the extension. */
  datatype Route = PdfRoute | DocxRoute | AudioRoute | ImageRoute | Unsupported

  /** The extensions the route accepts are exactly those given an extraction path. */
  function RouteOf(extension: string): (route: Route)
    ensures route != Unsupported <==> extension in SupportedExtensions
  {
    if extension == "pdf" then PdfRoute
    else if extension == "docx" then DocxRoute
    else if extension == "m4a" || extension == "mp3" then AudioRoute
    else if extension == "png" || extension == "jpg" || extension == "jpeg" || extension == "gif" then ImageRoute
    else Unsupported
  }

  const SupportedExtensions: set<string> := {"pdf", "docx", "m4a", "mp3", "png", "jpg", "jpeg", "gif"}

  /**
    One uploaded file, with what each collaborator answers for it: pdf-parse's
    text, pdf-lib's page count, mammoth's text, the transcription, the
    synchronous Textract reply and the scripted asynchronous Textract backend.
   */
  datatype Upload = Upload(
    originalName: string,
    pdfText: Reply<string>,
    pageCount: Reply<nat>,
    docxText: Reply<string>,
    transcript: Reply<string>,
    analyze: Reply<T.AnalyzeResponse>,
    bucket: T.BucketBackend)

  /** The collaborators the route can call for a file. */
  datatype Collaborator = PdfParse | PageCount | Mammoth | Transcription | TextractSync | TextractBucket

  datatype Invocation = Invocation(collaborator: Collaborator, file: string)

  // ---------------------------------------------------------------------------
  // Assembled text
  // ---------------------------------------------------------------------------

  /** The whitespace `extractedText` starts with. */
  const Prefix := "\n    \n    "

  /** PDF blocks are indented by 14 spaces in the source, the others by 8 and end with a blank line. */
  datatype Layout = PdfLayout | PlainLayout

  function Indent(layout: Layout): string
  {
    match layout
    case PdfLayout => "              "
    case PlainLayout => "        "
  }

  /** The labelled block of one file: its name, then its content between "CONTENIDO: [" and "]". */
  function LabelledBlock(layout: Layout, name: string, content: string): string
  {
    var tail := match layout
      case PdfLayout => Indent(layout)
      case PlainLayout => Indent(layout) + "\n" + Indent(layout);
    " NOMBRE DOCUMENTO: " + name + "\n" + Indent(layout) + "CONTENIDO: [" + content + "]\n" + tail
  }

  const NoFilesMessage := "No files uploaded"

  function FileErrorMessage(name: string): string
  {
    "Error processing file: " + name
  }

  // ---------------------------------------------------------------------------
  // One file
  // ---------------------------------------------------------------------------

  /** What processing one file gives: its block, a failure, or an OCR job still being polled. */
  datatype FileResult = Appended(block: string) | FileFailed | StillPolling

  datatype FileRun = FileRun(result: FileResult, invoked: seq<Invocation>)

  /** A file whose content is what an OCR use case resolved to, serialised by JSON.stringify. */
  function FromOcr(layout: Layout, name: string, outcome: T.Outcome, invoked: seq<Invocation>): FileRun
  {
    match outcome
    case Ok(result) => FileRun(Appended(LabelledBlock(layout, name, ContentJson(result.contenido))), invoked)
    case Err(_) => FileRun(FileFailed, invoked)
    case Pending => FileRun(StillPolling, invoked)
  }

  /** The body of the `try` for one file: which collaborators run, and what is appended. */
  function ProcessFile(file: Upload): FileRun
  {
    var name := file.originalName;
    match RouteOf(FileExtension(name))
    case Unsupported => FileRun(FileFailed, [])
    case DocxRoute =>
      var invoked := [Invocation(Mammoth, name)];
      (match file.docxText
       case Threw => FileRun(FileFailed, invoked)
       case Returned(text) => FileRun(Appended(LabelledBlock(PlainLayout, name, text)), invoked))
    case AudioRoute =>
      var invoked := [Invocation(Transcription, name)];
      (match file.transcript
       case Threw => FileRun(FileFailed, invoked)
       case Returned(text) => FileRun(Appended(LabelledBlock(PlainLayout, name, text)), invoked))
    case ImageRoute =>
      FromOcr(PlainLayout, name, T.AnalyzeRun(file.analyze).outcome, [Invocation(TextractSync, name)])
    case PdfRoute =>
      var parsed := [Invocation(PdfParse, name)];
      match file.pdfText
      case Threw => FileRun(FileFailed, parsed)
      case Returned(text) =>
        if Trim(text) != "" then FileRun(Appended(LabelledBlock(PdfLayout, name, text)), parsed)
        else
          var counted := parsed + [Invocation(PageCount, name)];
          match file.pageCount
          case Threw => FileRun(FileFailed, counted)
          case Returned(pages) =>
            if pages > 1 then
              FromOcr(PdfLayout, name, T.BucketRun(name, file.bucket).outcome, counted + [Invocation(TextractBucket, name)])
            else
              FromOcr(PdfLayout, name, T.AnalyzeRun(file.analyze).outcome, counted + [Invocation(TextractSync, name)])
  }

  /**
    Turns an OCR use case's resolution into the file's result: a resolved text
    becomes a block whose JSON body decodes back to that text, a rejection
    fails the file, and a job still polling leaves the file pending. It calls
    no further collaborator.
   */
  method AppendOcr(layout: Layout, name: string, outcome: T.Outcome, invokedSoFar: seq<Invocation>)
    returns (result: FileResult, invoked: seq<Invocation>)
    ensures invoked == invokedSoFar
    ensures result.Appended? <==> outcome.Ok?
    ensures result == FileFailed <==> outcome.Err?
    ensures result == StillPolling <==> outcome.Pending?
    ensures outcome.Ok? ==>
      result.block == LabelledBlock(layout, name, ContentJson(outcome.result.contenido)) &&
      JsonUnescape(JsonEscape(outcome.result.contenido)) == Some(outcome.result.contenido)
  {
    invoked := invokedSoFar;
    match outcome
    case Ok(ocr) =>
      result := Appended(LabelledBlock(layout, name, ContentJson(ocr.contenido)));
      JsonRoundTrip(ocr.contenido);
    case Err(_) => result := FileFailed;
    case Pending => result := StillPolling;
  }

  /** Runs one file down the path its extension selects. */
  method ExtractBlock(file: Upload) returns (result: FileResult, invoked: seq<Invocation>)
    ensures FileRun(result, invoked) == ProcessFile(file)
  {
    var name := file.originalName;
    var fileExtension := FileExtension(name);
    match RouteOf(fileExtension)
    case PdfRoute =>
      invoked := [Invocation(PdfParse, name)];
      if file.pdfText.Threw? {
        result := FileFailed;
        return;
      }
      var pdfText := file.pdfText.value;
      if Trim(pdfText) == "" {
        invoked := invoked + [Invocation(PageCount, name)];
        if file.pageCount.Threw? {
          result := FileFailed;
          return;
        }
        var totalPages := file.pageCount.value;
        if totalPages > 1 {
          var awsResult, _ := T.FileToTextWithBucket(name, file.bucket);
          result, invoked := AppendOcr(PdfLayout, name, awsResult, invoked + [Invocation(TextractBucket, name)]);
        } else {
          var awsResult, _ := T.FileToText(file.analyze);
          result, invoked := AppendOcr(PdfLayout, name, awsResult, invoked + [Invocation(TextractSync, name)]);
        }
      } else {
        result := Appended(LabelledBlock(PdfLayout, name, pdfText));
      }
    case DocxRoute =>
      invoked := [Invocation(Mammoth, name)];
      result := if file.docxText.Threw? then FileFailed else Appended(LabelledBlock(PlainLayout, name, file.docxText.value));
    case AudioRoute =>
      invoked := [Invocation(Transcription, name)];
      result := if file.transcript.Threw? then FileFailed else Appended(LabelledBlock(PlainLayout, name, file.transcript.value));
    case ImageRoute =>
      var awsResult, _ := T.FileToText(file.analyze);
      result, invoked := AppendOcr(PlainLayout, name, awsResult, [Invocation(TextractSync, name)]);
    case Unsupported =>
      // Unsupported file type: thrown inside the try, so only the file name reaches the caller.
      result, invoked := FileFailed, [];
  }

  /**
    The collaborators a file reaches are fixed by its extension: pdf-parse
    first for "pdf", mammoth alone for "docx", the transcription alone for
    "m4a" and "mp3", synchronous Textract alone for the image extensions, and
    none at all for any other extension.
   */
  lemma DispatchByExtension(file: Upload)
    ensures var extension := FileExtension(file.originalName);
      var invoked := ProcessFile(file).invoked;
      var name := file.originalName;
      (extension == "pdf" <==> invoked != [] && invoked[0] == Invocation(PdfParse, name)) &&
      (extension == "docx" <==> invoked == [Invocation(Mammoth, name)]) &&
      (extension in {"m4a", "mp3"} <==> invoked == [Invocation(Transcription, name)]) &&
      (extension in {"png", "jpg", "jpeg", "gif"} <==> invoked == [Invocation(TextractSync, name)]) &&
      (extension !in SupportedExtensions <==> invoked == [])
  {
  }

  /** An unsupported extension fails the file before any collaborator runs. */
  lemma UnsupportedFails(file: Upload)
    requires FileExtension(file.originalName) !in SupportedExtensions
    ensures ProcessFile(file) == FileRun(FileFailed, [])
  {
  }

  /**
    A PDF whose text layer holds anything besides whitespace is embedded
    verbatim (untrimmed), and neither OCR path runs.
   */
  lemma PdfTextLayerUsedVerbatim(file: Upload)
    requires FileExtension(file.originalName) == "pdf"
    requires file.pdfText.Returned? && !Blank(file.pdfText.value)
    ensures ProcessFile(file) ==
      FileRun(Appended(LabelledBlock(PdfLayout, file.originalName, file.pdfText.value)), [Invocation(PdfParse, file.originalName)])
  {
    TrimEmptyIffBlank(file.pdfText.value);
  }

  /**
    A PDF whose text layer is blank has its pages counted; with more than one
    page it goes to the bucket OCR path, otherwise to the synchronous one.
   */
  lemma ScannedPdfGoesToOcr(file: Upload)
    requires FileExtension(file.originalName) == "pdf"
    requires file.pdfText.Returned? && Blank(file.pdfText.value)
    requires file.pageCount.Returned?
    ensures var name := file.originalName;
      var ocr := if file.pageCount.value > 1 then TextractBucket else TextractSync;
      ProcessFile(file).invoked == [Invocation(PdfParse, name), Invocation(PageCount, name), Invocation(ocr, name)]
    ensures file.pageCount.value > 1 ==>
      ProcessFile(file) == FromOcr(PdfLayout, file.originalName, T.BucketRun(file.originalName, file.bucket).outcome,
                                   ProcessFile(file).invoked)
    ensures file.pageCount.value <= 1 ==>
      ProcessFile(file) == FromOcr(PdfLayout, file.originalName, T.AnalyzeRun(file.analyze).outcome,
                                   ProcessFile(file).invoked)
  {
    TrimEmptyIffBlank(file.pdfText.value);
  }
  // ---------------------------------------------------------------------------
  // The batch
  // ---------------------------------------------------------------------------

  /**
    How the route ends: the assembled text forwarded to the generative-text
    service, a rejection with its message, or an OCR job of the named file
    still being polled.
   */
  datatype BatchOutcome = Forwarded(prompt: string) | Rejected(message: string) | AwaitingAnalysis(file: string)

  datatype BatchRun = BatchRun(outcome: BatchOutcome, invoked: seq<Invocation>)

  /**
    The `for` loop from text `text` on, over files with the given `names`
    whose processing gives `runs`: append each block, and stop at the first
    file that yields none.
   */
  function Assemble(text: string, names: seq<string>, runs: seq<FileRun>): BatchRun
    requires |names| == |runs|
    decreases |runs|
  {
    if runs == [] then BatchRun(Forwarded(text), [])
    else
      match runs[0].result
      case Appended(block) =>
        var rest := Assemble(text + block, names[1..], runs[1..]);
        BatchRun(rest.outcome, runs[0].invoked + rest.invoked)
      case FileFailed => BatchRun(Rejected(FileErrorMessage(names[0])), runs[0].invoked)
      case StillPolling => BatchRun(AwaitingAnalysis(names[0]), runs[0].invoked)
  }

  function NamesOf(files: seq<Upload>): (names: seq<string>)
    ensures |names| == |files|
  {
    seq(|files|, i requires 0 <= i < |files| => files[i].originalName)
  }

  function RunsOf(files: seq<Upload>): (runs: seq<FileRun>)
    ensures |runs| == |files|
  {
    seq(|files|, i requires 0 <= i < |files| => ProcessFile(files[i]))
  }

  /** The whole route, for a `files` field that may be missing. */
  function FileProcessingRun(files: Option<seq<Upload>>): BatchRun
  {
    if files.None? || files.value == [] then BatchRun(Rejected(NoFilesMessage), [])
    else Assemble(Prefix, NamesOf(files.value), RunsOf(files.value))
  }

  /** Concatenation of a sequence of sequences, in order. */
  function Flatten<X>(parts: seq<seq<X>>): seq<X>
  {
    if parts == [] then [] else Flatten(parts[..|parts| - 1]) + parts[|parts| - 1]
  }

  lemma {:induction false} FlattenCons<X>(first: seq<X>, parts: seq<seq<X>>)
    ensures Flatten([first] + parts) == first + Flatten(parts)
    decreases |parts|
  {
    if parts != [] {
      var front := parts[..|parts| - 1];
      assert ([first] + parts)[..|parts|] == [first] + front;
      FlattenCons(first, front);
    } else {
      assert [first] + parts == [first];
      assert Flatten([first]) == Flatten([]) + first;
    }
  }

  predicate AllAppended(runs: seq<FileRun>)
  {
    forall i :: 0 <= i < |runs| ==> runs[i].result.Appended?
  }

  /** The blocks of `runs`, in order. */
  function BlocksOf(runs: seq<FileRun>): seq<string>
    requires AllAppended(runs)
  {
    if runs == [] then [] else [runs[0].result.block] + BlocksOf(runs[1..])
  }

  /** The collaborator calls of each of `runs`, in order. */
  function InvocationsOf(runs: seq<FileRun>): seq<seq<Invocation>>
  {
    if runs == [] then [] else [runs[0].invoked] + InvocationsOf(runs[1..])
  }

  /**
    When every file yields its block, the forwarded text is the starting text
    followed by the block of each file in submission order, and the
    collaborators run file after file in that order.
   */
  lemma {:induction false} AllAppendedForwardsBlocksInOrder(text: string, names: seq<string>, runs: seq<FileRun>)
    requires |names| == |runs| && AllAppended(runs)
    ensures Assemble(text, names, runs).outcome == Forwarded(text + Flatten(BlocksOf(runs)))
    ensures Assemble(text, names, runs).invoked == Flatten(InvocationsOf(runs))
    decreases |runs|
  {
    if runs != [] {
      var block := runs[0].result.block;
      AllAppendedForwardsBlocksInOrder(text + block, names[1..], runs[1..]);
      FlattenCons(block, BlocksOf(runs[1..]));
      FlattenCons(runs[0].invoked, InvocationsOf(runs[1..]));
    }
  }

  /**
    The batch stops at the first file that does not yield a block: the route
    rejects with an error naming that file (or waits on its OCR job), and no
    collaborator runs for any later file.
   */
  lemma {:induction false} FirstFailureStopsBatch(text: string, names: seq<string>, runs: seq<FileRun>, k: nat)
    requires |names| == |runs| && k < |runs|
    requires AllAppended(runs[..k]) && !runs[k].result.Appended?
    ensures runs[k].result.FileFailed? ==> Assemble(text, names, runs).outcome == Rejected(FileErrorMessage(names[k]))
    ensures runs[k].result.StillPolling? ==> Assemble(text, names, runs).outcome == AwaitingAnalysis(names[k])
    ensures Assemble(text, names, runs).invoked == Flatten(InvocationsOf(runs[..k + 1]))
    decreases k
  {
    if k == 0 {
      assert runs[..1] == [runs[0]];
      assert Flatten([runs[0].invoked]) == Flatten([]) + runs[0].invoked;
    } else {
      assert runs[..k][0] == runs[0];
      assert runs[1..][..k - 1] == runs[..k][1..];
      FirstFailureStopsBatch(text + runs[0].result.block, names[1..], runs[1..], k - 1);
      assert runs[..k + 1] == [runs[0]] + runs[1..][..k];
      FlattenCons(runs[0].invoked, InvocationsOf(runs[1..][..k]));
    }
  }

  /** Nothing is forwarded unless every file yielded its block. */
  lemma {:induction false} ForwardedOnlyIfAllAppended(text: string, names: seq<string>, runs: seq<FileRun>)
    requires |names| == |runs| && Assemble(text, names, runs).outcome.Forwarded?
    ensures AllAppended(runs)
    decreases |runs|
  {
    if runs != [] {
      ForwardedOnlyIfAllAppended(text + runs[0].result.block, names[1..], runs[1..]);
      forall i | 0 <= i < |runs| ensures runs[i].result.Appended? {
        if i > 0 {
          assert runs[i] == runs[1..][i - 1];
        }
      }
    }
  }

  method FileProcessing(files: Option<seq<Upload>>) returns (outcome: BatchOutcome, invoked: seq<Invocation>)
    ensures BatchRun(outcome, invoked) == FileProcessingRun(files)
    ensures files.None? || files.value == [] ==> outcome == Rejected(NoFilesMessage) && invoked == []
  {
    var extractedText := Prefix;
    if files.None? || |files.value| == 0 {
      outcome, invoked := Rejected(NoFilesMessage), [];
      return;
    }
    var batch := files.value;
    ghost var names, runs := NamesOf(batch), RunsOf(batch);
    invoked := [];
    assert names[0..] == names && runs[0..] == runs;
    for i := 0 to |batch|
      invariant Assemble(Prefix, names, runs) ==
        BatchRun(Assemble(extractedText, names[i..], runs[i..]).outcome,
                 invoked + Assemble(extractedText, names[i..], runs[i..]).invoked)
    {
      assert runs[i..][0] == ProcessFile(batch[i]) && runs[i..][1..] == runs[i + 1..];
      assert names[i..][0] == batch[i].originalName && names[i..][1..] == names[i + 1..];
      var result, fileInvoked := ExtractBlock(batch[i]);
      invoked := invoked + fileInvoked;
      match result
      case Appended(block) =>
        extractedText := extractedText + block;
      case FileFailed =>
        outcome := Rejected(FileErrorMessage(batch[i].originalName));
        return;
      case StillPolling =>
        outcome := AwaitingAnalysis(batch[i].originalName);
        return;
    }
    outcome := Forwarded(extractedText);
  }
}
