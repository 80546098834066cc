/**
  The two Textract use cases of file-to-text-aws.use-case.ts.

  `FileToText` sends the document bytes to AnalyzeDocument and keeps the text
  of the LINE blocks of the one response. `FileToTextWithBucket` uploads the
  document to S3, starts an asynchronous document analysis on it and polls
  GetDocumentAnalysis until the job ends, following the continuation token
  from page to page.

  The AWS SDK is replaced by its answers: every call either returns a value or
  throws (`Reply`), and the asynchronous backend is a finite script of replies
  to the successive status queries. The source polls without a bound; when the
  script runs out before the job ends, the outcome is `Pending`.
 */
module TextractUseCase {
  import opened Wrappers

  /** One recognised block; `text` is None where the SDK leaves Text undefined. */
  datatype Block = Block(blockType: string, text: Option<string>)

  /** The analysis features requested by both use cases. */
  datatype Feature = Tables | Forms | Layout | Signatures

  const Features: seq<Feature> := [Tables, Forms, Layout, Signatures]

  const BucketName := "analitica.excelcredit"
  const FolderName := "textract_documents"

  /** Parameters of one GetDocumentAnalysis query. */
  datatype GetParams = GetParams(jobId: string, nextToken: Option<string>)

  /** Every request the use cases send to AWS, in the order sent. */
  datatype Call =
    | AnalyzeDocument(features: seq<Feature>)
    | PutObject(bucket: string, key: string)
    | StartDocumentAnalysis(bucket: string, name: string, features: seq<Feature>)
    | GetDocumentAnalysis(params: GetParams)

  /** Answer of AnalyzeDocument. */
  datatype AnalyzeResponse = AnalyzeResponse(blocks: Option<seq<Block>>)

  /**
    Answer of GetDocumentAnalysis. A JobStatus the SDK leaves undefined is the
    empty string here: like every status other than SUCCEEDED and FAILED, it
    means the job is still running.
   */
  datatype GetResponse = GetResponse(
    jobStatus: string,
    blocks: Option<seq<Block>>,
    nextToken: Option<string>,
    statusMessage: Option<string>)

  /** The scripted asynchronous backend of one document. */
  datatype BucketBackend = BucketBackend(
    upload: Reply<()>,
    start: Reply<string>,
    polls: seq<Reply<GetResponse>>)

  /** What the use cases throw: the error of an SDK call, or the failed-job error. */
  datatype Failure = CallFailed(call: Call) | AnalysisFailed(message: string)

  /** The value `{ CONTENIDO: text }` both use cases resolve to. */
  datatype OcrResult = OcrResult(contenido: string)

  datatype Outcome = Ok(result: OcrResult) | Err(failure: Failure) | Pending

  // ---------------------------------------------------------------------------
  // LINE-block text
  // ---------------------------------------------------------------------------

  /** How JavaScript renders an optional string in `+`: undefined reads "undefined". */
  function Shown(t: Option<string>): string
  {
    match t
    case Some(s) => s
    case None => "undefined"
  }

  predicate IsLine(b: Block)
  {
    b.blockType == "LINE"
  }

  /** What one block adds to the extracted text. */
  function Piece(b: Block): string
  {
    if IsLine(b) then Shown(b.text) + " " else ""
  }

  /** The text a run over `blocks` accumulates, built from the end as the loop builds it. */
  function LineText(blocks: seq<Block>): string
  {
    if blocks == [] then ""
    else LineText(blocks[..|blocks| - 1]) + Piece(blocks[|blocks| - 1])
  }

  /** The text of a response whose Blocks may be missing. */
  function BlocksText(blocks: Option<seq<Block>>): string
  {
    match blocks
    case None => ""
    case Some(bs) => LineText(bs)
  }

  /** The texts of the LINE blocks, in block order. */
  function LineTexts(blocks: seq<Block>): seq<string>
  {
    if blocks == [] then []
    else (if IsLine(blocks[0]) then [Shown(blocks[0].text)] else []) + LineTexts(blocks[1..])
  }

  /** Each text followed by one space, all run together. */
  function SpaceTerminated(texts: seq<string>): string
  {
    if texts == [] then "" else texts[0] + " " + SpaceTerminated(texts[1..])
  }

  lemma {:induction false} LineTextAppend(a: seq<Block>, b: seq<Block>)
    ensures LineText(a + b) == LineText(a) + LineText(b)
    decreases |b|
  {
    if b != [] {
      var b' := b[..|b| - 1];
      assert (a + b)[..|a + b| - 1] == a + b';
      assert (a + b)[|a + b| - 1] == b[|b| - 1];
      LineTextAppend(a, b');
    } else {
      assert a + b == a;
    }
  }

  /**
    The accumulated text is exactly the LINE texts, in block order, each
    followed by a space; other block types contribute nothing.
   */
  lemma {:induction false} LineTextIsLinesWithSpaces(blocks: seq<Block>)
    ensures LineText(blocks) == SpaceTerminated(LineTexts(blocks))
    decreases |blocks|
  {
    if blocks != [] {
      LineTextIsLinesWithSpaces(blocks[1..]);
      LineTextAppend([blocks[0]], blocks[1..]);
      assert [blocks[0]] + blocks[1..] == blocks;
      assert LineText([blocks[0]]) == Piece(blocks[0]);
      var head := if IsLine(blocks[0]) then [Shown(blocks[0].text)] else [];
      assert LineTexts(blocks) == head + LineTexts(blocks[1..]);
      if IsLine(blocks[0]) {
        assert (head + LineTexts(blocks[1..]))[1..] == LineTexts(blocks[1..]);
      } else {
        assert head + LineTexts(blocks[1..]) == LineTexts(blocks[1..]);
      }
    }
  }

  /** Appends the text of one response's blocks to `text`: the inner `for` loop of both use cases. */
  method AppendLines(text: string, blocks: Option<seq<Block>>) returns (r: string)
    ensures r == text + BlocksText(blocks)
  {
    r := text;
    if blocks.Some? {
      var bs := blocks.value;
      for i := 0 to |bs|
        invariant r == text + LineText(bs[..i])
      {
        assert bs[..i + 1][..i] == bs[..i];
        if bs[i].blockType == "LINE" {
          r := r + Shown(bs[i].text) + " ";
        }
      }
      assert bs[..|bs|] == bs;
    }
  }

  // ---------------------------------------------------------------------------
  // Synchronous use case: filetoTextAWSUsecase
  // ---------------------------------------------------------------------------

  /** How a use case ends, with the requests it sent to AWS in order. */
  datatype Run = Run(outcome: Outcome, calls: seq<Call>)

  /** What `filetoTextAWSUsecase` resolves or throws. */
  function AnalyzeRun(reply: Reply<AnalyzeResponse>): Run
  {
    var call := AnalyzeDocument(Features);
    match reply
    case Threw => Run(Err(CallFailed(call)), [call])
    case Returned(response) => Run(Ok(OcrResult(BlocksText(response.blocks))), [call])
  }

  method FileToText(reply: Reply<AnalyzeResponse>) returns (r: Outcome, calls: seq<Call>)
    ensures Run(r, calls) == AnalyzeRun(reply)
    ensures calls == [AnalyzeDocument(Features)]
    ensures reply.Threw? ==> r == Err(CallFailed(AnalyzeDocument(Features)))
    ensures reply.Returned? ==> r == Ok(OcrResult(BlocksText(reply.value.blocks)))
  {
    calls := [AnalyzeDocument(Features)];
    if reply.Threw? {
      r := Err(CallFailed(calls[0]));
      return;
    }
    var extractedText := AppendLines("", reply.value.blocks);
    assert extractedText == BlocksText(reply.value.blocks);
    r := Ok(OcrResult(extractedText));
  }

  // ---------------------------------------------------------------------------
  // Asynchronous use case: filetoTextAWSwithBucketUsecase
  // ---------------------------------------------------------------------------

  /** `${folderName}/${fileName}`: where the document is stored and analysed. */
  function ObjectKey(originalName: string): string
  {
    FolderName + "/" + originalName
  }

  /** JavaScript truthiness of an optional string: present and not empty. */
  predicate Truthy(t: Option<string>)
  {
    t.Some? && t.value != ""
  }

  function FailedJobMessage(statusMessage: Option<string>): string
  {
    "Análisis de documento fallido: " + Shown(statusMessage)
  }

  /** How the polling loop ends. */
  datatype PollEnd = Completed(text: string) | Failed(failure: Failure) | Exhausted

  datatype Step = Continue(params: GetParams, text: string) | Stop(end: PollEnd)

  /** One pass of the polling loop: the query `params` was answered by `reply`. */
  function StepOf(params: GetParams, text: string, reply: Reply<GetResponse>): Step
  {
    match reply
    case Threw => Stop(Failed(CallFailed(GetDocumentAnalysis(params))))
    case Returned(response) =>
      if response.jobStatus == "SUCCEEDED" then
        var text' := text + BlocksText(response.blocks);
        if Truthy(response.nextToken) then Continue(params.(nextToken := response.nextToken), text')
        else Stop(Completed(text'))
      else if response.jobStatus == "FAILED" then
        Stop(Failed(AnalysisFailed(FailedJobMessage(response.statusMessage))))
      else Continue(params, text)
  }

  /** How the polling loop ends and the status queries it issues, in order. */
  datatype PollRun = PollRun(end: PollEnd, queries: seq<GetParams>)

  /**
    The polling loop run from query `params` with `text` gathered so far,
    against the scripted `replies`.
   */
  function Poll(params: GetParams, text: string, replies: seq<Reply<GetResponse>>): PollRun
    decreases |replies|
  {
    if replies == [] then PollRun(Exhausted, [])
    else
      match StepOf(params, text, replies[0])
      case Stop(end) => PollRun(end, [params])
      case Continue(params', text') =>
        var rest := Poll(params', text', replies[1..]);
        PollRun(rest.end, [params] + rest.queries)
  }

  /**
    The `while (!analysisComplete)` loop: polls job `jobId` until the job
    ends or the script of replies runs out.
   */
  method PollAnalysis(jobId: string, replies: seq<Reply<GetResponse>>) returns (end: PollEnd, queries: seq<GetParams>)
    ensures PollRun(end, queries) == Poll(GetParams(jobId, None), "", replies)
  {
    var analysisComplete := false;
    var getParams := GetParams(jobId, None);
    var extractedText := "";
    var i := 0;
    queries := [];
    assert replies[0..] == replies;
    while !analysisComplete
      invariant 0 <= i <= |replies|
      invariant !analysisComplete ==>
        Poll(GetParams(jobId, None), "", replies) ==
        PollRun(Poll(getParams, extractedText, replies[i..]).end,
                queries + Poll(getParams, extractedText, replies[i..]).queries)
      invariant analysisComplete ==>
        Poll(GetParams(jobId, None), "", replies) == PollRun(Completed(extractedText), queries)
      decreases |replies| - i
    {
      if i == |replies| {
        // The scripted backend has no reply left: the source would still be polling.
        end := Exhausted;
        return;
      }
      var reply := replies[i];
      assert replies[i..][0] == reply && replies[i..][1..] == replies[i + 1..];
      queries := queries + [getParams];
      i := i + 1;
      if reply.Threw? {
        end := Failed(CallFailed(GetDocumentAnalysis(getParams)));
        return;
      }
      var analysisResponse := reply.value;
      if analysisResponse.jobStatus == "SUCCEEDED" {
        extractedText := AppendLines(extractedText, analysisResponse.blocks);
        if Truthy(analysisResponse.nextToken) {
          getParams := getParams.(nextToken := analysisResponse.nextToken);
        } else {
          analysisComplete := true;
        }
      } else if analysisResponse.jobStatus == "FAILED" {
        end := Failed(AnalysisFailed(FailedJobMessage(analysisResponse.statusMessage)));
        return;
      } else {
        // Still in progress: the source sleeps five seconds and sends the same query again.
      }
    }
    end := Completed(extractedText);
  }

  // ---------------------------------------------------------------------------
  // What the polling loop does, reply by reply
  // ---------------------------------------------------------------------------

  /** A reply after which the loop stops: a thrown call, FAILED, or a last SUCCEEDED page. */
  predicate Ends(reply: Reply<GetResponse>)
  {
    reply.Threw? || reply.value.jobStatus == "FAILED" ||
    (reply.value.jobStatus == "SUCCEEDED" && !Truthy(reply.value.nextToken))
  }

  predicate Succeeded(reply: Reply<GetResponse>)
  {
    reply.Returned? && reply.value.jobStatus == "SUCCEEDED"
  }

  /** The LINE text a reply contributes: only a SUCCEEDED page has any. */
  function PageText(reply: Reply<GetResponse>): string
  {
    if Succeeded(reply) then BlocksText(reply.value.blocks) else ""
  }

  /** The LINE text of every SUCCEEDED page among `replies`, in order. */
  function PagesText(replies: seq<Reply<GetResponse>>): string
  {
    if replies == [] then "" else PageText(replies[0]) + PagesText(replies[1..])
  }

  /**
    The query sent after `params` was answered by `reply`: the same JobId,
    with the page's NextToken when a SUCCEEDED page carries one, and
    otherwise exactly the same parameters.
   */
  function NextQuery(params: GetParams, reply: Reply<GetResponse>): GetParams
  {
    if Succeeded(reply) && Truthy(reply.value.nextToken) then params.(nextToken := reply.value.nextToken)
    else params
  }

  lemma StepContinues(params: GetParams, text: string, reply: Reply<GetResponse>)
    requires !Ends(reply)
    ensures StepOf(params, text, reply) == Continue(NextQuery(params, reply), text + PageText(reply))
  {
    if !Succeeded(reply) {
      assert text + PageText(reply) == text;
    }
  }

  /**
    Run against replies of which the k-th is the first that ends the loop,
    the loop issues exactly k + 1 queries, one per reply consumed, and ends as
    that reply says: with the LINE text of all SUCCEEDED pages so far, with
    the failed-job message and none of the gathered text, or with the error
    of the call that threw.
   */
  lemma {:induction false} PollRunsToFirstEnd(params: GetParams, text: string, replies: seq<Reply<GetResponse>>, k: nat)
    requires k < |replies| && Ends(replies[k])
    requires forall j :: 0 <= j < k ==> !Ends(replies[j])
    ensures |Poll(params, text, replies).queries| == k + 1
    ensures replies[k].Threw? ==>
      Poll(params, text, replies).end == Failed(CallFailed(GetDocumentAnalysis(Poll(params, text, replies).queries[k])))
    ensures replies[k].Returned? && replies[k].value.jobStatus == "FAILED" ==>
      Poll(params, text, replies).end == Failed(AnalysisFailed(FailedJobMessage(replies[k].value.statusMessage)))
    ensures Succeeded(replies[k]) ==>
      Poll(params, text, replies).end == Completed(text + PagesText(replies[..k + 1]))
    decreases k
  {
    if k == 0 {
      assert replies[..1] == [replies[0]];
      assert PagesText(replies[..1]) == PageText(replies[0]);
    } else {
      var r0 := replies[0];
      StepContinues(params, text, r0);
      PollRunsToFirstEnd(NextQuery(params, r0), text + PageText(r0), replies[1..], k - 1);
      assert replies[..k + 1][1..] == replies[1..][..k];
      assert PagesText(replies[..k + 1]) == PageText(r0) + PagesText(replies[1..][..k]);
    }
  }

  /** Run against replies none of which ends the loop, the loop uses them all up. */
  lemma {:induction false} PollExhausts(params: GetParams, text: string, replies: seq<Reply<GetResponse>>)
    requires forall j :: 0 <= j < |replies| ==> !Ends(replies[j])
    ensures Poll(params, text, replies).end == Exhausted
    ensures |Poll(params, text, replies).queries| == |replies|
    decreases |replies|
  {
    if replies != [] {
      StepContinues(params, text, replies[0]);
      PollExhausts(NextQuery(params, replies[0]), text + PageText(replies[0]), replies[1..]);
    }
  }

  /**
    The continuation token is threaded from query to query: the first query is
    the initial one, every query keeps its JobId, and each next query is
    NextQuery of the one before and the reply it got. At most one query is
    issued per reply.
   */
  lemma {:induction false} PollThreadsToken(params: GetParams, text: string, replies: seq<Reply<GetResponse>>)
    ensures var qs := Poll(params, text, replies).queries;
      |qs| <= |replies| &&
      (replies != [] ==> |qs| >= 1 && qs[0] == params) &&
      (forall k :: 0 <= k < |qs| ==> qs[k].jobId == params.jobId) &&
      (forall k :: 0 <= k < |qs| - 1 ==> qs[k + 1] == NextQuery(qs[k], replies[k]))
    decreases |replies|
  {
    if replies != [] {
      var r0 := replies[0];
      var qs := Poll(params, text, replies).queries;
      if !Ends(r0) {
        StepContinues(params, text, r0);
        var next := NextQuery(params, r0);
        PollThreadsToken(next, text + PageText(r0), replies[1..]);
        var rest := Poll(next, text + PageText(r0), replies[1..]).queries;
        assert qs == [params] + rest;
        forall k | 0 <= k < |qs| - 1
          ensures qs[k + 1] == NextQuery(qs[k], replies[k])
        {
          if k > 0 {
            assert qs[k] == rest[k - 1] && qs[k + 1] == rest[k];
          }
        }
      }
    }
  }

  /** An in-progress reply adds no text and is followed by the identical query. */
  lemma PollInProgress(params: GetParams, text: string, reply: Reply<GetResponse>, rest: seq<Reply<GetResponse>>)
    requires reply.Returned? && reply.value.jobStatus != "SUCCEEDED" && reply.value.jobStatus != "FAILED"
    ensures Poll(params, text, [reply] + rest) ==
      PollRun(Poll(params, text, rest).end, [params] + Poll(params, text, rest).queries)
  {
    assert ([reply] + rest)[1..] == rest;
  }

  /**
    Two in-progress replies, then a SUCCEEDED page with a continuation token,
    then a last SUCCEEDED page: four status queries, the last one carrying the
    token, and the LINE text of both pages in order.
   */
  lemma TwoPagesAfterWaiting(jobId: string, page1: seq<Block>, token: string, page2: seq<Block>)
    requires token != ""
    ensures var running := Returned(GetResponse("IN_PROGRESS", None, None, None));
      var first := Returned(GetResponse("SUCCEEDED", Some(page1), Some(token), None));
      var last := Returned(GetResponse("SUCCEEDED", Some(page2), None, None));
      var q := GetParams(jobId, None);
      Poll(q, "", [running, running, first, last]) ==
        PollRun(Completed(LineText(page1) + LineText(page2)), [q, q, q, GetParams(jobId, Some(token))])
  {
    var running := Returned(GetResponse("IN_PROGRESS", None, None, None));
    var first := Returned(GetResponse("SUCCEEDED", Some(page1), Some(token), None));
    var last := Returned(GetResponse("SUCCEEDED", Some(page2), None, None));
    var q := GetParams(jobId, None);
    var replies := [running, running, first, last];
    assert !Ends(running) && !Ends(first) && Ends(last);
    PollRunsToFirstEnd(q, "", replies, 3);
    PollThreadsToken(q, "", replies);
    var qs := Poll(q, "", replies).queries;
    assert qs[1] == NextQuery(qs[0], running) == q;
    assert qs[2] == NextQuery(qs[1], running) == q;
    assert qs[3] == NextQuery(qs[2], first) == GetParams(jobId, Some(token));
    assert qs == [q, q, q, GetParams(jobId, Some(token))];
    assert replies[..4] == replies;
    assert PagesText(replies[3..]) == LineText(page2);
    assert PagesText(replies[2..]) == LineText(page1) + LineText(page2);
    assert PagesText(replies) == PagesText(replies[2..]);
  }

  /** A FAILED reply ends the loop with the backend's message and none of the text gathered before it. */
  lemma FailedDiscardsText(jobId: string, page1: seq<Block>, token: string)
    requires token != ""
    ensures var first := Returned(GetResponse("SUCCEEDED", Some(page1), Some(token), None));
      var failed := Returned(GetResponse("FAILED", None, None, Some("bad scan")));
      Poll(GetParams(jobId, None), "", [first, failed]).end ==
        Failed(AnalysisFailed("Análisis de documento fallido: bad scan"))
  {
    var first := Returned(GetResponse("SUCCEEDED", Some(page1), Some(token), None));
    var failed := Returned(GetResponse("FAILED", None, None, Some("bad scan")));
    PollRunsToFirstEnd(GetParams(jobId, None), "", [first, failed], 1);
    assert FailedJobMessage(Some("bad scan")) == "Análisis de documento fallido: bad scan";
  }

  function OutcomeOf(end: PollEnd): Outcome
  {
    match end
    case Completed(text) => Ok(OcrResult(text))
    case Failed(failure) => Err(failure)
    case Exhausted => Pending
  }

  function GetCalls(queries: seq<GetParams>): (calls: seq<Call>)
    ensures |calls| == |queries|
    ensures forall k :: 0 <= k < |queries| ==> calls[k] == GetDocumentAnalysis(queries[k])
  {
    seq(|queries|, k requires 0 <= k < |queries| => GetDocumentAnalysis(queries[k]))
  }

  /** What `filetoTextAWSwithBucketUsecase` resolves or throws. */
  function BucketRun(originalName: string, backend: BucketBackend): Run
  {
    var key := ObjectKey(originalName);
    var put := PutObject(BucketName, key);
    var start := StartDocumentAnalysis(BucketName, key, Features);
    if backend.upload.Threw? then Run(Err(CallFailed(put)), [put])
    else if backend.start.Threw? then Run(Err(CallFailed(start)), [put, start])
    else
      var poll := Poll(GetParams(backend.start.value, None), "", backend.polls);
      Run(OutcomeOf(poll.end), [put, start] + GetCalls(poll.queries))
  }

  method FileToTextWithBucket(originalName: string, backend: BucketBackend) returns (r: Outcome, calls: seq<Call>)
    ensures Run(r, calls) == BucketRun(originalName, backend)
    ensures calls[0] == PutObject(BucketName, ObjectKey(originalName))
    ensures |calls| >= 2 ==> calls[1] == StartDocumentAnalysis(BucketName, ObjectKey(originalName), Features)
  {
    var s3ObjectKey := ObjectKey(originalName);
    calls := [PutObject(BucketName, s3ObjectKey)];
    if backend.upload.Threw? {
      r := Err(CallFailed(calls[0]));
      return;
    }
    calls := calls + [StartDocumentAnalysis(BucketName, s3ObjectKey, Features)];
    if backend.start.Threw? {
      r := Err(CallFailed(calls[1]));
      return;
    }
    var jobId := backend.start.value;
    var end, queries := PollAnalysis(jobId, backend.polls);
    calls := calls + GetCalls(queries);
    r := OutcomeOf(end);
  }
}
