/**
 * `UploadFileToS3` of the multipart example: initiate a multipart upload,
 * read the file part by part through the window (part numbers from 1), join
 * every task, sort the registered receipts by part number and send them in
 * one CompleteMultipartUpload request.
 *
 * The remote store is three oracles: the CreateMultipartUpload response, the
 * UploadPart answer for (upload id, part number, body), and the
 * CompleteMultipartUpload answer for (upload id, parts). `requests` records
 * every request the function sends: Create first, the UploadPart requests in
 * launch order (the threads may send them in any order), and Complete after
 * the join.
 */
module MultipartUpload {
  import opened PartPlanning
  import opened UploadWindow
  import opened ReceiptOrder

  datatype CreateResponse = Created(uploadId: string) | CreateFailed(message: string)

  datatype CompleteResponse = CompleteOk | CompleteFailed(message: string)

  /** A request to the remote store. Abort is part of the protocol but this function never sends it. */
  datatype Request =
    | CreateMultipartUploadRequest(bucket: string, key: string)
    | UploadPartRequest(bucket: string, key: string, uploadId: string, partNumber: nat, body: seq<byte>)
    | CompleteMultipartUploadRequest(bucket: string, key: string, uploadId: string, parts: seq<Receipt>)
    | AbortMultipartUploadRequest(bucket: string, key: string, uploadId: string)

  /**
   * How the call ends. Initiate and complete failures are printed and the
   * function returns; an unopenable file and a failed part throw `runtime_error`.
   */
  datatype Outcome =
    | InitiateFailed(message: string)
    | OpenFailed(message: string)
    | PartFailed(message: string)
    | CompleteRejected(message: string)
    | Completed

  type CompleteOracle = (string, seq<Receipt>) -> CompleteResponse

  /** The UploadPart requests for the launched parts, in launch order. */
  function UploadRequests(bucket: string, key: string, uploadId: string, parts: seq<Part>): (rs: seq<Request>)
    ensures |rs| == |parts|
    ensures forall k :: 0 <= k < |parts| ==>
      rs[k] == UploadPartRequest(bucket, key, uploadId, parts[k].number, parts[k].data)
  {
    if parts == [] then []
    else [UploadPartRequest(bucket, key, uploadId, parts[0].number, parts[0].data)]
         + UploadRequests(bucket, key, uploadId, parts[1..])
  }

  /** The message `upload_part` throws when UploadPart fails. */
  function PartErrorMessage(message: string): string
  {
    "Failed to upload part: " + message
  }

  /**
   * What happens once the upload id is known and the file is open, for the
   * plan the read loop produces: the window's result decides between the part
   * error and the complete response.
   */
  function PartsOutcome(uploadId: string, upload: Uploader, complete: CompleteOracle, plan: seq<Part>): Outcome
  {
    match WindowResult(upload, plan)
    case PartError(_, m) => PartFailed(PartErrorMessage(m))
    case AllJoined(receipts) =>
      match complete(uploadId, receipts)
      case CompleteOk => Completed
      case CompleteFailed(m) => CompleteRejected(m)
  }

  /** The requests sent once the file is open: UploadPart per launched part, then Complete if none failed. */
  function PartsRequests(bucket: string, key: string, uploadId: string, upload: Uploader,
                         plan: seq<Part>, threadCount: nat): seq<Request>
  {
    UploadRequests(bucket, key, uploadId, WindowDispatch(upload, plan, threadCount))
    + match WindowResult(upload, plan)
      case PartError(_, _) => []
      case AllJoined(receipts) => [CompleteMultipartUploadRequest(bucket, key, uploadId, receipts)]
  }

  /** How the call ends: initiate first, then opening the file, then the parts. */
  function SessionOutcome(filePath: string, file: SourceFile, partSize: nat,
                          create: CreateResponse, upload: Uploader, complete: CompleteOracle): Outcome
    requires partSize > 0
  {
    match create
    case CreateFailed(m) => InitiateFailed(m)
    case Created(id) =>
      match file
      case Unopenable => OpenFailed("Failed to open file: " + filePath)
      case Opened(bytes) => PartsOutcome(id, upload, complete, Plan(bytes, partSize, 1))
  }

  /** Every request the call sends: Create, the UploadPart requests in launch order, then Complete. */
  function SessionRequests(bucket: string, key: string, file: SourceFile, partSize: nat, threadCount: nat,
                           create: CreateResponse, upload: Uploader): seq<Request>
    requires partSize > 0
  {
    [CreateMultipartUploadRequest(bucket, key)] +
    match create
    case CreateFailed(_) => []
    case Created(id) =>
      match file
      case Unopenable => []
      case Opened(bytes) => PartsRequests(bucket, key, id, upload, Plan(bytes, partSize, 1), threadCount)
  }

  /** The receipts of a plan numbered from `first` are strictly ascending by part number. */
  lemma {:induction false} ReceiptsAscending(upload: Uploader, plan: seq<Part>, first: nat)
    requires NumberedFrom(plan, first) && AllSucceed(upload, plan)
    ensures StrictlyAscending(ReceiptsOf(upload, plan))
    ensures forall k :: 0 <= k < |plan| ==> ReceiptsOf(upload, plan)[k].number == first + k
  {
    var rs := ReceiptsOf(upload, plan);
    assert forall k :: 0 <= k < |plan| ==> rs[k].number == plan[k].number == first + k;
  }

  /**
   * The finalize step on the registry of receipts, whatever the order in which
   * they were appended: copy it into an array, sort it in place by part number,
   * and return the sorted list the complete request carries.
   */
  method SortRegistry(registry: seq<Receipt>) returns (parts: seq<Receipt>)
    ensures SortedByNumber(parts) && multiset(parts) == multiset(registry)
  {
    var a := new Receipt[|registry|](i requires 0 <= i < |registry| => registry[i]);
    assert a[..] == registry;
    SortByPartNumber(a);
    parts := a[..];
  }

  /**
   * Finalize on success: if the registry holds the receipts of parts 1..K in
   * any order, sorting it gives exactly those receipts in ascending part order.
   */
  lemma {:induction false} SortedRegistryIsPlanOrder(upload: Uploader, plan: seq<Part>, registry: seq<Receipt>, parts: seq<Receipt>)
    requires NumberedFrom(plan, 1) && AllSucceed(upload, plan)
    requires multiset(registry) == multiset(ReceiptsOf(upload, plan))
    requires SortedByNumber(parts) && multiset(parts) == multiset(registry)
    ensures parts == ReceiptsOf(upload, plan)
    ensures |parts| == |plan| && StrictlyAscending(parts)
    ensures forall k :: 0 <= k < |parts| ==> parts[k].number == k + 1
  {
    ReceiptsAscending(upload, plan, 1);
    SortedArrangementIsUnique(ReceiptsOf(upload, plan), parts);
  }

  /** Steps 2 and 3 of the source once the file is open: the window, the sort, the complete request. */
  method UploadParts(bucket: string, objectKey: string, bytes: seq<byte>, partSize: nat, threadCount: nat,
                     uploadId: string, upload: Uploader, complete: CompleteOracle)
    returns (outcome: Outcome, requests: seq<Request>)
    requires partSize > 0 && threadCount > 0
    ensures outcome == PartsOutcome(uploadId, upload, complete, Plan(bytes, partSize, 1))
    ensures requests == PartsRequests(bucket, objectKey, uploadId, upload, Plan(bytes, partSize, 1), threadCount)
  {
    ghost var plan := Plan(bytes, partSize, 1);
    var result, launched, awaited, maxInFlight := RunWindow(bytes, partSize, threadCount, 1, upload);
    requests := UploadRequests(bucket, objectKey, uploadId, launched);
    if result.PartError? {
      return PartFailed(PartErrorMessage(result.message)), requests;
    }
    var registry := result.receipts;
    assert registry == ReceiptsOf(upload, plan);
    var parts := SortRegistry(registry);
    PlanNumbered(bytes, partSize, 1);
    SortedRegistryIsPlanOrder(upload, plan, registry, parts);
    requests := requests + [CompleteMultipartUploadRequest(bucket, objectKey, uploadId, parts)];
    var response := complete(uploadId, parts);
    if response.CompleteOk? {
      outcome := Completed;
    } else {
      outcome := CompleteRejected(response.message);
    }
  }

  method UploadFileToS3(bucket: string, objectKey: string, filePath: string, file: SourceFile,
                        partSize: nat, threadCount: nat,
                        create: CreateResponse, upload: Uploader, complete: CompleteOracle)
    returns (outcome: Outcome, requests: seq<Request>)
    requires partSize > 0 && threadCount > 0
    ensures outcome == SessionOutcome(filePath, file, partSize, create, upload, complete)
    ensures requests == SessionRequests(bucket, objectKey, file, partSize, threadCount, create, upload)
  {
    requests := [CreateMultipartUploadRequest(bucket, objectKey)];
    if create.CreateFailed? {
      return InitiateFailed(create.message), requests;
    }
    if file.Unopenable? {
      return OpenFailed("Failed to open file: " + filePath), requests;
    }
    var more;
    outcome, more := UploadParts(bucket, objectKey, file.bytes, partSize, threadCount,
                                 create.uploadId, upload, complete);
    requests := requests + more;
  }

  predicate SendsComplete(rs: seq<Request>)
  {
    exists k :: 0 <= k < |rs| && rs[k].CompleteMultipartUploadRequest?
  }

  predicate SendsAbort(rs: seq<Request>)
  {
    exists k :: 0 <= k < |rs| && rs[k].AbortMultipartUploadRequest?
  }

  predicate OnlyUploadParts(rs: seq<Request>)
  {
    forall k :: 0 <= k < |rs| ==> rs[k].UploadPartRequest?
  }

  lemma {:induction false} UploadRequestsOnlyUpload(bucket: string, key: string, uploadId: string, parts: seq<Part>)
    ensures OnlyUploadParts(UploadRequests(bucket, key, uploadId, parts))
  {
  }

  /** Once initiate succeeded and the file opened, Create is followed by the parts' requests. */
  lemma {:induction false} OpenedRequests(bucket: string, key: string, bytes: seq<byte>, partSize: nat,
                                          threadCount: nat, uploadId: string, upload: Uploader)
    requires partSize > 0
    ensures SessionRequests(bucket, key, Opened(bytes), partSize, threadCount, Created(uploadId), upload)
         == [CreateMultipartUploadRequest(bucket, key)]
            + PartsRequests(bucket, key, uploadId, upload, Plan(bytes, partSize, 1), threadCount)
  {
  }

  /** With no failing part the window joins every part and launches the whole plan. */
  lemma {:induction false} NoFailureJoinsAll(upload: Uploader, plan: seq<Part>, threadCount: nat)
    requires AllSucceed(upload, plan)
    ensures FirstFailure(upload, plan) == |plan|
    ensures WindowDispatch(upload, plan, threadCount) == plan
    ensures WindowResult(upload, plan) == AllJoined(ReceiptsOf(upload, plan))
  {
  }

  /** Every part uploads: UploadPart for the whole plan, then one Complete with the plan's receipts. */
  lemma {:induction false} PartsSucceedRequests(bucket: string, key: string, uploadId: string, upload: Uploader,
                                                plan: seq<Part>, threadCount: nat)
    requires AllSucceed(upload, plan)
    ensures PartsRequests(bucket, key, uploadId, upload, plan, threadCount)
         == UploadRequests(bucket, key, uploadId, plan)
            + [CompleteMultipartUploadRequest(bucket, key, uploadId, ReceiptsOf(upload, plan))]
  {
    NoFailureJoinsAll(upload, plan, threadCount);
  }

  /** ... and the complete response decides the outcome. */
  lemma {:induction false} PartsSucceedOutcome(uploadId: string, upload: Uploader, complete: CompleteOracle,
                                               plan: seq<Part>)
    requires AllSucceed(upload, plan)
    ensures PartsOutcome(uploadId, upload, complete, plan)
         == if complete(uploadId, ReceiptsOf(upload, plan)).CompleteOk? then Completed
            else CompleteRejected(complete(uploadId, ReceiptsOf(upload, plan)).message)
  {
    NoFailureJoinsAll(upload, plan, 0);
  }

  /**
   * Part i (from 0) is the first to fail: only UploadPart requests are sent,
   * for the first min(K, i + thread_count) parts.
   */
  lemma {:induction false} PartsFailRequests(bucket: string, key: string, uploadId: string, upload: Uploader,
                                             plan: seq<Part>, threadCount: nat)
    requires FirstFailure(upload, plan) < |plan|
    ensures PartsRequests(bucket, key, uploadId, upload, plan, threadCount)
         == UploadRequests(bucket, key, uploadId, plan[..Min(|plan|, FirstFailure(upload, plan) + threadCount)])
  {
    var i := FirstFailure(upload, plan);
    var sent := UploadRequests(bucket, key, uploadId, WindowDispatch(upload, plan, threadCount));
    assert WindowResult(upload, plan) == PartError(plan[i].number, upload(plan[i].number, plan[i].data).message);
    assert PartsRequests(bucket, key, uploadId, upload, plan, threadCount) == sent + [];
    assert sent + [] == sent;
  }

  /** ... and the call ends with that part's error. */
  lemma {:induction false} PartsFailOutcome(uploadId: string, upload: Uploader, complete: CompleteOracle,
                                            plan: seq<Part>)
    requires FirstFailure(upload, plan) < |plan|
    ensures var i := FirstFailure(upload, plan);
            && upload(plan[i].number, plan[i].data).Failed?
            && PartsOutcome(uploadId, upload, complete, plan)
               == PartFailed(PartErrorMessage(upload(plan[i].number, plan[i].data).message))
  {
  }

  lemma {:induction false} SendsConcat(a: seq<Request>, b: seq<Request>)
    ensures SendsComplete(a + b) <==> SendsComplete(a) || SendsComplete(b)
    ensures SendsAbort(a + b) <==> SendsAbort(a) || SendsAbort(b)
  {
    if SendsComplete(a + b) {
      var k :| 0 <= k < |a + b| && (a + b)[k].CompleteMultipartUploadRequest?;
      if k >= |a| {
        assert b[k - |a|] == (a + b)[k];
      }
    }
    if SendsAbort(a + b) {
      var k :| 0 <= k < |a + b| && (a + b)[k].AbortMultipartUploadRequest?;
      if k >= |a| {
        assert b[k - |a|] == (a + b)[k];
      }
    }
    if SendsComplete(b) {
      var k :| 0 <= k < |b| && b[k].CompleteMultipartUploadRequest?;
      assert (a + b)[|a| + k] == b[k];
    }
    if SendsAbort(b) {
      var k :| 0 <= k < |b| && b[k].AbortMultipartUploadRequest?;
      assert (a + b)[|a| + k] == b[k];
    }
    if SendsComplete(a) {
      var k :| 0 <= k < |a| && a[k].CompleteMultipartUploadRequest?;
      assert (a + b)[k] == a[k];
    }
    if SendsAbort(a) {
      var k :| 0 <= k < |a| && a[k].AbortMultipartUploadRequest?;
      assert (a + b)[k] == a[k];
    }
  }

  /** The UploadPart requests contain neither a Complete nor an Abort. */
  lemma {:induction false} UploadRequestsSendNeither(bucket: string, key: string, uploadId: string, parts: seq<Part>)
    ensures !SendsComplete(UploadRequests(bucket, key, uploadId, parts))
    ensures !SendsAbort(UploadRequests(bucket, key, uploadId, parts))
  {
    UploadRequestsOnlyUpload(bucket, key, uploadId, parts);
  }

  /** The requests after Create: a Complete is among them exactly when every part uploaded, an Abort never. */
  lemma {:induction false} PartsRequestsSend(bucket: string, key: string, uploadId: string, upload: Uploader,
                                             plan: seq<Part>, threadCount: nat)
    ensures SendsComplete(PartsRequests(bucket, key, uploadId, upload, plan, threadCount))
        <==> AllSucceed(upload, plan)
    ensures !SendsAbort(PartsRequests(bucket, key, uploadId, upload, plan, threadCount))
  {
    var launched := WindowDispatch(upload, plan, threadCount);
    var ups := UploadRequests(bucket, key, uploadId, launched);
    UploadRequestsSendNeither(bucket, key, uploadId, launched);
    var tail := match WindowResult(upload, plan)
      case PartError(_, _) => []
      case AllJoined(receipts) => [CompleteMultipartUploadRequest(bucket, key, uploadId, receipts)];
    SendsConcat(ups, tail);
    if AllSucceed(upload, plan) {
      NoFailureJoinsAll(upload, plan, threadCount);
      assert tail[0].CompleteMultipartUploadRequest?;
    } else {
      var i := FirstFailure(upload, plan);
      assert i < |plan|;
      assert tail == [];
    }
  }

  /**
   * CompleteMultipartUpload is sent exactly when initiate succeeded, the file
   * opened and every part of the plan uploaded; AbortMultipartUpload is never sent.
   */
  lemma {:induction false} CompleteSentIffAllPartsUploaded(bucket: string, key: string, file: SourceFile,
                                                           partSize: nat, threadCount: nat,
                                                           create: CreateResponse, upload: Uploader)
    requires partSize > 0
    ensures SendsComplete(SessionRequests(bucket, key, file, partSize, threadCount, create, upload))
        <==> create.Created? && file.Opened? && AllSucceed(upload, Plan(file.bytes, partSize, 1))
    ensures !SendsAbort(SessionRequests(bucket, key, file, partSize, threadCount, create, upload))
  {
    var head := [CreateMultipartUploadRequest(bucket, key)];
    assert !SendsComplete(head) && !SendsAbort(head);
    if create.Created? && file.Opened? {
      var plan := Plan(file.bytes, partSize, 1);
      var rest := PartsRequests(bucket, key, create.uploadId, upload, plan, threadCount);
      PartsRequestsSend(bucket, key, create.uploadId, upload, plan, threadCount);
      SendsConcat(head, rest);
    } else {
      assert SessionRequests(bucket, key, file, partSize, threadCount, create, upload) == head;
    }
  }

  /** Receipt k (from 0) names part k + 1 with the ETag UploadPart returned for that part's bytes. */
  ghost predicate FinalParts(receipts: seq<Receipt>, bytes: seq<byte>, partSize: nat, upload: Uploader)
    requires partSize > 0
  {
    var plan := Plan(bytes, partSize, 1);
    && |receipts| == |plan|
    && forall k :: 0 <= k < |receipts| ==>
         && receipts[k].number == k + 1
         && upload(k + 1, plan[k].data) == Uploaded(receipts[k].etag)
  }

  /**
   * When every part uploads, the trace is Create, UploadPart for parts 1..K in
   * launch order, then one Complete carrying the plan's receipts.
   */
  lemma {:induction false} SuccessfulSession(bucket: string, key: string, bytes: seq<byte>, partSize: nat,
                                             threadCount: nat, uploadId: string, upload: Uploader)
    requires partSize > 0
    requires AllSucceed(upload, Plan(bytes, partSize, 1))
    ensures SessionRequests(bucket, key, Opened(bytes), partSize, threadCount, Created(uploadId), upload)
         == [CreateMultipartUploadRequest(bucket, key)]
            + UploadRequests(bucket, key, uploadId, Plan(bytes, partSize, 1))
            + [CompleteMultipartUploadRequest(bucket, key, uploadId, ReceiptsOf(upload, Plan(bytes, partSize, 1)))]
  {
    var plan := Plan(bytes, partSize, 1);
    OpenedRequests(bucket, key, bytes, partSize, threadCount, uploadId, upload);
    PartsSucceedRequests(bucket, key, uploadId, upload, plan, threadCount);
  }

  /**
   * The part list of that Complete: K = ceil(L / part_size) receipts,
   * numbered 1..K in strictly ascending order, each with the ETag its upload returned.
   */
  lemma {:induction false} CompletedPartList(bytes: seq<byte>, partSize: nat, upload: Uploader)
    requires partSize > 0
    requires AllSucceed(upload, Plan(bytes, partSize, 1))
    ensures |ReceiptsOf(upload, Plan(bytes, partSize, 1))| == CeilDiv(|bytes|, partSize)
    ensures StrictlyAscending(ReceiptsOf(upload, Plan(bytes, partSize, 1)))
    ensures FinalParts(ReceiptsOf(upload, Plan(bytes, partSize, 1)), bytes, partSize, upload)
  {
    var plan := Plan(bytes, partSize, 1);
    PlanCount(bytes, partSize, 1);
    PlanNumbered(bytes, partSize, 1);
    ReceiptsAscending(upload, plan, 1);
  }

  /**
   * When part i (from 0) is the first to fail, the trace is Create and the
   * UploadPart requests of the first min(K, i + thread_count) parts: no
   * Complete and no Abort.
   */
  lemma {:induction false} FailedSessionRequests(bucket: string, key: string, bytes: seq<byte>,
                                                 partSize: nat, threadCount: nat, uploadId: string, upload: Uploader,
                                                 plan: seq<Part>)
    requires partSize > 0 && plan == Plan(bytes, partSize, 1)
    requires FirstFailure(upload, plan) < |plan|
    ensures SessionRequests(bucket, key, Opened(bytes), partSize, threadCount, Created(uploadId), upload)
         == [CreateMultipartUploadRequest(bucket, key)]
            + UploadRequests(bucket, key, uploadId, plan[..Min(|plan|, FirstFailure(upload, plan) + threadCount)])
  {
    OpenedRequests(bucket, key, bytes, partSize, threadCount, uploadId, upload);
    PartsFailRequests(bucket, key, uploadId, upload, plan, threadCount);
  }

  /** ... and the call ends with the error of part i + 1, the first part whose upload failed. */
  lemma {:induction false} FailedSessionOutcome(filePath: string, bytes: seq<byte>, partSize: nat,
                                                uploadId: string, upload: Uploader, complete: CompleteOracle)
    requires partSize > 0
    requires FirstFailure(upload, Plan(bytes, partSize, 1)) < |Plan(bytes, partSize, 1)|
    ensures var plan := Plan(bytes, partSize, 1);
            var i := FirstFailure(upload, plan);
            && upload(i + 1, plan[i].data).Failed?
            && SessionOutcome(filePath, Opened(bytes), partSize, Created(uploadId), upload, complete)
               == PartFailed(PartErrorMessage(upload(i + 1, plan[i].data).message))
  {
    var plan := Plan(bytes, partSize, 1);
    PlanNumbered(bytes, partSize, 1);
    PartsFailOutcome(uploadId, upload, complete, plan);
    assert plan[FirstFailure(upload, plan)].number == FirstFailure(upload, plan) + 1;
  }

  /** The call completes exactly when every part uploads and the complete request is accepted. */
  lemma {:induction false} CompletedIff(filePath: string, file: SourceFile, partSize: nat,
                                        create: CreateResponse, upload: Uploader, complete: CompleteOracle)
    requires partSize > 0
    ensures SessionOutcome(filePath, file, partSize, create, upload, complete) == Completed
        <==> && create.Created? && file.Opened?
             && AllSucceed(upload, Plan(file.bytes, partSize, 1))
             && complete(create.uploadId, ReceiptsOf(upload, Plan(file.bytes, partSize, 1))).CompleteOk?
  {
    if create.Created? && file.Opened? {
      var plan := Plan(file.bytes, partSize, 1);
      if AllSucceed(upload, plan) {
        PartsSucceedOutcome(create.uploadId, upload, complete, plan);
      } else {
        PartsFailOutcome(create.uploadId, upload, complete, plan);
      }
    }
  }

  /**
   * A failed initiate returns before the file is opened: the outcome and the
   * requests are the same whatever the file is.
   */
  lemma {:induction false} InitiateFailureIgnoresFile(bucket: string, key: string, filePath: string,
                                                      file: SourceFile, other: SourceFile, partSize: nat,
                                                      threadCount: nat, message: string,
                                                      upload: Uploader, complete: CompleteOracle)
    requires partSize > 0
    ensures SessionOutcome(filePath, file, partSize, CreateFailed(message), upload, complete)
         == SessionOutcome(filePath, other, partSize, CreateFailed(message), upload, complete)
         == InitiateFailed(message)
    ensures SessionRequests(bucket, key, file, partSize, threadCount, CreateFailed(message), upload)
         == SessionRequests(bucket, key, other, partSize, threadCount, CreateFailed(message), upload)
         == [CreateMultipartUploadRequest(bucket, key)]
  {
  }

  /** An empty file still completes the upload, with an empty part list. */
  lemma {:induction false} EmptyFileSession(bucket: string, key: string, partSize: nat, threadCount: nat,
                                            uploadId: string, upload: Uploader)
    requires partSize > 0
    ensures SessionRequests(bucket, key, Opened([]), partSize, threadCount, Created(uploadId), upload)
         == [CreateMultipartUploadRequest(bucket, key), CompleteMultipartUploadRequest(bucket, key, uploadId, [])]
  {
    PlanCount([], partSize, 1);
  }

  /**
   * 100 units in parts of 32, every part accepted: four UploadPart requests and
   * a Complete whose part list is numbered 1, 2, 3, 4.
   */
  lemma {:induction false} HundredUnitsCompleteInOrder(bucket: string, key: string, bytes: seq<byte>,
                                                       threadCount: nat, uploadId: string, upload: Uploader)
    requires |bytes| == 100
    requires AllSucceed(upload, Plan(bytes, 32, 1))
    ensures var rs := SessionRequests(bucket, key, Opened(bytes), 32, threadCount, Created(uploadId), upload);
            && |rs| == 6
            && rs[5].CompleteMultipartUploadRequest? && |rs[5].parts| == 4
            && rs[5].parts[0].number == 1 && rs[5].parts[1].number == 2
            && rs[5].parts[2].number == 3 && rs[5].parts[3].number == 4
  {
    HundredInPartsOfThirtyTwo(bytes);
    SuccessfulSession(bucket, key, bytes, 32, threadCount, uploadId, upload);
    CompletedPartList(bytes, 32, upload);
  }

  /**
   * 10 units in parts of 3 with a window of 4, part 2 rejected: all four parts
   * were launched before the error surfaced, no Complete is sent, and the call
   * ends with part 2's error.
   */
  lemma {:induction false} TenUnitsSecondPartFails(bucket: string, key: string, filePath: string,
                                                   bytes: seq<byte>, uploadId: string,
                                                   upload: Uploader, complete: CompleteOracle)
    requires |bytes| == 10
    requires upload(1, bytes[0..3]).Uploaded? && upload(2, bytes[3..6]).Failed?
    ensures var rs := SessionRequests(bucket, key, Opened(bytes), 3, 4, Created(uploadId), upload);
            && |rs| == 5
            && (forall k :: 1 <= k < 5 ==> rs[k].UploadPartRequest? && rs[k].partNumber == k)
            && !SendsComplete(rs) && !SendsAbort(rs)
    ensures SessionOutcome(filePath, Opened(bytes), 3, Created(uploadId), upload, complete)
         == PartFailed(PartErrorMessage(upload(2, bytes[3..6]).message))
  {
    var plan := Plan(bytes, 3, 1);
    TenInPartsOfThree(bytes);
    assert FirstFailure(upload, plan) == 1;
    FailedSessionOutcome(filePath, bytes, 3, uploadId, upload, complete);
    TenUnitsRequests(bucket, key, bytes, uploadId, upload);
  }

  /** The trace of that call: Create, then UploadPart for parts 1 to 4, and nothing else. */
  lemma {:induction false} TenUnitsRequests(bucket: string, key: string, bytes: seq<byte>, uploadId: string,
                                            upload: Uploader)
    requires |bytes| == 10 && |Plan(bytes, 3, 1)| == 4 && NumberedFrom(Plan(bytes, 3, 1), 1)
    requires FirstFailure(upload, Plan(bytes, 3, 1)) == 1
    ensures var rs := SessionRequests(bucket, key, Opened(bytes), 3, 4, Created(uploadId), upload);
            && |rs| == 5
            && (forall k :: 1 <= k < 5 ==> rs[k].UploadPartRequest? && rs[k].partNumber == k)
            && !SendsComplete(rs) && !SendsAbort(rs)
  {
    var plan := Plan(bytes, 3, 1);
    assert plan[..Min(|plan|, 1 + 4)] == plan;
    FailedSessionRequests(bucket, key, bytes, 3, 4, uploadId, upload, plan);
    CompleteSentIffAllPartsUploaded(bucket, key, Opened(bytes), 3, 4, Created(uploadId), upload);
    var rs := SessionRequests(bucket, key, Opened(bytes), 3, 4, Created(uploadId), upload);
    assert forall k :: 1 <= k < 5 ==> rs[k] == UploadRequests(bucket, key, uploadId, plan)[k - 1];
  }
}
