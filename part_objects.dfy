/**
 * `UploadFileToS3` of the one-object-per-part example: read the file part by
 * part through the window (indices from 0) and store each part as an object of
 * its own under `object_key + "_part_" + to_string(index)` with PutObject.
 * There is no initiate and no finalize step.
 *
 * The remote store is one oracle: the PutObject answer for (key, body).
 * `requests` records every PutObject the function sends, in launch order
 * (the threads may send them in any order).
 */
module PartObjectUpload {
  import opened PartPlanning
  import opened UploadWindow
  import opened Decimal

  datatype PutResponse = PutOk | PutFailed(message: string)

  datatype Request = PutObjectRequest(bucket: string, key: string, body: seq<byte>)

  /** How the call ends: an unopenable file and a failed part throw `runtime_error`. */
  datatype Outcome = OpenFailed(message: string) | PartFailed(message: string) | Finished

  type PutOracle = (string, seq<byte>) -> PutResponse

  const PartInfix: string := "_part_"

  const FailurePrefix: string := "Failed to upload part "

  /** The object key of part `index`. */
  function PartKey(objectKey: string, index: nat): string
  {
    objectKey + PartInfix + NatToString(index)
  }

  /** The message the task throws when PutObject fails for part `index`. */
  function PartFailureMessage(index: nat, message: string): string
  {
    FailurePrefix + NatToString(index) + ": " + message
  }

  /** The answer of the `upload_part` task for part `index`: success carries no ETag here. */
  function PartAnswer(put: PutOracle, objectKey: string, index: nat, body: seq<byte>): PartResult
  {
    match put(PartKey(objectKey, index), body)
    case PutOk => Uploaded("")
    case PutFailed(m) => Failed(PartFailureMessage(index, m))
  }

  /** The task body as an uploader of (index, body), for the window. */
  function PutAsUpload(put: PutOracle, objectKey: string): Uploader
  {
    (index: nat, body: seq<byte>) => PartAnswer(put, objectKey, index, body)
  }

  /** The PutObject requests for the launched parts, in launch order. */
  function PutRequests(bucket: string, objectKey: string, parts: seq<Part>): (rs: seq<Request>)
    ensures |rs| == |parts|
  {
    if parts == [] then []
    else [PutObjectRequest(bucket, PartKey(objectKey, parts[0].number), parts[0].data)]
         + PutRequests(bucket, objectKey, parts[1..])
  }

  /** PutObject k stores part k under the key for that part's index. */
  lemma {:induction false} PutRequestsAt(bucket: string, objectKey: string, parts: seq<Part>, k: nat)
    requires k < |parts|
    ensures PutRequests(bucket, objectKey, parts)[k]
         == PutObjectRequest(bucket, PartKey(objectKey, parts[k].number), parts[k].data)
    decreases k
  {
    if k > 0 {
      PutRequestsAt(bucket, objectKey, parts[1..], k - 1);
    }
  }

  /** How the call ends once the file is open: the window's first error, or success. */
  function PartsOutcome(upload: Uploader, plan: seq<Part>): Outcome
  {
    match WindowResult(upload, plan)
    case PartError(_, m) => PartFailed(m)
    case AllJoined(_) => Finished
  }

  /** How the call ends: the file must open, then every part must be stored. */
  function SessionOutcome(filePath: string, objectKey: string, file: SourceFile, partSize: nat,
                          put: PutOracle): Outcome
    requires partSize > 0
  {
    match file
    case Unopenable => OpenFailed("Failed to open file: " + filePath)
    case Opened(bytes) => PartsOutcome(PutAsUpload(put, objectKey), Plan(bytes, partSize, 0))
  }

  /** Every PutObject the call sends: one per part the window launched. */
  function SessionRequests(bucket: string, objectKey: string, file: SourceFile, partSize: nat,
                           threadCount: nat, put: PutOracle): seq<Request>
    requires partSize > 0
  {
    match file
    case Unopenable => []
    case Opened(bytes) =>
      PutRequests(bucket, objectKey, WindowDispatch(PutAsUpload(put, objectKey), Plan(bytes, partSize, 0), threadCount))
  }

  method UploadFileToS3(bucket: string, objectKey: string, filePath: string, file: SourceFile,
                        partSize: nat, threadCount: nat, put: PutOracle)
    returns (outcome: Outcome, requests: seq<Request>)
    requires partSize > 0 && threadCount > 0
    ensures outcome == SessionOutcome(filePath, objectKey, file, partSize, put)
    ensures requests == SessionRequests(bucket, objectKey, file, partSize, threadCount, put)
  {
    if file.Unopenable? {
      return OpenFailed("Failed to open file: " + filePath), [];
    }
    var upload := PutAsUpload(put, objectKey);
    var result, launched, awaited, maxInFlight := RunWindow(file.bytes, partSize, threadCount, 0, upload);
    requests := PutRequests(bucket, objectKey, launched);
    if result.PartError? {
      outcome := PartFailed(result.message);
    } else {
      outcome := Finished;
    }
  }

  /** Distinct indices give distinct object keys, so no part overwrites another. */
  lemma {:induction false} PartKeysDistinct(objectKey: string, i: nat, j: nat)
    requires i != j
    ensures PartKey(objectKey, i) != PartKey(objectKey, j)
  {
    var prefix := objectKey + PartInfix;
    NatToStringInjective(i, j);
    assert PartKey(objectKey, i)[|prefix|..] == NatToString(i);
    assert PartKey(objectKey, j)[|prefix|..] == NatToString(j);
  }

  /** The index can be read back from the key: it is the decimal text after the infix. */
  lemma {:induction false} PartKeyIndex(objectKey: string, index: nat)
    ensures |PartKey(objectKey, index)| > |objectKey| + |PartInfix|
    ensures PartKey(objectKey, index)[..|objectKey| + |PartInfix|] == objectKey + PartInfix
    ensures AllDigits(PartKey(objectKey, index)[|objectKey| + |PartInfix|..])
    ensures StringToNat(PartKey(objectKey, index)[|objectKey| + |PartInfix|..]) == index
  {
    var key := PartKey(objectKey, index);
    assert key[|objectKey| + |PartInfix|..] == NatToString(index);
    StringToNatOfNatToString(index);
  }

  /**
   * The failure message names the part: after "Failed to upload part " come
   * exactly the digits of its index, then ": " and the store's message.
   */
  lemma {:induction false} FailureMessageNamesPart(index: nat, message: string)
    ensures var text := PartFailureMessage(index, message);
            && text[..|FailurePrefix|] == FailurePrefix
            && LeadingDigits(text[|FailurePrefix|..]) == NatToString(index)
            && StringToNat(LeadingDigits(text[|FailurePrefix|..])) == index
            && text[|FailurePrefix| + |NatToString(index)|..] == ": " + message
  {
    var text := PartFailureMessage(index, message);
    assert text[|FailurePrefix|..] == NatToString(index) + (": " + message);
    LeadingDigitsOfNatToString(index, ": " + message);
    StringToNatOfNatToString(index);
  }

  /**
   * Over any plan numbered from 0: PutObject k (from 0) stores part k under the
   * key for index k, and the keys are pairwise distinct.
   */
  lemma {:induction false} PutRequestsByIndex(bucket: string, objectKey: string, plan: seq<Part>, launched: seq<Part>)
    requires NumberedFrom(plan, 0) && launched <= plan
    ensures var rs := PutRequests(bucket, objectKey, launched);
            && (forall k :: 0 <= k < |rs| ==> rs[k] == PutObjectRequest(bucket, PartKey(objectKey, k), plan[k].data))
            && (forall j, k :: 0 <= j < k < |rs| ==> rs[j].key != rs[k].key)
  {
    var rs := PutRequests(bucket, objectKey, launched);
    forall k | 0 <= k < |rs|
      ensures rs[k] == PutObjectRequest(bucket, PartKey(objectKey, k), plan[k].data)
    {
      PutRequestsAt(bucket, objectKey, launched, k);
      assert launched[k] == plan[k];
    }
    forall j, k | 0 <= j < k < |rs|
      ensures rs[j].key != rs[k].key
    {
      PutRequestsAt(bucket, objectKey, launched, j);
      PutRequestsAt(bucket, objectKey, launched, k);
      PartKeysDistinct(objectKey, j, k);
    }
  }

  /**
   * Request k (from 0) stores part k: its key ends in the decimal text of k and
   * its body is the k-th slice of the file; so the keys in one call are pairwise distinct.
   */
  lemma {:induction false} RequestsStorePartsByIndex(bucket: string, objectKey: string, bytes: seq<byte>,
                                                     partSize: nat, threadCount: nat, put: PutOracle)
    requires partSize > 0
    ensures var plan := Plan(bytes, partSize, 0);
            var rs := SessionRequests(bucket, objectKey, Opened(bytes), partSize, threadCount, put);
            && |rs| <= |plan|
            && (forall k :: 0 <= k < |rs| ==> rs[k] == PutObjectRequest(bucket, PartKey(objectKey, k), plan[k].data))
            && (forall j, k :: 0 <= j < k < |rs| ==> rs[j].key != rs[k].key)
  {
    var plan := Plan(bytes, partSize, 0);
    var launched := WindowDispatch(PutAsUpload(put, objectKey), plan, threadCount);
    assert SessionRequests(bucket, objectKey, Opened(bytes), partSize, threadCount, put)
        == PutRequests(bucket, objectKey, launched);
    PlanNumbered(bytes, partSize, 0);
    PutRequestsByIndex(bucket, objectKey, plan, launched);
  }

  /** With every PutObject accepted, the call finishes having sent one PutObject per part. */
  lemma {:induction false} SuccessfulSession(bucket: string, objectKey: string, filePath: string,
                                             bytes: seq<byte>, partSize: nat, threadCount: nat, put: PutOracle)
    requires partSize > 0
    requires AllSucceed(PutAsUpload(put, objectKey), Plan(bytes, partSize, 0))
    ensures SessionOutcome(filePath, objectKey, Opened(bytes), partSize, put) == Finished
    ensures |SessionRequests(bucket, objectKey, Opened(bytes), partSize, threadCount, put)| == CeilDiv(|bytes|, partSize)
    ensures SessionRequests(bucket, objectKey, Opened(bytes), partSize, threadCount, put)
         == PutRequests(bucket, objectKey, Plan(bytes, partSize, 0))
  {
    var upload := PutAsUpload(put, objectKey);
    var plan := Plan(bytes, partSize, 0);
    assert FirstFailure(upload, plan) == |plan|;
    assert WindowDispatch(upload, plan, threadCount) == plan;
    assert SessionRequests(bucket, objectKey, Opened(bytes), partSize, threadCount, put)
        == PutRequests(bucket, objectKey, plan);
    PlanCount(bytes, partSize, 0);
  }

  /** Over any plan: when part i is the first to fail, the call ends with its error. */
  lemma {:induction false} PartsFailOutcome(upload: Uploader, plan: seq<Part>)
    requires FirstFailure(upload, plan) < |plan|
    ensures var i := FirstFailure(upload, plan);
            PartsOutcome(upload, plan) == PartFailed(upload(plan[i].number, plan[i].data).message)
  {
  }

  /**
   * When part i is the first whose PutObject fails, the call ends with the
   * message naming index i.
   */
  lemma {:induction false} FailedSessionOutcome(objectKey: string, filePath: string, bytes: seq<byte>,
                                                partSize: nat, put: PutOracle, plan: seq<Part>)
    requires partSize > 0 && plan == Plan(bytes, partSize, 0)
    requires FirstFailure(PutAsUpload(put, objectKey), plan) < |plan|
    ensures var i := FirstFailure(PutAsUpload(put, objectKey), plan);
            && put(PartKey(objectKey, i), plan[i].data).PutFailed?
            && SessionOutcome(filePath, objectKey, Opened(bytes), partSize, put)
               == PartFailed(PartFailureMessage(i, put(PartKey(objectKey, i), plan[i].data).message))
  {
    var upload := PutAsUpload(put, objectKey);
    var i := FirstFailure(upload, plan);
    PlanNumbered(bytes, partSize, 0);
    assert plan[i].number == i;
    assert upload(i, plan[i].data) == PartAnswer(put, objectKey, i, plan[i].data);
    PartsFailOutcome(upload, plan);
  }

  /** ... and no part after index i + thread_count - 1 was sent. */
  lemma {:induction false} FailedSessionRequests(bucket: string, objectKey: string, bytes: seq<byte>,
                                                 partSize: nat, threadCount: nat, put: PutOracle, plan: seq<Part>)
    requires partSize > 0 && plan == Plan(bytes, partSize, 0)
    requires FirstFailure(PutAsUpload(put, objectKey), plan) < |plan|
    ensures SessionRequests(bucket, objectKey, Opened(bytes), partSize, threadCount, put)
         == PutRequests(bucket, objectKey, plan[..Min(|plan|, FirstFailure(PutAsUpload(put, objectKey), plan) + threadCount)])
  {
    OpenedRequests(bucket, objectKey, bytes, partSize, threadCount, put, plan);
    PartsFailRequests(bucket, objectKey, PutAsUpload(put, objectKey), plan, threadCount);
  }

  /** Over any plan: when part i is the first to fail, the first min(K, i + thread_count) parts are sent. */
  lemma {:induction false} PartsFailRequests(bucket: string, objectKey: string, upload: Uploader,
                                             plan: seq<Part>, threadCount: nat)
    requires FirstFailure(upload, plan) < |plan|
    ensures PutRequests(bucket, objectKey, WindowDispatch(upload, plan, threadCount))
         == PutRequests(bucket, objectKey, plan[..Min(|plan|, FirstFailure(upload, plan) + threadCount)])
  {
  }

  /** Once the file is open, the requests are the PutObjects of the parts the window launched. */
  lemma {:induction false} OpenedRequests(bucket: string, objectKey: string, bytes: seq<byte>,
                                          partSize: nat, threadCount: nat, put: PutOracle, plan: seq<Part>)
    requires partSize > 0 && plan == Plan(bytes, partSize, 0)
    ensures SessionRequests(bucket, objectKey, Opened(bytes), partSize, threadCount, put)
         == PutRequests(bucket, objectKey, WindowDispatch(PutAsUpload(put, objectKey), plan, threadCount))
  {
  }

  /** An empty file opens and the call finishes without sending any PutObject. */
  lemma {:induction false} EmptyFileSession(bucket: string, objectKey: string, filePath: string,
                                            partSize: nat, threadCount: nat, put: PutOracle)
    requires partSize > 0
    ensures SessionOutcome(filePath, objectKey, Opened([]), partSize, put) == Finished
    ensures SessionRequests(bucket, objectKey, Opened([]), partSize, threadCount, put) == []
  {
    PlanCount([], partSize, 0);
  }
}
