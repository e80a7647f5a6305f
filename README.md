# Windowed part upload (RocksDB-Cloud S3 examples)

This project models the two `UploadFileToS3` functions in `cloud/examples`:

- `test_fenduan.cc` performs a multipart upload.
  1. It initiates the upload with CreateMultipartUpload.
  2. It reads the file in parts of `part_size` bytes and numbers them from 1.
  3. Each part goes to a task that sends UploadPart and appends a `(part number, ETag)` receipt to a shared registry.
  4. It then joins every task.
  5. It sorts the registry by part number and sends it in one CompleteMultipartUpload request.
- `test_bingfa.cc` reads the file the same way but numbers the parts from 0.
  - It stores each part as an object of its own with PutObject, under `object_key + "_part_" + to_string(index)`.
  - There is no initiate step and no finalize step.

Both functions run the same bounded window:
- `futures` holds at most `thread_count` tasks, in launch order.
- Before a launch into a full window, the oldest task is awaited and erased.
- After the last read, the remaining tasks are awaited in order.
- When an awaited task threw, `get()` rethrows its error and no further part is launched. The tasks already launched still run to the end while the futures are destroyed.

Modules:

- `PartPlanning` (planning.dfy) models the read loop as a function.
  - `Plan(payload, partSize, first)` lists the parts the loop dispatches: number, offset and bytes.
  - Lemmas give the number of parts, their layout and their coverage of the payload.
- `Decimal` (decimal.dfy) models `std::to_string` for unsigned values. It proves that the text reads back to the number and that distinct numbers give distinct texts.
- `UploadWindow` (window.dfy) holds the loop as imperative code: `LaunchAll`, its round `Round`, the final join `JoinAll` and the whole window `RunWindow`.
  - `RunWindow` is proved against two functions: `WindowDispatch`, the parts launched, and `WindowResult`, the receipts or the first error.
  - `JoinAll` is proved against `FirstFailure` and `ReceiptsOf`.
  - `LaunchAll` and `Round` keep the predicates `Reading` and `InFlight`, which tie the launched parts to the plan and the registry to the awaited parts.
  - A task is a deferred call of the upload oracle. It is resolved when it is awaited.
- `ReceiptOrder` (receipt_order.dfy) models the finalize sort as an in-place insertion sort over an array.
  - It proves that a strictly ascending list is the only sorted arrangement of its elements.
- `MultipartUpload` (multipart.dfy) models `test_fenduan.cc`, and `PartObjectUpload` (part_objects.dfy) models `test_bingfa.cc`.
  - Each `UploadFileToS3` method returns the outcome of the call and the list of requests it sends.
  - That list puts the UploadPart or PutObject requests in launch order. The source runs them on up to `thread_count` threads at once, so it fixes only two things about the real send order: Create comes before every part, and Complete comes after the join.
  - Each is proved equal to the functions `SessionOutcome` and `SessionRequests`, and the lemmas state the properties over those functions.

Network answers are parameters, as oracle functions:
- `CreateResponse` for CreateMultipartUpload;
- `Uploader` for UploadPart, keyed by part number and body;
- `CompleteOracle` for CompleteMultipartUpload;
- `PutOracle` for PutObject, keyed by object key and body.

The file is a `SourceFile`: either `Unopenable`, or `Opened` with its bytes.

Two behaviours of the code that a reader might not expect are modelled as written:

- **Empty file, multipart:** for an empty file the loop dispatches no part, but `UploadFileToS3` still sends CompleteMultipartUpload, with an empty part list (`MultipartUpload.EmptyFileSession`).
- **Parts launched after a failure:** when part `i + 1` (counting from 1) is the first to fail, up to `thread_count - 1` parts after it may already have been launched. The launched parts are the first `min(K, i + thread_count)`.
  - With 10 units in parts of 3 and a window of 4, all four parts were launched when part 2 fails (`MultipartUpload.TenUnitsSecondPartFails`).

## Model

| member | source | states |
|---|---|---|
| PartPlanning.PlanFrom | cloud/examples/test_fenduan.cc:89-101 | defines the read loop from read position `pos`: each round reads `ReadCount` bytes into a part with the next number, and a round that reads nothing ends the loop; `PlanFromCount`, `PlanFromNumbers`, `PlanFromLengths`, `PlanFromOffsets`, `PlanFromSlices` and `PlanFromBytes` give its properties |
| PartPlanning.Plan | cloud/examples/test_bingfa.cc:63-76 | defines the parts both read loops dispatch, starting at offset 0 with the first number (1 in the multipart upload, 0 here); `PlanCount`, `PlanNumbered`, `PlanLayout` and `PlanCoversPayload` give its properties |
| PartPlanning.PlanFromCount | cloud/examples/test_fenduan.cc:89-99 | from position `pos` the loop dispatches ceil((L - pos) / part_size) parts |
| PartPlanning.PlanFromNumbers | cloud/examples/test_fenduan.cc:98-99 | from position `pos` the parts are numbered consecutively from the current part number |
| PartPlanning.PlanFromLengths | cloud/examples/test_fenduan.cc:89-91 | from position `pos` every part but the last is full, and the last holds 1 to part_size bytes and ends the payload |
| PartPlanning.PlanFromOffsets | cloud/examples/test_fenduan.cc:89-91 | from position `pos`, part k starts at pos + k * part_size |
| PartPlanning.PlanFromSlices | cloud/examples/test_fenduan.cc:89-98 | from position `pos`, every part holds exactly the payload bytes at its offset |
| PartPlanning.PlanFromBytes | cloud/examples/test_fenduan.cc:89-98 | from position `pos`, the parts laid end to end are the rest of the payload |
| PartPlanning.ReadCount | cloud/examples/test_fenduan.cc:89-91 | a read returns at most part_size bytes and never runs past the end; it returns nothing exactly at the end of the file; a short read happens only at the end |
| PartPlanning.PlanCount | cloud/examples/test_fenduan.cc:89-101 | the loop dispatches ceil(L / part_size) parts, and none exactly when the payload is empty |
| PartPlanning.PlanNumbered | cloud/examples/test_fenduan.cc:59-99 | part k (from 0) carries number first + k: consecutive numbers in dispatch order, with no gaps or repeats, from 1 in the multipart upload and from 0 in the per-object upload |
| PartPlanning.PlanLayout | cloud/examples/test_fenduan.cc:89-100 | part k starts at k * part_size and holds exactly the payload bytes from there; every part but the last is full; the last holds 1 to part_size bytes and ends the payload |
| PartPlanning.PlanCoversPayload | cloud/examples/test_fenduan.cc:89-98 | the parts laid end to end are the payload, so their lengths sum to L |
| PartPlanning.HundredInPartsOfThirtyTwo | cloud/examples/test_fenduan.cc:89-99 | 100 units in parts of 32 give four parts of 32, 32, 32 and 4 units, numbered 1 to 4 |
| PartPlanning.TenInPartsOfThree | cloud/examples/test_fenduan.cc:89-99 | 10 units in parts of 3 give four parts numbered 1 to 4, the first two holding units 0-2 and 3-5 |
| Decimal.NatToString | cloud/examples/test_bingfa.cc:44 | `to_string` of an index is a non-empty run of digits without a leading zero |
| Decimal.StringToNatOfNatToString | cloud/examples/test_bingfa.cc:44 | the decimal text of an index reads back to that index |
| Decimal.NatToStringInjective | cloud/examples/test_bingfa.cc:44 | distinct indices have distinct decimal texts |
| Decimal.LeadingDigits | cloud/examples/test_bingfa.cc:58 | the longest run of digits at the start of a text, and the character after it is not a digit |
| Decimal.LeadingDigitsOfNatToString | cloud/examples/test_bingfa.cc:58-59 | an index written in decimal and followed by ": " is read back whole as the leading digits |
| UploadWindow.FirstFailure | cloud/examples/test_fenduan.cc:93-105 | the position of the first part whose upload fails: every part before it succeeds, it fails, or it is the length when none fails |
| UploadWindow.ReceiptsOf | cloud/examples/test_fenduan.cc:74-79 | defines what the registry holds for a run of successful parts: one receipt per part, in the same order, with that part's number and the ETag its upload returned; `Round`, `JoinAll`, `ReceiptsOfAppend` and `MultipartUpload.SortedRegistryIsPlanOrder` prove the properties against it |
| UploadWindow.WindowResult | cloud/examples/test_fenduan.cc:93-105 | defines how the window ends for a plan: the receipts of every part when none fails, otherwise the number and message of the first failing part in plan order; `RunWindow` is proved equal to it |
| UploadWindow.WindowDispatch | cloud/examples/test_fenduan.cc:93-98 | the launched parts are a prefix of the plan; when part i is the first to fail, at most i + thread_count were launched |
| UploadWindow.ReceiptsOfAppend | cloud/examples/test_fenduan.cc:78-79 | the registry only grows by appending: the receipts of two runs of parts are the receipts of the first followed by those of the second |
| UploadWindow.JoinAll | cloud/examples/test_fenduan.cc:103-105 | the final join awaits the remaining tasks in launch order; it stops at the first failing one and returns the receipts of those before it |
| UploadWindow.Round | cloud/examples/test_fenduan.cc:89-99 | one read round with a full window awaits only the oldest task; on success it erases that task, appends exactly its receipt and launches the part just read; with a free slot it launches the part and the registry is unchanged; a failed await stops with the state unchanged |
| UploadWindow.QueueIsNewestRun | cloud/examples/test_fenduan.cc:93-98 | the queue holds the newest tasks, a contiguous ascending run of part numbers ending at the most recent dispatch |
| UploadWindow.LaunchAll | cloud/examples/test_fenduan.cc:86-101 | the read loop launches parts of the plan in order, keeps min(thread_count, launched) tasks in flight, and either reads to the end having launched the whole plan or stops because the oldest task of a full window failed |
| UploadWindow.DrainFailure | cloud/examples/test_fenduan.cc:93-95 | a failed await in the loop surfaces the first failing part of the plan, and no part was launched after it beyond the full window |
| UploadWindow.JoinFailure | cloud/examples/test_fenduan.cc:103-105 | a failure in the final join surfaces the first failing part of the plan, after the whole plan was launched |
| UploadWindow.JoinSuccess | cloud/examples/test_fenduan.cc:103-105 | a final join without error leaves the receipts of the whole plan, in plan order |
| UploadWindow.RunWindow | cloud/examples/test_fenduan.cc:86-105 | the whole window: its result is the plan's receipts or its first error; the launched parts are the plan up to the window bound; awaits happen in launch order; on success every launched task was awaited exactly once; on failure the awaits stop at the first failing part; no more than thread_count tasks are ever in flight |
| ReceiptOrder.InsertIntoPrefix | cloud/examples/test_fenduan.cc:115-118 | one pass of the sort: with `a[..i]` sorted, moving `a[i]` down leaves `a[..i + 1]` sorted, keeps the array a permutation of what it held and leaves `a[i + 1..]` untouched |
| ReceiptOrder.SortByPartNumber | cloud/examples/test_fenduan.cc:115-118 | sorting the registry in place leaves it in non-decreasing part-number order and a permutation of what it held |
| ReceiptOrder.SortedArrangementIsUnique | cloud/examples/test_fenduan.cc:115-118 | a strictly ascending list is the only sorted permutation of its elements, so the sort's result does not depend on the order in which the receipts were appended |
| MultipartUpload.PartErrorMessage | cloud/examples/test_fenduan.cc:81-82 | defines the message `upload_part` throws: "Failed to upload part: " followed by the store's message; `PartsFailOutcome` and `FailedSessionOutcome` show that it is the outcome of a failed part |
| MultipartUpload.PartsOutcome | cloud/examples/test_fenduan.cc:86-130 | defines how the call ends once the file is open: the first part error, or the complete response for the receipts; `UploadParts` is proved equal to it, and `PartsSucceedOutcome`, `PartsFailOutcome` and `CompletedIff` describe it |
| MultipartUpload.PartsRequests | cloud/examples/test_fenduan.cc:86-124 | defines the requests sent once the file is open: UploadPart for each launched part, then Complete only when no part failed; `UploadParts` is proved equal to it, and `PartsSucceedRequests`, `PartsFailRequests` and `PartsRequestsSend` describe it |
| MultipartUpload.SessionOutcome | cloud/examples/test_fenduan.cc:37-130 | defines how the whole call ends: initiate failure, open failure, or the parts' outcome; `UploadFileToS3` is proved equal to it, and `CompletedIff`, `FailedSessionOutcome` and `InitiateFailureIgnoresFile` describe it |
| MultipartUpload.SessionRequests | cloud/examples/test_fenduan.cc:37-124 | defines every request of the whole call: Create, then, if initiate succeeded and the file opened, the parts' requests; `UploadFileToS3` is proved equal to it, and `CompleteSentIffAllPartsUploaded`, `SuccessfulSession` and `FailedSessionRequests` describe it |
| MultipartUpload.UploadRequests | cloud/examples/test_fenduan.cc:62-73 | one UploadPart request per launched part, in launch order, carrying bucket, key, upload id, part number and the part's bytes |
| MultipartUpload.ReceiptsAscending | cloud/examples/test_fenduan.cc:74-79 | the receipts of a plan numbered from `first` are strictly ascending, receipt k naming part first + k |
| MultipartUpload.SortRegistry | cloud/examples/test_fenduan.cc:115-121 | finalize copies the registry into an array and sorts it in place; the result is sorted by part number and a permutation of the registry |
| MultipartUpload.SortedRegistryIsPlanOrder | cloud/examples/test_fenduan.cc:103-122 | when every part succeeded, sorting a registry that holds the receipts of parts 1..K in any order gives exactly those receipts in ascending order: K entries numbered 1..K |
| MultipartUpload.UploadParts | cloud/examples/test_fenduan.cc:86-130 | once the file is open, the outcome and the requests sent are those the window, the sort and the complete response determine |
| MultipartUpload.UploadFileToS3 | cloud/examples/test_fenduan.cc:29-130 | the outcome and the request trace of the whole call: initiate, open, the window, finalize |
| MultipartUpload.NoFailureJoinsAll | cloud/examples/test_fenduan.cc:103-105 | with no failing part the whole plan is launched and joined, leaving the plan's receipts |
| MultipartUpload.PartsSucceedRequests | cloud/examples/test_fenduan.cc:98-124 | with every part accepted, the requests after Create are UploadPart for the whole plan followed by one Complete carrying the plan's receipts |
| MultipartUpload.PartsFailRequests | cloud/examples/test_fenduan.cc:93-104 | when part i is the first to fail, only UploadPart requests are sent, for the first min(K, i + thread_count) parts |
| MultipartUpload.PartsFailOutcome | cloud/examples/test_fenduan.cc:80-82 | the first failing part's answer is a failure, and the call ends with "Failed to upload part: " followed by its message |
| MultipartUpload.PartsRequestsSend | cloud/examples/test_fenduan.cc:94-124 | after Create, a Complete is sent exactly when every part uploaded, and an Abort never |
| MultipartUpload.CompleteSentIffAllPartsUploaded | cloud/examples/test_fenduan.cc:40-124 | CompleteMultipartUpload is sent exactly when initiate succeeded, the file opened and every part uploaded; AbortMultipartUpload is never sent |
| MultipartUpload.SuccessfulSession | cloud/examples/test_fenduan.cc:37-124 | with every part accepted the trace is Create, UploadPart for parts 1..K (listed in launch order), then one Complete with the plan's receipts |
| MultipartUpload.CompletedPartList | cloud/examples/test_fenduan.cc:109-122 | that Complete's part list has ceil(L / part_size) entries, strictly ascending, entry k naming part k + 1 with the ETag its upload returned |
| MultipartUpload.FailedSessionRequests | cloud/examples/test_fenduan.cc:93-104 | when part i is the first to fail, the trace is Create and UploadPart for the first min(K, i + thread_count) parts, and nothing else |
| MultipartUpload.FailedSessionOutcome | cloud/examples/test_fenduan.cc:80-82 | when part i + 1 is the first to fail, the call ends with that part's upload error |
| MultipartUpload.CompletedIff | cloud/examples/test_fenduan.cc:124-130 | the call completes exactly when initiate succeeds, the file opens, every part uploads and the complete request is accepted |
| MultipartUpload.InitiateFailureIgnoresFile | cloud/examples/test_fenduan.cc:40-45 | a failed initiate returns before the file is opened: outcome and trace are the same whatever the file, and the trace is only the Create request |
| MultipartUpload.EmptyFileSession | cloud/examples/test_fenduan.cc:89-124 | an empty file sends Create and then a Complete with an empty part list, and no UploadPart |
| MultipartUpload.HundredUnitsCompleteInOrder | cloud/examples/test_fenduan.cc:86-122 | 100 units in parts of 32, all accepted: four UploadPart requests, then a Complete whose parts are numbered 1, 2, 3, 4 |
| MultipartUpload.TenUnitsSecondPartFails | cloud/examples/test_fenduan.cc:93-104 | 10 units in parts of 3 with a window of 4 and part 2 rejected: parts 1 to 4 were sent, there is no Complete and no Abort, and the call ends with part 2's error |
| MultipartUpload.TenUnitsRequests | cloud/examples/test_fenduan.cc:93-98 | the trace of that call is Create and UploadPart for parts 1 to 4 |
| PartObjectUpload.PartKey | cloud/examples/test_bingfa.cc:44 | defines the object key of part `index`: object_key + "_part_" + the decimal text of the index; `PartKeyIndex` and `PartKeysDistinct` give its properties |
| PartObjectUpload.PartFailureMessage | cloud/examples/test_bingfa.cc:58-59 | defines the message thrown for a failed part: "Failed to upload part ", the decimal index, ": " and the store's message; `FailureMessageNamesPart` gives its properties |
| PartObjectUpload.PartAnswer | cloud/examples/test_bingfa.cc:53-60 | defines what the task for part `index` yields: success when PutObject under that part's key succeeds, otherwise the failure message naming the index; `FailedSessionOutcome` uses it |
| PartObjectUpload.PartsOutcome | cloud/examples/test_bingfa.cc:63-80 | defines how the call ends once the file is open: the window's first error, or success; `PartsFailOutcome` describes it |
| PartObjectUpload.SessionOutcome | cloud/examples/test_bingfa.cc:34-80 | defines how the whole call ends: open failure, or the parts' outcome; `UploadFileToS3` is proved equal to it, and `SuccessfulSession` and `FailedSessionOutcome` describe it |
| PartObjectUpload.SessionRequests | cloud/examples/test_bingfa.cc:34-76 | defines every PutObject the call sends: one per part the window launched; `UploadFileToS3` is proved equal to it, and `RequestsStorePartsByIndex`, `SuccessfulSession` and `FailedSessionRequests` describe it |
| PartObjectUpload.PutRequests | cloud/examples/test_bingfa.cc:46-53 | one PutObject request per launched part |
| PartObjectUpload.PutRequestsAt | cloud/examples/test_bingfa.cc:44-53 | PutObject k stores part k's bytes under the key made from that part's index |
| PartObjectUpload.UploadFileToS3 | cloud/examples/test_bingfa.cc:24-81 | the outcome and the PutObject trace of the whole call: open, the window, the join |
| PartObjectUpload.PartKeysDistinct | cloud/examples/test_bingfa.cc:44 | distinct indices give distinct object keys, so no part overwrites another |
| PartObjectUpload.PartKeyIndex | cloud/examples/test_bingfa.cc:44 | the key is object_key + "_part_" followed by digits that read back to the index |
| PartObjectUpload.FailureMessageNamesPart | cloud/examples/test_bingfa.cc:58-59 | the failure message is "Failed to upload part ", the decimal index (read back whole), ": " and the store's message |
| PartObjectUpload.PutRequestsByIndex | cloud/examples/test_bingfa.cc:41-74 | over a plan numbered from 0, PutObject k stores part k under the key for index k, and the keys are pairwise distinct |
| PartObjectUpload.RequestsStorePartsByIndex | cloud/examples/test_bingfa.cc:41-76 | in a whole call, request k stores the k-th slice of the file under the key for index k, and no two requests share a key |
| PartObjectUpload.SuccessfulSession | cloud/examples/test_bingfa.cc:63-80 | with every PutObject accepted the call finishes having sent one PutObject per part, ceil(L / part_size) in all |
| PartObjectUpload.PartsFailOutcome | cloud/examples/test_bingfa.cc:57-59 | over any plan, when part i is the first to fail the call ends with that part's error |
| PartObjectUpload.FailedSessionOutcome | cloud/examples/test_bingfa.cc:53-80 | when part i is the first whose PutObject fails, the call ends in failure with the message naming index i |
| PartObjectUpload.FailedSessionRequests | cloud/examples/test_bingfa.cc:68-74 | ... and only the first min(K, i + thread_count) parts were sent |
| PartObjectUpload.PartsFailRequests | cloud/examples/test_bingfa.cc:68-74 | over any plan, when part i is the first to fail, PutObject is sent for the first min(K, i + thread_count) parts |
| PartObjectUpload.EmptyFileSession | cloud/examples/test_bingfa.cc:63-80 | an empty file finishes without sending any PutObject |

## Left out

- Threads, `std::async` and the mutexes are not modelled. Tasks are deferred oracle calls, resolved one at a time when awaited, in launch order.
  - When `get()` throws, the destructors of the leftover futures still wait for their tasks. The model records that by counting every launched part's request as sent.
  - It does not model the order in which the tasks really finish.
- The request lists in `SessionRequests`, `PartsRequests` and `PutRequests` put the UploadPart and PutObject requests in launch order. In the source they are sent from up to `thread_count` threads at once, so their real order is not modelled. Only Create before the parts and Complete after the join are fixed by the source.
- UploadWindow.ReceiptsOf: the receipts in the model are appended when a task is awaited, not when it finishes. In the source the registry's order depends on thread timing. The finalize lemma `ReceiptOrder.SortedArrangementIsUnique` holds for every arrival order.
- The AWS SDK calls are oracle parameters: CreateMultipartUpload, UploadPart, PutObject, CompleteMultipartUpload, and InitAPI/ShutdownAPI. AbortMultipartUpload appears only as a request kind that the function never sends.
- File I/O is reduced to a `SourceFile` value. The stream's failure modes beyond "could not open" are not modelled.
- `std::chrono` timing, the throughput arithmetic in `double` and all console output are left out. So is the printing of initiate and complete errors, which the outcome records instead.
- UploadFileToS3: `partSize > 0` and `threadCount > 0` are preconditions.
  - With a part size of 0 the read loop never ends.
  - With a thread count of 0 the window calls `front()` on an empty vector.
- `size_t` overflow of the part counter is not modelled. Integers are unbounded.
- PartObjectUpload.PartAnswer: a successful PutObject leaves no receipt, so it is modelled as an upload with an empty ETag.
- `GenerateFile`, `main` and the constants in `main` are configuration and file generation, and are not part of this model.
- `cloud/examples/test_time.cc` and `cloud/examples/cloud_durable_example.cc` are not part of this model.
