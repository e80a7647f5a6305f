/**
 * The bounded window both `UploadFileToS3` functions run over the parts.
 *
 * Each read round copies the bytes into a buffer and launches one task for
 * them; `futures` keeps the launched tasks in launch order. When it already
 * holds `thread_count` tasks, the OLDEST one is awaited (`futures.front().get()`)
 * and erased before the next launch. After the last read every remaining task is
 * awaited in order. A task that failed rethrows its error from `get()`: no
 * further part is launched, though the tasks already launched still run to
 * the end while their futures are destroyed.
 *
 * A task is a deferred call of the upload oracle: it is resolved when it is
 * awaited. A successful resolution leaves a receipt (part number and ETag) in
 * the registry, which only ever grows by appending.
 */
module UploadWindow {
  import opened PartPlanning

  /** What one part upload answered: an ETag, or an error message. */
  datatype PartResult = Uploaded(etag: string) | Failed(message: string)

  /** One entry of the completion registry. */
  datatype Receipt = Receipt(number: nat, etag: string)

  /** How the window ended: every task joined, or the first error `get()` rethrew. */
  datatype JoinResult = AllJoined(receipts: seq<Receipt>) | PartError(number: nat, message: string)

  /** The remote store's answer to uploading a part body under a part number. */
  type Uploader = (nat, seq<byte>) -> PartResult

  predicate Succeeds(upload: Uploader, p: Part)
  {
    upload(p.number, p.data).Uploaded?
  }

  predicate AllSucceed(upload: Uploader, parts: seq<Part>)
  {
    forall j :: 0 <= j < |parts| ==> Succeeds(upload, parts[j])
  }

  /** The position of the first part whose upload fails, or |parts| when none does. */
  function FirstFailure(upload: Uploader, parts: seq<Part>): (i: nat)
    ensures i <= |parts|
    ensures forall j :: 0 <= j < i ==> Succeeds(upload, parts[j])
    ensures i < |parts| ==> !Succeeds(upload, parts[i])
  {
    if parts == [] || !Succeeds(upload, parts[0]) then 0
    else 1 + FirstFailure(upload, parts[1..])
  }

  /** The receipts of the given parts, one per part and in the same order. */
  function ReceiptsOf(upload: Uploader, parts: seq<Part>): (rs: seq<Receipt>)
    requires AllSucceed(upload, parts)
    ensures |rs| == |parts|
    ensures forall j :: 0 <= j < |parts| ==>
      rs[j] == Receipt(parts[j].number, upload(parts[j].number, parts[j].data).etag)
  {
    seq(|parts|, j requires 0 <= j < |parts| => Receipt(parts[j].number, upload(parts[j].number, parts[j].data).etag))
  }

  /** What the window reports for a plan: the receipts of all parts, or the first failure. */
  function WindowResult(upload: Uploader, plan: seq<Part>): JoinResult
  {
    var i := FirstFailure(upload, plan);
    if i == |plan| then AllJoined(ReceiptsOf(upload, plan))
    else PartError(plan[i].number, upload(plan[i].number, plan[i].data).message)
  }

  /**
   * The parts launched before the window stops. With no failure that is the
   * whole plan; when part i fails, nothing after position i + threadCount - 1
   * has been launched, because part i is awaited before the (i + threadCount)-th launch.
   */
  function WindowDispatch(upload: Uploader, plan: seq<Part>, threadCount: nat): (launched: seq<Part>)
    ensures launched <= plan
    ensures FirstFailure(upload, plan) < |plan| ==> |launched| <= FirstFailure(upload, plan) + threadCount
  {
    var i := FirstFailure(upload, plan);
    if i == |plan| then plan else plan[..Min(|plan|, i + threadCount)]
  }

  lemma {:induction false} FirstFailureAfter(upload: Uploader, done: seq<Part>, rest: seq<Part>)
    requires AllSucceed(upload, done)
    ensures FirstFailure(upload, done + rest) == |done| + FirstFailure(upload, rest)
    decreases |done|
  {
    if done != [] {
      assert (done + rest)[1..] == done[1..] + rest;
      FirstFailureAfter(upload, done[1..], rest);
    } else {
      assert done + rest == rest;
    }
  }

  lemma {:induction false} ReceiptsOfAppend(upload: Uploader, done: seq<Part>, rest: seq<Part>)
    requires AllSucceed(upload, done + rest)
    ensures AllSucceed(upload, done) && AllSucceed(upload, rest)
    ensures ReceiptsOf(upload, done + rest) == ReceiptsOf(upload, done) + ReceiptsOf(upload, rest)
  {
    var all := done + rest;
    assert forall j :: 0 <= j < |done| ==> all[j] == done[j];
    assert forall j :: 0 <= j < |rest| ==> all[|done| + j] == rest[j];
  }

  /**
   * The final join: `for (auto& future : futures) future.get();` awaits the
   * remaining tasks in launch order and stops at the first one that throws.
   * `failedAt` is that task's position, or |futures| when all succeed.
   */
  method JoinAll(upload: Uploader, futures: seq<Part>) returns (failedAt: nat, receipts: seq<Receipt>)
    ensures failedAt == FirstFailure(upload, futures)
    ensures receipts == ReceiptsOf(upload, futures[..failedAt])
  {
    receipts := [];
    var k := 0;
    while k < |futures|
      invariant 0 <= k <= |futures|
      invariant AllSucceed(upload, futures[..k])
      invariant receipts == ReceiptsOf(upload, futures[..k])
    {
      var task := futures[k];
      var r := upload(task.number, task.data);
      if r.Failed? {
        FirstFailureAfter(upload, futures[..k], futures[k..]);
        assert futures[..k] + futures[k..] == futures;
        return k, receipts;
      }
      assert futures[..k + 1] == futures[..k] + [task];
      ReceiptsOfAppend(upload, futures[..k], [task]);
      receipts := receipts + [Receipt(task.number, r.etag)];
      k := k + 1;
    }
    assert futures[..k] == futures;
    FirstFailureAfter(upload, futures, []);
    assert futures + [] == futures;
    return k, receipts;
  }

  /** The read loop has launched exactly the plan's parts before read position `pos`. */
  ghost predicate ReadUpTo(payload: seq<byte>, partSize: nat, first: nat, pos: nat, launched: seq<Part>)
  {
    && partSize > 0 && pos <= |payload|
    && launched + PlanFrom(payload, partSize, pos, first + |launched|) == Plan(payload, partSize, first)
  }

  /**
   * The window between two rounds: the awaited tasks come first and all
   * succeeded, the others are in flight in `futures` (at most `threadCount`,
   * and exactly `threadCount` once that many have been launched), and the
   * registry holds one receipt per awaited task, in the order they were awaited.
   */
  ghost predicate InFlight(threadCount: nat, upload: Uploader, launched: seq<Part>, awaited: seq<Part>,
                           futures: seq<Part>, registry: seq<Receipt>)
  {
    && launched == awaited + futures
    && |futures| == Min(threadCount, |launched|)
    && AllSucceed(upload, awaited)
    && registry == ReceiptsOf(upload, awaited)
  }

  /** One read round: the bytes at `pos` become the next part of the plan. */
  lemma ReadStep(payload: seq<byte>, partSize: nat, first: nat, pos: nat, launched: seq<Part>)
    requires ReadUpTo(payload, partSize, first, pos, launched) && ReadCount(|payload|, pos, partSize) > 0
    ensures var n := ReadCount(|payload|, pos, partSize);
      ReadUpTo(payload, partSize, first, pos + n, launched + [Part(first + |launched|, pos, payload[pos..pos + n])])
    ensures launched <= Plan(payload, partSize, first) && |launched| < |Plan(payload, partSize, first)|
  {
    var n := ReadCount(|payload|, pos, partSize);
    var part := Part(first + |launched|, pos, payload[pos..pos + n]);
    var rest := PlanFrom(payload, partSize, pos + n, first + |launched| + 1);
    assert PlanFrom(payload, partSize, pos, first + |launched|) == [part] + rest;
    assert launched + ([part] + rest) == (launched + [part]) + rest;
  }

  /** The read that finds nothing: the whole plan has been launched. */
  lemma EndOfInput(payload: seq<byte>, partSize: nat, first: nat, pos: nat, launched: seq<Part>)
    requires ReadUpTo(payload, partSize, first, pos, launched) && ReadCount(|payload|, pos, partSize) == 0
    ensures launched == Plan(payload, partSize, first)
  {
    assert PlanFrom(payload, partSize, pos, first + |launched|) == [];
    assert launched + [] == launched;
  }

  /** A launch into a free slot. */
  lemma LaunchIntoFreeSlot(threadCount: nat, upload: Uploader, launched: seq<Part>, awaited: seq<Part>,
                           futures: seq<Part>, registry: seq<Receipt>, part: Part)
    requires InFlight(threadCount, upload, launched, awaited, futures, registry) && |futures| < threadCount
    ensures InFlight(threadCount, upload, launched + [part], awaited, futures + [part], registry)
  {
    assert launched + [part] == awaited + (futures + [part]);
  }

  /** A full window whose oldest task succeeded: it is erased, its receipt registered, and the next part launched. */
  lemma LaunchAfterDrain(threadCount: nat, upload: Uploader, launched: seq<Part>, awaited: seq<Part>,
                         futures: seq<Part>, registry: seq<Receipt>, part: Part)
    requires InFlight(threadCount, upload, launched, awaited, futures, registry)
    requires |futures| >= threadCount > 0 && Succeeds(upload, futures[0])
    ensures InFlight(threadCount, upload, launched + [part], awaited + [futures[0]], futures[1..] + [part],
                     registry + [Receipt(futures[0].number, upload(futures[0].number, futures[0].data).etag)])
  {
    var oldest := futures[0];
    assert (awaited + [oldest])[..|awaited|] == awaited;
    assert forall j :: 0 <= j < |awaited| + 1 ==> (awaited + [oldest])[j] == if j < |awaited| then awaited[j] else oldest;
    assert futures == [oldest] + futures[1..];
    assert launched + [part] == (awaited + [oldest]) + (futures[1..] + [part]);
  }

  /** The state of the read loop between two rounds. */
  ghost predicate Reading(payload: seq<byte>, partSize: nat, threadCount: nat, first: nat, upload: Uploader,
                          pos: nat, launched: seq<Part>, awaited: seq<Part>, futures: seq<Part>,
                          registry: seq<Receipt>)
  {
    && ReadUpTo(payload, partSize, first, pos, launched)
    && InFlight(threadCount, upload, launched, awaited, futures, registry)
  }

  /**
   * One round of the read loop after a read of `n > 0` bytes at `pos`: if the
   * window is full, await the oldest task and erase it (stopping if it
   * failed), then launch the part just read.
   */
  method Round(payload: seq<byte>, partSize: nat, threadCount: nat, first: nat, upload: Uploader,
               pos: nat, n: nat, partNumber: nat, launched: seq<Part>, futures: seq<Part>,
               registry: seq<Receipt>, ghost awaited: seq<Part>)
    returns (failed: bool, launched': seq<Part>, futures': seq<Part>, registry': seq<Receipt>,
             ghost awaited': seq<Part>)
    requires threadCount > 0
    requires Reading(payload, partSize, threadCount, first, upload, pos, launched, awaited, futures, registry)
    requires n == ReadCount(|payload|, pos, partSize) > 0 && partNumber == first + |launched|
    ensures failed ==>
      && launched' == launched && futures' == futures && registry' == registry && awaited' == awaited
      && launched <= Plan(payload, partSize, first) && |launched| < |Plan(payload, partSize, first)|
      && |futures| == threadCount && !Succeeds(upload, futures[0])
    ensures !failed ==>
      && Reading(payload, partSize, threadCount, first, upload, pos + n, launched', awaited', futures', registry')
      && |launched'| == |launched| + 1 && |futures| <= |futures'|
      && launched' == launched + [Part(partNumber, pos, payload[pos..pos + n])]
    ensures !failed && |futures| >= threadCount ==>
      && futures' == futures[1..] + [Part(partNumber, pos, payload[pos..pos + n])]
      && awaited' == awaited + [futures[0]] && Succeeds(upload, futures[0])
      && registry' == registry + [Receipt(futures[0].number, upload(futures[0].number, futures[0].data).etag)]
    ensures !failed && |futures| < threadCount ==>
      && futures' == futures + [Part(partNumber, pos, payload[pos..pos + n])]
      && awaited' == awaited && registry' == registry
  {
    var part := Part(partNumber, pos, payload[pos..pos + n]);
    ReadStep(payload, partSize, first, pos, launched);
    if |futures| >= threadCount {
      var oldest := futures[0];
      var r := upload(oldest.number, oldest.data);
      if r.Failed? {
        return true, launched, futures, registry, awaited;
      }
      LaunchAfterDrain(threadCount, upload, launched, awaited, futures, registry, part);
      awaited' := awaited + [oldest];
      registry' := registry + [Receipt(oldest.number, r.etag)];
      futures' := futures[1..] + [part];
    } else {
      LaunchIntoFreeSlot(threadCount, upload, launched, awaited, futures, registry, part);
      awaited', registry' := awaited, registry;
      futures' := futures + [part];
    }
    launched' := launched + [part];
    failed := false;
  }

  /**
   * The queue holds the newest tasks: a contiguous run of part numbers that
   * ends at the most recent dispatch.
   */
  lemma {:induction false} QueueIsNewestRun(payload: seq<byte>, partSize: nat, threadCount: nat, first: nat,
                                            upload: Uploader, launched: seq<Part>, awaited: seq<Part>,
                                            futures: seq<Part>, registry: seq<Receipt>)
    requires partSize > 0 && launched <= Plan(payload, partSize, first)
    requires InFlight(threadCount, upload, launched, awaited, futures, registry)
    ensures futures == launched[|awaited|..]
    ensures NumberedFrom(futures, first + |awaited|)
    ensures futures != [] ==> futures[|futures| - 1].number == first + |launched| - 1
  {
    var plan := Plan(payload, partSize, first);
    PlanNumbered(payload, partSize, first);
    assert launched[|awaited|..] == futures;
    forall k | 0 <= k < |futures|
      ensures futures[k].number == first + |awaited| + k
    {
      assert futures[k] == launched[|awaited| + k] == plan[|awaited| + k];
    }
  }

  /**
   * The read loop with the window, up to (not including) the final join.
   * It either stops because `get()` on the oldest task threw (`drainFailed`),
   * or reads to the end of the payload having launched the whole plan.
   */
  method LaunchAll(payload: seq<byte>, partSize: nat, threadCount: nat, first: nat, upload: Uploader)
    returns (drainFailed: bool, launched: seq<Part>, futures: seq<Part>, registry: seq<Receipt>,
             ghost awaited: seq<Part>, ghost maxInFlight: nat)
    requires partSize > 0 && threadCount > 0
    ensures InFlight(threadCount, upload, launched, awaited, futures, registry)
    ensures launched <= Plan(payload, partSize, first)
    ensures maxInFlight == |futures|
    ensures !drainFailed ==> launched == Plan(payload, partSize, first)
    ensures drainFailed ==>
      && |launched| < |Plan(payload, partSize, first)|
      && |futures| == threadCount
      && !Succeeds(upload, futures[0])
  {
    var pos := 0;
    var partNumber := first;
    futures, registry := [], [];
    launched, awaited, maxInFlight := [], [], 0;
    var bytesRead := ReadCount(|payload|, pos, partSize);
    while bytesRead > 0
      invariant Reading(payload, partSize, threadCount, first, upload, pos, launched, awaited, futures, registry)
      invariant bytesRead == ReadCount(|payload|, pos, partSize)
      invariant partNumber == first + |launched|
      invariant maxInFlight == |futures|
      decreases |payload| - pos
    {
      var failed;
      failed, launched, futures, registry, awaited :=
        Round(payload, partSize, threadCount, first, upload, pos, bytesRead, partNumber, launched, futures, registry, awaited);
      if failed {
        return true, launched, futures, registry, awaited, maxInFlight;
      }
      if |futures| > maxInFlight {
        maxInFlight := |futures|;
      }
      partNumber := partNumber + 1;
      pos := pos + bytesRead;
      bytesRead := ReadCount(|payload|, pos, partSize);
    }
    EndOfInput(payload, partSize, first, pos, launched);
    drainFailed := false;
  }

  /** `get()` on the oldest task threw while the window was full. */
  lemma DrainFailure(upload: Uploader, plan: seq<Part>, launched: seq<Part>, awaited: seq<Part>,
                     futures: seq<Part>, threadCount: nat)
    requires launched == awaited + futures && launched <= plan && |launched| < |plan|
    requires |futures| == threadCount > 0
    requires AllSucceed(upload, awaited) && !Succeeds(upload, futures[0])
    ensures FirstFailure(upload, plan) == |awaited|
    ensures WindowResult(upload, plan)
         == PartError(futures[0].number, upload(futures[0].number, futures[0].data).message)
    ensures WindowDispatch(upload, plan, threadCount) == launched
    ensures awaited + [futures[0]] <= launched
  {
    assert forall j :: 0 <= j < |awaited| ==> plan[j] == launched[j] == awaited[j];
    assert plan[|awaited|] == launched[|awaited|] == futures[0];
    assert |awaited| + threadCount == |launched|;
  }

  /** The final join stopped at the task at position `failedAt` of `futures`. */
  lemma JoinFailure(upload: Uploader, plan: seq<Part>, awaited: seq<Part>, futures: seq<Part>,
                    threadCount: nat, failedAt: nat)
    requires plan == awaited + futures && |futures| <= threadCount
    requires AllSucceed(upload, awaited) && failedAt == FirstFailure(upload, futures) < |futures|
    ensures FirstFailure(upload, plan) == |awaited| + failedAt
    ensures WindowDispatch(upload, plan, threadCount) == plan
    ensures WindowResult(upload, plan)
         == PartError(futures[failedAt].number, upload(futures[failedAt].number, futures[failedAt].data).message)
    ensures awaited + futures[..failedAt + 1] <= plan
  {
    FirstFailureAfter(upload, awaited, futures);
    assert plan[|awaited| + failedAt] == futures[failedAt];
    assert plan[..|awaited| + failedAt + 1] == awaited + futures[..failedAt + 1];
  }

  /** The final join awaited every remaining task without an error. */
  lemma JoinSuccess(upload: Uploader, plan: seq<Part>, awaited: seq<Part>, futures: seq<Part>,
                    threadCount: nat, receipts: seq<Receipt>)
    requires plan == awaited + futures
    requires AllSucceed(upload, awaited) && FirstFailure(upload, futures) == |futures|
    requires receipts == ReceiptsOf(upload, futures[..|futures|])
    ensures WindowDispatch(upload, plan, threadCount) == plan
    ensures WindowResult(upload, plan) == AllJoined(ReceiptsOf(upload, awaited) + receipts)
  {
    FirstFailureAfter(upload, awaited, futures);
    assert futures[..|futures|] == futures;
    assert forall j :: 0 <= j < |plan| ==> plan[j] == if j < |awaited| then awaited[j] else futures[j - |awaited|];
    ReceiptsOfAppend(upload, awaited, futures);
  }

  /**
   * The read loop, the window and the final join. `launched` lists the tasks in
   * launch order, `awaited` the tasks in the order their `get()` returned or
   * threw, and `maxInFlight` the largest number of tasks ever held in `futures`.
   */
  method RunWindow(payload: seq<byte>, partSize: nat, threadCount: nat, first: nat, upload: Uploader)
    returns (result: JoinResult, launched: seq<Part>, ghost awaited: seq<Part>, ghost maxInFlight: nat)
    requires partSize > 0 && threadCount > 0
    ensures result == WindowResult(upload, Plan(payload, partSize, first))
    ensures launched == WindowDispatch(upload, Plan(payload, partSize, first), threadCount)
    ensures awaited <= launched
    ensures result.AllJoined? ==> awaited == launched
    ensures result.PartError? ==> |awaited| == FirstFailure(upload, Plan(payload, partSize, first)) + 1
    ensures maxInFlight == Min(threadCount, |launched|)
  {
    ghost var plan := Plan(payload, partSize, first);
    var drainFailed, futures, registry;
    drainFailed, launched, futures, registry, awaited, maxInFlight := LaunchAll(payload, partSize, threadCount, first, upload);
    if drainFailed {
      var oldest := futures[0];
      DrainFailure(upload, plan, launched, awaited, futures, threadCount);
      awaited := awaited + [oldest];
      result := PartError(oldest.number, upload(oldest.number, oldest.data).message);
      return;
    }
    var failedAt, receipts := JoinAll(upload, futures);
    if failedAt < |futures| {
      var failed := futures[failedAt];
      JoinFailure(upload, plan, awaited, futures, threadCount, failedAt);
      awaited := awaited + futures[..failedAt + 1];
      result := PartError(failed.number, upload(failed.number, failed.data).message);
    } else {
      JoinSuccess(upload, plan, awaited, futures, threadCount, receipts);
      awaited := awaited + futures;
      result := AllJoined(registry + receipts);
    }
  }
}
