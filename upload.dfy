/**
 * The request handler `uploadMultipart` as an object: its local variables
 * are fields, and each callback the stream or S3 triggers is a method that
 * updates them. Each method is proved to perform the corresponding step of
 * `UploadState`, so every property proved there about runs holds of any
 * sequence of calls.
 */
module Upload {

  import opened Chunking
  import opened Parts
  import opened UploadState

  /** What the handler answers: a status code, or nothing at all. */
  datatype Response = NoResponse | Status(code: nat)

  /** The outcome of CreateMultipartUpload. */
  datatype Initiation = InitiateFailed | Initiated(uploadId: string)

  class MultipartUpload {
    /** The id S3 returned when the upload was initiated. */
    const uploadId: string
    /** The number the next chunk will take. */
    var partNumber: nat
    /** The `{PartNumber, ETag}` records of the parts that uploaded. */
    var uploadedParts: seq<Part>
    /** The uploads not yet removed, each named by its part number. */
    var uploadQueue: seq<nat>
    /** Chunks whose 'data' handler is suspended at the admission wait, in arrival order. */
    var waiting: seq<seq<Byte>>
    /** Part numbers whose upload promise rejected (those entries stay queued). */
    var rejected: set<nat>
    /** Whether the stream emitted 'end'. */
    var ended: bool
    /** The queue as it was at 'end': the uploads the end handler waits for. */
    var endSnapshot: seq<nat>
    /** Whether the end handler went on to sort the records and call CompleteMultipartUpload. */
    var completed: bool

    /** Every chunk the stream delivered, in order. */
    ghost var arrived: seq<seq<Byte>>
    /** bodies[i] is the chunk uploaded as part i + 1. */
    ghost var bodies: seq<seq<Byte>>
    /** The tag each successful part upload returned. */
    ghost var tags: map<nat, string>
    /** The parts that had failed when the stream ended. */
    ghost var failedBeforeEnd: set<nat>

    /** The fields as a value. */
    ghost function Abs(): State
      reads this
    {
      State(partNumber, uploadedParts, uploadQueue, waiting, rejected, ended, endSnapshot,
            completed, arrived, bodies, tags, failedBeforeEnd)
    }

    ghost predicate Valid()
      reads this
    {
      Inv(Abs())
    }

    /** After CreateMultipartUpload: `partNumber = 1`, no records, an empty queue (uploadFile.js:43-45). */
    constructor (uploadId: string)
      ensures Valid() && Abs() == Initial()
      ensures this.uploadId == uploadId
    {
      this.uploadId := uploadId;
      partNumber := 1;
      uploadedParts := [];
      uploadQueue := [];
      waiting := [];
      rejected := {};
      ended := false;
      endSnapshot := [];
      completed := false;
      arrived := [];
      bodies := [];
      tags := map[];
      failedBeforeEnd := {};
      new;
      InitialInv();
    }

    /** A 'data' chunk arrives (uploadFile.js:72-84). */
    method OnData(chunk: seq<Byte>) returns (a: Admission)
      requires Valid() && !ended
      modifies this
      ensures Valid()
      ensures a == Admit(old(Abs()))
      ensures Abs() == AfterData(old(Abs()), chunk)
    {
      DataKeepsInv(Abs(), chunk);
      a := TakeChunk(chunk);
    }

    /**
     * The field updates of the 'data' handler: the admission check, then
     * numbering and queueing (uploadFile.js:73-83). It has no counterpart of
     * its own in the source: `OnData` is that handler, and the updates are
     * kept apart from the invariant proof only to keep each proof small.
     */
    method TakeChunk(chunk: seq<Byte>) returns (a: Admission)
      requires !ended
      modifies this
      ensures a == Admit(old(Abs()))
      ensures Abs() == AfterData(old(Abs()), chunk)
    {
      arrived := arrived + [chunk];
      if |uploadQueue| < MAX_CONCURRENT_UPLOADS {
        // no wait: take the current number, increment it, queue the upload
        a := Uploading(partNumber);
        uploadQueue := uploadQueue + [partNumber];
        bodies := bodies + [chunk];
        partNumber := partNumber + 1;
      } else if rejected == {} {
        // `await Promise.race(uploadQueue)` with every entry still pending
        a := Waiting;
        waiting := waiting + [chunk];
      } else {
        // the race settles at once with the rejected entry: the handler throws
        a := Dropped;
      }
    }

    /**
     * The upload of part n resolves with an ETag (uploadFile.js:59-65, 80-82); the
     * suspended handlers resume and return the numbers they took.
     */
    method OnPartUploaded(n: nat, eTag: string) returns (resumed: seq<nat>)
      requires Valid() && Pending(Abs(), n)
      modifies this
      ensures Valid()
      ensures resumed == NextNumbers(old(partNumber), |old(waiting)|)
      ensures Abs() == AfterUploaded(old(Abs()), n, eTag)
    {
      UploadedKeepsInv(Abs(), n, eTag);
      resumed := RecordPart(n, eTag);
    }

    /**
     * The field updates on a part's success: the success path of
     * `uploadNextPart` (uploadFile.js:59-65) and the filter that follows it
     * (uploadFile.js:80-82), then the suspended handlers resuming in turn,
     * each taking the next number (uploadFile.js:77-83). It has no
     * counterpart of its own in the source: `OnPartUploaded` is that
     * callback, and the updates are kept apart from the invariant proof only
     * to keep each proof small.
     */
    method RecordPart(n: nat, eTag: string) returns (resumed: seq<nat>)
      requires Pending(Abs(), n)
      modifies this
      ensures resumed == NextNumbers(old(partNumber), |old(waiting)|)
      ensures Abs() == AfterUploaded(old(Abs()), n, eTag)
    {
      resumed := NextNumbers(partNumber, |waiting|);
      uploadedParts := uploadedParts + [Part(n, eTag)];
      tags := tags[n := eTag];
      uploadQueue := Without(uploadQueue, n) + resumed;
      bodies := bodies + waiting;
      partNumber := partNumber + |waiting|;
      waiting := [];
    }

    /** The upload of part n rejects (uploadFile.js:66-69) and is rethrown as an error naming the part. */
    method OnPartFailed(n: nat) returns (err: Error)
      requires Valid() && Pending(Abs(), n)
      modifies this
      ensures Valid()
      ensures err == PartError(n)
      ensures Abs() == AfterFailed(old(Abs()), n)
      ensures n in endSnapshot ==> Blocked(Abs()) && !SnapshotSettled(Abs())
    {
      FailedKeepsInv(Abs(), n);
      err := PartError(n);
      rejected := rejected + {n};
      waiting := [];
      if n in endSnapshot {
        assert n in Entries(uploadQueue);
      }
    }

    /** The stream emits 'end' (uploadFile.js:86-87): the end handler waits for the uploads queued now. */
    method OnEnd()
      requires Valid() && !ended
      modifies this
      ensures Valid()
      ensures Abs() == AfterEnd(old(Abs()))
      ensures old(rejected) != {} ==> Blocked(Abs())
    {
      EndKeepsInv(Abs());
      if rejected != {} {
        FailureBeforeEndBlocks(Abs());
      }
      ended := true;
      endSnapshot := uploadQueue;
      failedBeforeEnd := rejected;
    }

    /**
     * `Promise.all` resolved (uploadFile.js:87): the records are sorted in place by part
     * number (uploadFile.js:91) and sent to CompleteMultipartUpload (uploadFile.js:93-103); a 200 follows
     * only if that call succeeds (uploadFile.js:103-105). When every queued upload has
     * succeeded, what is sent is exactly parts 1..N in order, each with its
     * own tag, and their bodies are the chunks in arrival order.
     */
    method OnAllSettled(completeOk: bool) returns (sent: seq<Part>, response: Response)
      requires Valid() && SnapshotSettled(Abs()) && !completed
      modifies this
      ensures Valid()
      ensures Abs() == AfterCompletion(old(Abs()))
      ensures sent == uploadedParts
      ensures StrictlySorted(sent) && multiset(sent) == multiset(old(uploadedParts))
      ensures failedBeforeEnd == {}
      ensures response == (if completeOk then Status(200) else NoResponse)
      ensures old(Drained(Abs())) ==> CompletionExact(Abs())
    {
      ghost var s := Abs();
      SettledMeansNoEarlyFailure(s);
      CompletionKeepsInv(s);
      SortKeepsNumbering(uploadedParts, uploadQueue, partNumber);
      if uploadQueue == [] {
        DrainedCompletionIsExact(s);
      }
      uploadedParts := SortByPartNumber(uploadedParts);
      completed := true;
      sent := uploadedParts;
      response := if completeOk then Status(200) else NoResponse;
    }
  }

  /**
   * The request handler up to the point where the stream takes over
   * (uploadFile.js:20-41): a path that does not exist gets a 400 before any call to S3;
   * a failing CreateMultipartUpload lands in the catch and gets a 500
   * (uploadFile.js:108-111); otherwise the upload state starts out empty and the response
   * waits for the end handler.
   */
  method StartUpload(pathExists: bool, initiation: Initiation)
    returns (initiateCalled: bool, response: Response, upload: MultipartUpload?)
    ensures initiateCalled == pathExists
    ensures !pathExists ==> response == Status(400) && upload == null
    ensures pathExists && initiation.InitiateFailed? ==> response == Status(500) && upload == null
    ensures pathExists && initiation.Initiated? ==>
      && response == NoResponse
      && upload != null && fresh(upload) && upload.Valid()
      && upload.uploadId == initiation.uploadId
      && upload.Abs() == Initial()
  {
    if !pathExists {
      return false, Status(400), null;
    }
    initiateCalled := true;
    match initiation
    case InitiateFailed =>
      response, upload := Status(500), null;
    case Initiated(id) =>
      response := NoResponse;
      upload := new MultipartUpload(id);
  }
}
