/**
 * What `uploadMultipart` keeps for one multipart upload, and how each event
 * it reacts to changes it. JavaScript runs a callback to completion, with
 * the promise reactions it triggers, before the next I/O event, so each
 * event here is one atomic step; a run is any sequence of enabled events,
 * which stands for every interleaving the real timing could produce.
 */
module UploadState {

  import opened Chunking
  import opened Parts

  /** At or above this many queued uploads a new chunk first waits for one to settle (uploadFile.js:47). */
  const MAX_CONCURRENT_UPLOADS: nat := 20

  /** What became of one data chunk when its handler ran. */
  datatype Admission =
    | Uploading(partNumber: nat)  // took this part number and was queued at once
    | Waiting                     // suspended at the admission wait
    | Dropped                     // the wait rejected at once, so the handler threw

  /** The error a failed part upload is rethrown as, naming the part (uploadFile.js:68). */
  datatype Error = PartError(partNumber: nat)

  /**
   * `partNumber`, `uploadedParts` and `uploadQueue` are the handler's own
   * variables (uploadFile.js:43-45); a queue entry stands for the upload promise of the
   * part it names. The other fields are the runtime's share of the state:
   * the chunks whose 'data' handler is suspended at the admission wait, the
   * uploads whose promise rejected, whether 'end' was emitted, the queue as
   * the end handler's `Promise.all` saw it, and whether the end handler went
   * on to completion. The last four fields are history kept for the proofs.
   */
  datatype State = State(
    partNumber: nat,
    uploadedParts: seq<Part>,
    uploadQueue: seq<nat>,
    waiting: seq<seq<Byte>>,
    rejected: set<nat>,
    ended: bool,
    endSnapshot: seq<nat>,
    completed: bool,
    arrived: seq<seq<Byte>>,           // every chunk the stream delivered, in order
    bodies: seq<seq<Byte>>,            // bodies[i] was uploaded as part i + 1
    tags: map<nat, string>,            // the tag each successful part upload returned
    failedBeforeEnd: set<nat>)         // the uploads that had failed when 'end' came

  /** Right after CreateMultipartUpload returned an id (uploadFile.js:43-45). */
  function Initial(): State
  {
    State(1, [], [], [], {}, false, [], false, [], [], map[], {})
  }

  /** The invariant every reachable state keeps. */
  ghost predicate Inv(s: State)
  {
    && |s.bodies| == s.partNumber - 1
    && WellNumbered(s.uploadedParts, s.uploadQueue, s.partNumber)
    // every record carries the tag its own upload returned
    && (forall p :: p in s.uploadedParts ==> p.partNumber in s.tags && s.tags[p.partNumber] == p.eTag)
    // a rejected upload is never removed from the queue
    && s.rejected <= Entries(s.uploadQueue)
    // handlers only wait while the queue is full of pending uploads
    && (s.waiting != [] ==> |s.uploadQueue| >= MAX_CONCURRENT_UPLOADS && s.rejected == {})
    // without a failure, every chunk is numbered or waiting, in arrival order
    && (s.rejected == {} ==> s.bodies + s.waiting == s.arrived)
    && s.failedBeforeEnd <= s.rejected
    && (s.ended ==> s.failedBeforeEnd <= Entries(s.endSnapshot))
    && (!s.ended ==> s.endSnapshot == [] && s.failedBeforeEnd == {} && !s.completed)
  }

  /** Part n's upload is queued and has not settled. */
  predicate Pending(s: State, n: nat)
  {
    n in s.uploadQueue && n !in s.rejected
  }

  /** The end handler's `Promise.all(uploadQueue)` has resolved: every upload queued at 'end' succeeded. */
  predicate SnapshotSettled(s: State)
  {
    s.ended && forall n :: n in s.endSnapshot ==> n !in s.uploadQueue
  }

  /** Every upload ever queued has succeeded, including those queued after 'end'. */
  predicate Drained(s: State)
  {
    s.ended && s.uploadQueue == []
  }

  /** An upload the end handler waits for has failed, so its `Promise.all` rejects. */
  predicate Blocked(s: State)
  {
    exists n :: n in s.endSnapshot && n in s.rejected
  }

  /**
   * The 'data' handler's admission check (uploadFile.js:73-75): below the limit the chunk
   * is numbered at once; otherwise it waits on `Promise.race(uploadQueue)`,
   * which rejects at once when a queued upload has already failed.
   */
  function Admit(s: State): Admission
  {
    if |s.uploadQueue| < MAX_CONCURRENT_UPLOADS then Uploading(s.partNumber)
    else if s.rejected == {} then Waiting
    else Dropped
  }

  /** A chunk arrives (uploadFile.js:72-84): it takes the current number, which is then incremented, and is queued. */
  function AfterData(s: State, chunk: seq<Byte>): State
  {
    var s' := s.(arrived := s.arrived + [chunk]);
    match Admit(s)
    case Uploading(n) =>
      s'.(partNumber := n + 1, uploadQueue := s.uploadQueue + [n], bodies := s.bodies + [chunk])
    case Waiting => s'.(waiting := s.waiting + [chunk])
    case Dropped => s'
  }

  /**
   * Part n's upload resolves with a tag (uploadFile.js:59-65): the record is appended and
   * the entry filtered out of the queue (uploadFile.js:80-82). That settles the race the
   * suspended handlers wait on, so each in turn takes the next number and
   * is queued (uploadFile.js:77-83), without checking the queue length again.
   */
  function AfterUploaded(s: State, n: nat, eTag: string): State
  {
    s.(uploadedParts := s.uploadedParts + [Part(n, eTag)],
       tags := s.tags[n := eTag],
       uploadQueue := Without(s.uploadQueue, n) + NextNumbers(s.partNumber, |s.waiting|),
       bodies := s.bodies + s.waiting,
       partNumber := s.partNumber + |s.waiting|,
       waiting := [])
  }

  /**
   * Part n's upload rejects (uploadFile.js:66-69): nothing is recorded and its entry
   * stays queued. The suspended handlers' races reject with it, so their
   * chunks are dropped.
   */
  function AfterFailed(s: State, n: nat): State
  {
    s.(rejected := s.rejected + {n}, waiting := [])
  }

  /** 'end' (uploadFile.js:86-87): the end handler waits for the uploads queued at this moment. */
  function AfterEnd(s: State): State
  {
    s.(ended := true, endSnapshot := s.uploadQueue, failedBeforeEnd := s.rejected)
  }

  /** `Promise.all` resolved: the records are sorted in place (uploadFile.js:91) and completion is sent (uploadFile.js:93-103). */
  function AfterCompletion(s: State): State
  {
    s.(uploadedParts := SortByPartNumber(s.uploadedParts), completed := true)
  }

  datatype Event =
    | Data(chunk: seq<Byte>)
    | Uploaded(partNumber: nat, eTag: string)
    | Failed(partNumber: nat)
    | End
    | AllSettled

  /**
   * What a completion sent after every upload succeeded promises: the
   * records are parts 1..N in order, N being the number of chunks
   * numbered, each with the tag its own upload returned, and the bodies
   * uploaded are the stream's chunks in arrival order.
   */
  ghost predicate CompletionExact(s: State)
  {
    && |s.uploadedParts| == s.partNumber - 1
    && (forall i :: 0 <= i < |s.uploadedParts| ==>
          && s.uploadedParts[i].partNumber == i + 1
          && s.uploadedParts[i].partNumber in s.tags
          && s.tags[s.uploadedParts[i].partNumber] == s.uploadedParts[i].eTag)
    && s.bodies == s.arrived
  }

  /** When each event can happen. */
  predicate Enabled(s: State, e: Event)
  {
    match e
    case Data(_) => !s.ended
    case Uploaded(n, _) => Pending(s, n)
    case Failed(n) => Pending(s, n)
    case End => !s.ended
    case AllSettled => SnapshotSettled(s) && !s.completed
  }

  function Step(s: State, e: Event): State
  {
    match e
    case Data(chunk) => AfterData(s, chunk)
    case Uploaded(n, eTag) => AfterUploaded(s, n, eTag)
    case Failed(n) => AfterFailed(s, n)
    case End => AfterEnd(s)
    case AllSettled => AfterCompletion(s)
  }

  /** The state after the events, in order. */
  function Run(s: State, events: seq<Event>): State
    decreases |events|
  {
    if events == [] then s else Run(Step(s, events[0]), events[1..])
  }

  /** Every event is enabled when its turn comes. */
  predicate Allowed(s: State, events: seq<Event>)
    decreases |events|
  {
    events == [] || (Enabled(s, events[0]) && Allowed(Step(s, events[0]), events[1..]))
  }

  /** Running two lists of events one after the other is running their concatenation. */
  lemma {:induction false} RunAppend(s: State, a: seq<Event>, b: seq<Event>)
    ensures Run(s, a + b) == Run(Run(s, a), b)
    ensures Allowed(s, a + b) <==> Allowed(s, a) && Allowed(Run(s, a), b)
    decreases |a|
  {
    if a != [] {
      assert (a + b)[0] == a[0] && (a + b)[1..] == a[1..] + b;
      RunAppend(Step(s, a[0]), a[1..], b);
    } else {
      assert a + b == b;
    }
  }

  /** One event after a run. */
  lemma RunSnoc(s: State, a: seq<Event>, e: Event)
    ensures Run(s, a + [e]) == Step(Run(s, a), e)
    ensures Allowed(s, a + [e]) <==> Allowed(s, a) && Enabled(Run(s, a), e)
  {
    RunAppend(s, a, [e]);
    assert [e][1..] == [];
  }

  /** The chunks the events deliver, in order. */
  function Chunks(events: seq<Event>): seq<seq<Byte>>
  {
    if events == [] then []
    else (if events[0].Data? then [events[0].chunk] else []) + Chunks(events[1..])
  }

  // ---------------------------------------------------------------------
  // The invariant

  lemma InitialInv()
    ensures Inv(Initial())
  {
    assert PartRange(0) == {};
    assert NumberSet([]) == {};
  }

  lemma DataKeepsInv(s: State, chunk: seq<Byte>)
    requires Inv(s) && !s.ended
    ensures Inv(AfterData(s, chunk))
  {
    if Admit(s).Uploading? {
      PushKeepsNumbering(s.uploadedParts, s.uploadQueue, s.partNumber);
      assert Entries(s.uploadQueue) <= Entries(s.uploadQueue + [s.partNumber]);
    }
  }

  lemma UploadedKeepsInv(s: State, n: nat, eTag: string)
    requires Inv(s) && Pending(s, n)
    ensures Inv(AfterUploaded(s, n, eTag))
  {
    var rest := Without(s.uploadQueue, n);
    var resumed := NextNumbers(s.partNumber, |s.waiting|);
    assert WellNumbered(s.uploadedParts + [Part(n, eTag)], rest + resumed, s.partNumber + |resumed|) by {
      RecordKeepsNumbering(s.uploadedParts, s.uploadQueue, s.partNumber, n, eTag);
      PushManyKeepsNumbering(s.uploadedParts + [Part(n, eTag)], rest, s.partNumber, |resumed|);
    }
    assert s.rejected <= Entries(rest + resumed) by {
      assert Entries(rest) == Entries(s.uploadQueue) - {n};
      assert Entries(rest) <= Entries(rest + resumed);
    }
    forall p | p in s.uploadedParts ensures p.partNumber != n {
      assert p.partNumber in NumberSet(s.uploadedParts);
    }
  }

  lemma FailedKeepsInv(s: State, n: nat)
    requires Inv(s) && Pending(s, n)
    ensures Inv(AfterFailed(s, n))
  {
  }

  lemma EndKeepsInv(s: State)
    requires Inv(s) && !s.ended
    ensures Inv(AfterEnd(s))
  {
  }

  lemma CompletionKeepsInv(s: State)
    requires Inv(s) && s.ended
    ensures Inv(AfterCompletion(s))
  {
    var r := SortByPartNumber(s.uploadedParts);
    SortKeepsNumbering(s.uploadedParts, s.uploadQueue, s.partNumber);
    forall p | p in r ensures p in s.uploadedParts {
      assert p in multiset(r);
    }
  }

  lemma StepKeepsInv(s: State, e: Event)
    requires Inv(s) && Enabled(s, e)
    ensures Inv(Step(s, e))
  {
    match e
    case Data(chunk) => DataKeepsInv(s, chunk);
    case Uploaded(n, eTag) => UploadedKeepsInv(s, n, eTag);
    case Failed(n) => FailedKeepsInv(s, n);
    case End => EndKeepsInv(s);
    case AllSettled => CompletionKeepsInv(s);
  }

  /** Every state reachable from the initial one keeps the invariant. */
  lemma {:induction false} RunKeepsInv(s: State, events: seq<Event>)
    requires Inv(s) && Allowed(s, events)
    ensures Inv(Run(s, events))
    decreases |events|
  {
    if events != [] {
      StepKeepsInv(s, events[0]);
      RunKeepsInv(Step(s, events[0]), events[1..]);
    }
  }

  // ---------------------------------------------------------------------
  // Numbering

  /**
   * The counter only moves forward and a number, once given to a chunk,
   * keeps that chunk: the bodies uploaded so far stay a prefix.
   */
  lemma StepNumbersForward(s: State, e: Event)
    requires Inv(s) && Enabled(s, e)
    ensures s.partNumber <= Step(s, e).partNumber
    ensures s.bodies <= Step(s, e).bodies
    ensures NumberSet(s.uploadedParts) <= NumberSet(Step(s, e).uploadedParts)
    ensures multiset(s.uploadedParts) <= multiset(Step(s, e).uploadedParts)
  {
    if e.AllSettled? {
      SameNumbers(SortByPartNumber(s.uploadedParts), s.uploadedParts);
    } else if e.Uploaded? {
      assert NumberSet(Step(s, e).uploadedParts) == NumberSet(s.uploadedParts) + {e.partNumber};
    }
  }

  /** Only a 'data' event adds to the chunks delivered. */
  lemma StepArrived(s: State, e: Event)
    ensures Step(s, e).arrived == s.arrived + (if e.Data? then [e.chunk] else [])
  {
  }

  /** The stream's chunks are the arrived chunks, in order. */
  lemma {:induction false} RunArrived(s: State, events: seq<Event>)
    ensures Run(s, events).arrived == s.arrived + Chunks(events)
    decreases |events|
  {
    if events != [] {
      var e := events[0];
      var head := if e.Data? then [e.chunk] else [];
      StepArrived(s, e);
      assert Run(s, events).arrived == Run(Step(s, e), events[1..]).arrived;
      RunArrived(Step(s, e), events[1..]);
      assert Chunks(events) == head + Chunks(events[1..]);
      assert s.arrived + head + Chunks(events[1..]) == s.arrived + (head + Chunks(events[1..]));
    }
  }

  /**
   * In a run without a failed upload, chunk i of the stream gets part
   * number i + 1, or still waits to be numbered: numbers are handed out
   * 1, 2, 3, ... in arrival order.
   */
  lemma NumberedInArrivalOrder(events: seq<Event>)
    requires Allowed(Initial(), events)
    requires Run(Initial(), events).rejected == {}
    ensures var s := Run(Initial(), events);
      s.bodies + s.waiting == Chunks(events) && |s.bodies| == s.partNumber - 1
  {
    InitialInv();
    RunKeepsInv(Initial(), events);
    RunArrived(Initial(), events);
  }

  // ---------------------------------------------------------------------
  // Completion

  /**
   * `Promise.all` over the snapshot resolves only if no upload queued at
   * 'end' failed, so a part that failed before 'end' rules completion out.
   */
  lemma SettledMeansNoEarlyFailure(s: State)
    requires Inv(s) && SnapshotSettled(s)
    ensures s.failedBeforeEnd == {}
    ensures !Blocked(s)
  {
    assert Entries(s.endSnapshot) !! Entries(s.uploadQueue);
  }

  /** A failure before 'end' blocks the end handler as soon as 'end' comes. */
  lemma FailureBeforeEndBlocks(s: State)
    requires Inv(s) && !s.ended && s.rejected != {}
    ensures Blocked(AfterEnd(s))
  {
    var n :| n in s.rejected;
    assert n in Entries(s.uploadQueue);
  }

  /** One step keeps a rejected upload of the snapshot where it is, and completion stays disabled. */
  lemma StepKeepsBlocked(s: State, e: Event, n: nat)
    requires Inv(s) && n in s.endSnapshot && n in s.rejected && Enabled(s, e)
    ensures n in Step(s, e).endSnapshot && n in Step(s, e).rejected
    ensures !e.AllSettled?
  {
    assert n in Entries(s.uploadQueue);
  }

  /** Once blocked, always blocked: a rejected upload stays queued and the snapshot is fixed. */
  lemma {:induction false} BlockedForever(s: State, events: seq<Event>)
    requires Inv(s) && Blocked(s) && Allowed(s, events)
    ensures Blocked(Run(s, events)) && !SnapshotSettled(Run(s, events))
    ensures AllSettled !in events
    decreases |events|
  {
    var n :| n in s.endSnapshot && n in s.rejected;
    if events == [] {
      assert n in Entries(s.uploadQueue);
    } else {
      StepKeepsInv(s, events[0]);
      StepKeepsBlocked(s, events[0], n);
      BlockedForever(Step(s, events[0]), events[1..]);
      assert events == [events[0]] + events[1..];
    }
  }

  /**
   * Over every run: if a part upload failed before 'end', completion is
   * never sent, whatever happens after 'end'.
   */
  lemma NoCompletionAfterEarlyFailure(before: seq<Event>, after: seq<Event>)
    requires Allowed(Initial(), before + [End] + after)
    requires Run(Initial(), before).rejected != {}
    ensures AllSettled !in after
  {
    RunAppend(Initial(), before + [End], after);
    RunSnoc(Initial(), before, End);
    var s := Run(Initial(), before);
    InitialInv();
    RunKeepsInv(Initial(), before);
    FailureBeforeEndBlocks(s);
    EndKeepsInv(s);
    BlockedForever(AfterEnd(s), after);
  }

  /** A part the end handler waits for that fails rules completion out for good. */
  lemma NoCompletionAfterSnapshotFailure(s: State, n: nat, after: seq<Event>)
    requires Inv(s) && Pending(s, n) && n in s.endSnapshot
    requires Allowed(AfterFailed(s, n), after)
    ensures AllSettled !in after
  {
    FailedKeepsInv(s, n);
    assert Blocked(AfterFailed(s, n));
    BlockedForever(AfterFailed(s, n), after);
  }

  /**
   * With nothing queued any more, the records sorted for completion are
   * exactly parts 1..N in order, each with the tag its own upload returned,
   * and their bodies are the stream's chunks in arrival order.
   */
  lemma DrainedCompletionIsExact(s: State)
    requires Inv(s) && s.uploadQueue == []
    ensures s.rejected == {} && s.waiting == [] && s.bodies == s.arrived
    ensures CompletionExact(AfterCompletion(s))
  {
    DrainedHasNoFailure(s);
    SortedIsConsecutive(s.uploadedParts, s.partNumber);
  }

  /** With nothing queued, no upload failed and no handler waits, so every chunk was numbered. */
  lemma DrainedHasNoFailure(s: State)
    requires Inv(s) && s.uploadQueue == []
    ensures s.rejected == {} && s.waiting == [] && s.bodies == s.arrived
  {
    assert Entries(s.uploadQueue) == {};
    assert s.bodies + [] == s.bodies;
  }

  /**
   * End to end, under the stream assumption, for a completion gated on
   * every upload having drained: in a drained state where completion has
   * not been sent yet, completion is enabled, and it sends exactly parts
   * 1..ceil(size / 5 MiB) in order, each with its own tag, whose bodies
   * concatenate to the file.
   */
  lemma DrainedUploadIsFile(file: seq<Byte>, events: seq<Event>)
    requires Allowed(Initial(), events)
    requires Chunks(events) == Split(file, PART_SIZE)
    requires Drained(Run(Initial(), events)) && !Run(Initial(), events).completed
    ensures var s := Run(Initial(), events);
      var done := AfterCompletion(s);
      && Enabled(s, AllSettled)
      && CompletionExact(done)
      && |done.uploadedParts| == CeilDiv(|file|, PART_SIZE)
      && Flatten(done.bodies) == file
  {
    var s := Run(Initial(), events);
    InitialInv();
    RunKeepsInv(Initial(), events);
    RunArrived(Initial(), events);
    assert Initial().arrived == [];
    assert s.arrived == Split(file, PART_SIZE);
    DrainedCompletionIsExact(s);
    assert s.bodies == Split(file, PART_SIZE);
  }
}
