/**
 * Concrete runs of the handler, each proved to be a run the events allow.
 * They show the limit on concurrent uploads being exceeded, completion
 * being sent while a numbered part is still uploading, parts that succeed
 * out of order being sent in order, and a failed part keeping the end
 * handler from ever completing.
 */
module Scenarios {

  import opened Chunking
  import opened Parts
  import opened UploadState

  /** k 'data' events, each delivering chunk c. */
  function Arrivals(k: nat, c: seq<Byte>): seq<Event>
  {
    seq(k, i => Data(c))
  }

  /** Parts from, from + 1, ... succeeding in that order, all with tag eTag. */
  function Successes(from: nat, count: nat, eTag: string): seq<Event>
  {
    seq(count, i requires 0 <= i => Uploaded(from + i, eTag))
  }

  /** The records of parts 1..count, all with tag eTag. */
  function Records(count: nat, eTag: string): seq<Part>
  {
    seq(count, i requires 0 <= i => Part(i + 1, eTag))
  }

  function Copies(k: nat, c: seq<Byte>): seq<seq<Byte>>
  {
    seq(k, i => c)
  }

  /** Up to the limit, every chunk is numbered and queued as it arrives. */
  lemma {:induction false} FillToLimit(k: nat, c: seq<Byte>)
    requires k <= MAX_CONCURRENT_UPLOADS
    ensures Allowed(Initial(), Arrivals(k, c))
    ensures Run(Initial(), Arrivals(k, c)) ==
      Initial().(partNumber := k + 1, uploadQueue := NextNumbers(1, k),
                 arrived := Copies(k, c), bodies := Copies(k, c))
  {
    if k > 0 {
      FillToLimit(k - 1, c);
      assert Arrivals(k, c) == Arrivals(k - 1, c) + [Data(c)];
      RunSnoc(Initial(), Arrivals(k - 1, c), Data(c));
      assert NextNumbers(1, k - 1) + [k] == NextNumbers(1, k);
      assert Copies(k - 1, c) + [c] == Copies(k, c);
    }
  }

  /** Past the limit, with no upload settled, every further chunk waits. */
  lemma {:induction false} BeyondLimit(w: nat, c: seq<Byte>)
    ensures Allowed(Initial(), Arrivals(MAX_CONCURRENT_UPLOADS + w, c))
    ensures Run(Initial(), Arrivals(MAX_CONCURRENT_UPLOADS + w, c)) ==
      Initial().(partNumber := 21, uploadQueue := NextNumbers(1, 20),
                 arrived := Copies(20 + w, c), bodies := Copies(20, c), waiting := Copies(w, c))
  {
    if w == 0 {
      FillToLimit(20, c);
    } else {
      BeyondLimit(w - 1, c);
      var k := MAX_CONCURRENT_UPLOADS + w;
      assert Arrivals(k, c) == Arrivals(k - 1, c) + [Data(c)];
      RunSnoc(Initial(), Arrivals(k - 1, c), Data(c));
      assert Copies(k - 1, c) + [c] == Copies(k, c);
      assert Copies(w - 1, c) + [c] == Copies(w, c);
    }
  }

  /** The front entry of an increasing queue is removed by dropping it. */
  lemma FilterFront(q: seq<nat>)
    requires Increasing(q) && q != []
    ensures Without(q, q[0]) == q[1..]
  {
    WithoutOnly(q, 0);
  }

  /**
   * 22 chunks arrive while no upload has settled: 20 are queued and 2 wait.
   * When part 1 succeeds both waiting handlers resume without checking the
   * length again, so 21 uploads are in flight.
   */
  lemma QueueCanExceedLimit(c: seq<Byte>, eTag: string)
    ensures var events := Arrivals(22, c) + [Uploaded(1, eTag)];
      && Allowed(Initial(), events)
      && |Run(Initial(), events).uploadQueue| == MAX_CONCURRENT_UPLOADS + 1
  {
    BeyondLimit(2, c);
    var s := Run(Initial(), Arrivals(22, c));
    RunSnoc(Initial(), Arrivals(22, c), Uploaded(1, eTag));
    FilterFront(s.uploadQueue);
  }

  /** With parts 1..j recorded, part j + 1 is at the front of the queue and succeeds. */
  lemma SettleFront(s: State, j: nat, eTag: string)
    requires 1 <= j <= 19
    requires s.uploadQueue == NextNumbers(1 + j, 20 - j) + [21] && s.rejected <= {21} && s.waiting == []
    requires s.uploadedParts == Records(j, eTag)
    ensures Pending(s, 1 + j)
    ensures var r := AfterUploaded(s, 1 + j, eTag);
      && r.uploadQueue == NextNumbers(2 + j, 19 - j) + [21]
      && r.uploadedParts == Records(1 + j, eTag)
      && r.rejected == s.rejected && r.waiting == [] && r.partNumber == s.partNumber
      && r.ended == s.ended && r.endSnapshot == s.endSnapshot && r.completed == s.completed
      && r.arrived == s.arrived
  {
    DropFront(j);
    RecordsSnoc(j, eTag);
    assert NextNumbers(s.partNumber, |s.waiting|) == [];
  }

  /** Filtering part j + 1 from the front of the queue 1 + j, ..., 20, 21. */
  lemma DropFront(j: nat)
    requires 1 <= j <= 19
    ensures var q := NextNumbers(1 + j, 20 - j) + [21];
      1 + j in q && Without(q, 1 + j) == NextNumbers(2 + j, 19 - j) + [21]
  {
    var q := NextNumbers(1 + j, 20 - j) + [21];
    assert q[0] == 1 + j;
    assert 1 + j !in q[1..];
    WithoutAbsent(q[1..], 1 + j);
    assert Without(q, 1 + j) == q[1..];
    assert q[1..] == NextNumbers(2 + j, 19 - j) + [21];
  }

  lemma RecordsSnoc(j: nat, eTag: string)
    ensures Records(j, eTag) + [Part(1 + j, eTag)] == Records(1 + j, eTag)
  {
  }

  /** Parts 2..j + 1 succeed in order after part 1; part 21 stays queued. */
  lemma {:induction false} SettleInOrder(s: State, j: nat, eTag: string)
    requires j <= 19
    requires s.uploadQueue == NextNumbers(2, 19) + [21] && s.rejected <= {21} && s.waiting == []
    requires s.uploadedParts == Records(1, eTag)
    ensures Allowed(s, Successes(2, j, eTag))
    ensures var r := Run(s, Successes(2, j, eTag));
      && r.uploadQueue == NextNumbers(2 + j, 19 - j) + [21]
      && r.uploadedParts == Records(1 + j, eTag)
      && r.rejected == s.rejected && r.waiting == [] && r.partNumber == s.partNumber
      && r.ended == s.ended && r.endSnapshot == s.endSnapshot && r.completed == s.completed
      && r.arrived == s.arrived
  {
    if j == 0 {
      assert Successes(2, 0, eTag) == [];
    } else {
      SettleInOrder(s, j - 1, eTag);
      var before := Successes(2, j - 1, eTag);
      var e := Uploaded(1 + j, eTag);
      assert Successes(2, j, eTag) == before + [e];
      RunSnoc(s, before, e);
      SettleFront(Run(s, before), j, eTag);
    }
  }

  /**
   * The finding. 21 chunks arrive (a file just over 100 MiB): 20 are queued
   * and the 21st waits. 'end' follows, so the end handler waits for parts
   * 1..20 only. Part 1 succeeds, which numbers and queues the waiting chunk
   * as part 21; parts 2..20 succeed and the end handler completes. No
   * upload failed, yet completion is sent with 20 records while part 21 is
   * still uploading.
   */
  lemma CompletionCanMissPart(c: seq<Byte>, eTag: string)
    ensures var events := Arrivals(21, c) + [End, Uploaded(1, eTag)] + Successes(2, 19, eTag) + [AllSettled];
      var s := Run(Initial(), events);
      && Allowed(Initial(), events)
      && s.completed && s.rejected == {}
      && |s.arrived| == 21 && s.partNumber - 1 == 21 && Pending(s, 21)
      && |s.uploadedParts| == 20 && 21 !in NumberSet(s.uploadedParts)
  {
    var a := Arrivals(21, c);
    var p := a + [End, Uploaded(1, eTag)];
    var b := Successes(2, 19, eTag);
    var s1 := LastChunkWaitsAtEnd(c, eTag);
    SettleInOrder(s1, 19, eTag);
    RunAppend(Initial(), p, b);
    var s2 := Run(s1, b);
    assert Enabled(s2, AllSettled) by {
      assert s2.endSnapshot == NextNumbers(1, 20);
      assert s2.uploadQueue == [21];
    }
    RunSnoc(Initial(), p + b, AllSettled);
    AllSettledMissesLast(s2, eTag);
  }

  /** The first 21 chunks, 'end', and part 1's success: the 21st chunk is now part 21. */
  lemma LastChunkWaitsAtEnd(c: seq<Byte>, eTag: string) returns (s1: State)
    ensures s1 == Run(Initial(), Arrivals(21, c) + [End, Uploaded(1, eTag)])
    ensures Allowed(Initial(), Arrivals(21, c) + [End, Uploaded(1, eTag)])
    ensures s1.uploadQueue == NextNumbers(2, 19) + [21] && s1.rejected == {} && s1.waiting == []
    ensures s1.uploadedParts == Records(1, eTag) && s1.endSnapshot == NextNumbers(1, 20)
    ensures s1.ended && !s1.completed && |s1.arrived| == 21 && s1.partNumber == 22
  {
    var a := Arrivals(21, c);
    BeyondLimit(1, c);
    var s0 := Run(Initial(), a);
    RunSnoc(Initial(), a, End);
    RunSnoc(Initial(), a + [End], Uploaded(1, eTag));
    assert a + [End] + [Uploaded(1, eTag)] == a + [End, Uploaded(1, eTag)];
    s1 := AfterUploaded(AfterEnd(s0), 1, eTag);
    FirstSettles(s0, eTag);
  }

  /** With parts 1..20 queued and one chunk waiting, 'end' and then part 1's success. */
  lemma FirstSettles(s0: State, eTag: string)
    requires s0.uploadQueue == NextNumbers(1, 20) && |s0.waiting| == 1
    requires s0.uploadedParts == [] && s0.partNumber == 21 && s0.rejected == {}
    ensures var s1 := AfterUploaded(AfterEnd(s0), 1, eTag);
      && s1.uploadQueue == NextNumbers(2, 19) + [21] && s1.uploadedParts == Records(1, eTag)
      && s1.endSnapshot == NextNumbers(1, 20) && s1.waiting == [] && s1.partNumber == 22
  {
    FilterFront(s0.uploadQueue);
    assert s0.uploadQueue[1..] + NextNumbers(21, 1) == NextNumbers(2, 19) + [21];
    assert [Part(1, eTag)] == Records(1, eTag);
  }

  /** Completion with parts 1..20 recorded: part 21 is not among the records sent. */
  lemma AllSettledMissesLast(s: State, eTag: string)
    requires s.uploadedParts == Records(20, eTag)
    ensures var r := AfterCompletion(s);
      |r.uploadedParts| == 20 && 21 !in NumberSet(r.uploadedParts)
  {
    var r := AfterCompletion(s);
    assert multiset(r.uploadedParts) == multiset(Records(20, eTag));
    assert |multiset(r.uploadedParts)| == |r.uploadedParts|;
    SameNumbers(r.uploadedParts, Records(20, eTag));
    assert forall p :: p in Records(20, eTag) ==> p.partNumber <= 20;
  }

  /**
   * The same root cause with a failure: part 21, numbered after 'end',
   * fails, and completion is sent all the same, although a part upload
   * failed. Nothing handles the rejection of part 21's promise: this run
   * assumes that an unhandled rejection does not end the process, which
   * under Node's default policy it would.
   */
  lemma LateFailureDoesNotBlock(c: seq<Byte>, eTag: string)
    ensures var events := Arrivals(21, c) + [End, Uploaded(1, eTag), Failed(21)] + Successes(2, 19, eTag) + [AllSettled];
      var s := Run(Initial(), events);
      && Allowed(Initial(), events)
      && s.completed && s.rejected == {21} && 21 !in NumberSet(s.uploadedParts)
  {
    var pf := Arrivals(21, c) + [End, Uploaded(1, eTag), Failed(21)];
    var f := LastPartFails(c, eTag);
    var b := Successes(2, 19, eTag);
    SettleInOrder(f, 19, eTag);
    RunAppend(Initial(), pf, b);
    var s2 := Run(f, b);
    assert Enabled(s2, AllSettled) by {
      assert s2.endSnapshot == NextNumbers(1, 20);
      assert s2.uploadQueue == [21];
    }
    RunSnoc(Initial(), pf + b, AllSettled);
    AllSettledMissesLast(s2, eTag);
  }

  /** After 'end' and part 1's success, part 21's upload, numbered after 'end', fails. */
  lemma LastPartFails(c: seq<Byte>, eTag: string) returns (f: State)
    ensures f == Run(Initial(), Arrivals(21, c) + [End, Uploaded(1, eTag), Failed(21)])
    ensures Allowed(Initial(), Arrivals(21, c) + [End, Uploaded(1, eTag), Failed(21)])
    ensures f.uploadQueue == NextNumbers(2, 19) + [21] && f.rejected == {21} && f.waiting == []
    ensures f.uploadedParts == Records(1, eTag) && f.endSnapshot == NextNumbers(1, 20)
    ensures f.ended && !f.completed
  {
    var p := Arrivals(21, c) + [End, Uploaded(1, eTag)];
    var s1 := LastChunkWaitsAtEnd(c, eTag);
    assert Pending(s1, 21);
    RunSnoc(Initial(), p, Failed(21));
    f := AfterFailed(s1, 21);
    assert p + [Failed(21)] == Arrivals(21, c) + [End, Uploaded(1, eTag), Failed(21)];
  }

  /**
   * Three chunks, then 'end', then parts succeeding in the order 3, 1, 2:
   * each event is enabled in turn, and completion sends the records sorted.
   */
  lemma OutOfOrderSuccessIsSorted(c: seq<Byte>)
    ensures var s0 := Run(Initial(), Arrivals(3, c));
      var s1 := Step(s0, End);
      var s2 := Step(s1, Uploaded(3, "c"));
      var s3 := Step(s2, Uploaded(1, "a"));
      var s4 := Step(s3, Uploaded(2, "b"));
      && Allowed(Initial(), Arrivals(3, c))
      && Enabled(s0, End) && Enabled(s1, Uploaded(3, "c")) && Enabled(s2, Uploaded(1, "a"))
      && Enabled(s3, Uploaded(2, "b")) && Enabled(s4, AllSettled)
      && Drained(s4)
      && Step(s4, AllSettled).uploadedParts == [Part(1, "a"), Part(2, "b"), Part(3, "c")]
  {
    var a := Arrivals(3, c);
    FillToLimit(3, c);
    var s0 := Run(Initial(), a);
    assert s0.uploadQueue == [1, 2, 3];
    InitialInv();
    RunKeepsInv(Initial(), a);
    ThreeOutOfOrder(s0);
  }

  /** From three queued uploads 1, 2, 3 and nothing else pending: 'end', then successes 3, 1, 2. */
  lemma ThreeOutOfOrder(s0: State)
    requires Inv(s0) && s0.uploadQueue == [1, 2, 3] && s0.partNumber == 4 && s0.tags == map[]
    requires s0.rejected == {} && s0.waiting == [] && !s0.ended && !s0.completed
    ensures var s1 := Step(s0, End);
      var s2 := Step(s1, Uploaded(3, "c"));
      var s3 := Step(s2, Uploaded(1, "a"));
      var s4 := Step(s3, Uploaded(2, "b"));
      && Enabled(s0, End) && Enabled(s1, Uploaded(3, "c")) && Enabled(s2, Uploaded(1, "a"))
      && Enabled(s3, Uploaded(2, "b")) && Enabled(s4, AllSettled)
      && Drained(s4)
      && Step(s4, AllSettled).uploadedParts == [Part(1, "a"), Part(2, "b"), Part(3, "c")]
  {
    DrainThree(s0);
    var s4 := Step(Step(Step(Step(s0, End), Uploaded(3, "c")), Uploaded(1, "a")), Uploaded(2, "b"));
    FourStepsKeepInv(s0, End, Uploaded(3, "c"), Uploaded(1, "a"), Uploaded(2, "b"));
    SortedThree(s4);
  }

  /** The invariant across four enabled events. */
  lemma FourStepsKeepInv(s0: State, e1: Event, e2: Event, e3: Event, e4: Event)
    requires Inv(s0) && Enabled(s0, e1) && Enabled(Step(s0, e1), e2)
    requires Enabled(Step(Step(s0, e1), e2), e3) && Enabled(Step(Step(Step(s0, e1), e2), e3), e4)
    ensures Inv(Step(Step(Step(Step(s0, e1), e2), e3), e4))
  {
    StepKeepsInv(s0, e1);
    StepKeepsInv(Step(s0, e1), e2);
    StepKeepsInv(Step(Step(s0, e1), e2), e3);
    StepKeepsInv(Step(Step(Step(s0, e1), e2), e3), e4);
  }

  /** The queue after each of the three successes. */
  lemma DrainThree(s0: State)
    requires s0.uploadQueue == [1, 2, 3] && s0.waiting == []
    ensures var s1 := AfterEnd(s0);
      var s2 := AfterUploaded(s1, 3, "c");
      var s3 := AfterUploaded(s2, 1, "a");
      var s4 := AfterUploaded(s3, 2, "b");
      && s1.endSnapshot == [1, 2, 3] && s2.uploadQueue == [1, 2] && s3.uploadQueue == [2]
      && s4.uploadQueue == [] && s4.tags == s0.tags[3 := "c"][1 := "a"][2 := "b"]
      && (s0.rejected == {} && !s0.ended && !s0.completed ==>
            && Enabled(s0, End) && Pending(s1, 3) && Pending(s2, 1) && Pending(s3, 2)
            && Enabled(s4, AllSettled))
  {
    DrainQueue();
  }

  /** Filtering 3, then 1, then 2 out of the queue 1, 2, 3. */
  lemma DrainQueue()
    ensures Without([1, 2, 3], 3) == [1, 2] && Without([1, 2], 1) == [2] && Without([2], 2) == []
  {
    WithoutOnly([1, 2, 3], 2);
    assert [1, 2, 3][..2] + [1, 2, 3][3..] == [1, 2];
    FilterFront([1, 2]);
    FilterFront([2]);
  }

  /** A drained state with tags a, b, c for parts 1, 2, 3 sends exactly those records. */
  lemma SortedThree(s: State)
    requires Inv(s) && s.uploadQueue == [] && s.partNumber == 4
    requires 1 in s.tags && 2 in s.tags && 3 in s.tags
    requires s.tags[1] == "a" && s.tags[2] == "b" && s.tags[3] == "c"
    ensures SortByPartNumber(s.uploadedParts) == [Part(1, "a"), Part(2, "b"), Part(3, "c")]
  {
    DrainedCompletionIsExact(s);
    var r := AfterCompletion(s).uploadedParts;
    assert |r| == 3;
    assert r[0].partNumber == 1 && r[0].eTag == s.tags[1];
    assert r[1].partNumber == 2 && r[1].eTag == s.tags[2];
    assert r[2].partNumber == 3 && r[2].eTag == s.tags[3];
    assert r[0] == Part(1, "a") && r[1] == Part(2, "b") && r[2] == Part(3, "c");
  }

  /**
   * Part 1 of two fails before 'end': whatever happens afterwards, the end
   * handler never sends completion.
   */
  lemma FailedPartBlocksCompletion(c: seq<Byte>, later: seq<Event>)
    requires Allowed(Run(Initial(), Arrivals(2, c) + [Failed(1), End]), later)
    ensures Allowed(Initial(), Arrivals(2, c) + [Failed(1), End])
    ensures AllSettled !in later
  {
    var a := Arrivals(2, c);
    FillToLimit(2, c);
    assert Run(Initial(), a).uploadQueue[0] == 1;
    RunSnoc(Initial(), a, Failed(1));
    RunSnoc(Initial(), a + [Failed(1)], End);
    assert a + [Failed(1)] + [End] == a + [Failed(1), End];
    var s := Run(Initial(), a + [Failed(1)]);
    InitialInv();
    RunKeepsInv(Initial(), a + [Failed(1)]);
    FailureBeforeEndBlocks(s);
    EndKeepsInv(s);
    BlockedForever(AfterEnd(s), later);
  }
}
