# Multipart upload handler: a verified model

This project models `uploadMultipart` in `uploadFile.js`. That request handler uploads a local file to S3 as a multipart upload. It reads the file as a stream of 5 MiB chunks and uploads each chunk as a part, holding back new chunks while 20 uploads are outstanding. When the stream ends, it sorts the collected `{PartNumber, ETag}` records and sends them to CompleteMultipartUpload.

The model has three layers:

- **`Chunking`** states the stream's chunking as an assumption.
  - `Split(bytes, 5 MiB)` returns consecutive chunks that concatenate to the file.
  - Every chunk is at most 5 MiB, and all but the last are exactly 5 MiB.
  - A file of `n` bytes gives `ceil(n / 5 MiB)` chunks, and an empty file gives none.
- **`Parts`** holds the values the handler keeps.
  - A `Part` record is a part number plus its ETag.
  - `SortByPartNumber` is the in-place sort of the records by part number.
  - `Without` is the queue's `filter`.
  - The `WellNumbered` predicate says that every number handed out so far is either a record or a queue entry, never both, and never twice.
- **`UploadState`** holds the state of one upload and one function per event.
  - A chunk arrives.
  - A part upload resolves with a tag.
  - A part upload rejects.
  - The stream emits 'end'.
  - The end handler's `Promise.all` resolves.

  An `Enabled` predicate says when each event can happen. JavaScript runs each callback, together with the promise reactions it triggers, before the next I/O event. So each event is one atomic step, and a run is any sequence of enabled events. `Run` yields the state after a run, and `Allowed` holds when every event in it was enabled in turn. The invariant `Inv` holds in every reachable state, and the lemmas about runs are stated over these functions.
- **`Upload.MultipartUpload`** is the handler as an object.
  - Its fields are the local variables `partNumber`, `uploadedParts` and `uploadQueue`.
  - It also has fields for what the JavaScript runtime holds: the suspended 'data' handlers, the rejected upload promises, and whether 'end' came.
  - It has one method per callback. Each `On…` method is one callback and is proved to perform the matching `UploadState` step, so every property of runs holds of any sequence of `On…` calls. `TakeChunk` and `RecordPart` are the bodies those callbacks run after the invariant lemma; they have the same preconditions on the event (`!ended`, a pending part) but are not callbacks themselves.
  - `Upload.StartUpload` models the request handler up to the point where the stream takes over: the 400 and 500 answers.
- **`Scenarios`** holds concrete runs. Each is proved possible, with every event enabled when its turn comes, and shows one behaviour of the code, including the finding below.

S3 is reduced to its outcomes:

- `CreateMultipartUpload` either fails or returns an id (`Initiation`).
- Each part upload either resolves with a tag (`Uploaded` event) or rejects (`Failed` event).
- `CompleteMultipartUpload` succeeds or fails (`completeOk`).

The file system is reduced to an "exists" flag and the file's bytes.

Where the code differs from what an upload service might be expected to do, the model follows the code:

- The code does not reject an empty file. `Split` gives no chunk for it, and completion is then sent with no parts.
- The code does not keep the number of uploads in flight at or below 20 (`Scenarios.QueueCanExceedLimit`).
- The code does not wait for every part before completing (see Findings).
- The code has no retry, no abort and no progress record.

## Model

| member | source | states |
|---|---|---|
| Chunking.Split | uploadFile.js:29-30 | the chunks concatenate to the file; each is non-empty and at most 5 MiB, all but the last exactly 5 MiB; there are ceil(size / 5 MiB) of them |
| Parts.Insert | uploadFile.js:91 | inserting a record into a sorted list gives a sorted list holding the same records plus the new one |
| Parts.SortByPartNumber | uploadFile.js:91 | the sorted records are ascending by part number and a permutation of the records collected |
| Parts.SortStrict | uploadFile.js:91 | when no part number occurs twice, the sorted records are strictly ascending |
| Parts.InsertStrict | uploadFile.js:91 | inserting a record whose number is new into a strictly ascending list keeps it strictly ascending |
| Parts.ConsecutiveNumbers | uploadFile.js:77-78 | a strictly ascending list whose part numbers are exactly 1..n is parts 1, 2, ..., n in this order |
| Parts.SortedIsConsecutive | uploadFile.js:91-99 | with nothing queued, the sorted records are parts 1..N in order, N = partNumber - 1, each one of the records collected |
| Parts.Without | uploadFile.js:81 | the filtered queue holds exactly the other entries, and stays in push order |
| Parts.WithoutOnly | uploadFile.js:80-82 | filtering a settled entry deletes only that entry and keeps the others in their order |
| Parts.WithoutAbsent | uploadFile.js:81 | filtering a number that is not queued leaves the queue unchanged |
| Parts.SameNumbers | uploadFile.js:91 | a permutation of the records has the same part numbers |
| Parts.PushKeepsNumbering | uploadFile.js:77-83 | taking the current number for a new upload, incrementing it and queueing the upload keeps every number 1..partNumber-1 used exactly once |
| Parts.PushManyKeepsNumbering | uploadFile.js:74-83 | handlers resuming one after another, each taking the next number, keep the numbering |
| Parts.RecordKeepsNumbering | uploadFile.js:59-82 | recording part n's success and filtering its entry keeps every number used exactly once, now as a record |
| Parts.SortKeepsNumbering | uploadFile.js:91 | sorting the records in place keeps the numbering, and the sorted list is strictly ascending |
| UploadState.Initial | uploadFile.js:43-45 | defines the state right after initiation: `partNumber = 1`, no records, an empty queue, nothing arrived, waiting or rejected |
| UploadState.Pending | uploadFile.js:80-83 | defines a pending part: its upload promise has been pushed onto the queue and has neither resolved (which would filter it out) nor rejected |
| UploadState.SnapshotSettled | uploadFile.js:86-87 | defines when the end handler's `await Promise.all(uploadQueue)` resolves: 'end' has come and every part queued at that moment has been filtered out, whatever was queued later |
| UploadState.Blocked | uploadFile.js:86-87 | defines when that `Promise.all` rejects: a part queued at 'end' has had its upload rejected |
| UploadState.Admit | uploadFile.js:73-75 | defines the admission check: below 20 queued uploads the chunk takes the current number at once; otherwise it waits on the race, or is dropped at once when a queued upload has already rejected |
| UploadState.AfterData | uploadFile.js:72-84 | defines a chunk's arrival: the chunk is delivered; if admitted it takes `partNumber`, the counter goes up by one and the number is pushed to the queue; a waiting chunk is held back; a dropped one changes nothing else |
| UploadState.AfterUploaded | uploadFile.js:59-83 | defines a part's success: `Part(n, tag)` is appended, n is filtered out of the queue, and every suspended handler resumes and takes the next number in turn, without re-checking the limit |
| UploadState.AfterFailed | uploadFile.js:66-69 | defines a part's failure: n is marked rejected, no record is appended and the queue is unchanged; the suspended handlers' races reject, so their chunks are dropped |
| UploadState.AfterEnd | uploadFile.js:86-87 | defines 'end': the end handler's `Promise.all` captures the queue as it is at this moment |
| UploadState.AfterCompletion | uploadFile.js:91-103 | defines completion: the records are sorted in place by part number and completion is sent |
| UploadState.Enabled | uploadFile.js:72-87 | defines when each event can happen: a chunk only before 'end'; a success or failure only of a queued upload that has not settled; 'end' once; completion once, after every upload in the 'end' snapshot has succeeded |
| UploadState.Step | uploadFile.js:72-105 | applies each event's step function |
| UploadState.InitialInv | uploadFile.js:43-45 | the state right after initiation (`partNumber = 1`, no records, empty queue) satisfies the invariant |
| UploadState.DataKeepsInv | uploadFile.js:72-84 | a chunk's arrival keeps the invariant, whether it is queued at once, waits, or is dropped |
| UploadState.UploadedKeepsInv | uploadFile.js:59-83 | a part's success, with the resumed handlers numbering their chunks, keeps the invariant |
| UploadState.FailedKeepsInv | uploadFile.js:66-69 | a part's failure, which records nothing and leaves the entry queued, keeps the invariant |
| UploadState.EndKeepsInv | uploadFile.js:86-87 | 'end' keeps the invariant |
| UploadState.CompletionKeepsInv | uploadFile.js:91 | the in-place sort before completion keeps the invariant |
| UploadState.StepKeepsInv | uploadFile.js:72-105 | every enabled event keeps the invariant |
| UploadState.RunKeepsInv | uploadFile.js:43-105 | every state reachable by an allowed run satisfies the invariant |
| UploadState.StepNumbersForward | uploadFile.js:77-78 | the counter never decreases, a number once given to a chunk keeps that chunk (the bodies uploaded so far stay a prefix), and no record is lost: every record, part number and ETag alike, is still in the list after the step (multiset inclusion) |
| UploadState.RunArrived | uploadFile.js:72 | the chunks delivered are the 'data' payloads of the run, in order |
| UploadState.NumberedInArrivalOrder | uploadFile.js:77-78 | in a run without a failed upload, chunk i of the stream is part i + 1, or is still waiting to be numbered |
| UploadState.SettledMeansNoEarlyFailure | uploadFile.js:87 | when `Promise.all` has resolved, no upload had failed by 'end' and none it waits for failed |
| UploadState.FailureBeforeEndBlocks | uploadFile.js:80-87 | a failure before 'end' leaves a rejected entry among those the end handler waits for |
| UploadState.StepKeepsBlocked | uploadFile.js:80-87 | a rejected upload the end handler waits for stays rejected and waited for, and completion is not enabled |
| UploadState.BlockedForever | uploadFile.js:80-87 | once the end handler waits for a rejected upload, no later event is the completion |
| UploadState.NoCompletionAfterEarlyFailure | uploadFile.js:86-103 | in every run, if a part failed before 'end', completion is never sent after it |
| UploadState.NoCompletionAfterSnapshotFailure | uploadFile.js:86-103 | if a part the end handler waits for fails, completion is never sent after it |
| UploadState.DrainedHasNoFailure | uploadFile.js:66-82 | once no upload is queued, none failed (a failed entry is never filtered), no handler waits, and every chunk was numbered |
| UploadState.DrainedCompletionIsExact | uploadFile.js:91-99 | once no upload is queued, no part failed, and completion sends parts 1..N in order, each with its own tag, whose bodies are the stream's chunks in arrival order |
| UploadState.DrainedUploadIsFile | uploadFile.js:30-99 | under the chunking assumption, at a drained state where completion has not yet been sent (a completion gated on `Drained`), completion is enabled and sends exactly parts 1..ceil(size / 5 MiB) in order, each with its own tag, whose bodies concatenate to the file |
| Upload.MultipartUpload.constructor | uploadFile.js:43-45 | the upload starts at part number 1 with no records and an empty queue |
| Upload.MultipartUpload.OnData | uploadFile.js:72-84 | a chunk is numbered and queued at once when fewer than 20 uploads are queued; otherwise it waits, or is dropped if a queued upload already failed; the invariant is kept |
| Upload.MultipartUpload.TakeChunk | uploadFile.js:73-83 | the field updates of the 'data' handler perform exactly the arrival step: the admission outcome and the new state |
| Upload.MultipartUpload.OnPartUploaded | uploadFile.js:59-83 | appends exactly the record of this part with its own tag, filters its entry, and numbers the waiting chunks; nothing else changes; the invariant is kept |
| Upload.MultipartUpload.RecordPart | uploadFile.js:59-83 | the field updates on a part's success perform exactly the success step, and the resumed handlers take the next numbers in turn |
| Upload.MultipartUpload.OnPartFailed | uploadFile.js:66-69 | returns an error naming the part, records nothing, keeps the entry queued; if the end handler waits for it, completion is ruled out |
| Upload.MultipartUpload.OnEnd | uploadFile.js:86-87 | the end handler waits for the uploads queued now; an earlier failure blocks it |
| Upload.MultipartUpload.OnAllSettled | uploadFile.js:87-105 | sorts the records in place and sends them: strictly ascending and a permutation of the records; 200 only if completion succeeds; exact parts 1..N when drained |
| Upload.StartUpload | uploadFile.js:20-111 | a missing path gets 400 with no S3 call; a failed initiation gets 500; otherwise a fresh upload in its initial state |
| Scenarios.FillToLimit | uploadFile.js:72-84 | up to 20 chunks are each numbered 1, 2, ... and queued as they arrive |
| Scenarios.BeyondLimit | uploadFile.js:73-75 | past 20 queued uploads, with none settled, every further chunk waits |
| Scenarios.QueueCanExceedLimit | uploadFile.js:73-83 | 22 chunks and one success leave 21 uploads queued |
| Scenarios.CompletionCanMissPart | uploadFile.js:86-103 | with 21 chunks, completion is sent with 20 records while part 21 is still uploading, and no upload failed |
| Scenarios.LateFailureDoesNotBlock | uploadFile.js:86-103 | with 21 chunks, part 21 fails after 'end' and completion is sent all the same, assuming the unhandled rejection of part 21's promise does not end the process |
| Scenarios.OutOfOrderSuccessIsSorted | uploadFile.js:59-91 | three chunks, 'end', and parts succeeding in the order 3, 1, 2, each event enabled in turn: the queue drains and completion sends parts 1, 2, 3 with their own tags |
| Scenarios.FailedPartBlocksCompletion | uploadFile.js:66-87 | part 1 failing before 'end' means no event after 'end' is the completion |

## Left out

- Network calls to S3 are not modelled. The initiate, upload-part and complete calls are outcomes given as inputs.
- The bytes sent on the wire and the HTTP response bodies are not modelled.
- Real concurrency and promise timing are modelled only as atomic events in any order. In the code, `Promise.all` resolves in the same turn as the last awaited upload. In the model the completion can come at any later step, which allows more runs than the code can produce.
- Express routing, JWT issuance and verification, and the React frontend are not part of this model.
- Console logging is not modelled.
- `fs.existsSync` and `createReadStream` are reduced to an "exists" flag and the file's bytes.
- A `fs.statSync` failure, and the unused `fileSize`, are not modelled.
- Read-stream errors are not modelled. The code registers no handler for them.
- A rejection that nothing handles (a dropped chunk, a failed part, a failed completion) is modelled as no response. Node's process-level reaction to it is not modelled.
- S3's own rules are not modelled: the 10,000-part limit, the 5 MiB minimum part size, and what S3 does with an incomplete or empty part list.
- Retry, abort, progress tracking, cancellation and rejection of empty files are absent from the code, so the model has none.
- UploadState.NumberedInArrivalOrder: stated only for runs without a failed upload. After a failure, waiting chunks are dropped. The numbered chunks then no longer make up the whole stream.
- UploadState.DrainedUploadIsFile: stated only for a drained state where completion has not been sent yet. Under the code's own gate, completion may already have gone out with fewer parts by the time the queue drains (see Findings).
- Upload.MultipartUpload.OnAllSettled: parts 1..N are promised only when the queue has drained. Under the code's own gate this does not hold (see Findings).
- Parts.SortByPartNumber: an insertion sort stands in for `Array.prototype.sort`. Part numbers are distinct, so any correct sort gives the same list.

## Findings

| source | as written | input that shows it | evidently intended | confidence | as-written member | corrected member |
|---|---|---|---|---|---|---|
| uploadFile.js:86-87 | `Promise.all(uploadQueue)` covers only the uploads queued when 'end' fires. A 'data' handler still suspended at the admission wait (73-75) queues its part afterwards, so completion can be sent without it and still answer 200. | a file of 21 chunks (just over 100 MiB): the 21st chunk arrives while 20 uploads are in flight; 'end' follows; part 1 succeeds, which queues part 21; parts 2..20 succeed and completion is sent with 20 parts | complete only after every chunk's upload has succeeded, i.e. once the queue is empty after 'end' (`UploadState.Drained`) | high, not executed | Scenarios.CompletionCanMissPart | UploadState.DrainedCompletionIsExact |
