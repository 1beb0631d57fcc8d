# b-roll enrichment service — Dafny model

The service takes an uploaded talking-head video and returns a new video in
which some spoken segments are covered with stock footage ("b-roll"). The
stock footage is dubbed with the speaker's own audio. The work runs as a
background job:

1. extract the audio track;
2. transcribe it into timed segments;
3. ask a chat model for keywords, one request per batch of 20 segments (as
   written, the prompt does not contain their text), and remap each
   batch-local index `i` of batch `b` to `20*b + i`;
4. for each segment, on a coin flip, search the stock library for the
   segment's keyword and, when it finds a match, download the clip and give it
   the segment's audio;
5. concatenate and encode the clips.

A status dictionary keyed by task id records the progress (0, 20, 40, 60, 80),
then either the completed record with the output path or the error message.
Two routes read it: status and download. The upload route validates the
file name before it starts a job.

`broll.dfy` (module `BRoll`) models:

- **Upload validation.** The extension test and the upload route's decisions.
- **Batching.** `split_array` and the index remapping of the keyword loop.
- **Stock selection.** Choosing a result from a decoded search response.
- **Segment loop.** Building the clip timeline.
- **Status store.** A class holding the status map. It has one method per
  kind of write and the job's method, and the two read-only routes are
  functions.

A Python exception is a `Failure` carrying the message `str(e)` would give.
Each external service is an input: a field of `Environment`. Every
progress write is logged in a ghost write log. The job's method is proved to
produce exactly the trace of records that its outcome determines.

Points of the code that the model keeps:

- There is no `queued` state. The first record is written by the worker
  (processing/0), so until the worker runs, the status route answers
  `not_found`.
- A keyword reply that cannot be parsed, or whose entries lack `k` or `i`,
  ends the job with an error. It is not tolerated.
- Every entry of every reply is kept, remapped, in batch order and in the
  reply's own order (`CollectKeepsEveryEntry`).
- Keywords are read by position (`broll_info[len(final_clips)]`), not by their
  remapped index. So an omitted entry shifts every later keyword, and a short
  list raises `IndexError` when a coin is taken.
  `PositionalLookupMatchesIndex` proves that position and index agree when
  each reply lists its items in order.
- A substituted clip keeps the stock video's own length. Only its audio is
  the segment's. So the model proves audio coverage, not clip durations.
- The batch size is the fixed constant 20, both in the split and in the
  remapping.
- The substitution policy is the coin flip. The coins are an input.

## Model

| member | source | states |
|---|---|---|
| BRoll.LowerChar | app.py:36 | the folded character is never an upper-case ASCII letter, is a lower-case letter exactly when the input is a letter of either case, a capital becomes the lower-case letter at the same alphabet position, and anything but A-Z is unchanged |
| BRoll.Lower | app.py:36 | `.lower()` keeps the length and folds each character on its own |
| BRoll.ExtensionOf | app.py:36 | None exactly when the name contains no '.'; otherwise a dot-free suffix that is preceded by a '.', i.e. the part `rsplit('.', 1)[1]` returns |
| BRoll.ExtensionIsTextAfterLastDot | app.py:35-36 | a dot-free suffix that follows a '.' is the only possible extension, and a name is allowed exactly when that suffix, lower-cased, is mp4, mov or avi |
| BRoll.AllowedFile | app.py:35-36 | an allowed name has at least four characters and its fourth-from-last is the '.' |
| BRoll.AllowedFileByLastFour | app.py:35-36 | a name is allowed exactly when it ends in a '.' followed by three characters that lower-case to mp4, mov or avi |
| BRoll.NoDotNeverAllowed | app.py:36 | a name without any '.' is refused |
| BRoll.AllowedFileAccepts | app.py:35-36 | "a.MOV" and "holiday.final.mp4" are accepted (case-insensitive, last dot decides) |
| BRoll.AllowedFileRejects | app.py:35-36 | "a.txt", "mp4" and "clip.mp4.txt" are refused |
| BRoll.UploadDecision | app.py:136-154 | a missing part gives 400 "No video file", an empty name 400 "No selected file", a task is created with the fresh id exactly when the name is allowed, and any other name gives 400 "Invalid file type" |
| BRoll.UploadAsWritten | app.py:136-154 | as written, no upload ever creates a task; the framework's 500 page answers exactly the allowed names, and every other input gets the same 400 as the intended route |
| BRoll.UploadAsWrittenLosesAllowedFiles | app.py:136-154 | for "talk.mp4" the route as written answers with the 500 page while the intended route creates a task; "notes.txt" is refused by both with 400 "Invalid file type" |
| BRoll.SplitArray | app.py:38-39 | the chunk list is empty exactly when the input is |
| BRoll.SplitArrayShape | app.py:38-39 | there are ceil(len/max) chunks, each 1 to max long, and all but the last are full |
| BRoll.SplitThenFlatten | app.py:38-39 | concatenating the chunks gives back the input: nothing lost, reordered or duplicated |
| BRoll.ChunkAt | app.py:39 | chunk b starts before the end and is `arr[b*max : b*max + max]`, clipped to the input |
| BRoll.Collect | app.py:75-85 | the keyword list exists exactly when every batch request succeeds |
| BRoll.CollectKeepsEveryEntry | app.py:77-85 | when every request succeeds, the list is the concatenation, in batch order, of every reply with each entry remapped: nothing dropped, reordered or repeated |
| BRoll.CollectFailsAtFirstFailingBatch | app.py:77-85 | a failed keyword stage carries the exception of the first batch that failed, all earlier batches having succeeded |
| BRoll.Remap | app.py:84 | each entry keeps its keyword and its local index `i` in batch `b` becomes `20*b + i`, so (by `CoversAfterRemap`) a reply naming 0..len-1 once each names 20b..20b+len-1 once each |
| BRoll.CollectKeywords | app.py:75-85 | the batch loop (remap each reply, extend the list, stop at the first exception) computes `Collect` |
| BRoll.RemapCoversAllSegments | app.py:74-85 | when every reply names each local index of its batch exactly once, the remapped indices name every segment 0..N-1 exactly once |
| BRoll.PositionalLookupMatchesIndex | app.py:84-99 | when every reply lists its items in order, the list has N entries and entry j carries index j, so the positional lookup finds segment j's keyword |
| BRoll.SearchUrl | app.py:42 | the URL is the search endpoint, then the keyword inserted verbatim (not percent-encoded), then the orientation and `size=medium` parameters |
| BRoll.TotalResults | app.py:47 | `total_results`, or 0 when the response has no such key |
| BRoll.SelectStock | app.py:47-52 | a total of 0 or less (or no total) gives "Invalid keyword"; a match is returned exactly when the total is positive and the first video has a first file link and an image, and it is that link and image; a missing key or empty list raises |
| BRoll.FetchStockVideo | app.py:41-52 | a failed search request raises its exception; "Invalid keyword" exactly when the search answers with a total of 0 or less; a match exactly when the search answers with a positive total and a first video with a first file link and an image, and then it is that link and image; otherwise a missing key or empty list raises |
| BRoll.Texts | app.py:73 | one text per segment, in segment order |
| BRoll.SegmentClip | app.py:93-112 | every clip plays the segment's own audio range; without the coin the original footage is kept; a stock clip is produced exactly when the coin is taken, the keyword exists, the search finds a match and the download succeeds, and it uses the matched link; "Invalid keyword" keeps the original; with the coin taken, a keyword list shorter than j+1 raises IndexError, and a search or download exception is raised unchanged |
| BRoll.Timeline | app.py:91-112 | a successful loop over n segments yields n clips |
| BRoll.TimelineOneClipPerSegment | app.py:92-112 | the loop succeeds exactly when every segment's decision succeeds, and clip j is segment j's decision (the running clip count is j) |
| BRoll.TimelineKeepsSpeech | app.py:96-112 | in an assembled timeline clip j plays segment j's audio, is a stock clip only when its coin was taken and its keyword matched that link, and is the original footage when the coin was not taken |
| BRoll.ContiguousTimelineAudio | app.py:92-112 | for contiguous segments the clips' audio ranges, in order, add up to the span from the first start to the last end, whatever was substituted |
| BRoll.AssembleTimeline | app.py:91-112 | the segment loop computes `Timeline` over all segments |
| BRoll.ThreeSegmentScenario | app.py:92-112 | three segments 0-2 s, 2-5 s, 5-7 s with only the first keyword matching give [stock dubbed with 0-2 s, original 2-5 s, original 5-7 s], whose audio ranges add up to 7 s |
| BRoll.TimelineAsWritten | app.py:98 | as written, the loop fails with "name 'random' is not defined" on any non-empty transcript |
| BRoll.TimelineAsWrittenFailsScenario | app.py:98 | on the three-segment transcript the loop as written fails where the intended loop assembles the timeline |
| BRoll.AfterKeywordsAsWritten | app.py:89-129 | as written, with at least one segment the stages after the keyword requests fail at the segment loop with "name 'random' is not defined" after four progress writes; with no segment the loop body never runs and encoding decides, as in the intended job |
| BRoll.RunPipelineAsWritten | app.py:54-129 | the whole job as written: the intended stages up to the keyword requests, then the segment loop as written; a failure comes after one to five progress writes |
| BRoll.RandomNameErrorEndsJob | app.py:54-129 | as written, no job with a segment finishes; one whose audio, transcription, client and keyword stages succeed writes progress 0, 20, 40, 60 and ends as error "name 'random' is not defined"; one that fails earlier, or whose transcript is empty, ends exactly as the intended job does |
| BRoll.RunPipeline | app.py:54-129 | a failed job failed after between one and five progress writes |
| BRoll.PipelineOutcome | app.py:54-129 | a job finishes exactly when no stage raises, with the assembled timeline as its clips; otherwise the first stage that raises (audio 1, transcription 2, client or keyword batches 3, segment loop 4, encoding 5 progress writes) gives the outcome, and the message is that stage's exception |
| BRoll.AfterAudio | app.py:64-69 | a failure after the audio stage comes after at least two progress writes |
| BRoll.AfterTranscript | app.py:71-87 | a failure after transcription comes after at least three progress writes |
| BRoll.AfterKeywords | app.py:89-114 | a failure after the keyword stage comes after at least four progress writes |
| BRoll.AfterTimeline | app.py:116-126 | an encoding failure comes after all five progress writes; a finished job outputs the assembled clips |
| BRoll.FinishedJobCoversTranscript | app.py:54-126 | a completed job had no failing stage, every keyword batch succeeded, and its timeline has one clip per transcribed segment playing that segment's audio |
| BRoll.Checkpoints | app.py:56-114 | the progress writes of a job, in order, are 0, 20, 40, 60, 80 |
| BRoll.Trace | app.py:56-129 | one processing record per stage reached, the i-th at 20·i percent, followed by exactly one terminal record |
| BRoll.FinalRecord | app.py:126-129 | the last record is completed/100 with the output path exactly when the job finished, and otherwise the error with the exception's message |
| BRoll.TraceIsMonotone | app.py:56-129 | a job's records start at processing/0, progress strictly increases, only the last record is terminal, and it is completed/100 exactly when the job finished, otherwise the error |
| BRoll.StatusStore.constructor | app.py:33 | the status map starts empty |
| BRoll.StatusStore.Write | app.py:126-129 | storing a record for an id replaces that id's entry only, and the write is logged |
| BRoll.StatusStore.Start | app.py:56 | the job's record is (re)set to processing/0, no other entry changes, and the write is logged |
| BRoll.StatusStore.SetProgress | app.py:62 | the job's processing record gets the new progress, no other entry changes, and the write is logged |
| BRoll.StatusStore.Complete | app.py:126 | the job's record becomes completed/100 with the output path, no other entry changes |
| BRoll.StatusStore.Fail | app.py:128-129 | the job's record becomes the error with the message, no other entry changes |
| BRoll.StatusStore.GetStatus | app.py:156-158 | the stored record, unchanged, exactly when the id is known, and then a well-formed one; otherwise not_found |
| BRoll.OutputPath | app.py:118 | the output path is a fixed prefix, the task id and ".mp4"; by `OutputPathsDistinct` two jobs never share an output file |
| BRoll.OutputPathsDistinct | app.py:118 | distinct task ids give distinct output paths |
| BRoll.StatusStore.DownloadFile | app.py:160-165 | the output path exactly when the record is completed; otherwise 404 "File not ready or not found" |
| BRoll.StatusStore.ProcessVideo | app.py:54-129 | a job writes exactly the record trace its outcome determines, leaves every other job untouched, ends with the final record, and is downloadable exactly when it finished |
| BRoll.StatusStore.RunStages | app.py:55-62 | the first two stages followed by the rest write the trace of the whole pipeline |
| BRoll.StatusStore.ProcessAudio | app.py:64-69 | from progress 20, the transcription stage and the rest write the remaining trace |
| BRoll.StatusStore.ProcessTranscript | app.py:71-87 | from progress 40, the client, the batch loop and the rest write the remaining trace |
| BRoll.StatusStore.ProcessKeywords | app.py:89-114 | from progress 60, the segment loop and the rest write the remaining trace |
| BRoll.StatusStore.ProcessClips | app.py:116-126 | from progress 80, encoding ends in the completed record or the error |

## Left out

- HTTP mechanics are not modelled: routing, JSON rendering, `render_template`, `send_file` streaming, the 16 MiB request limit and the creation of the upload folder. Replies are datatypes.
- `secure_filename` and `file.save` are not modelled: the saved path is not used by anything modelled.
- The Whisper, OpenAI and Pexels calls and the b-roll download are inputs (`Environment`): no network or model behaviour is modelled. The chat model's reply is indexed by request number, because the prompt sent does not contain the batch text.
- A reply that is not JSON, or has entries without `k` or `i`, is folded into that batch's failure, with no separate message per cause.
- moviepy is not modelled: opening, resizing to the source frame, dubbing, concatenation and encoding. A clip is a tagged record of its audio range. The exception of `subclip` for a range past the end of the video is not modelled.
- BRoll.SegmentClip: states the audio range of a stock clip, not its video length. `set_audio` keeps the stock clip's own length, and that length is not modelled.
- BRoll.TimelineKeepsSpeech: the same restriction; durations are about audio only.
- BRoll.ContiguousTimelineAudio: proves only that the clips' audio ranges tile the transcript's span. `concatenate_videoclips` places each clip's audio at the running sum of the clips' video lengths, and a stock clip keeps its own video length. So a stock clip longer than its segment leaves silence, and a shorter one makes its audio overlap the next segment's, shifting everything after it. The stock length is not modelled, so this desynchronisation is not captured.
- `TemporaryDirectory` and `os.remove` are not modelled (scoped file clean-up). The completed record (app.py:126) is written inside the `with TemporaryDirectory()` block (app.py:90); if removing the directory raises on leaving the block, the handler at app.py:128-129 overwrites "completed" with the error. The model assumes clean-up never raises, so `TraceIsMonotone`'s "only the last record is terminal" and `FinalRecord` do not cover that case.
- The job runs in a thread beside the routes. The model is sequential: routes are functions of the map's state between writes, and interleavings are not modelled.
- `uuid.uuid4()` and `random.random()` are inputs: a fresh task id, and one coin per segment.
- Segment times are whole milliseconds instead of floating-point seconds.
- `str.lower()` is modelled for ASCII letters only; Unicode case mapping is not.
- A `total_results` that is present but not a number, or a transcription segment without `start`, `end` or `text`, would raise a TypeError or KeyError. These are not modelled: the response and the segments are typed.
- BRoll.StatusStore.SetProgress: requires the job's record to be processing. In Python, assigning `progress` into an error record would add the key. In the sequential job no other write reaches the record between checkpoints.

## Findings

| source | as written | input that shows it | evidently intended | confidence | as-written member | corrected member |
|---|---|---|---|---|---|---|
| app.py:149 | `uuid.uuid4()` is used but `uuid` is never imported, so every allowed upload raises NameError after the file is saved and is answered with a 500 | a POST of `talk.mp4` | import `uuid`; return the new task id and start the job | high; not executed | BRoll.UploadAsWritten | BRoll.UploadDecision |
| app.py:98 | `random.random()` is used but `random` is never imported, so the first segment raises NameError and the job ends as error "name 'random' is not defined" | any transcript with at least one segment, e.g. the three segments of `ThreeSegmentScenario`, once the audio, transcription, client and keyword stages succeed; `RandomNameErrorEndsJob` shows the job then ends as that error after four progress writes (a job that fails earlier ends as the intended one does) | import `random`; draw one coin per segment | high; not executed; reachable only once the `uuid` import of app.py:149 is added, since as written no job is ever started | BRoll.TimelineAsWritten | BRoll.AssembleTimeline |
