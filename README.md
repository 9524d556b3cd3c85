# Lecture chat: a verified model of its core

The system turns an uploaded lecture video into a searchable transcript and
answers questions about it with timestamps.

- **Backend (FastAPI).**
  - `process_job` extracts the audio with ffmpeg.
  - It transcribes the audio with Whisper. Audio over 24 MiB is first cut
    into ten-minute chunks. Each transcription gets up to three attempts.
  - It saves the transcript and the word-level timestamps.
  - It hands the transcript to the indexer.
  - It keeps a job record in `db.json` up to date and notifies progress as it goes.
- **Indexer.** It splits the transcript into windows and aligns each window
  with the word timestamps. It stores the windows in a vector collection
  named after the lecture.
- **`rag_query`.** It searches that collection, with a memo cache. It keeps
  the close results and collects their timestamps. Then it asks a language
  model for the answer.
- **Frontend (React).**
  - The chat panel appends the question and the answer to its message list.
    It shows the first timestamp of the answer, re-formatted as `MM:SS`.
  - The upload widget checks the file type and size before it uploads.

The model replaces ffmpeg, Whisper, the vector store, the embeddings, the
language model and the HTTP calls by parameters. It states what the code
around them does.

| file | module | models |
|---|---|---|
| `wrappers.dfy` | `Wrappers` | `Option` and `Result` |
| `strings.dfy` | `Strings` | `str()`/`toString()`, zero padding, `str.strip`, `str.split`, `split(":")`, `join`, ASCII lower-casing |
| `jobs.dfy` | `Jobs` | job records and their updates, the job filters, `init_db`, the file names a job uses |
| `transcription.dfy` | `Transcription` | one run of `process_job` as values: retries, chunk plan, notifications, final job update, files written |
| `backend.dfy` | `Backend` | class `Server`: the state `process_job` and the upload endpoint change, step by step, proved against `Transcription` |
| `vector_pipeline.dfy` | `VectorPipeline` | `find_timestamp_for_text`, `format_timestamp`, `sanitize_collection_name`, `process_transcript` |
| `rag_query.dfy` | `RagQuery` | `rag_query`: trimming, cache, filter, timestamps, de-duplication, soft failures |
| `chat_container.dfy` | `ChatContainer` | `parseTimestamp`, `formatTimestamp`, the timestamp regex, class `Chat` for `handleSend` and the lecture fetch |
| `file_upload.dfy` | `FileUpload` | `validateFile`, class `Uploader` for `handleDrop`/`handleChange` |

The progress steps are the datatype `Transcription.Step`. `StepName` gives
the string sent for each step.

## Model

| member | source | states |
|---|---|---|
| Strings.NatToString | backend/main.py:290 | the decimal rendering has at least one digit, only digits, one digit exactly below 10, and no leading zero |
| Strings.ParseNatToString | backend/main.py:290 | reading the rendering of n back gives n |
| Strings.ZeroPad | backend/main.py:130 | `{i:03d}` / `padStart`: the width is at least the requested one, all digits, and the value read back is n |
| Strings.FormatInt2 | backend/vector_pipeline.py:52 | `{n:02d}`: two digits reading back n for 0 ≤ n < 100; a leading minus for negative n |
| Strings.TwoDigitsRoundTrip | frontend/src/components/ChatContainer.tsx:67-68 | two digits read and padded back to two give the same two characters |
| Strings.StripStartRun | backend/rag_query.py:26 | stripping the start removes exactly the leading run of the class |
| Strings.StripEndRun | backend/rag_query.py:26 | stripping the end removes exactly the trailing run of the class |
| Strings.StripInfix | backend/vector_pipeline.py:25-26 | `str.strip(chars)` keeps one infix; all that is cut before and after is of the class; the infix neither starts nor ends with it |
| Strings.StripEmptyIffAll | backend/rag_query.py:26-28 | the stripped query is empty iff every character is whitespace |
| Strings.WordLength | backend/vector_pipeline.py:20 | a word runs up to the next whitespace character or the end |
| Strings.Words | backend/vector_pipeline.py:20 | `str.split()` yields no empty word, and no word holds whitespace |
| Strings.WordsAfterSpaces | backend/vector_pipeline.py:20 | after leading whitespace, the first word is the whole run of non-whitespace that follows; the other words are those of the text after that run |
| Strings.WordsEmptyIffAllSpace | backend/vector_pipeline.py:20-22 | `split()` gives no word iff the text is all whitespace |
| Strings.SplitOn | frontend/src/components/ChatContainer.tsx:54 | `split(":")` gives at least one part and no part holds the separator |
| Strings.JoinSplitOn | frontend/src/components/ChatContainer.tsx:54 | joining the parts with the separator restores the text |
| Strings.SplitOnJoin | frontend/src/components/ChatContainer.tsx:54 | splitting fields joined by a separator they do not hold gives the fields back |
| Strings.LastIndexOf | backend/main.py:152 | the last occurrence of a character: its index holds it and no later index does; None iff absent |
| Strings.LastIndexOfAt | backend/main.py:152 | an index holding the character with no occurrence after it is the index found |
| Strings.Lower | backend/vector_pipeline.py:25-26 | lower-casing maps each character and keeps the length |
| Jobs.UpdatedJobs | backend/main.py:176-178 | rewriting the jobs of one filename keeps the number of jobs |
| Jobs.NewJob | backend/main.py:153-159 | the queued record: progress 0, no error, no audio path (definition; its updates are stated by `UpdateTouchesOnlyMatching`) |
| Jobs.Apply | backend/main.py:176-424 | one record rewritten as processing (5), error (0, message) or done (100, audio path, transcript path, length) (definition; stated by `UpdateTouchesOnlyMatching`) |
| Jobs.UpdateTouchesOnlyMatching | backend/main.py:176-424 | only jobs with the matching filename change; each update sets the status and progress it names; the error, audio path, transcript path and transcript length are set when the update names them and kept otherwise |
| Jobs.UpdateIdempotent | backend/main.py:197-206 | applying the same update twice equals applying it once; a later update decides status and progress |
| Jobs.UpdatesOfDifferentFilesCommute | backend/main.py:414-424 | updates for different filenames commute |
| Jobs.Filter | backend/main.py:469 | a filter never adds jobs |
| Jobs.FilterMembers | backend/main.py:469 | `restart` keeps exactly the jobs of other filenames; the lectures filter keeps exactly the done jobs |
| Jobs.FilterAppend | backend/main.py:498 | filtering distributes over concatenation, so the order is kept |
| Jobs.FilterIdempotent | backend/main.py:469 | filtering twice equals filtering once |
| Jobs.InitDb | backend/main.py:40-61 | a missing file gives three empty lists; an existing file keeps each present list and adds only the missing keys as empty |
| Jobs.InitDbIdempotent | backend/main.py:49-61 | running `init_db` on its own output changes nothing |
| Jobs.SplitExt | backend/main.py:152 | `os.path.splitext`: the root and the extension concatenate to the path |
| Jobs.SplitExtShape | backend/main.py:152 | the extension is empty or a dot followed by no further dot or slash, after a non-empty root; a name without a dot has no extension |
| Jobs.SplitExtAt | backend/main.py:152 | with the last dot and the start of the last path component given, the split falls at the dot iff the dot lies in that component after a character other than a dot; otherwise the extension is empty |
| Jobs.SplitExtOfVideoName | backend/main.py:152 | `talk.mp4` splits into `talk` and `.mp4` |
| Jobs.SplitExtOfHiddenName | backend/main.py:152 | a leading dot is not an extension |
| Jobs.Root | backend/main.py:152 | `os.path.splitext(p)[0]` (definition; stated by `SplitExt`, `SplitExtAt` and `SplitExtShape`) |
| Jobs.VideoPath | backend/main.py:151 | `os.path.join("uploads", filename)` (definition) |
| Jobs.AudioPath | backend/main.py:152 | the root of the filename plus `.mp3` under `uploads` (definition; `ChunkPathNotAudio` relates it to the chunk paths) |
| Jobs.TranscriptPath | backend/main.py:215 | the root of the filename plus `.transcript.txt` under `uploads` (definition) |
| Jobs.DetailedPath | backend/main.py:364 | the transcript root plus `_detailed.json` (definition; `ChunkNamesDistinct` separates it from the chunk files) |
| Jobs.ChunkDetailedPath | backend/main.py:263 | the transcript root plus `_chunk_`, three digits and `_detailed.json` (definition; stated distinct by `ChunkNamesDistinct`) |
| Jobs.ChunkAudioPath | backend/main.py:126-130 | the audio root plus `_chunk_`, three digits and `.mp3` (definition; stated by `ChunkAudioPathShape`, `ChunkPathNotAudio`, `ChunkNamesDistinct`) |
| Jobs.UploadName | backend/main.py:455-457 | `f"{base}_{timestamp}{ext}"` from the split client name (definition; used by `Backend.Server.UploadFile`) |
| Jobs.ChunkPathNotAudio | backend/main.py:126-130 | a chunk path is never the audio path it was cut from |
| Jobs.ChunkNamesDistinct | backend/main.py:130 | different chunk indices give different chunk and chunk-detail paths, none equal to the combined detail path |
| Jobs.ChunkAudioPathShape | backend/main.py:130 | below 1000, chunk path i is `<root>_chunk_` + three digits reading i + `.mp3` |
| Transcription.RetrySemantics | backend/main.py:246-309 | attempts stop at the first success; the result is the last attempt's; failure iff all three attempts failed |
| Transcription.Retry | backend/main.py:350-400 | the retry loop from the first attempt (definition; stated by `RetrySemantics`, `RetryOutcome`, `RetrySucceeds`) |
| Transcription.RetryOutcome | backend/main.py:350-400 | success on attempt 1, 2 or 3 gives that attempt's result; a failure followed by a success continues |
| Transcription.RetrySucceeds | backend/main.py:246-287 | any successful attempt within three makes the unit succeed |
| Transcription.NumChunks | backend/main.py:123 | `ceil(duration/600)` for a positive duration, else 0 (definition; stated by `NumChunksCover`) |
| Transcription.NumChunksCover | backend/main.py:123 | `ceil(duration/600)` chunks: none for a non-positive duration, else the chunks just cover it |
| Transcription.ChunkPaths | backend/main.py:128-141 | path i is the chunk path of index i |
| Transcription.CutsDone | backend/main.py:128-141 | the cut loop stops at the first chunk that cannot be cut; all before it were cut from `i*600` |
| Transcription.AllCutsDone | backend/main.py:128-143 | when every cut succeeds, all chunks are made |
| Transcription.CutsDoneStops | backend/main.py:128-147 | a failing cut stops the loop there |
| Transcription.PlannedChunksShape | backend/main.py:117-147 | the chunk list is empty, or it has one path per planned chunk, each cut from `i*600`; it is non-empty when the probe succeeds with a positive duration and every cut succeeds |
| Transcription.ChunkProgress | backend/main.py:248 | `40 + (i*20)//n` (definition; stated by `ChunkProgressBounds`) |
| Transcription.ChunkProgressBounds | backend/main.py:248 | `40 + (i*20)//n` lies in [40, 59] and does not decrease in i |
| Transcription.Repeat | backend/main.py:249 | one notification per attempt |
| Transcription.Shift | backend/main.py:266-274 | each word of chunk i keeps its text and gets start and end plus the chunk offset |
| Transcription.ChunkRunNext | backend/main.py:242-318 | one more chunk adds its attempts' notifications and, when it has words, its shifted detail file |
| Transcription.TextsNext | backend/main.py:311-312 | only a non-empty chunk text is appended |
| Transcription.FirstErr | backend/main.py:289-308 | the first chunk whose retries all failed; every earlier chunk succeeded |
| Transcription.Outcomes | backend/main.py:242-309 | one retry outcome per planned chunk, in order |
| Transcription.NotifiedAllDone | backend/main.py:242-318 | with no fatal chunk, every chunk is attempted |
| Transcription.NotifiedUpTo | backend/main.py:289-308 | the chunk loop stops right after the first fatal chunk |
| Transcription.AllTranscribedNext | backend/main.py:242-318 | a chunk that succeeds keeps the loop going |
| Transcription.LoopStopped | backend/main.py:289-308 | the loop's outcomes up to a fatal chunk are the notified ones |
| Transcription.LoopFinished | backend/main.py:242-318 | a finished loop has attempted every chunk |
| Transcription.ChunkedNothingPlanned | backend/main.py:223-236 | an empty chunk list fails with "Failed to chunk large audio file", with no chunk notifications and no detail files |
| Transcription.ChunkGaveUp | backend/main.py:289-308 | a fatal chunk k fails the run with "Transcription failed for chunk k: …"; the detail files written so far stay |
| Transcription.ChunksAllDone | backend/main.py:311-346 | when all chunks succeed, the transcript is the chunk texts joined with spaces; the combined detail file is written only if it has words |
| Transcription.ChunkedPhase | backend/main.py:218-346 | no plan, the first chunk that gave up, or the non-empty texts joined with spaces (definition; stated by `ChunkedNothingPlanned`, `ChunkGaveUp`, `ChunksAllDone`, `ChunkFailure`, `TextsMembers`) |
| Transcription.TranscriptionPhase | backend/main.py:210-400 | chunked above 24 MiB, single otherwise (definition; stated by `ChunkPathChoice`, `SingleFileRetries`) |
| Transcription.RunWithoutAudio | backend/main.py:185-208 | failed extraction records "Audio extraction failed: …", notifies 0 and writes no file |
| Transcription.RunWithAudio | backend/main.py:193-441 | with the audio extracted, events, final update and files follow the transcription phase and the indexing outcome |
| Transcription.ChunkEventsRising | backend/main.py:248-249 | chunk notifications are for the job, non-decreasing, from 40 up to the last chunk's value |
| Transcription.ChunkEventsWithin | backend/main.py:248-249 | chunk notifications stay in [40, 59] and do not decrease |
| Transcription.ChunkedEventsRising | backend/main.py:218-249 | the chunked phase notifies 35 and then non-decreasing values up to 59 |
| Transcription.TranscriptionEventsRising | backend/main.py:217-353 | either transcription phase notifies non-decreasing values in [35, 59] |
| Transcription.AfterTranscriptionRising | backend/main.py:402-441 | after transcription: 60, 70, then 100, 100 on success; the last value is 0 iff transcription or indexing failed |
| Transcription.OpeningProgress | backend/main.py:172-193 | the opening notifications 5, 10, 30 rise |
| Transcription.ExtractedRunProgress | backend/main.py:172-441 | with audio, a run starts at 5; it rises to 100 on success; it rises and then ends with 0 on failure |
| Transcription.RunEventsProgress | backend/main.py:172-441 | every run starts with 5; a done run's values never decrease and end with 100; a failed run's values rise and then end with 0 |
| Transcription.RunEvents | backend/main.py:149-441 | every notification of a run in order (definition; stated by `RunEventsProgress`, `ExtractedRunProgress`, `ChunkingFailure`) |
| Transcription.FinalUpdateCases | backend/main.py:185-441 | the job ends done iff extraction, transcription and indexing all succeed; it never stays processing |
| Transcription.FinalUpdate | backend/main.py:185-441 | the last update of the job: the extraction error, the phase error, the indexer error, or done (definition; stated by `FinalUpdateCases`) |
| Transcription.TranscriptionEventsFirst | backend/main.py:217-218 | the first transcription notification is 35 for large audio and 40 otherwise |
| Transcription.ChunkPathChoice | backend/main.py:211-218 | the chunked path is taken iff the audio exceeds 24 MiB (strict) |
| Transcription.ChunkingFailure | backend/main.py:223-236 | an empty chunk list ends the job with "Failed to chunk large audio file" after notifying 5, 10, 30, 35, 0 |
| Transcription.SingleFileRetries | backend/main.py:350-400 | the single file fails iff all three attempts fail; the message is then "Transcription failed after 3 attempts: …"; otherwise the first success's text is the transcript |
| Transcription.ChunkFailure | backend/main.py:289-308 | if all attempts of chunk m fail and every earlier chunk succeeds, the job error names chunk m+1 and the last error |
| Transcription.PlannedChunksRemoved | backend/main.py:303-318 | every planned chunk file is gone after the run; the extracted audio remains exactly when the job ends in error |
| Transcription.TextsMembers | backend/main.py:311-321 | the merged texts are exactly the non-empty texts of successful chunks |
| Transcription.CombinedOfChunkWrites | backend/main.py:324-335 | the combined word list is the shifted words of the chunks, concatenated in chunk order |
| Transcription.RunJobsOutcome | backend/main.py:153-441 | a run appends one job and leaves other files' jobs alone; the new job ends done with 100 and the transcript length, or error with 0 and the message |
| Transcription.RunJobs | backend/main.py:153-441 | the job table after a run: append, processing, final update (definition; stated by `RunJobsOutcome`) |
| Transcription.RunFiles | backend/main.py:184-441 | the media files after a run: extracted audio added, chunk files cut and removed, audio removed by the indexer on success (definition; stated by `PlannedChunksRemoved`) |
| Backend.Server.constructor | backend/main.py:40-64 | start-up state is `init_db` of the stored file, with nothing notified and no transcript |
| Backend.Server.Notify | backend/main.py:104-110 | one notification is recorded |
| Backend.Server.SetJobs | backend/main.py:174-182 | the job table becomes the updated one |
| Backend.Server.CleanupSessions | backend/main.py:89-96 | no session remains |
| Backend.Server.CreateSession | backend/main.py:71-87 | the session has the given id, filename and time with "Z", and it is appended |
| Backend.Server.UploadFile | backend/main.py:450-476 | the stored name is `<base>_<stamp><ext>`; the file is saved; exactly one session remains; `restart` removes exactly the jobs of the new name |
| Backend.Server.Lectures | backend/main.py:491-499 | the lectures are exactly the done jobs |
| Backend.Server.CutChunks | backend/main.py:128-141 | the cut loop makes the chunks up to the first failure, in order, and adds their files |
| Backend.Server.ChunkAudioFile | backend/main.py:112-147 | the returned paths are the chunk plan (empty on any failure); the files cut stay even when the plan fails |
| Backend.Server.TranscribeWithRetry | backend/main.py:350-400 | the retry loop gives the retry outcome and notifies once per attempt |
| Backend.Server.TranscribeChunk | backend/main.py:242-318 | one chunk's iteration extends the texts, notifications and detail files, and removes the chunk file (all chunk files when it is fatal) |
| Backend.Server.RemoveFiles | backend/main.py:303-307 | the listed files are removed |
| Backend.Server.TranscribeChunks | backend/main.py:239-318 | the loop's outcomes are the notified ones, with their texts, events and detail files; every chunk file is removed |
| Backend.Server.CombineWords | backend/main.py:324-335 | the combined words are those of the chunk detail files, in chunk order |
| Backend.Server.TranscribeCut | backend/main.py:223-346 | the chunked phase after notifying 35, as specified by `ChunkedPhase` and `ChunkedEvents` |
| Backend.Server.TranscribePlan | backend/main.py:238-346 | transcribing a non-empty chunk list, as specified by `ChunkedPhase` |
| Backend.Server.ChunkedTranscription | backend/main.py:217-346 | the chunked phase: outcome, notifications, detail files, and chunk files cut and removed |
| Backend.Server.SingleTranscription | backend/main.py:348-400 | the single-file phase: outcome, one notification per attempt, detail file |
| Backend.Server.Transcribe | backend/main.py:210-400 | the transcription phase chosen by size, as specified by `TranscriptionPhase` |
| Backend.Server.Fail | backend/main.py:197-207 | the job gets the error and 0 is notified |
| Backend.Server.Index | backend/main.py:402-428 | 60 and 70 notified; on an indexer error the job fails; otherwise the audio is deleted, 100 is notified and the job is done |
| Backend.Server.Conclude | backend/main.py:402-441 | after transcription: fail, or save the transcript and index it |
| Backend.Server.Open | backend/main.py:153-184 | the job is appended and set to processing, and 5 and 10 are notified |
| Backend.Server.Extracted | backend/main.py:193-441 | the run after extraction: events, job, transcript, media and detail files as specified |
| Backend.Server.ExtractAndTranscribe | backend/main.py:184-441 | the run after the first two notifications, as specified by `LaterEvents` and `FinalUpdate` |
| Backend.Server.ProcessJob | backend/main.py:149-441 | a whole run: notifications `RunEvents`, jobs `RunJobs`, media `RunFiles`, transcripts and detail files |
| VectorPipeline.FirstIndex | backend/vector_pipeline.py:32-35 | the lowest index holding the word; None iff absent |
| VectorPipeline.LastIndex | backend/vector_pipeline.py:38-41 | the highest index holding the word; None iff absent |
| VectorPipeline.Normalize | backend/vector_pipeline.py:25-26 | lower-cased, then stripped of `.,!?";` at both ends (definition; stated by `Strings.Lower` and `Strings.StripInfix`) |
| VectorPipeline.TimestampSpan | backend/vector_pipeline.py:15-46 | the start of the first word and the end of the last word after normalising, 0 when missing (definition; stated by `FindTimestampForText`, `BlankWindowSpan`, `SpanOfRepeatedWords`) |
| VectorPipeline.ScanForStart | backend/vector_pipeline.py:31-35 | the forward scan finds the start of the first matching word, and nothing iff no word matches |
| VectorPipeline.ScanForEnd | backend/vector_pipeline.py:37-41 | the backward scan finds the end of the last matching word, and nothing iff no word matches |
| VectorPipeline.FindTimestampForText | backend/vector_pipeline.py:15-46 | the span is the first-word start and last-word end, 0 when missing |
| VectorPipeline.BlankWindowSpan | backend/vector_pipeline.py:20-22 | a window without words gets start 0 and end 0 |
| VectorPipeline.SpanOfRepeatedWords | backend/vector_pipeline.py:94-102 | a word list read twice, as the sorted glob does for a chunked run, gives the same spans |
| VectorPipeline.FirstIndexOfRepeated | backend/vector_pipeline.py:32-35 | the first match in a doubled list is the first match in the list |
| VectorPipeline.LastIndexOfRepeated | backend/vector_pipeline.py:38-41 | the last match in a doubled list lies in its second copy |
| VectorPipeline.FormatTimestampFields | backend/vector_pipeline.py:48-52 | seconds are in [0, 59]; minutes*60 + seconds is the floor of the input; minutes are non-negative for non-negative input |
| VectorPipeline.FormatTimestampShape | backend/vector_pipeline.py:48-52 | below 100 minutes the result is two digits, a colon and two digits, reading back minutes and seconds |
| VectorPipeline.FormatTimestamp | backend/vector_pipeline.py:48-52 | `f"{minutes:02d}:{secs:02d}"` (definition; stated by `FormatTimestampFields`, `FormatTimestampShape`) |
| VectorPipeline.ReplaceInvalid | backend/vector_pipeline.py:75 | each character outside `[a-zA-Z0-9._-]` becomes `_`, the others stay |
| VectorPipeline.RemoveExtensionIsPrefix | backend/vector_pipeline.py:78 | removing the extension leaves a prefix |
| VectorPipeline.SanitizedShape | backend/vector_pipeline.py:73-79 | the name holds only `[a-zA-Z0-9._-]` and is empty or starts alphanumeric |
| VectorPipeline.RemoveExtensionOnce | backend/vector_pipeline.py:78 | only the last `.xxx` is removed |
| VectorPipeline.SanitizeDoubleExtension | backend/vector_pipeline.py:78 | `a.tar.gz` becomes `a.tar` |
| VectorPipeline.SanitizeTrailingUnderscore | backend/vector_pipeline.py:77-78 | `a_.b` becomes `a_`: a trailing `_` survives step 4 |
| VectorPipeline.SanitizeLectureName | backend/vector_pipeline.py:73-80 | `Week #1.mp4` becomes `Week__1` |
| VectorPipeline.SanitizeCollectionName | backend/vector_pipeline.py:73-80 | the four substitutions in order (definition; stated by `SanitizedShape`, `RemoveExtensionOnce` and the examples above) |
| VectorPipeline.InsertByPath | backend/vector_pipeline.py:97 | insertion keeps the files sorted by path and is a permutation |
| VectorPipeline.SortByPath | backend/vector_pipeline.py:97 | `sorted(detailed_files)` is sorted by path and a permutation of the files |
| VectorPipeline.CollectWords | backend/vector_pipeline.py:91-104 | word lists are concatenated in file order, skipping files without words |
| VectorPipeline.IndexWindow | backend/vector_pipeline.py:117-130 | one window's document with its metadata |
| VectorPipeline.IndexWindows | backend/vector_pipeline.py:116-130 | one document per window, in window order, with the window's index |
| VectorPipeline.ProcessTranscript | backend/vector_pipeline.py:54-140 | a missing transcript yields nothing; otherwise one document per window, aligned with the words of the sorted detail files, in the collection `lecture_<sanitized>` |
| VectorPipeline.WindowDocumentTimes | backend/vector_pipeline.py:119-128 | window i has chunk index i, its own content, `timestamp` = `format_timestamp(start)`, and 0/0 when blank |
| RagQuery.Relevant | backend/rag_query.py:67 | the filter never adds results |
| RagQuery.RelevantMembers | backend/rag_query.py:67 | kept results are exactly those with distance at most 2.0 |
| RagQuery.RelevantAppend | backend/rag_query.py:67 | the filter keeps the original order |
| RagQuery.KeptIsPrefix | backend/rag_query.py:67 | the kept docs are the first at most 4 of the filtered results |
| RagQuery.KeptEmptyIff | backend/rag_query.py:67-70 | nothing is kept iff every distance exceeds 2.0 |
| RagQuery.TimestampsMembers | backend/rag_query.py:75-85 | collected timestamps are exactly the per-doc timestamps |
| RagQuery.IndexedDocTimestamp | backend/rag_query.py:77-78 | a doc the indexer stored contributes its `format_timestamp` of the start |
| RagQuery.CollectTimestamps | backend/rag_query.py:75-85 | the loop collects the per-doc timestamps in order |
| RagQuery.DocTimestamp | backend/rag_query.py:77-84 | the non-empty `timestamp`, else MM:SS of `start_time`, else none (definition; stated by `TimestampsMembers`, `IndexedDocTimestamp`) |
| RagQuery.DedupMembers | backend/rag_query.py:88 | de-duplication keeps the same elements and leaves no duplicate |
| RagQuery.DedupFirstOccurrenceOrder | backend/rag_query.py:88 | de-duplicated elements appear in first-occurrence order |
| RagQuery.DedupOfDistinct | backend/rag_query.py:88 | a list without duplicates is unchanged |
| RagQuery.Dedup | backend/rag_query.py:88 | `list(dict.fromkeys(...))` (definition; stated by `DedupMembers`, `DedupFirstOccurrenceOrder`, `DedupOfDistinct`) |
| RagQuery.RespondTimestamps | backend/rag_query.py:66-110 | used timestamps have no duplicate, and each comes from a kept doc within the threshold |
| RagQuery.RespondSuccess | backend/rag_query.py:73-110 | with docs kept, a reply gives the answer with the de-duplicated timestamps; a generation error gives none |
| RagQuery.Respond | backend/rag_query.py:66-110 | the answer once the search results are known (definition; stated by `RespondTimestamps`, `RespondSuccess`, `BuildAnswer`) |
| RagQuery.BuildAnswer | backend/rag_query.py:66-110 | building the answer imperatively matches `Respond` |
| RagQuery.CacheKeyCollision | backend/rag_query.py:55 | distinct (video, query) pairs can share a cache key |
| RagQuery.RagEngine.constructor | backend/rag_query.py:51-54 | the cache starts empty |
| RagQuery.RagEngine.Query | backend/rag_query.py:13-113 | empty query, store error, cache hit, search error and search success each give the stated answer; the cache grows only on a successful miss |
| ChatContainer.ParseThreeFields | frontend/src/components/ChatContainer.tsx:54-57 | `h:m:s` reads as h*3600 + m*60 + s |
| ChatContainer.ParseTwoFields | frontend/src/components/ChatContainer.tsx:58-60 | `m:s` reads as m*60 + s |
| ChatContainer.ParseOneField | frontend/src/components/ChatContainer.tsx:61 | a text without a colon reads as 0 |
| ChatContainer.ParseManyFields | frontend/src/components/ChatContainer.tsx:61 | four or more fields read as 0 |
| ChatContainer.ParseNotNumeric | frontend/src/components/ChatContainer.tsx:54-60 | a non-numeric field among two or three gives NaN, formatted "NaN:NaN" |
| ChatContainer.ParseTimestamp | frontend/src/components/ChatContainer.tsx:53-62 | `h:m:s` or `m:s` in seconds, NaN for a non-numeric field among them, 0 otherwise (definition; stated by the five `Parse…` lemmas above) |
| ChatContainer.FormatShape | frontend/src/components/ChatContainer.tsx:65-70 | the output is minutes, a colon and two digits below 60, which add up to the input's seconds |
| ChatContainer.FormatKeepsSeconds | frontend/src/components/ChatContainer.tsx:65-70 | reading the formatted text gives the same seconds |
| ChatContainer.FormatIdempotent | frontend/src/components/ChatContainer.tsx:65-70 | formatting twice equals formatting once |
| ChatContainer.FormatRoundTrip | frontend/src/components/ChatContainer.tsx:65-70 | `MM:SS` with two-digit fields and SS ≤ 59 comes back unchanged |
| ChatContainer.IndexedTimestampUnchanged | frontend/src/components/ChatContainer.tsx:65-70 | an indexer timestamp under 100 minutes is shown unchanged |
| ChatContainer.FormatTimestamp | frontend/src/components/ChatContainer.tsx:64-70 | padded minutes and seconds of the parsed text, `NaN:NaN` for NaN (definition; stated by `FormatShape`, `FormatKeepsSeconds`, `FormatIdempotent`, `FormatRoundTrip`) |
| ChatContainer.MatchLength | frontend/src/components/ChatContainer.tsx:104 | a match at a position has one or two digits, `:dd` and an optional `:dd`, between word boundaries; none iff no such shape fits |
| ChatContainer.FirstMatch | frontend/src/components/ChatContainer.tsx:104-105 | the leftmost match; no earlier position matches; none iff no position matches |
| ChatContainer.FirstTimestamp | frontend/src/components/ChatContainer.tsx:104-106 | the text of the leftmost match (definition; stated by `FirstMatch`, `FirstTimestampFields`) |
| ChatContainer.FieldsOfMatch | frontend/src/components/ChatContainer.tsx:104 | matched text is two or three numeric fields of widths 1-2, 2, 2 |
| ChatContainer.FirstTimestampFields | frontend/src/components/ChatContainer.tsx:104-111 | the first match has those fields, so `parseTimestamp` never gives NaN for it |
| ChatContainer.AnswerTimestamp | frontend/src/components/ChatContainer.tsx:111 | a timestamp is shown iff the answer holds a match |
| ChatContainer.AnswerTimestampSeconds | frontend/src/components/ChatContainer.tsx:104-112 | the shown timestamp counts the same seconds as the matched text |
| ChatContainer.SentMessagesContent | frontend/src/components/ChatContainer.tsx:74-127 | sending adds the question and one assistant message: the no-lecture notice, the apology, or the answer with its timestamp |
| ChatContainer.SendKeepsHistory | frontend/src/components/ChatContainer.tsx:74-127 | sending only appends; earlier messages are unchanged |
| ChatContainer.SentMessages | frontend/src/components/ChatContainer.tsx:73-128 | the messages one send appends (definition; stated by `SentMessagesContent`) |
| ChatContainer.Chat.constructor | frontend/src/components/ChatContainer.tsx:14-20 | the panel starts empty, not loading, with no lecture |
| ChatContainer.Chat.LoadLectures | frontend/src/components/ChatContainer.tsx:23-45 | a non-empty list selects the last lecture and shows only the welcome; a failed fetch sets the error |
| ChatContainer.Chat.HandleSend | frontend/src/components/ChatContainer.tsx:73-128 | messages grow by the sent messages; a query is posted only with a lecture loaded; loading ends false then |
| FileUpload.ValidateFile | frontend/src/components/FileUpload.tsx:14-24 | the type error iff the type is not mp4/mkv/webm; the size error iff the type is allowed and the size exceeds 3 GiB; None iff both checks pass |
| FileUpload.CheckOrder | frontend/src/components/FileUpload.tsx:15-23 | the type check comes first; exactly 3 GiB is accepted |
| FileUpload.Uploader.constructor | frontend/src/components/FileUpload.tsx:11-12 | no drag highlight and no error |
| FileUpload.Uploader.Accept | frontend/src/components/FileUpload.tsx:31-37 | an invalid file sets the error and is not uploaded; a valid one clears the error and is uploaded |
| FileUpload.Uploader.HandleDrop | frontend/src/components/FileUpload.tsx:26-39 | the drag highlight goes off; the first file, if any, is gated |
| FileUpload.Uploader.HandleChange | frontend/src/components/FileUpload.tsx:41-52 | the first chosen file, if any, is gated; the drag highlight is unchanged |

## Left out

- ffmpeg, Whisper, the vector store, the embeddings, the language model and HTTP are parameters. The text splitter (`RecursiveCharacterTextSplitter`) is a function parameter of `ProcessTranscript`.
- `uuid4()` and the clock are parameters of `CreateSession` and `UploadFile`.
- Files are sets and maps of paths. `glob` is the list of detail files handed to `ProcessTranscript`.
- JSON encoding is not modelled.
- The WebSocket fan-out of `notify_progress`, and the exceptions it swallows, are recorded as a list of events.
- `asyncio.sleep(2)` between retries is not modelled, because it has no effect on state.
- Concurrency between jobs and between requests is not modelled. Each operation runs alone.
- Backend.Server.ProcessJob: a failure to append the job at backend/main.py:161-170 is not modelled. It needs a file error, and the store here is in memory.
- Backend.Server.ProcessJob: the outer `except` at backend/main.py:430-441 is modelled only for an error raised by the indexer. The other statements it guards are file operations.
- Backend.Server.ProcessJob: the run's indexer is an outcome parameter (`Services.indexing`). It is not `VectorPipeline.ProcessTranscript`, which is modelled on its own.
- Times are exact reals. Python floats and JavaScript numbers are not modelled bit for bit.
- `Strings.Lower` lower-cases ASCII letters only. Python's `str.lower` also folds other scripts.
- ChatContainer.ParseTimestamp: a field is a number only when it is decimal digits (the empty field is 0). Other text reads as NaN, so `Number(" 5")`, signs, decimals and exponents are not modelled. The regex only ever passes digit fields.
- `handleSend`'s `loading` is true only while the request runs. The model does not observe it in between.
- React rendering, the WebSocket effect, the video player and the other components are not modelled.
- `rag_query`'s outer `except` (backend/rag_query.py:112-113) cannot be reached in the model, because every step is total. So the query never raises.
- The prompt's system text and the model call are part of the `generate` parameter.
- The endpoints `/sessions`, `/processing-status`, `/rag-query` and `/clear-data` are FastAPI glue around the modelled functions.
