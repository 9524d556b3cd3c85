/** The state process_job and the upload endpoints of backend/main.py
    change in place: the three lists of db.json, the notifications sent, the
    media files under uploads/ and the transcript files. Each method does
    what its source function does step by step and is proved against the
    value-level description of the Jobs and Transcription modules. */
module Backend {
  import opened Wrappers
  import opened Strings
  import opened Jobs
  import opened Transcription

  class Server {
    /** db["lectures"] */
    var lectures: seq<Job>
    /** db["processing_jobs"] */
    var jobs: seq<Job>
    /** db["sessions"] */
    var sessions: seq<Session>
    /** Every notify_progress call, in order. */
    var events: seq<Event>
    /** The media files that exist: uploaded videos, extracted audio, chunks. */
    var media: set<string>
    /** Transcript text files, by path. */
    var transcripts: map<string, string>
    /** Detailed transcript files (their word lists), by path. */
    var detailed: map<string, seq<Word>>

    /** Start-up: init_db on the stored file, if any; no notification yet. */
    constructor (stored: Option<StoredDb>, media: set<string>)
      ensures var db := InitDb(stored);
        lectures == db.lectures && jobs == db.processingJobs && sessions == db.sessions
      ensures events == [] && this.media == media && transcripts == map[] && detailed == map[]
    {
      var db := InitDb(stored);
      lectures := db.lectures;
      jobs := db.processingJobs;
      sessions := db.sessions;
      events := [];
      this.media := media;
      transcripts := map[];
      detailed := map[];
    }

    /** notify_progress */
    method Notify(filename: string, progress: int, step: Option<Step>)
      modifies this`events
      ensures events == old(events) + [Event(filename, progress, step)]
    {
      events := events + [Event(filename, progress, step)];
    }

    /** The loop `for job in db["processing_jobs"]: if job["filename"] ==
        filename: ...` that every status change of process_job runs. */
    method SetJobs(filename: string, u: JobUpdate)
      modifies this`jobs
      ensures jobs == UpdatedJobs(old(jobs), filename, u)
    {
      var i := 0;
      while i < |jobs|
        invariant 0 <= i <= |jobs| == |old(jobs)|
        invariant forall k :: 0 <= k < i ==> jobs[k] == UpdatedJobs(old(jobs), filename, u)[k]
        invariant forall k :: i <= k < |jobs| ==> jobs[k] == old(jobs)[k]
      {
        if jobs[i].filename == filename {
          jobs := jobs[i := Apply(jobs[i], u)];
        }
        i := i + 1;
      }
    }

    /** cleanup_sessions */
    method CleanupSessions()
      modifies this`sessions
      ensures sessions == []
    {
      sessions := [];
    }

    /** create_session: the id comes from uuid4 and the time from the clock,
        both given here. */
    method CreateSession(filename: string, sessionId: string, isoTime: string) returns (session: Session)
      modifies this`sessions
      ensures session == Session(sessionId, filename, isoTime + "Z")
      ensures sessions == old(sessions) + [session]
    {
      session := Session(sessionId, filename, isoTime + "Z");
      sessions := sessions + [session];
    }

    /** upload_file, up to enqueuing process_job: the file is stored under a
        timestamped name, the sessions are replaced by one for it and, on a
        restart, the jobs of that name are dropped. */
    method UploadFile(clientName: string, stamp: string, sessionId: string, isoTime: string, restart: bool)
      returns (filename: string, session: Session)
      modifies this`media, this`sessions, this`jobs
      ensures filename == UploadName(clientName, stamp)
      ensures media == old(media) + {UploadLocation(filename)}
      ensures session == Session(sessionId, filename, isoTime + "Z") && sessions == [session]
      ensures jobs == if restart then Filter(old(jobs), NotNamed(filename)) else old(jobs)
    {
      filename := UploadName(clientName, stamp);
      media := media + {UploadLocation(filename)};
      CleanupSessions();
      session := CreateSession(filename, sessionId, isoTime);
      if restart {
        jobs := Filter(jobs, NotNamed(filename));
      }
    }

    /** get_lectures: the jobs that are done, in table order. */
    function Lectures(): (r: seq<Job>)
      reads this
      ensures forall j :: j in r <==> j in jobs && j.status == Done
    {
      FilterMembers(jobs, Finished);
      Filter(jobs, Finished)
    }

    /** The loop of chunk_audio_file: cut chunk i from second i*600 until
        n are cut or a cut fails. */
    method CutChunks(audioPath: string, cut: (string, nat) -> bool, n: nat) returns (done: nat, paths: seq<string>)
      modifies this`media
      ensures done == CutsDone(audioPath, cut, n)
      ensures paths == ChunkPaths(audioPath, done)
      ensures media == old(media) + FirstChunks(audioPath, done)
    {
      paths := [];
      done := 0;
      while done < n
        invariant 0 <= done <= n
        invariant CutsDone(audioPath, cut, done) == done
        invariant paths == ChunkPaths(audioPath, done)
        invariant media == old(media) + FirstChunks(audioPath, done)
      {
        var chunk := ChunkAudioPath(audioPath, done);
        if !cut(chunk, done * ChunkSeconds) {
          CutsDoneStops(audioPath, cut, n, done);
          return;
        }
        FirstChunksNext(audioPath, done);
        ChunkPathsNext(audioPath, done);
        media := media + {chunk};
        paths := paths + [chunk];
        done := done + 1;
      }
    }

    /** chunk_audio_file: probe the duration, then cut one chunk per 600
        seconds; any failure gives the empty list, and the chunks already cut
        stay on disk. */
    method ChunkAudioFile(audioPath: string, s: Services) returns (paths: seq<string>)
      modifies this`media
      ensures paths == PlannedChunks(audioPath, s)
      ensures media == old(media) + CutFiles(audioPath, s)
    {
      if s.duration.Err? {
        return [];
      }
      var n := NumChunks(s.duration.value);
      var done, cut := CutChunks(audioPath, s.cut, n);
      paths := if done == n then cut else [];
    }

    /** The retry loop around one transcription: a notification before each
        attempt, stop at the first success or after the third failure. */
    method TranscribeWithRetry(e: Event, transcribe: (string, nat) -> Result<Response, string>, path: string)
      returns (a: Attempts)
      modifies this`events
      ensures a == Retry(transcribe, path)
      ensures events == old(events) + Repeat(e, a.count)
    {
      var attempt: nat := 0;
      while true
        invariant attempt < MaxRetries
        invariant RetryFrom(transcribe, path, attempt) == Retry(transcribe, path)
        invariant events == old(events) + Repeat(e, attempt)
        decreases MaxRetries - attempt
      {
        assert Repeat(e, attempt) + [e] == Repeat(e, attempt + 1);
        events := events + [e];
        var r := transcribe(path, attempt);
        if r.Ok? || attempt == MaxRetries - 1 {
          return Attempts(attempt + 1, r);
        }
        attempt := attempt + 1;
      }
    }

    /** One pass of the chunk loop, for chunk i, which follows the chunks
        whose outcomes are given: transcribe it with retries; write its
        detailed file, with times moved by i*600 seconds, when the
        transcription has words; keep its text when it is not empty; remove
        it, or every chunk when it gives up. */
    method TranscribeChunk(f: string, i: nat, paths: seq<string>, transcribe: (string, nat) -> Result<Response, string>,
                           texts: seq<string>, ghost done: seq<Attempts>,
                           ghost events0: seq<Event>, ghost detailed0: map<string, seq<Word>>, ghost media0: set<string>)
      returns (a: Attempts, texts': seq<string>)
      requires i == |done| < |paths|
      requires texts == Texts(done)
      requires events == events0 + ChunkEvents(f, |paths|, done)
      requires detailed == ChunkWrites(detailed0, f, done)
      requires media == media0 - Names(paths[..i])
      modifies this`events, this`detailed, this`media
      ensures a == Retry(transcribe, paths[i])
      ensures texts' == Texts(done + [a])
      ensures events == events0 + ChunkEvents(f, |paths|, done + [a])
      ensures detailed == ChunkWrites(detailed0, f, done + [a])
      ensures media == media0 - Names(if a.result.Ok? then paths[..i + 1] else paths)
    {
      var n := |paths|;
      a := TranscribeWithRetry(Event(f, ChunkProgress(i, n), Some(TranscribingChunk(i + 1, n))), transcribe, paths[i]);
      ChunkRunNext(detailed0, f, n, done, a);
      TextsNext(done, a);
      texts' := texts;
      if a.result.Err? {
        RemoveRest(media0, paths, i);
        RemoveFiles(paths);
        return;
      }
      var r := a.result.value;
      if r.words != [] {
        detailed := detailed[ChunkDetailedPath(f, i) := Shift(r.words, (i * ChunkSeconds) as real)];
      }
      if r.text != [] {
        texts' := texts + [r.text];
      }
      RemoveNext(media0, paths, i);
      RemoveFiles([paths[i]]);
    }

    /** os.remove of every name given that exists. */
    method RemoveFiles(paths: seq<string>)
      modifies this`media
      ensures media == old(media) - Names(paths)
    {
      media := media - Names(paths);
    }

    /** The chunk loop of process_job, chunk after chunk until one gives
        up. */
    method TranscribeChunks(f: string, paths: seq<string>, transcribe: (string, nat) -> Result<Response, string>)
      returns (outs: seq<Attempts>, texts: seq<string>)
      requires paths != []
      modifies this`events, this`detailed, this`media
      ensures outs == Notified(Outcomes(transcribe, paths))
      ensures texts == Texts(outs)
      ensures events == old(events) + ChunkEvents(f, |paths|, outs)
      ensures detailed == ChunkWrites(old(detailed), f, outs)
      ensures media == old(media) - Names(paths)
    {
      outs, texts := [], [];
      var i := 0;
      while i < |paths|
        invariant 0 <= i <= |paths| && |outs| == i
        invariant AllTranscribed(transcribe, paths, outs)
        invariant texts == Texts(outs)
        invariant events == old(events) + ChunkEvents(f, |paths|, outs)
        invariant detailed == ChunkWrites(old(detailed), f, outs)
        invariant media == old(media) - Names(paths[..i])
      {
        var a;
        a, texts := TranscribeChunk(f, i, paths, transcribe, texts, outs, old(events), old(detailed), old(media));
        if a.result.Err? {
          LoopStopped(transcribe, paths, outs, a);
          outs := outs + [a];
          return;
        }
        AllTranscribedNext(transcribe, paths, outs, a);
        outs := outs + [a];
        i := i + 1;
      }
      assert paths[..i] == paths;
      LoopFinished(transcribe, paths, outs);
    }

    /** The loop that merges the chunk detailed files that exist, in chunk
        order. */
    method CombineWords(f: string, n: nat) returns (combined: seq<Word>)
      ensures combined == CombinedWords(detailed, f, n)
    {
      combined := [];
      var i := 0;
      while i < n
        invariant 0 <= i <= n
        invariant combined == CombinedWords(detailed, f, i)
      {
        var p := ChunkDetailedPath(f, i);
        if p in detailed {
          combined := combined + detailed[p];
        }
        i := i + 1;
      }
    }

    /** The chunk loop and the merge, once the chunks are cut and the
        chunking was announced after the notifications `before`; an empty
        plan fails at once. */
    method TranscribeCut(f: string, paths: seq<string>, transcribe: (string, nat) -> Result<Response, string>,
                         ghost before: seq<Event>) returns (phase: Phase)
      requires events == before + [Event(f, 35, Some(ChunkingLargeAudio))]
      modifies this`events, this`detailed, this`media
      ensures var all := Outcomes(transcribe, paths);
        && phase == ChunkedPhase(all)
        && events == before + ChunkedEvents(f, all)
        && detailed == ChunkedDetailed(old(detailed), f, all)
      ensures media == old(media) - Names(paths)
    {
      if paths == [] {
        ChunkedNothingPlanned(detailed, f);
        ChunkedEventsAfter(before, f, []);
        assert Names(paths) == {};
        return Failed(ChunkingFailedMessage);
      }
      phase := TranscribePlan(f, paths, transcribe);
      ChunkedEventsAfter(before, f, Outcomes(transcribe, paths));
    }

    /** The chunk loop and the merge for a non-empty plan. */
    method TranscribePlan(f: string, paths: seq<string>, transcribe: (string, nat) -> Result<Response, string>) returns (phase: Phase)
      requires paths != []
      modifies this`events, this`detailed, this`media
      ensures var all := Outcomes(transcribe, paths);
        && phase == ChunkedPhase(all)
        && events == old(events) + ChunkEvents(f, |all|, Notified(all))
        && detailed == ChunkedDetailed(old(detailed), f, all)
      ensures media == old(media) - Names(paths)
    {
      var outs, texts := TranscribeChunks(f, paths, transcribe);
      var last := outs[|outs| - 1];
      if last.result.Err? {
        ChunkGaveUp(old(detailed), f, Outcomes(transcribe, paths), outs);
        return Failed("Transcription failed for chunk " + NatToString(|outs|) + ": " + last.result.error);
      }
      ChunksAllDone(old(detailed), f, Outcomes(transcribe, paths), outs);
      var combined := CombineWords(f, |paths|);
      if combined != [] {
        detailed := detailed[DetailedPath(f) := combined];
      }
      phase := Transcribed(Join(texts, " "));
    }

    /** The branch of process_job for audio above 24 MiB: announce the
        chunking, cut the chunks, transcribe them, then merge the chunk
        detailed files. */
    method ChunkedTranscription(f: string, s: Services) returns (phase: Phase)
      modifies this`events, this`detailed, this`media
      ensures var all := Outcomes(s.transcribe, PlannedChunks(AudioPath(f), s));
        && phase == ChunkedPhase(all)
        && events == old(events) + ChunkedEvents(f, all)
        && detailed == ChunkedDetailed(old(detailed), f, all)
      ensures media == old(media) + CutFiles(AudioPath(f), s) - Names(PlannedChunks(AudioPath(f), s))
    {
      Notify(f, 35, Some(ChunkingLargeAudio));
      var paths := ChunkAudioFile(AudioPath(f), s);
      phase := TranscribeCut(f, paths, s.transcribe, old(events));
    }

    /** The branch of process_job for audio of at most 24 MiB: one
        transcription with retries; its words go to the detailed file. */
    method SingleTranscription(f: string, s: Services) returns (phase: Phase)
      modifies this`events, this`detailed
      ensures var a := Retry(s.transcribe, AudioPath(f));
        && phase == SinglePhase(a)
        && events == old(events) + Repeat(Event(f, 40, Some(TranscribingAudio)), a.count)
        && detailed == SingleDetailed(old(detailed), f, a)
    {
      var a := TranscribeWithRetry(Event(f, 40, Some(TranscribingAudio)), s.transcribe, AudioPath(f));
      match a.result
      case Err(e) =>
        phase := Failed("Transcription failed after " + NatToString(MaxRetries) + " attempts: " + e);
      case Ok(r) =>
        if r.words != [] {
          detailed := detailed[DetailedPath(f) := r.words];
        }
        phase := Transcribed(r.text);
    }

    /** The transcription phase of process_job, chunked above 24 MiB. */
    method Transcribe(f: string, s: Services) returns (phase: Phase)
      modifies this`events, this`detailed, this`media
      ensures phase == TranscriptionPhase(f, s)
      ensures events == old(events) + TranscriptionEvents(f, s)
      ensures detailed == TranscriptionDetailed(old(detailed), f, s)
      ensures media == TranscriptionFiles(old(media), f, s)
    {
      if s.audioSize > MaxAudioSize {
        phase := ChunkedTranscription(f, s);
      } else {
        phase := SingleTranscription(f, s);
      }
    }

    /** The error path of process_job: the job records the message, then
        progress 0 is sent. */
    method Fail(f: string, message: string)
      modifies this`jobs, this`events
      ensures jobs == UpdatedJobs(old(jobs), f, MarkError(message))
      ensures events == old(events) + [Event(f, 0, None)]
    {
      SetJobs(f, MarkError(message));
      Notify(f, 0, None);
    }

    /** Indexing of a saved transcript and the outcome it gives the job. */
    method Index(f: string, text: string, indexing: Option<string>)
      modifies this`jobs, this`events, this`media
      ensures jobs == UpdatedJobs(old(jobs), f, PhaseUpdate(f, Transcribed(text), indexing))
      ensures events == old(events) + ClosingEvents(f, indexing)
      ensures media == IndexedFiles(old(media), f, Transcribed(text), indexing)
    {
      Notify(f, 60, Some(TranscriptionDone));
      Notify(f, 70, Some(ChunkingAndEmbedding));
      if indexing.Some? {
        Fail(f, indexing.value);
      } else {
        media := media - {AudioPath(f)};
        Notify(f, 100, Some(AllDone));
        SetJobs(f, MarkDone(AudioPath(f), TranscriptPath(f), |text|));
        Notify(f, 100, None);
      }
    }

    /** What process_job does after the transcription phase: save the
        transcript, index it, and record the outcome. */
    method Conclude(f: string, phase: Phase, indexing: Option<string>)
      modifies this`jobs, this`events, this`transcripts, this`media
      ensures events == old(events) + AfterTranscription(f, phase, indexing)
      ensures jobs == UpdatedJobs(old(jobs), f, PhaseUpdate(f, phase, indexing))
      ensures transcripts == PhaseTranscripts(old(transcripts), f, phase)
      ensures media == IndexedFiles(old(media), f, phase, indexing)
    {
      if phase.Failed? {
        Fail(f, phase.message);
      } else {
        transcripts := transcripts[TranscriptPath(f) := phase.text];
        Index(f, phase.text, indexing);
      }
    }

    /** The start of process_job: the job is recorded and set to
        processing, with the first two notifications. */
    method Open(f: string)
      modifies this`jobs, this`events
      ensures jobs == UpdatedJobs(old(jobs) + [NewJob(f)], f, MarkProcessing)
      ensures events == old(events) + [Event(f, 5, Some(Uploading)), Event(f, 10, Some(ExtractingAudio))]
    {
      jobs := jobs + [NewJob(f)];
      Notify(f, 5, Some(Uploading));
      SetJobs(f, MarkProcessing);
      Notify(f, 10, Some(ExtractingAudio));
    }

    /** process_job once the audio is extracted: the audio file is
        recorded, then transcription and its conclusion follow. */
    method Extracted(f: string, s: Services)
      requires s.extraction.None?
      modifies this`jobs, this`events, this`media, this`transcripts, this`detailed
      ensures events == old(events) + ExtractedEvents(f, s)
      ensures jobs == UpdatedJobs(old(jobs), f, PhaseUpdate(f, TranscriptionPhase(f, s), s.indexing))
      ensures transcripts == PhaseTranscripts(old(transcripts), f, TranscriptionPhase(f, s))
      ensures media == IndexedFiles(TranscriptionFiles(old(media) + {AudioPath(f)}, f, s), f,
                                    TranscriptionPhase(f, s), s.indexing)
      ensures detailed == TranscriptionDetailed(old(detailed), f, s)
    {
      media := media + {AudioPath(f)};
      Notify(f, 30, Some(AudioExtracted));
      var phase := Transcribe(f, s);
      Conclude(f, phase, s.indexing);
      var third := [Event(f, 30, Some(AudioExtracted))];
      AppendAssoc(old(events), third + TranscriptionEvents(f, s), AfterTranscription(f, phase, s.indexing));
      AppendAssoc(old(events), third, TranscriptionEvents(f, s));
    }

    /** process_job after its first two notifications: audio extraction,
        which fails the job or leads to transcription. */
    method ExtractAndTranscribe(f: string, s: Services)
      modifies this`jobs, this`events, this`media, this`transcripts, this`detailed
      ensures events == old(events) + LaterEvents(f, s)
      ensures jobs == UpdatedJobs(old(jobs), f, FinalUpdate(f, s))
      ensures media == RunFiles(old(media), f, s)
      ensures transcripts == RunTranscripts(old(transcripts), f, s)
      ensures detailed == RunDetailed(old(detailed), f, s)
    {
      if s.extraction.Some? {
        RunWithoutAudio(jobs, media, transcripts, detailed, f, s);
        Fail(f, "Audio extraction failed: " + s.extraction.value);
      } else {
        RunWithAudio(jobs, media, transcripts, detailed, f, s);
        Extracted(f, s);
      }
    }

    /** process_job: record the job, extract the audio, transcribe it,
        save the transcript, index it and record the outcome, notifying
        progress along the way. Every step that fails records an error and
        notifies 0. */
    method ProcessJob(f: string, s: Services)
      modifies this`jobs, this`events, this`media, this`transcripts, this`detailed
      ensures events == old(events) + RunEvents(f, s)
      ensures jobs == RunJobs(old(jobs), f, s)
      ensures media == RunFiles(old(media), f, s)
      ensures transcripts == RunTranscripts(old(transcripts), f, s)
      ensures detailed == RunDetailed(old(detailed), f, s)
    {
      Open(f);
      ExtractAndTranscribe(f, s);
      AppendAssoc(old(events), [Event(f, 5, Some(Uploading)), Event(f, 10, Some(ExtractingAudio))], LaterEvents(f, s));
    }
  }

  lemma RemoveNext(m: set<string>, paths: seq<string>, i: nat)
    requires i < |paths|
    ensures (m - Names(paths[..i])) - Names([paths[i]]) == m - Names(paths[..i + 1])
  {
    assert paths[..i + 1] == paths[..i] + [paths[i]];
  }

  lemma RemoveRest(m: set<string>, paths: seq<string>, i: nat)
    requires i <= |paths|
    ensures (m - Names(paths[..i])) - Names(paths) == m - Names(paths)
  {
    assert forall p :: p in paths[..i] ==> p in paths;
  }
}
