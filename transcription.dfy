/** What one run of process_job (backend/main.py) does, as values: the
    bounded retry of each transcription, the chunk plan of a large audio
    file, the progress notifications in order, the final update of the job
    record, and the transcript and detailed-transcript files it leaves.
    ffmpeg, Whisper and the indexer are the oracles of Services. */
module Transcription {
  import opened Wrappers
  import opened Strings
  import opened Jobs
  import VectorPipeline

  type Word = VectorPipeline.Word

  /** Audio above this many bytes is cut into chunks (24 MiB; the service
      limit is 25 MB). */
  const MaxAudioSize: nat := 24 * 1024 * 1024
  /** The length of a chunk, in seconds. */
  const ChunkSeconds: nat := 600
  /** Attempts per transcription. */
  const MaxRetries: nat := 3

  /** A transcription: the text and the words, timed relative to the audio
      that was sent. */
  datatype Response = Response(text: string, words: seq<Word>)

  /** The steps process_job reports; StepName gives the string sent. */
  datatype Step =
    | Uploading | ExtractingAudio | AudioExtracted | ChunkingLargeAudio | TranscribingAudio
    | TranscribingChunk(number: nat, total: nat)
    | TranscriptionDone | ChunkingAndEmbedding | AllDone

  function StepName(step: Step): string
  {
    match step
    case Uploading => "uploading"
    case ExtractingAudio => "extracting_audio"
    case AudioExtracted => "audio_extracted"
    case ChunkingLargeAudio => "chunking_large_audio"
    case TranscribingAudio => "transcribing_audio"
    case TranscribingChunk(number, total) => "transcribing_chunk_" + NatToString(number) + "_of_" + NatToString(total)
    case TranscriptionDone => "transcription_done"
    case ChunkingAndEmbedding => "chunking_and_embedding"
    case AllDone => "done"
  }

  /** notify_progress(filename, progress, step); the step sent is
      StepName(step). */
  datatype Event = Event(filename: string, progress: int, step: Option<Step>)

  /** The outside world of a run: the error of the audio extraction, if any;
      the size of the extracted audio; the duration ffmpeg.probe reports, or
      its error; whether cutting a chunk to a path from a start second
      succeeds; the transcription of a path at an attempt index; the error
      the indexer raises, if any. */
  datatype Services = Services(
    extraction: Option<string>,
    audioSize: nat,
    duration: Result<real, string>,
    cut: (string, nat) -> bool,
    transcribe: (string, nat) -> Result<Response, string>,
    indexing: Option<string>)

  // ---------------------------------------------------------------------
  // Retries

  /** How many attempts a transcription took and what the last one gave. */
  datatype Attempts = Attempts(count: nat, result: Result<Response, string>)

  /** `for attempt in range(max_retries)`: stop at the first success, give
      up when the last attempt fails. */
  function RetryFrom(transcribe: (string, nat) -> Result<Response, string>, path: string, attempt: nat): Attempts
    requires attempt < MaxRetries
    decreases MaxRetries - attempt
  {
    var r := transcribe(path, attempt);
    if r.Ok? || attempt == MaxRetries - 1 then Attempts(attempt + 1, r)
    else RetryFrom(transcribe, path, attempt + 1)
  }

  function Retry(transcribe: (string, nat) -> Result<Response, string>, path: string): Attempts
  {
    RetryFrom(transcribe, path, 0)
  }

  /** At most three attempts; every attempt before the last failed; the
      result is that of the last attempt; a failure is final only when it is
      the third. */
  lemma {:induction false} RetrySemantics(transcribe: (string, nat) -> Result<Response, string>, path: string, attempt: nat)
    requires attempt < MaxRetries
    ensures var a := RetryFrom(transcribe, path, attempt);
      && attempt < a.count <= MaxRetries
      && a.result == transcribe(path, a.count - 1)
      && (forall k :: attempt <= k < a.count - 1 ==> transcribe(path, k).Err?)
      && (a.result.Err? <==> a.count == MaxRetries && transcribe(path, MaxRetries - 1).Err?)
    decreases MaxRetries - attempt
  {
    var r := transcribe(path, attempt);
    if !(r.Ok? || attempt == MaxRetries - 1) {
      RetrySemantics(transcribe, path, attempt + 1);
    }
  }

  /** The outcome as the three attempts decide it: the first success, or
      the error of the third attempt when all three fail. */
  lemma RetryOutcome(transcribe: (string, nat) -> Result<Response, string>, path: string)
    ensures var a := Retry(transcribe, path);
      && (transcribe(path, 0).Ok? ==> a == Attempts(1, transcribe(path, 0)))
      && (transcribe(path, 0).Err? && transcribe(path, 1).Ok? ==> a == Attempts(2, transcribe(path, 1)))
      && (transcribe(path, 0).Err? && transcribe(path, 1).Err? ==> a == Attempts(3, transcribe(path, 2)))
  {
    RetrySemantics(transcribe, path, 0);
  }

  // ---------------------------------------------------------------------
  // The chunk plan of chunk_audio_file

  /** math.ceil */
  function Ceil(x: real): int
  {
    -((-x).Floor)
  }

  /** range(math.ceil(duration / 600)) has this many elements. */
  function NumChunks(duration: real): nat
  {
    if duration <= 0.0 then 0 else
      assert Ceil(duration / 600.0) >= 1;
      Ceil(duration / 600.0)
  }

  /** The chunks cover the audio: the last one starts before its end and
      together they reach past it; no audio gives no chunk. */
  lemma NumChunksCover(duration: real)
    ensures var n := NumChunks(duration);
      && (duration <= 0.0 <==> n == 0)
      && (0.0 < duration ==> ((n - 1) * ChunkSeconds) as real < duration <= (n * ChunkSeconds) as real)
  {
    if 0.0 < duration {
      var x := duration / 600.0;
      var c := Ceil(x);
      assert (-x).Floor as real <= -x < (-x).Floor as real + 1.0;
      assert (c - 1) as real < x <= c as real;
    }
  }

  /** The chunk names of an audio file, for n chunks. */
  function ChunkPaths(audioPath: string, n: nat): (paths: seq<string>)
    ensures |paths| == n && forall i :: 0 <= i < n ==> paths[i] == ChunkAudioPath(audioPath, i)
  {
    seq(n, i requires 0 <= i => ChunkAudioPath(audioPath, i))
  }

  lemma ChunkPathsNext(audioPath: string, n: nat)
    ensures ChunkPaths(audioPath, n + 1) == ChunkPaths(audioPath, n) + [ChunkAudioPath(audioPath, n)]
  {
  }

  /** How many of the first n cuts succeed before the first that fails. */
  function CutsDone(audioPath: string, cut: (string, nat) -> bool, n: nat): (m: nat)
    ensures m <= n
    ensures forall i :: 0 <= i < m ==> cut(ChunkAudioPath(audioPath, i), i * ChunkSeconds)
    ensures m < n ==> !cut(ChunkAudioPath(audioPath, m), m * ChunkSeconds)
  {
    if n == 0 then 0
    else
      var m := CutsDone(audioPath, cut, n - 1);
      if m == n - 1 && cut(ChunkAudioPath(audioPath, n - 1), (n - 1) * ChunkSeconds) then n else m
  }

  /** When every cut succeeds, all of them are done. */
  lemma {:induction false} AllCutsDone(audioPath: string, cut: (string, nat) -> bool, n: nat)
    requires forall i :: 0 <= i < n ==> cut(ChunkAudioPath(audioPath, i), i * ChunkSeconds)
    ensures CutsDone(audioPath, cut, n) == n
  {
    if n > 0 {
      AllCutsDone(audioPath, cut, n - 1);
    }
  }

  /** The cuts stop at the first one that fails. */
  lemma {:induction false} CutsDoneStops(audioPath: string, cut: (string, nat) -> bool, n: nat, i: nat)
    requires i < n && CutsDone(audioPath, cut, i) == i && !cut(ChunkAudioPath(audioPath, i), i * ChunkSeconds)
    ensures CutsDone(audioPath, cut, n) == i
  {
    if i < n - 1 {
      CutsDoneStops(audioPath, cut, n - 1, i);
    }
  }

  /** What chunk_audio_file returns: the n chunk paths when probing and
      every cut succeed, the empty list when anything raises. */
  function PlannedChunks(audioPath: string, s: Services): seq<string>
  {
    match s.duration
    case Err(_) => []
    case Ok(d) =>
      var n := NumChunks(d);
      if CutsDone(audioPath, s.cut, n) == n then ChunkPaths(audioPath, n) else []
  }

  /** The chunk files the cuts leave behind, including those of a plan that
      failed part-way. */
  function CutFiles(audioPath: string, s: Services): set<string>
  {
    match s.duration
    case Err(_) => {}
    case Ok(d) => FirstChunks(audioPath, CutsDone(audioPath, s.cut, NumChunks(d)))
  }

  /** The names in a list. */
  function Names(ps: seq<string>): set<string>
  {
    set p | p in ps
  }

  /** The names of the first m chunks. */
  function FirstChunks(audioPath: string, m: nat): set<string>
  {
    set i | 0 <= i < m :: ChunkAudioPath(audioPath, i)
  }

  lemma FirstChunksNext(audioPath: string, m: nat)
    ensures FirstChunks(audioPath, m + 1) == FirstChunks(audioPath, m) + {ChunkAudioPath(audioPath, m)}
  {
  }

  /** A non-empty plan has one path per 600 seconds of audio, path i named
      with index i and cut from second i*600; an empty plan means probing
      failed, there is no audio, or some cut failed. */
  lemma PlannedChunksShape(audioPath: string, s: Services)
    ensures var paths := PlannedChunks(audioPath, s);
      paths == [] || (
        && s.duration.Ok? && |paths| == NumChunks(s.duration.value)
        && forall i :: 0 <= i < |paths| ==>
             paths[i] == ChunkAudioPath(audioPath, i) && s.cut(paths[i], i * ChunkSeconds))
    ensures s.duration.Ok? && 0.0 < s.duration.value
      && (forall i :: 0 <= i < NumChunks(s.duration.value) ==> s.cut(ChunkAudioPath(audioPath, i), i * ChunkSeconds))
      ==> PlannedChunks(audioPath, s) != []
  {
    if s.duration.Ok? && 0.0 < s.duration.value {
      var n := NumChunks(s.duration.value);
      NumChunksCover(s.duration.value);
      if forall i :: 0 <= i < n ==> s.cut(ChunkAudioPath(audioPath, i), i * ChunkSeconds) {
        AllCutsDone(audioPath, s.cut, n);
      }
    }
  }

  // ---------------------------------------------------------------------
  // The chunk loop of process_job

  /** The progress announced while transcribing chunk i of n: 40 + (i*20)//n. */
  function ChunkProgress(i: nat, n: nat): int
    requires 0 < n
  {
    40 + (i * 20) / n
  }

  /** The value stays within [40, 59] and never decreases from one chunk to
      the next. */
  lemma ChunkProgressBounds(i: nat, j: nat, n: nat)
    requires i <= j < n
    ensures 40 <= ChunkProgress(i, n) <= ChunkProgress(j, n) <= 59
  {
    DivMonotone(i * 20, j * 20, n);
    var q := (j * 20) / n;
    assert q * n <= j * 20 < 20 * n;
    MulCancel(q, 20, n);
  }

  lemma MulCancel(x: int, y: int, n: int)
    requires 0 < n && x * n < y * n
    ensures x < y
  {
    assert (y - x) * n == y * n - x * n;
  }

  lemma DivMonotone(a: nat, b: nat, n: nat)
    requires a <= b && 0 < n
    ensures a / n <= b / n
  {
    var qa, qb := a / n, b / n;
    assert qa * n <= a;
    assert b < (qb + 1) * n;
    MulCancel(qa, qb + 1, n);
  }

  function Repeat(e: Event, k: nat): (r: seq<Event>)
    ensures |r| == k && forall j :: 0 <= j < k ==> r[j] == e
  {
    seq(k, _ => e)
  }

  /** The notifications of the chunks whose attempts are given, in order:
      one per attempt of each chunk. */
  function ChunkEvents(f: string, n: nat, outs: seq<Attempts>): seq<Event>
    requires 0 < n
  {
    if outs == [] then []
    else
      var k := |outs| - 1;
      ChunkEvents(f, n, outs[..k]) + Repeat(Event(f, ChunkProgress(k, n), Some(TranscribingChunk(k + 1, n))), outs[k].count)
  }

  /** The texts of the transcribed chunks that are not empty, in chunk
      order: transcript_chunks. */
  function Texts(outs: seq<Attempts>): seq<string>
  {
    if outs == [] then []
    else
      var rest := Texts(outs[..|outs| - 1]);
      var last := outs[|outs| - 1].result;
      if last.Ok? && last.value.text != [] then rest + [last.value.text] else rest
  }

  /** Word times moved by the start of their chunk. */
  function Shift(words: seq<Word>, offset: real): (r: seq<Word>)
    ensures |r| == |words|
    ensures forall i :: 0 <= i < |words| ==>
      r[i].text == words[i].text && r[i].start == words[i].start + offset && r[i].end == words[i].end + offset
  {
    seq(|words|, i requires 0 <= i < |words| =>
      VectorPipeline.Word(words[i].text, words[i].start + offset, words[i].end + offset))
  }

  /** The detailed files written for the given chunks: each chunk whose
      transcription has words gets its words, moved by i*600 seconds. */
  function ChunkWrites(d: map<string, seq<Word>>, f: string, outs: seq<Attempts>): map<string, seq<Word>>
  {
    if outs == [] then d
    else
      var k := |outs| - 1;
      var d' := ChunkWrites(d, f, outs[..k]);
      var r := outs[k].result;
      if r.Ok? && r.value.words != [] then d'[ChunkDetailedPath(f, k) := Shift(r.value.words, (k * ChunkSeconds) as real)]
      else d'
  }

  /** combined_words: the words of the chunk detailed files that exist, for
      chunks 0 to n-1 in order. */
  function CombinedWords(d: map<string, seq<Word>>, f: string, n: nat): seq<Word>
  {
    if n == 0 then []
    else CombinedWords(d, f, n - 1) + (if ChunkDetailedPath(f, n - 1) in d then d[ChunkDetailedPath(f, n - 1)] else [])
  }

  /** One more chunk adds its notifications and its detailed file at the
      end. */
  lemma ChunkRunNext(d: map<string, seq<Word>>, f: string, n: nat, outs: seq<Attempts>, a: Attempts)
    requires 0 < n
    ensures ChunkEvents(f, n, outs + [a])
      == ChunkEvents(f, n, outs) + Repeat(Event(f, ChunkProgress(|outs|, n), Some(TranscribingChunk(|outs| + 1, n))), a.count)
    ensures a.result.Ok? && a.result.value.words != [] ==>
      ChunkWrites(d, f, outs + [a]) ==
        ChunkWrites(d, f, outs)[ChunkDetailedPath(f, |outs|) := Shift(a.result.value.words, (|outs| * ChunkSeconds) as real)]
    ensures !(a.result.Ok? && a.result.value.words != []) ==> ChunkWrites(d, f, outs + [a]) == ChunkWrites(d, f, outs)
  {
    assert (outs + [a])[..|outs|] == outs;
  }

  /** One more chunk adds its text at the end when it has one. */
  lemma TextsNext(outs: seq<Attempts>, a: Attempts)
    ensures a.result.Ok? && a.result.value.text != [] ==> Texts(outs + [a]) == Texts(outs) + [a.result.value.text]
    ensures !(a.result.Ok? && a.result.value.text != []) ==> Texts(outs + [a]) == Texts(outs)
  {
    assert (outs + [a])[..|outs|] == outs;
  }

  /** The index of the first chunk whose transcription gave up, or the
      number of chunks. */
  function FirstErr(outs: seq<Attempts>): (m: nat)
    ensures m <= |outs|
    ensures forall j :: 0 <= j < m ==> outs[j].result.Ok?
    ensures m < |outs| ==> outs[m].result.Err?
  {
    if outs == [] then 0
    else
      var m := FirstErr(outs[..|outs| - 1]);
      if m < |outs| - 1 || outs[|outs| - 1].result.Err? then m else |outs|
  }

  /** The transcription outcome of every chunk. */
  function Outcomes(transcribe: (string, nat) -> Result<Response, string>, paths: seq<string>): (outs: seq<Attempts>)
    ensures |outs| == |paths| && forall i :: 0 <= i < |paths| ==> outs[i] == Retry(transcribe, paths[i])
  {
    seq(|paths|, i requires 0 <= i < |paths| => Retry(transcribe, paths[i]))
  }

  // ---------------------------------------------------------------------
  // A run

  /** How transcription ends: with an error message, or with the text. */
  datatype Phase = Failed(message: string) | Transcribed(text: string)

  const ChunkingFailedMessage := "Failed to chunk large audio file"

  /** The chunked path, for the outcome of every planned chunk: no plan,
      the first chunk that gave up, or the non-empty texts joined with
      spaces. */
  function ChunkedPhase(outs: seq<Attempts>): Phase
  {
    if outs == [] then Failed(ChunkingFailedMessage)
    else
      var m := FirstErr(outs);
      if m < |outs| then Failed("Transcription failed for chunk " + NatToString(m + 1) + ": " + outs[m].result.error)
      else Transcribed(Join(Texts(outs), " "))
  }

  /** The single path, for the outcome of the retries. */
  function SinglePhase(a: Attempts): Phase
  {
    match a.result
    case Err(e) => Failed("Transcription failed after " + NatToString(MaxRetries) + " attempts: " + e)
    case Ok(r) => Transcribed(r.text)
  }

  /** Transcription of extracted audio: in chunks when it is larger than
      24 MiB, in one piece otherwise. */
  function TranscriptionPhase(f: string, s: Services): Phase
  {
    if s.audioSize > MaxAudioSize then ChunkedPhase(Outcomes(s.transcribe, PlannedChunks(AudioPath(f), s)))
    else SinglePhase(Retry(s.transcribe, AudioPath(f)))
  }

  /** The chunk outcomes that get notifications: all of them, or those up
      to the first that gave up. */
  function Notified(outs: seq<Attempts>): (given: seq<Attempts>)
    ensures |given| <= |outs|
  {
    var m := FirstErr(outs);
    if m < |outs| then outs[..m + 1] else outs
  }

  lemma NotifiedAllDone(outs: seq<Attempts>)
    requires forall k :: 0 <= k < |outs| ==> outs[k].result.Ok?
    ensures Notified(outs) == outs
  {
  }

  lemma NotifiedUpTo(outs: seq<Attempts>, i: nat)
    requires i < |outs| && outs[i].result.Err? && forall k :: 0 <= k < i ==> outs[k].result.Ok?
    ensures Notified(outs) == outs[..i + 1]
  {
    FirstErrAt(outs, i);
  }

  /** The outcomes of the first chunks, every one a success. */
  predicate AllTranscribed(transcribe: (string, nat) -> Result<Response, string>, paths: seq<string>, outs: seq<Attempts>)
  {
    |outs| <= |paths| && forall k :: 0 <= k < |outs| ==> outs[k] == Retry(transcribe, paths[k]) && outs[k].result.Ok?
  }

  lemma AllTranscribedNext(transcribe: (string, nat) -> Result<Response, string>, paths: seq<string>, outs: seq<Attempts>, a: Attempts)
    requires AllTranscribed(transcribe, paths, outs) && |outs| < |paths|
    requires a == Retry(transcribe, paths[|outs|]) && a.result.Ok?
    ensures AllTranscribed(transcribe, paths, outs + [a])
  {
    var next := outs + [a];
    forall k | 0 <= k < |next|
      ensures next[k] == Retry(transcribe, paths[k]) && next[k].result.Ok?
    {
      if k < |outs| {
        assert next[k] == outs[k];
      }
    }
  }

  /** A chunk loop that gave up at its last chunk saw exactly the outcomes
      that get notifications. */
  lemma LoopStopped(transcribe: (string, nat) -> Result<Response, string>, paths: seq<string>, outs: seq<Attempts>, a: Attempts)
    requires AllTranscribed(transcribe, paths, outs) && |outs| < |paths|
    requires a == Retry(transcribe, paths[|outs|]) && a.result.Err?
    ensures outs + [a] == Notified(Outcomes(transcribe, paths))
  {
    var all := Outcomes(transcribe, paths);
    NotifiedUpTo(all, |outs|);
    assert all[..|outs| + 1] == outs + [a];
  }

  /** A chunk loop that transcribed every chunk saw every outcome. */
  lemma LoopFinished(transcribe: (string, nat) -> Result<Response, string>, paths: seq<string>, outs: seq<Attempts>)
    requires AllTranscribed(transcribe, paths, outs) && |outs| == |paths|
    ensures outs == Notified(Outcomes(transcribe, paths))
  {
    var all := Outcomes(transcribe, paths);
    assert all == outs;
    NotifiedAllDone(all);
  }

  /** The notifications of the chunked path, for the outcome of every
      planned chunk. */
  function ChunkedEvents(f: string, outs: seq<Attempts>): seq<Event>
  {
    [Event(f, 35, Some(ChunkingLargeAudio))] + ChunkLoopEvents(f, outs)
  }

  /** The notifications of the chunk loop: none without a plan. */
  function ChunkLoopEvents(f: string, outs: seq<Attempts>): seq<Event>
  {
    if outs == [] then [] else ChunkEvents(f, |outs|, Notified(outs))
  }

  /** The notifications of the transcription phase. */
  function TranscriptionEvents(f: string, s: Services): seq<Event>
  {
    if s.audioSize > MaxAudioSize then ChunkedEvents(f, Outcomes(s.transcribe, PlannedChunks(AudioPath(f), s)))
    else Repeat(Event(f, 40, Some(TranscribingAudio)), Retry(s.transcribe, AudioPath(f)).count)
  }

  /** The chunking notification followed by those of the chunk loop. */
  lemma ChunkedEventsAfter(before: seq<Event>, f: string, outs: seq<Attempts>)
    ensures before + ChunkedEvents(f, outs) == before + [Event(f, 35, Some(ChunkingLargeAudio))] + ChunkLoopEvents(f, outs)
  {
  }

  /** The notifications after a successful transcription. */
  function ClosingEvents(f: string, indexing: Option<string>): seq<Event>
  {
    [Event(f, 60, Some(TranscriptionDone)), Event(f, 70, Some(ChunkingAndEmbedding))]
    + if indexing.Some? then [Event(f, 0, None)]
      else [Event(f, 100, Some(AllDone)), Event(f, 100, None)]
  }

  /** Every notification of a run, in order. */
  function RunEvents(f: string, s: Services): seq<Event>
  {
    [Event(f, 5, Some(Uploading)), Event(f, 10, Some(ExtractingAudio))] + LaterEvents(f, s)
  }

  /** The notifications after the first two: the error, or those of a run
      whose audio was extracted. */
  function LaterEvents(f: string, s: Services): seq<Event>
  {
    if s.extraction.Some? then [Event(f, 0, None)] else ExtractedEvents(f, s)
  }

  /** The notifications once the audio is extracted. */
  function ExtractedEvents(f: string, s: Services): seq<Event>
  {
    [Event(f, 30, Some(AudioExtracted))] + TranscriptionEvents(f, s)
    + AfterTranscription(f, TranscriptionPhase(f, s), s.indexing)
  }

  /** The notifications after the transcription phase: the error
      notification, or the closing ones. */
  function AfterTranscription(f: string, phase: Phase, indexing: Option<string>): seq<Event>
  {
    if phase.Failed? then [Event(f, 0, None)] else ClosingEvents(f, indexing)
  }

  /** The last update a run makes to its job record. */
  function FinalUpdate(f: string, s: Services): JobUpdate
  {
    if s.extraction.Some? then MarkError("Audio extraction failed: " + s.extraction.value)
    else PhaseUpdate(f, TranscriptionPhase(f, s), s.indexing)
  }

  /** The last update after the transcription phase: its error, the
      indexer's error, or done with the length of the transcript. */
  function PhaseUpdate(f: string, phase: Phase, indexing: Option<string>): JobUpdate
  {
    match phase
    case Failed(m) => MarkError(m)
    case Transcribed(t) =>
      if indexing.Some? then MarkError(indexing.value)
      else MarkDone(AudioPath(f), TranscriptPath(f), |t|)
  }

  /** The job table after a run: the new record appended, then every record
      of the file set to processing, then to the final state. */
  function RunJobs(jobs: seq<Job>, f: string, s: Services): seq<Job>
  {
    UpdatedJobs(UpdatedJobs(jobs + [NewJob(f)], f, MarkProcessing), f, FinalUpdate(f, s))
  }

  /** The detailed transcripts after the chunked path: the files of the
      chunks that were transcribed, then, when every chunk was, the merged
      word list unless it is empty. */
  function ChunkedDetailed(d: map<string, seq<Word>>, f: string, outs: seq<Attempts>): map<string, seq<Word>>
  {
    var written := ChunkWrites(d, f, Notified(outs));
    if FirstErr(outs) < |outs| then written
    else
      var combined := CombinedWords(written, f, |outs|);
      if combined == [] then written else written[DetailedPath(f) := combined]
  }

  /** With no chunk planned, the chunked path fails with the fixed
      message, after its one notification, and writes nothing. */
  lemma ChunkedNothingPlanned(d: map<string, seq<Word>>, f: string)
    ensures ChunkedPhase([]) == Failed(ChunkingFailedMessage)
    ensures ChunkLoopEvents(f, []) == []
    ensures ChunkedDetailed(d, f, []) == d
  {
    assert Notified([]) == [];
    assert ChunkWrites(d, f, []) == d;
    assert CombinedWords(d, f, 0) == [];
  }

  /** A chunk loop that stopped at a chunk that gave up fails the chunked
      path naming that chunk, and leaves the detailed files of the chunks
      before it. */
  lemma ChunkGaveUp(d: map<string, seq<Word>>, f: string, all: seq<Attempts>, outs: seq<Attempts>)
    requires outs == Notified(all) && outs != [] && outs[|outs| - 1].result.Err?
    ensures ChunkedPhase(all) == Failed("Transcription failed for chunk " + NatToString(|outs|) + ": " + outs[|outs| - 1].result.error)
    ensures ChunkedDetailed(d, f, all) == ChunkWrites(d, f, outs)
  {
    var m := FirstErr(all);
    assert m < |all|;
    assert outs == all[..m + 1];
    assert |outs| == m + 1 && outs[m] == all[m];
  }

  /** A chunk loop that transcribed its last chunk transcribed them all:
      the texts are joined and the merge of the chunk files is written
      unless it is empty. */
  lemma ChunksAllDone(d: map<string, seq<Word>>, f: string, all: seq<Attempts>, outs: seq<Attempts>)
    requires outs == Notified(all) && outs != [] && outs[|outs| - 1].result.Ok?
    ensures outs == all
    ensures ChunkedPhase(all) == Transcribed(Join(Texts(outs), " "))
    ensures var written := ChunkWrites(d, f, outs);
      var combined := CombinedWords(written, f, |outs|);
      ChunkedDetailed(d, f, all) == if combined == [] then written else written[DetailedPath(f) := combined]
  {
    var m := FirstErr(all);
    assert m == |all|;
  }

  /** The detailed transcript after the single path: written when the
      transcription has words. */
  function SingleDetailed(d: map<string, seq<Word>>, f: string, a: Attempts): map<string, seq<Word>>
  {
    if a.result.Ok? && a.result.value.words != [] then d[DetailedPath(f) := a.result.value.words] else d
  }

  /** The detailed transcripts after the transcription phase. */
  function TranscriptionDetailed(d: map<string, seq<Word>>, f: string, s: Services): map<string, seq<Word>>
  {
    if s.audioSize > MaxAudioSize then ChunkedDetailed(d, f, Outcomes(s.transcribe, PlannedChunks(AudioPath(f), s)))
    else SingleDetailed(d, f, Retry(s.transcribe, AudioPath(f)))
  }

  function RunDetailed(d: map<string, seq<Word>>, f: string, s: Services): map<string, seq<Word>>
  {
    if s.extraction.Some? then d else TranscriptionDetailed(d, f, s)
  }

  /** The media files after a run: the extracted audio is added; chunk
      files are cut and every planned one is removed again, while those of a
      plan that failed part-way stay; a successful indexing removes the
      audio. */
  function RunFiles(files: set<string>, f: string, s: Services): set<string>
  {
    if s.extraction.Some? then files
    else IndexedFiles(TranscriptionFiles(files + {AudioPath(f)}, f, s), f, TranscriptionPhase(f, s), s.indexing)
  }

  /** The media files after indexing: process_transcript deletes the
      extracted audio as its last step, so only when it raised nothing. */
  function IndexedFiles(files: set<string>, f: string, phase: Phase, indexing: Option<string>): set<string>
  {
    if phase.Transcribed? && indexing.None? then files - {AudioPath(f)} else files
  }

  /** The media files after the transcription phase. */
  function TranscriptionFiles(files: set<string>, f: string, s: Services): set<string>
  {
    if s.audioSize > MaxAudioSize then
      var audio := AudioPath(f);
      files + CutFiles(audio, s) - Names(PlannedChunks(audio, s))
    else files
  }

  /** The transcript files after a run: the transcript is saved once
      transcription succeeds. */
  function RunTranscripts(t: map<string, string>, f: string, s: Services): map<string, string>
  {
    if s.extraction.None? then PhaseTranscripts(t, f, TranscriptionPhase(f, s)) else t
  }

  /** The transcript files after the transcription phase. */
  function PhaseTranscripts(t: map<string, string>, f: string, phase: Phase): map<string, string>
  {
    if phase.Transcribed? then t[TranscriptPath(f) := phase.text] else t
  }

  /** A run whose audio extraction fails: the job records the error; no
      file is written. */
  lemma RunWithoutAudio(jobs: seq<Job>, files: set<string>, t: map<string, string>, d: map<string, seq<Word>>, f: string, s: Services)
    requires s.extraction.Some?
    ensures LaterEvents(f, s) == [Event(f, 0, None)]
    ensures FinalUpdate(f, s) == MarkError("Audio extraction failed: " + s.extraction.value)
    ensures RunFiles(files, f, s) == files && RunTranscripts(t, f, s) == t && RunDetailed(d, f, s) == d
  {
  }

  /** A run whose audio is extracted, in terms of its transcription phase. */
  lemma RunWithAudio(jobs: seq<Job>, files: set<string>, t: map<string, string>, d: map<string, seq<Word>>, f: string, s: Services)
    requires s.extraction.None?
    ensures LaterEvents(f, s) == ExtractedEvents(f, s)
    ensures FinalUpdate(f, s) == PhaseUpdate(f, TranscriptionPhase(f, s), s.indexing)
    ensures RunFiles(files, f, s)
            == IndexedFiles(TranscriptionFiles(files + {AudioPath(f)}, f, s), f, TranscriptionPhase(f, s), s.indexing)
    ensures RunTranscripts(t, f, s) == PhaseTranscripts(t, f, TranscriptionPhase(f, s))
    ensures RunDetailed(d, f, s) == TranscriptionDetailed(d, f, s)
  {
  }

  lemma AppendAssoc<T>(a: seq<T>, b: seq<T>, c: seq<T>)
    ensures a + (b + c) == a + b + c
  {
  }

  // ---------------------------------------------------------------------
  // Properties of a run

  /** Progress never goes down along the notifications. */
  predicate Rising(es: seq<Event>)
  {
    forall i, j :: 0 <= i <= j < |es| ==> es[i].progress <= es[j].progress
  }

  predicate Within(es: seq<Event>, lo: int, hi: int)
  {
    forall i :: 0 <= i < |es| ==> lo <= es[i].progress <= hi
  }

  predicate AllFor(es: seq<Event>, f: string)
  {
    forall i :: 0 <= i < |es| ==> es[i].filename == f
  }

  lemma RisingAppend(a: seq<Event>, b: seq<Event>, lo: int, mid: int, hi: int, f: string)
    requires Rising(a) && Rising(b) && Within(a, lo, mid) && Within(b, mid, hi)
    requires AllFor(a, f) && AllFor(b, f) && lo <= mid <= hi
    ensures Rising(a + b) && Within(a + b, lo, hi) && AllFor(a + b, f)
  {
    var c := a + b;
    forall i, j | 0 <= i <= j < |c|
      ensures c[i].progress <= c[j].progress
    {
      if j < |a| {
        assert c[i] == a[i] && c[j] == a[j];
      } else if i < |a| {
        assert c[i] == a[i] && c[j] == b[j - |a|];
      } else {
        assert c[i] == b[i - |a|] && c[j] == b[j - |a|];
      }
    }
  }

  /** The chunk notifications rise from 40 and stay at most at the value of
      the last chunk given. */
  lemma {:induction false} ChunkEventsRising(f: string, n: nat, outs: seq<Attempts>)
    requires 0 < n && |outs| <= n
    ensures var es := ChunkEvents(f, n, outs);
      Rising(es) && AllFor(es, f) && Within(es, 40, if outs == [] then 40 else ChunkProgress(|outs| - 1, n))
  {
    if outs != [] {
      var k := |outs| - 1;
      ChunkEventsRising(f, n, outs[..k]);
      var prev := if k == 0 then 40 else ChunkProgress(k - 1, n);
      if k > 0 {
        ChunkProgressBounds(k - 1, k, n);
      } else {
        ChunkProgressBounds(0, 0, n);
      }
      var e := Event(f, ChunkProgress(k, n), Some(TranscribingChunk(k + 1, n)));
      RisingAppend(ChunkEvents(f, n, outs[..k]), Repeat(e, outs[k].count), 40, prev, ChunkProgress(k, n), f);
    }
  }

  lemma ChunkEventsWithin(f: string, n: nat, outs: seq<Attempts>)
    requires 0 < n && |outs| <= n
    ensures var es := ChunkEvents(f, n, outs);
      Rising(es) && AllFor(es, f) && Within(es, 40, 59)
  {
    ChunkEventsRising(f, n, outs);
    if outs != [] {
      ChunkProgressBounds(|outs| - 1, |outs| - 1, n);
    }
  }

  /** The notifications of the chunked path rise from 35 to at most 59. */
  lemma ChunkedEventsRising(f: string, outs: seq<Attempts>)
    ensures var es := ChunkedEvents(f, outs);
      0 < |es| && Rising(es) && AllFor(es, f) && Within(es, 35, 59)
  {
    var head := [Event(f, 35, Some(ChunkingLargeAudio))];
    if outs == [] {
      assert ChunkedEvents(f, outs) == head + [];
    } else {
      var es := ChunkEvents(f, |outs|, Notified(outs));
      ChunkEventsWithin(f, |outs|, Notified(outs));
      RisingAppend(head, es, 35, 40, 59, f);
    }
  }

  /** The notifications of the transcription phase rise from 35 to at most
      59. */
  lemma TranscriptionEventsRising(f: string, s: Services)
    ensures var es := TranscriptionEvents(f, s);
      0 < |es| && Rising(es) && AllFor(es, f) && Within(es, 35, 59)
  {
    if s.audioSize > MaxAudioSize {
      ChunkedEventsRising(f, Outcomes(s.transcribe, PlannedChunks(AudioPath(f), s)));
    } else {
      RetrySemantics(s.transcribe, AudioPath(f), 0);
    }
  }

  /** The notifications after transcription: a failure gives one at 0; a
      success 60 and 70, then 100 twice, or 0 when indexing fails. */
  lemma AfterTranscriptionRising(f: string, phase: Phase, indexing: Option<string>)
    ensures var es := AfterTranscription(f, phase, indexing);
      && 0 < |es| && AllFor(es, f) && Within(es, 0, 100)
      && Rising(es[..|es| - 1]) && Within(es[..|es| - 1], 60, 100)
      && (es[|es| - 1] == Event(f, 0, None) <==> phase.Failed? || indexing.Some?)
      && (phase.Transcribed? && indexing.None? ==> Rising(es) && Within(es, 60, 100) && es[|es| - 1] == Event(f, 100, None))
  {
  }

  /** Notifications that rise up to a tail whose last one may drop. */
  lemma JoinedProgress(body: seq<Event>, tail: seq<Event>, f: string)
    requires 0 < |body| && Rising(body) && AllFor(body, f) && Within(body, 5, 59)
    requires 0 < |tail| && AllFor(tail, f) && Within(tail, 0, 100)
    requires Rising(tail[..|tail| - 1]) && Within(tail[..|tail| - 1], 60, 100)
    ensures var es := body + tail;
      && AllFor(es, f) && Within(es, 0, 100) && es[0] == body[0] && es[|es| - 1] == tail[|tail| - 1]
      && Rising(es[..|es| - 1])
    ensures Rising(tail) && Within(tail, 60, 100) ==> Rising(body + tail)
  {
    var es := body + tail;
    assert es[..|es| - 1] == body + tail[..|tail| - 1];
    RisingAppend(body, tail[..|tail| - 1], 5, 59, 100, f);
    assert Within(body, 0, 59);
    assert forall i :: 0 <= i < |es| ==> es[i] == if i < |body| then body[i] else tail[i - |body|];
    if Rising(tail) && Within(tail, 60, 100) {
      RisingAppend(body, tail, 5, 59, 100, f);
    }
  }

  /** The notifications of a run whose audio was extracted, in three parts. */
  lemma RunEventsParts(f: string, s: Services)
    requires s.extraction.None?
    ensures RunEvents(f, s) ==
      [Event(f, 5, Some(Uploading)), Event(f, 10, Some(ExtractingAudio)), Event(f, 30, Some(AudioExtracted))]
      + TranscriptionEvents(f, s) + AfterTranscription(f, TranscriptionPhase(f, s), s.indexing)
  {
    var opening := [Event(f, 5, Some(Uploading)), Event(f, 10, Some(ExtractingAudio))];
    var third := [Event(f, 30, Some(AudioExtracted))];
    var middle := TranscriptionEvents(f, s);
    var tail := AfterTranscription(f, TranscriptionPhase(f, s), s.indexing);
    AppendAssoc(opening, third + middle, tail);
    AppendAssoc(opening, third, middle);
    assert opening + third == [Event(f, 5, Some(Uploading)), Event(f, 10, Some(ExtractingAudio)), Event(f, 30, Some(AudioExtracted))];
  }

  /** The notifications before transcription. */
  lemma OpeningProgress(f: string)
    ensures var head := [Event(f, 5, Some(Uploading)), Event(f, 10, Some(ExtractingAudio)), Event(f, 30, Some(AudioExtracted))];
      Rising(head) && Within(head, 5, 35) && AllFor(head, f)
  {
  }

  /** A run ends its job as done exactly when extraction, transcription and
      indexing all succeed. */
  lemma FinalUpdateCases(f: string, s: Services)
    ensures FinalUpdate(f, s).MarkDone? <==> s.extraction.None? && TranscriptionPhase(f, s).Transcribed? && s.indexing.None?
    ensures !FinalUpdate(f, s).MarkProcessing?
  {
  }

  /** Three runs of notifications joined, the last of which may drop at
      its end. */
  lemma ThreeParts(f: string, head: seq<Event>, middle: seq<Event>, tail: seq<Event>)
    requires |head| == 3 && Rising(head) && Within(head, 5, 35) && AllFor(head, f)
    requires Rising(middle) && Within(middle, 35, 59) && AllFor(middle, f)
    requires 0 < |tail| && AllFor(tail, f) && Within(tail, 0, 100)
    requires Rising(tail[..|tail| - 1]) && Within(tail[..|tail| - 1], 60, 100)
    ensures var es := head + middle + tail;
      && 3 <= |es| && es[0] == head[0] && AllFor(es, f) && Within(es, 0, 100)
      && Rising(es[..|es| - 1]) && es[|es| - 1] == tail[|tail| - 1]
    ensures Rising(tail) && Within(tail, 60, 100) ==> Rising(head + middle + tail)
  {
    RisingAppend(head, middle, 5, 35, 59, f);
    JoinedProgress(head + middle, tail, f);
  }

  /** The notifications of a run whose audio was extracted. */
  lemma ExtractedRunProgress(f: string, s: Services)
    requires s.extraction.None?
    ensures var es := RunEvents(f, s);
      && 3 <= |es| && es[0] == Event(f, 5, Some(Uploading)) && AllFor(es, f) && Within(es, 0, 100)
      && (TranscriptionPhase(f, s).Transcribed? && s.indexing.None? ==> Rising(es) && es[|es| - 1] == Event(f, 100, None))
      && (TranscriptionPhase(f, s).Failed? || s.indexing.Some? ==> Rising(es[..|es| - 1]) && es[|es| - 1] == Event(f, 0, None))
  {
    var head := [Event(f, 5, Some(Uploading)), Event(f, 10, Some(ExtractingAudio)), Event(f, 30, Some(AudioExtracted))];
    var phase := TranscriptionPhase(f, s);
    OpeningProgress(f);
    TranscriptionEventsRising(f, s);
    AfterTranscriptionRising(f, phase, s.indexing);
    RunEventsParts(f, s);
    ThreeParts(f, head, TranscriptionEvents(f, s), AfterTranscription(f, phase, s.indexing));
  }

  /** A run announces 5 first; a successful run's notifications never go
      down and end with 100; a failed run's never go down until the last,
      which is 0. */
  lemma RunEventsProgress(f: string, s: Services)
    ensures var es := RunEvents(f, s);
      && 3 <= |es| && es[0] == Event(f, 5, Some(Uploading)) && AllFor(es, f) && Within(es, 0, 100)
      && (FinalUpdate(f, s).MarkDone? ==> Rising(es) && es[|es| - 1] == Event(f, 100, None))
      && (FinalUpdate(f, s).MarkError? ==> Rising(es[..|es| - 1]) && es[|es| - 1] == Event(f, 0, None))
  {
    FinalUpdateCases(f, s);
    if s.extraction.Some? {
      var es := RunEvents(f, s);
      assert es[..|es| - 1] == [Event(f, 5, Some(Uploading)), Event(f, 10, Some(ExtractingAudio))];
    } else {
      ExtractedRunProgress(f, s);
    }
  }

  /** The first notification of the transcription phase names the path. */
  lemma TranscriptionEventsFirst(f: string, s: Services)
    ensures var es := TranscriptionEvents(f, s);
      0 < |es| && es[0] == if s.audioSize > MaxAudioSize then Event(f, 35, Some(ChunkingLargeAudio))
                           else Event(f, 40, Some(TranscribingAudio))
  {
    if s.audioSize <= MaxAudioSize {
      RetrySemantics(s.transcribe, AudioPath(f), 0);
    }
  }

  /** The fourth notification tells the two paths apart: the chunked path
      is taken exactly when the audio is larger than 24 MiB. */
  lemma ChunkPathChoice(f: string, s: Services)
    requires s.extraction.None?
    ensures var es := RunEvents(f, s);
      3 < |es| && (es[3] == Event(f, 35, Some(ChunkingLargeAudio)) <==> s.audioSize > MaxAudioSize)
      && (s.audioSize <= MaxAudioSize ==> es[3] == Event(f, 40, Some(TranscribingAudio)))
  {
    var head := [Event(f, 5, Some(Uploading)), Event(f, 10, Some(ExtractingAudio)), Event(f, 30, Some(AudioExtracted))];
    var middle := TranscriptionEvents(f, s);
    var tail := AfterTranscription(f, TranscriptionPhase(f, s), s.indexing);
    RunEventsParts(f, s);
    TranscriptionEventsFirst(f, s);
    assert (head + middle + tail)[3] == middle[0];
  }

  /** A chunk plan that comes back empty fails the job with the fixed
      message, right after the chunking notification. */
  lemma ChunkingFailure(f: string, s: Services)
    requires s.extraction.None? && s.audioSize > MaxAudioSize && PlannedChunks(AudioPath(f), s) == []
    ensures FinalUpdate(f, s) == MarkError("Failed to chunk large audio file")
    ensures RunEvents(f, s) == [Event(f, 5, Some(Uploading)), Event(f, 10, Some(ExtractingAudio)),
                                Event(f, 30, Some(AudioExtracted)), Event(f, 35, Some(ChunkingLargeAudio)),
                                Event(f, 0, None)]
  {
  }

  /** A file sent whole fails only when all three attempts fail, with the
      error of the third; otherwise its text is that of the first attempt
      that succeeds. */
  lemma SingleFileRetries(f: string, s: Services)
    requires s.extraction.None? && s.audioSize <= MaxAudioSize
    ensures var t := s.transcribe; var a := AudioPath(f);
      && (TranscriptionPhase(f, s).Failed? <==> t(a, 0).Err? && t(a, 1).Err? && t(a, 2).Err?)
      && (t(a, 0).Err? && t(a, 1).Err? && t(a, 2).Err? ==>
            FinalUpdate(f, s) == MarkError("Transcription failed after 3 attempts: " + t(a, 2).error))
      && (t(a, 0).Ok? ==> TranscriptionPhase(f, s) == Transcribed(t(a, 0).value.text))
      && (t(a, 0).Err? && t(a, 1).Ok? ==> TranscriptionPhase(f, s) == Transcribed(t(a, 1).value.text))
      && (t(a, 0).Err? && t(a, 1).Err? && t(a, 2).Ok? ==> TranscriptionPhase(f, s) == Transcribed(t(a, 2).value.text))
  {
    RetryOutcome(s.transcribe, AudioPath(f));
    assert NatToString(MaxRetries) == "3";
  }

  /** A transcription succeeds when any of its three attempts does. */
  lemma RetrySucceeds(transcribe: (string, nat) -> Result<Response, string>, path: string, k: nat)
    requires k < MaxRetries && transcribe(path, k).Ok?
    ensures Retry(transcribe, path).result.Ok?
  {
    RetrySemantics(transcribe, path, 0);
  }

  lemma FirstErrAt(outs: seq<Attempts>, m: nat)
    requires m < |outs| && outs[m].result.Err? && forall j :: 0 <= j < m ==> outs[j].result.Ok?
    ensures FirstErr(outs) == m
  {
  }

  /** A chunk fails the job when its three attempts fail and every earlier
      chunk succeeded: the message names it counting from 1. */
  lemma ChunkFailure(f: string, s: Services, m: nat)
    requires s.extraction.None? && s.audioSize > MaxAudioSize
    requires var paths := PlannedChunks(AudioPath(f), s);
      && m < |paths|
      && (forall j :: 0 <= j < m ==> exists k :: 0 <= k < MaxRetries && s.transcribe(paths[j], k).Ok?)
      && (forall k :: 0 <= k < MaxRetries ==> s.transcribe(paths[m], k).Err?)
    ensures FinalUpdate(f, s) == MarkError("Transcription failed for chunk " + NatToString(m + 1) + ": "
                                           + s.transcribe(PlannedChunks(AudioPath(f), s)[m], MaxRetries - 1).error)
  {
    var paths := PlannedChunks(AudioPath(f), s);
    var outs := Outcomes(s.transcribe, paths);
    forall j | 0 <= j < m
      ensures outs[j].result.Ok?
    {
      var k :| 0 <= k < MaxRetries && s.transcribe(paths[j], k).Ok?;
      RetrySucceeds(s.transcribe, paths[j], k);
    }
    RetrySemantics(s.transcribe, paths[m], 0);
    FirstErrAt(outs, m);
  }

  /** Every planned chunk file is removed by the end of the run, whether
      the chunks were transcribed or not; the extracted audio stays exactly
      when the run fails. */
  lemma PlannedChunksRemoved(fs: set<string>, f: string, s: Services)
    requires s.extraction.None? && s.audioSize > MaxAudioSize
    ensures forall p :: p in PlannedChunks(AudioPath(f), s) ==> p !in RunFiles(fs, f, s)
    ensures AudioPath(f) in RunFiles(fs, f, s) <==> FinalUpdate(f, s).MarkError?
  {
    var audio := AudioPath(f);
    forall p | p in PlannedChunks(audio, s)
      ensures p != audio
    {
      PlannedChunksShape(audio, s);
      var i :| 0 <= i < |PlannedChunks(audio, s)| && PlannedChunks(audio, s)[i] == p;
      ChunkPathNotAudio(audio, i);
    }
    FinalUpdateCases(f, s);
  }

  /** The transcript of a chunked run holds the non-empty text of every
      chunk and nothing else. */
  lemma {:induction false} TextsMembers(outs: seq<Attempts>, t: string)
    ensures t in Texts(outs) <==>
      t != [] && exists j :: 0 <= j < |outs| && outs[j].result.Ok? && outs[j].result.value.text == t
  {
    if outs != [] {
      var k := |outs| - 1;
      TextsMembers(outs[..k], t);
      if exists j :: 0 <= j < |outs| && outs[j].result.Ok? && outs[j].result.value.text == t {
        var j :| 0 <= j < |outs| && outs[j].result.Ok? && outs[j].result.value.text == t;
        if j < k {
          assert outs[..k][j] == outs[j];
        }
      }
      if exists j :: 0 <= j < k && outs[..k][j].result.Ok? && outs[..k][j].result.value.text == t {
        var j :| 0 <= j < k && outs[..k][j].result.Ok? && outs[..k][j].result.value.text == t;
        assert outs[j] == outs[..k][j];
      }
    }
  }

  /** The reference for the merged word list: the words of every chunk in
      order, each moved by the start of its chunk. */
  function ShiftedWords(outs: seq<Attempts>): seq<Word>
  {
    if outs == [] then []
    else
      var k := |outs| - 1;
      var r := outs[k].result;
      ShiftedWords(outs[..k]) + if r.Ok? then Shift(r.value.words, (k * ChunkSeconds) as real) else []
  }

  /** The chunk loop writes only the detailed files of the chunks given. */
  lemma {:induction false} ChunkWritesKeys(d: map<string, seq<Word>>, f: string, outs: seq<Attempts>, key: string)
    requires key !in d && forall j :: 0 <= j < |outs| ==> key != ChunkDetailedPath(f, j)
    ensures key !in ChunkWrites(d, f, outs)
  {
    if outs != [] {
      ChunkWritesKeys(d, f, outs[..|outs| - 1], key);
    }
  }

  /** The merge reads only the detailed files of the first n chunks. */
  lemma {:induction false} CombinedWordsFrame(d1: map<string, seq<Word>>, d2: map<string, seq<Word>>, f: string, n: nat)
    requires forall j :: 0 <= j < n ==>
      (ChunkDetailedPath(f, j) in d1 <==> ChunkDetailedPath(f, j) in d2)
      && (ChunkDetailedPath(f, j) in d1 ==> d1[ChunkDetailedPath(f, j)] == d2[ChunkDetailedPath(f, j)])
    ensures CombinedWords(d1, f, n) == CombinedWords(d2, f, n)
  {
    if n > 0 {
      CombinedWordsFrame(d1, d2, f, n - 1);
    }
  }

  /** When no chunk detailed file exists beforehand, merging the files the
      chunk loop wrote gives every chunk's words moved by i*600 seconds, in
      chunk order. */
  lemma {:induction false} CombinedOfChunkWrites(d: map<string, seq<Word>>, f: string, outs: seq<Attempts>)
    requires forall j :: 0 <= j < |outs| ==> ChunkDetailedPath(f, j) !in d
    ensures CombinedWords(ChunkWrites(d, f, outs), f, |outs|) == ShiftedWords(outs)
  {
    if outs != [] {
      var k := |outs| - 1;
      var before := ChunkWrites(d, f, outs[..k]);
      var after := ChunkWrites(d, f, outs);
      var key := ChunkDetailedPath(f, k);
      CombinedOfChunkWrites(d, f, outs[..k]);
      forall j | 0 <= j < k
        ensures ChunkDetailedPath(f, j) != key
      {
        ChunkNamesDistinct("", f, j, k);
      }
      CombinedWordsFrame(after, before, f, k);
      ChunkWritesKeys(d, f, outs[..k], key);
      assert outs[..k] == outs[..|outs| - 1];
    }
  }

  /** The job record of a run: appended after the others, which keep their
      contents unless they name the same file; done with the audio path,
      the transcript path and the length of the saved transcript, or in
      error with the message. */
  lemma RunJobsOutcome(jobs: seq<Job>, t: map<string, string>, f: string, s: Services)
    ensures var r := RunJobs(jobs, f, s);
      && |r| == |jobs| + 1
      && (forall i :: 0 <= i < |jobs| && jobs[i].filename != f ==> r[i] == jobs[i])
      && (FinalUpdate(f, s).MarkDone? ==>
            && TranscriptPath(f) in RunTranscripts(t, f, s)
            && r[|jobs|] == Job(f, Done, 100, None, Some(AudioPath(f)), Some(TranscriptPath(f)),
                                Some(|RunTranscripts(t, f, s)[TranscriptPath(f)]|)))
      && (FinalUpdate(f, s).MarkError? ==> r[|jobs|] == Job(f, Error, 0, Some(FinalUpdate(f, s).message), None, None, None))
  {
    FinalUpdateCases(f, s);
    var all := jobs + [NewJob(f)];
    assert all[|jobs|] == NewJob(f);
    assert forall i :: 0 <= i < |jobs| ==> all[i] == jobs[i];
  }
}
