/** The records of backend/main.py: the processing jobs and their
    updates, the sessions, the key completion of init_db, the job filters of
    the upload and lecture endpoints, and the file names a job works with. */
module Jobs {
  import opened Wrappers
  import opened Strings

  // ---------------------------------------------------------------------
  // Jobs and their updates

  datatype Status = Queued | Processing | Done | Error

  /** One entry of "processing_jobs". "transcript_path" and
      "transcript_metadata" are absent until the job is done. */
  datatype Job = Job(filename: string, status: Status, progress: int, error: Option<string>,
                     audioPath: Option<string>, transcriptPath: Option<string>,
                     transcriptLength: Option<nat>)

  /** The record process_job appends before it starts. */
  function NewJob(filename: string): Job
  {
    Job(filename, Queued, 0, None, None, None, None)
  }

  /** The three ways process_job rewrites a job record. */
  datatype JobUpdate =
    | MarkProcessing
    | MarkError(message: string)
    | MarkDone(audio: string, transcript: string, length: nat)

  function Apply(j: Job, u: JobUpdate): Job
  {
    match u
    case MarkProcessing => j.(status := Processing, progress := 5)
    case MarkError(m) => j.(status := Error, progress := 0, error := Some(m))
    case MarkDone(a, t, n) =>
      j.(status := Done, progress := 100, audioPath := Some(a), transcriptPath := Some(t), transcriptLength := Some(n))
  }

  /** The job table after `for job in db["processing_jobs"]: if
      job["filename"] == filename: ...`. */
  function UpdatedJobs(jobs: seq<Job>, filename: string, u: JobUpdate): (r: seq<Job>)
    ensures |r| == |jobs|
  {
    seq(|jobs|, i requires 0 <= i < |jobs| => if jobs[i].filename == filename then Apply(jobs[i], u) else jobs[i])
  }

  /** An update changes no job of another file, keeps every file name, and
      leaves every job of the file with the status and progress the update
      names; the error, audio path, transcript path and transcript length
      of a matching job are set when the update names them and kept
      otherwise. */
  lemma UpdateTouchesOnlyMatching(jobs: seq<Job>, filename: string, u: JobUpdate)
    ensures var r := UpdatedJobs(jobs, filename, u);
      forall i :: 0 <= i < |jobs| ==>
        && r[i].filename == jobs[i].filename
        && (jobs[i].filename != filename ==> r[i] == jobs[i])
        && (jobs[i].filename == filename ==>
              && r[i].status == (match u case MarkProcessing => Processing case MarkError(_) => Error case MarkDone(_, _, _) => Done)
              && r[i].progress == (match u case MarkProcessing => 5 case MarkError(_) => 0 case MarkDone(_, _, _) => 100)
              && (u.MarkError? ==> r[i].error == Some(u.message))
              && (!u.MarkError? ==> r[i].error == jobs[i].error)
              && (u.MarkDone? ==>
                    && r[i].audioPath == Some(u.audio)
                    && r[i].transcriptPath == Some(u.transcript)
                    && r[i].transcriptLength == Some(u.length))
              && (!u.MarkDone? ==>
                    && r[i].audioPath == jobs[i].audioPath
                    && r[i].transcriptPath == jobs[i].transcriptPath
                    && r[i].transcriptLength == jobs[i].transcriptLength))
  {
  }

  /** Repeating an update changes nothing, and of two updates to the same
      file the later one decides status and progress. */
  lemma UpdateIdempotent(jobs: seq<Job>, filename: string, u: JobUpdate, v: JobUpdate)
    ensures UpdatedJobs(UpdatedJobs(jobs, filename, u), filename, u) == UpdatedJobs(jobs, filename, u)
    ensures var r := UpdatedJobs(UpdatedJobs(jobs, filename, u), filename, v);
      var s := UpdatedJobs(jobs, filename, v);
      forall i :: 0 <= i < |jobs| ==> r[i].status == s[i].status && r[i].progress == s[i].progress
  {
  }

  /** Updates of different files commute. */
  lemma UpdatesOfDifferentFilesCommute(jobs: seq<Job>, f: string, u: JobUpdate, g: string, v: JobUpdate)
    requires f != g
    ensures UpdatedJobs(UpdatedJobs(jobs, f, u), g, v) == UpdatedJobs(UpdatedJobs(jobs, g, v), f, u)
  {
  }

  // ---------------------------------------------------------------------
  // Filters over the job table

  /** The two filters the endpoints apply: upload_file with restart drops
      the jobs of the new file name, get_lectures keeps the finished jobs. */
  datatype JobFilter = NotNamed(filename: string) | Finished

  predicate Keeps(k: JobFilter, j: Job)
  {
    match k
    case NotNamed(f) => j.filename != f
    case Finished => j.status == Done
  }

  /** [j for j in jobs if ...], in order. */
  function Filter(jobs: seq<Job>, k: JobFilter): (r: seq<Job>)
    ensures |r| <= |jobs|
  {
    if jobs == [] then []
    else
      var rest := Filter(jobs[..|jobs| - 1], k);
      if Keeps(k, jobs[|jobs| - 1]) then rest + [jobs[|jobs| - 1]] else rest
  }

  /** A job survives the filter exactly when the filter keeps it. */
  lemma {:induction false} FilterMembers(jobs: seq<Job>, k: JobFilter)
    ensures forall j :: j in Filter(jobs, k) <==> j in jobs && Keeps(k, j)
  {
    if jobs != [] {
      FilterMembers(jobs[..|jobs| - 1], k);
      assert jobs == jobs[..|jobs| - 1] + [jobs[|jobs| - 1]];
    }
  }

  /** The filter keeps the order of the table: filtering a concatenation
      concatenates the filtered parts. */
  lemma {:induction false} FilterAppend(a: seq<Job>, b: seq<Job>, k: JobFilter)
    ensures Filter(a + b, k) == Filter(a, k) + Filter(b, k)
    decreases |b|
  {
    if b == [] {
      assert a + b == a;
    } else {
      assert (a + b)[..|a + b| - 1] == a + b[..|b| - 1];
      FilterAppend(a, b[..|b| - 1], k);
    }
  }

  /** Filtering twice is filtering once. */
  lemma {:induction false} FilterIdempotent(jobs: seq<Job>, k: JobFilter)
    ensures Filter(Filter(jobs, k), k) == Filter(jobs, k)
  {
    if jobs != [] {
      var init := jobs[..|jobs| - 1];
      FilterIdempotent(init, k);
      if Keeps(k, jobs[|jobs| - 1]) {
        FilterAppend(Filter(init, k), [jobs[|jobs| - 1]], k);
        assert [jobs[|jobs| - 1]][..0] == [];
      }
    }
  }

  // ---------------------------------------------------------------------
  // The database file

  datatype Session = Session(sessionId: string, filename: string, createdAt: string)

  /** db.json as read: each of its three keys may be missing. The
      "lectures" list is only ever created empty. */
  datatype StoredDb = StoredDb(lectures: Option<seq<Job>>, processingJobs: Option<seq<Job>>,
                               sessions: Option<seq<Session>>)

  /** db.json once every key is present. */
  datatype Db = Db(lectures: seq<Job>, processingJobs: seq<Job>, sessions: seq<Session>)

  function OrEmpty<T>(o: Option<seq<T>>): seq<T>
  {
    match o
    case Some(v) => v
    case None => []
  }

  /** init_db: a missing file becomes three empty lists; in an existing file
      each missing key is added as an empty list and the others are kept. */
  function InitDb(stored: Option<StoredDb>): (db: Db)
    ensures stored.None? ==> db == Db([], [], [])
    ensures stored.Some? ==>
      && (stored.value.lectures.Some? ==> db.lectures == stored.value.lectures.value)
      && (stored.value.processingJobs.Some? ==> db.processingJobs == stored.value.processingJobs.value)
      && (stored.value.sessions.Some? ==> db.sessions == stored.value.sessions.value)
      && (stored.value.lectures.None? ==> db.lectures == [])
      && (stored.value.processingJobs.None? ==> db.processingJobs == [])
      && (stored.value.sessions.None? ==> db.sessions == [])
  {
    match stored
    case None => Db([], [], [])
    case Some(s) => Db(OrEmpty(s.lectures), OrEmpty(s.processingJobs), OrEmpty(s.sessions))
  }

  function Store(db: Db): StoredDb
  {
    StoredDb(Some(db.lectures), Some(db.processingJobs), Some(db.sessions))
  }

  /** Running init_db on a file it has written changes nothing. */
  lemma InitDbIdempotent(stored: Option<StoredDb>)
    ensures InitDb(Some(Store(InitDb(stored)))) == InitDb(stored)
  {
  }

  // ---------------------------------------------------------------------
  // File names

  /** Some character of s[lo..hi] is not a '.'. */
  predicate HasNonDot(s: string, lo: nat, hi: nat)
    requires lo <= hi <= |s|
  {
    exists k :: lo <= k < hi && s[k] != '.'
  }

  /** os.path.splitext on POSIX: the extension starts at the last '.' of the
      last path component, provided a character other than '.' precedes it
      in that component; otherwise the extension is empty. */
  function SplitExt(p: string): (parts: (string, string))
    ensures parts.0 + parts.1 == p
  {
    match LastIndexOf(p, '.')
    case None => (p, "")
    case Some(dot) =>
      var start := match LastIndexOf(p, '/') case None => 0 case Some(sep) => sep + 1;
      if start <= dot && HasNonDot(p, start, dot) then (p[..dot], p[dot..]) else (p, "")
  }

  /** An extension is empty, or a '.' followed by neither '.' nor '/', after
      a non-empty root; a name without a '.' has none. */
  lemma SplitExtShape(p: string)
    ensures var (root, ext) := SplitExt(p);
      ext == [] || (root != [] && ext[0] == '.' && '.' !in ext[1..] && '/' !in ext)
    ensures '.' !in p ==> SplitExt(p) == (p, "")
  {
    var (root, ext) := SplitExt(p);
    if ext != [] {
      var dot := LastIndexOf(p, '.').value;
      assert ext == p[dot..] && ext[1..] == p[dot + 1..];
      match LastIndexOf(p, '/') {
        case None =>
        case Some(sep) =>
          assert '/' !in p[sep + 1..];
          assert forall k :: dot <= k < |p| ==> p[k] == p[sep + 1..][k - sep - 1];
      }
    }
  }

  /** Where the split falls. With dot the last '.' of p and start the
      first index of the last path component, p splits at dot exactly when
      the dot lies in that component after some character other than '.';
      otherwise the extension is empty. */
  lemma SplitExtAt(p: string, dot: nat, start: nat)
    requires dot < |p| && p[dot] == '.' && '.' !in p[dot + 1..]
    requires start <= |p| && '/' !in p[start..] && (start == 0 || p[start - 1] == '/')
    ensures start <= dot && HasNonDot(p, start, dot) ==> SplitExt(p) == (p[..dot], p[dot..])
    ensures !(start <= dot && HasNonDot(p, start, dot)) ==> SplitExt(p) == (p, "")
  {
    LastIndexOfAt(p, '.', dot);
    if start == 0 {
      assert p[start..] == p;
    } else {
      LastIndexOfAt(p, '/', start - 1);
    }
  }

  /** A video name splits at its extension. */
  lemma SplitExtOfVideoName()
    ensures SplitExt("talk.mp4") == ("talk", ".mp4")
  {
    var p := "talk.mp4";
    assert LastIndexOf(p, '.') == Some(4);
    assert '/' !in p;
    assert LastIndexOf(p, '/') == None;
    assert p[0] != '.' && HasNonDot(p, 0, 4);
    assert p[..4] == "talk" && p[4..] == ".mp4";
  }

  /** A name whose only '.' leads it has no extension. */
  lemma SplitExtOfHiddenName()
    ensures SplitExt(".env") == (".env", "")
  {
    assert LastIndexOf(".env", '.') == Some(0);
  }

  /** The root of a file name, without its extension. */
  function Root(p: string): string
  {
    SplitExt(p).0
  }

  /** os.path.join("uploads", name): an absolute name replaces the
      directory. */
  function InUploads(name: string): string
  {
    if name != [] && name[0] == '/' then name else "uploads/" + name
  }

  function VideoPath(filename: string): string
  {
    InUploads(filename)
  }

  function AudioPath(filename: string): string
  {
    InUploads(Root(filename) + ".mp3")
  }

  function TranscriptPath(filename: string): string
  {
    InUploads(Root(filename) + ".transcript.txt")
  }

  /** The path of the detailed transcript with word timestamps: the one of
      a single transcription, and the combined one of a chunked run. */
  function DetailedPath(filename: string): string
  {
    Root(TranscriptPath(filename)) + "_detailed.json"
  }

  /** The detailed transcript of chunk i. */
  function ChunkDetailedPath(filename: string, i: nat): string
  {
    Root(TranscriptPath(filename)) + "_chunk_" + ZeroPad(i, 3) + "_detailed.json"
  }

  /** The audio file of chunk i, next to the audio it is cut from. */
  function ChunkAudioPath(audioPath: string, i: nat): string
  {
    Root(audioPath) + "_chunk_" + ZeroPad(i, 3) + ".mp3"
  }

  /** A chunk never takes the name of the audio it is cut from. */
  lemma ChunkPathNotAudio(audioPath: string, i: nat)
    ensures ChunkAudioPath(audioPath, i) != audioPath
  {
    var (root, ext) := SplitExt(audioPath);
    SplitExtShape(audioPath);
    var c := ChunkAudioPath(audioPath, i);
    assert c[|root|] == '_';
    if ext != [] {
      assert audioPath[|root|] == ext[0];
    }
  }

  /** The name upload_file stores a file under: the client's root, '_', the
      upload time, the client's extension. */
  function UploadName(clientName: string, stamp: string): string
  {
    var (root, ext) := SplitExt(clientName);
    root + "_" + stamp + ext
  }

  /** Where upload_file writes the file (an f-string, not os.path.join). */
  function UploadLocation(name: string): string
  {
    "uploads/" + name
  }

  /** Zero-padded indices are distinct for distinct numbers. */
  lemma ZeroPadInjective(i: nat, j: nat, w: nat)
    requires ZeroPad(i, w) == ZeroPad(j, w)
    ensures i == j
  {
  }

  /** Strings that share a head and a tail are equal when what lies between
      is equal. */
  lemma MiddleEqual(a: string, x: string, y: string, b: string)
    requires a + x + b == a + y + b && |x| == |y|
    ensures x == y
  {
    assert forall k :: 0 <= k < |x| ==> x[k] == (a + x + b)[|a| + k] == (a + y + b)[|a| + k] == y[k];
  }

  /** Different chunks have different audio and detailed file names. */
  lemma ChunkNamesDistinct(audioPath: string, filename: string, i: nat, j: nat)
    requires i != j
    ensures ChunkAudioPath(audioPath, i) != ChunkAudioPath(audioPath, j)
    ensures ChunkDetailedPath(filename, i) != ChunkDetailedPath(filename, j)
    ensures ChunkDetailedPath(filename, i) != DetailedPath(filename)
  {
    var zi, zj := ZeroPad(i, 3), ZeroPad(j, 3);
    var ra, rt := Root(audioPath) + "_chunk_", Root(TranscriptPath(filename)) + "_chunk_";
    if ChunkAudioPath(audioPath, i) == ChunkAudioPath(audioPath, j) {
      assert |zi| == |zj|;
      MiddleEqual(ra, zi, zj, ".mp3");
      ZeroPadInjective(i, j, 3);
    }
    if ChunkDetailedPath(filename, i) == ChunkDetailedPath(filename, j) {
      assert |zi| == |zj|;
      MiddleEqual(rt, zi, zj, "_detailed.json");
      ZeroPadInjective(i, j, 3);
    }
  }

  /** The index of chunk i is written with three digits below 1000. */
  lemma ChunkAudioPathShape(audioPath: string, i: nat)
    requires i < 1000
    ensures var p := ChunkAudioPath(audioPath, i); var r := Root(audioPath);
      && p == r + "_chunk_" + p[|r| + 7..|r| + 10] + ".mp3"
      && AllDigits(p[|r| + 7..|r| + 10]) && ParseNat(p[|r| + 7..|r| + 10]) == i
  {
    var p := ChunkAudioPath(audioPath, i);
    var r := Root(audioPath);
    var z := ZeroPad(i, 3);
    assert |NatToString(i)| <= 3 by {
      if i >= 10 {
        assert NatToString(i) == NatToString(i / 10) + [DigitChar(i % 10)];
        if i / 10 >= 10 {
          assert NatToString(i / 10) == NatToString(i / 100) + [DigitChar(i / 10 % 10)];
        }
      }
    }
    assert p == r + "_chunk_" + z + ".mp3";
    assert p[|r| + 7..|r| + 10] == z;
  }
}
