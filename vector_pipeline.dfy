/** The indexer (backend/vector_pipeline.py): aligning transcript windows
    with word timestamps, MM:SS formatting, collection-name sanitising and
    the construction of the documents handed to the vector store. The text
    splitter, the embeddings and the store itself are outside the model. */
module VectorPipeline {
  import opened Wrappers
  import opened Strings

  /** One transcribed word with its global start and end, in seconds. */
  datatype Word = Word(text: string, start: real, end: real)

  /** The start and end times a window is aligned to. */
  datatype Span = Span(start: real, end: real)

  // ---------------------------------------------------------------------
  // find_timestamp_for_text

  /** The characters str.strip('.,!?";') removes. */
  const Punctuation: CharClass := OneOf(".,!?\";")

  /** A word as the aligner compares it: lower-cased, then stripped of the
      punctuation above at both ends. */
  function Normalize(w: string): string
  {
    Strip(Lower(w), Punctuation)
  }

  /** The normalised text of every word, in order. */
  function Keys(words: seq<Word>): (keys: seq<string>)
    ensures |keys| == |words|
  {
    seq(|words|, j requires 0 <= j < |words| => Normalize(words[j].text))
  }

  /** The lowest index holding w, if any. */
  function FirstIndex(keys: seq<string>, w: string): (r: Option<nat>)
    ensures r.Some? ==> r.value < |keys| && keys[r.value] == w
    ensures r.Some? ==> forall j :: 0 <= j < r.value ==> keys[j] != w
    ensures r.None? <==> w !in keys
  {
    if keys == [] then None
    else if keys[0] == w then Some(0)
    else match FirstIndex(keys[1..], w)
      case None => None
      case Some(k) => Some(k + 1)
  }

  /** The highest index holding w, if any. */
  function LastIndex(keys: seq<string>, w: string): (r: Option<nat>)
    ensures r.Some? ==> r.value < |keys| && keys[r.value] == w
    ensures r.Some? ==> forall j :: r.value < j < |keys| ==> keys[j] != w
    ensures r.None? <==> w !in keys
  {
    if keys == [] then None
    else if keys[|keys| - 1] == w then Some(|keys| - 1)
    else LastIndex(keys[..|keys| - 1], w)
  }

  /** The span a window is aligned to: the start of the first word matching
      its first word and the end of the last word matching its last word,
      each 0 when there is no match (a found 0 is 0 as well, so `or 0` does
      not change a found value). A window without words gets 0 and 0.
      The source strips the window before splitting it; str.split() ignores
      surrounding whitespace, so Words(text) is the same list. */
  function TimestampSpan(text: string, words: seq<Word>): Span
  {
    var ws := Words(text);
    if ws == [] then Span(0.0, 0.0)
    else
      var keys := Keys(words);
      Span(TimeAt(words, FirstIndex(keys, Normalize(ws[0])), true),
           TimeAt(words, LastIndex(keys, Normalize(ws[|ws| - 1])), false))
  }

  /** The time found for a match, 0 when there is none. */
  function TimeAt(words: seq<Word>, found: Option<nat>, atStart: bool): real
  {
    if found.Some? && found.value < |words| then
      (if atStart then words[found.value].start else words[found.value].end)
    else 0.0
  }

  /** The forward scan of find_timestamp_for_text: the start of the first
      word whose normalised text is firstWord. */
  method ScanForStart(words: seq<Word>, firstWord: string) returns (startTime: Option<real>)
    ensures startTime.None? <==> firstWord !in Keys(words)
    ensures startTime.Some? ==> startTime.value == TimeAt(words, FirstIndex(Keys(words), firstWord), true)
  {
    ghost var keys := Keys(words);
    startTime := None;
    var i := 0;
    while i < |words|
      invariant 0 <= i <= |words|
      invariant forall j :: 0 <= j < i ==> keys[j] != firstWord
      invariant startTime.None?
    {
      assert keys[i] == Normalize(words[i].text);
      if Normalize(words[i].text) == firstWord {
        startTime := Some(words[i].start);
        break;
      }
      i := i + 1;
    }
    if startTime.Some? {
      var f := FirstIndex(keys, firstWord);
      assert f.Some? && f.value == i;
    }
  }

  /** The backward scan of find_timestamp_for_text: the end of the last
      word whose normalised text is lastWord. */
  method ScanForEnd(words: seq<Word>, lastWord: string) returns (endTime: Option<real>)
    ensures endTime.None? <==> lastWord !in Keys(words)
    ensures endTime.Some? ==> endTime.value == TimeAt(words, LastIndex(Keys(words), lastWord), false)
  {
    ghost var keys := Keys(words);
    endTime := None;
    var k := |words|;
    while k > 0
      invariant 0 <= k <= |words|
      invariant forall j :: k <= j < |words| ==> keys[j] != lastWord
      invariant endTime.None?
    {
      assert keys[k - 1] == Normalize(words[k - 1].text);
      if Normalize(words[k - 1].text) == lastWord {
        endTime := Some(words[k - 1].end);
        break;
      }
      k := k - 1;
    }
    if endTime.Some? {
      var l := LastIndex(keys, lastWord);
      assert l.Some? && l.value == k - 1;
    }
  }

  /** find_timestamp_for_text: the window's first and last words, then the
      two scans; a missing match gives 0. */
  method FindTimestampForText(text: string, words: seq<Word>) returns (span: Span)
    ensures span == TimestampSpan(text, words)
  {
    var chunkWords := Words(text);
    if chunkWords == [] {
      return Span(0.0, 0.0);
    }
    var firstWord := Normalize(chunkWords[0]);
    var lastWord := Normalize(chunkWords[|chunkWords| - 1]);
    var startTime := ScanForStart(words, firstWord);
    var endTime := ScanForEnd(words, lastWord);
    span := Span(if startTime.Some? then startTime.value else 0.0,
                 if endTime.Some? then endTime.value else 0.0);
  }

  /** A blank window (all whitespace, or empty) is aligned to 0 and 0. */
  lemma BlankWindowSpan(text: string, words: seq<Word>)
    requires forall i :: 0 <= i < |text| ==> IsSpace(text[i])
    ensures TimestampSpan(text, words) == Span(0.0, 0.0)
  {
    WordsEmptyIffAllSpace(text);
  }

  /** Searching a word list followed by a copy of itself finds the same
      span: the first match lies in the first copy and the last match at the
      same place in the second copy. */
  lemma SpanOfRepeatedWords(text: string, words: seq<Word>)
    ensures TimestampSpan(text, words + words) == TimestampSpan(text, words)
  {
    var ws := Words(text);
    if ws != [] {
      var both := words + words;
      var keys := Keys(words);
      assert Keys(both) == keys + keys;
      FirstIndexOfRepeated(keys, Normalize(ws[0]));
      LastIndexOfRepeated(keys, Normalize(ws[|ws| - 1]));
    }
  }

  lemma FirstIndexOfRepeated(keys: seq<string>, w: string)
    ensures FirstIndex(keys + keys, w) == FirstIndex(keys, w)
  {
    var both := keys + keys;
    match FirstIndex(keys, w)
    case Some(k) =>
      assert both[k] == keys[k];
      assert forall j :: 0 <= j < k ==> both[j] == keys[j];
    case None =>
      assert w !in both;
  }

  lemma LastIndexOfRepeated(keys: seq<string>, w: string)
    ensures LastIndex(keys + keys, w) == match LastIndex(keys, w)
                                          case Some(k) => Some(|keys| + k)
                                          case None => None
  {
    var both := keys + keys;
    match LastIndex(keys, w)
    case Some(k) =>
      assert both[|keys| + k] == keys[k];
      assert forall j :: |keys| + k < j < |both| ==> both[j] == keys[j - |keys|];
    case None =>
      assert w !in both;
  }

  // ---------------------------------------------------------------------
  // format_timestamp

  /** seconds // 60 */
  function Minutes(seconds: real): int
  {
    (seconds / 60.0).Floor
  }

  /** int(seconds % 60): Python's float % has the sign of the divisor, so
      the remainder is in [0, 60) and int() truncates it down. */
  function Seconds(seconds: real): int
  {
    (seconds - 60.0 * Minutes(seconds) as real).Floor
  }

  /** format_timestamp: f"{minutes:02d}:{secs:02d}". */
  function FormatTimestamp(seconds: real): string
  {
    FormatInt2(Minutes(seconds)) + ":" + FormatInt2(Seconds(seconds))
  }

  /** The seconds field is always in [0, 59] and the two fields together
      are the whole seconds of the input. */
  lemma FormatTimestampFields(seconds: real)
    ensures 0 <= Seconds(seconds) <= 59
    ensures Minutes(seconds) * 60 + Seconds(seconds) == seconds.Floor
    ensures 0.0 <= seconds ==> 0 <= Minutes(seconds)
  {
    var m := Minutes(seconds);
    assert m as real <= seconds / 60.0 < m as real + 1.0;
    var r := seconds - 60.0 * m as real;
    assert 0.0 <= r < 60.0;
    var k := r.Floor;
    assert k as real <= r < k as real + 1.0;
    assert (m * 60 + k) as real <= seconds < (m * 60 + k) as real + 1.0;
  }

  /** Under 100 minutes, the result is exactly "MM:SS": two digits, a
      colon, two digits. */
  lemma FormatTimestampShape(seconds: real)
    requires 0.0 <= seconds < 6000.0
    ensures var t := FormatTimestamp(seconds);
      |t| == 5 && t[2] == ':' && AllDigits(t[..2]) && AllDigits(t[3..])
      && ParseNat(t[..2]) == Minutes(seconds) && ParseNat(t[3..]) == Seconds(seconds)
  {
    FormatTimestampFields(seconds);
    var t := FormatTimestamp(seconds);
    assert Minutes(seconds) < 100;
    assert t[..2] == FormatInt2(Minutes(seconds));
    assert t[3..] == FormatInt2(Seconds(seconds));
  }

  // ---------------------------------------------------------------------
  // sanitize_collection_name

  /** The characters a collection name may hold: [a-zA-Z0-9._-]. */
  predicate IsNameChar(c: char) { IsAsciiAlnum(c) || c == '.' || c == '_' || c == '-' }

  /** Step 1, re.sub(r'[^a-zA-Z0-9._-]', '_', name). */
  function ReplaceInvalid(name: string): (r: string)
    ensures |r| == |name|
    ensures forall i :: 0 <= i < |r| ==> r[i] == if IsNameChar(name[i]) then name[i] else '_'
  {
    seq(|name|, i requires 0 <= i < |name| => if IsNameChar(name[i]) then name[i] else '_')
  }

  /** Step 4, re.sub(r'\.[^.]+$', '', name). The leftmost match starts at
      the last '.', and only if at least one character follows it; the
      input holds no newline (step 1 replaced it), so `$` is the end. */
  function RemoveExtension(s: string): string
  {
    match LastIndexOf(s, '.')
    case Some(p) => if p + 1 < |s| then s[..p] else s
    case None => s
  }

  /** sanitize_collection_name: steps 2 and 3 drop the leading and the
      trailing runs of non-alphanumerics. */
  function SanitizeCollectionName(name: string): string
  {
    RemoveExtension(StripEnd(StripStart(ReplaceInvalid(name), NotAlnum), NotAlnum))
  }

  function CollectionName(videoId: string): string
  {
    "lecture_" + SanitizeCollectionName(videoId)
  }

  predicate AllNameChars(s: string) { forall i :: 0 <= i < |s| ==> IsNameChar(s[i]) }

  /** Step 4 keeps a prefix of its input. */
  lemma RemoveExtensionIsPrefix(s: string)
    ensures var r := RemoveExtension(s); |r| <= |s| && r == s[..|r|]
  {
  }

  /** Every character of a sanitised name is one of [a-zA-Z0-9._-], and the
      name is empty or starts with a letter or digit. */
  lemma SanitizedShape(name: string)
    ensures var r := SanitizeCollectionName(name);
      AllNameChars(r) && (r == [] || IsAsciiAlnum(r[0]))
  {
    var s1 := ReplaceInvalid(name);
    assert AllNameChars(s1);
    var s2 := StripStart(s1, NotAlnum);
    StripStartRun(s1, NotAlnum);
    assert s2 == [] || IsAsciiAlnum(s2[0]);
    assert AllNameChars(s2);
    var s3 := StripEnd(s2, NotAlnum);
    assert AllNameChars(s3);
    assert s3 == [] || s3[0] == s2[0];
    RemoveExtensionIsPrefix(s3);
    var r := RemoveExtension(s3);
    assert AllNameChars(r);
    assert r == [] || r[0] == s3[0];
  }

  /** Step 4 removes one extension only: the part after the last '.'. */
  lemma RemoveExtensionOnce(s: string, p: nat)
    requires p + 1 < |s| && s[p] == '.' && '.' !in s[p + 1..]
    ensures RemoveExtension(s) == s[..p]
  {
    assert s[p] in s;
  }

  /** "a.tar.gz" loses ".gz" only. */
  lemma SanitizeDoubleExtension()
    ensures SanitizeCollectionName("a.tar.gz") == "a.tar"
  {
    var s := "a.tar.gz";
    assert ReplaceInvalid(s) == s;
    assert StripStart(s, NotAlnum) == s;
    assert StripEnd(s, NotAlnum) == s;
    RemoveExtensionOnce(s, 5);
  }

  /** A '_' standing before the removed extension survives at the end. */
  lemma SanitizeTrailingUnderscore()
    ensures SanitizeCollectionName("a_.b") == "a_"
  {
    var s := "a_.b";
    assert ReplaceInvalid(s) == s;
    assert StripStart(s, NotAlnum) == s;
    assert StripEnd(s, NotAlnum) == s;
    RemoveExtensionOnce(s, 2);
  }

  /** "Week #1.mp4": the space and '#' become '_', ".mp4" is dropped. */
  lemma SanitizeLectureName()
    ensures SanitizeCollectionName("Week #1.mp4") == "Week__1"
  {
    var s := "Week__1.mp4";
    assert ReplaceInvalid("Week #1.mp4") == s;
    assert StripStart(s, NotAlnum) == s;
    assert StripEnd(s, NotAlnum) == s;
    RemoveExtensionOnce(s, 7);
  }

  // ---------------------------------------------------------------------
  // process_transcript

  /** A detailed transcript file found by the glob: its path and, when it
      could be read and holds a "words" key, its word list. */
  datatype DetailedFile = DetailedFile(path: string, words: Option<seq<Word>>)

  datatype Metadata = Metadata(videoId: string, chunkIndex: nat, startTime: real, endTime: real,
                               timestamp: string, timestampEnd: string)

  datatype Document = Document(pageContent: string, metadata: Metadata)

  /** What process_transcript hands to the vector store: nothing when the
      transcript file is missing, else the collection and its documents. */
  datatype Indexing = TranscriptMissing | Indexed(collection: string, docs: seq<Document>)

  /** Python's string order: code point by code point, a prefix first. */
  predicate PathLe(a: string, b: string)
  {
    a == [] || (b != [] && (a[0] < b[0] || (a[0] == b[0] && PathLe(a[1..], b[1..]))))
  }

  lemma {:induction false} PathLeTotal(a: string, b: string)
    ensures PathLe(a, b) || PathLe(b, a)
  {
    if a != [] && b != [] && a[0] == b[0] {
      PathLeTotal(a[1..], b[1..]);
    }
  }

  predicate SortedByPath(fs: seq<DetailedFile>)
  {
    forall i :: 0 <= i < |fs| - 1 ==> PathLe(fs[i].path, fs[i + 1].path)
  }

  function InsertByPath(f: DetailedFile, fs: seq<DetailedFile>): (r: seq<DetailedFile>)
    requires SortedByPath(fs)
    ensures SortedByPath(r) && multiset(r) == multiset(fs) + multiset{f}
    ensures r != [] && (r[0] == f || (fs != [] && r[0] == fs[0]))
  {
    if fs == [] then [f]
    else if PathLe(f.path, fs[0].path) then [f] + fs
    else
      PathLeTotal(f.path, fs[0].path);
      var tail := InsertByPath(f, fs[1..]);
      assert fs == [fs[0]] + fs[1..];
      [fs[0]] + tail
  }

  /** sorted(detailed_files), ordering the files by path. */
  function SortByPath(fs: seq<DetailedFile>): (r: seq<DetailedFile>)
    ensures SortedByPath(r) && multiset(r) == multiset(fs)
  {
    if fs == [] then []
    else
      assert fs == [fs[0]] + fs[1..];
      InsertByPath(fs[0], SortByPath(fs[1..]))
  }

  /** The word lists of the files, concatenated in order; a file that could
      not be read or has no "words" key contributes nothing. */
  function AllWords(fs: seq<DetailedFile>): seq<Word>
  {
    if fs == [] then []
    else AllWords(fs[..|fs| - 1]) + (match fs[|fs| - 1].words case Some(ws) => ws case None => [])
  }

  /** The document for window i, with its alignment and formatted times. */
  function WindowDocument(videoId: string, i: nat, window: string, words: seq<Word>): Document
  {
    var span := TimestampSpan(window, words);
    Document(window, Metadata(videoId, i, span.start, span.end,
                              FormatTimestamp(span.start), FormatTimestamp(span.end)))
  }

  /** The reading loop of process_transcript: the files in the given
      order, the words of each readable one appended. */
  method CollectWords(files: seq<DetailedFile>) returns (allWords: seq<Word>)
    ensures allWords == AllWords(files)
  {
    allWords := [];
    var n := 0;
    while n < |files|
      invariant 0 <= n <= |files|
      invariant allWords == AllWords(files[..n])
    {
      assert files[..n + 1][..n] == files[..n];
      match files[n].words {
        case Some(ws) => allWords := allWords + ws;
        case None =>
      }
      n := n + 1;
    }
    assert files[..n] == files;
  }

  /** One window of the transcript as a document, its times located in the
      word list. */
  method IndexWindow(videoId: string, i: nat, window: string, words: seq<Word>)
    returns (doc: Document)
    ensures doc == WindowDocument(videoId, i, window, words)
  {
    var span := FindTimestampForText(window, words);
    var metadata := Metadata(videoId, i, span.start, span.end,
                             FormatTimestamp(span.start), FormatTimestamp(span.end));
    doc := Document(window, metadata);
  }

  /** The documents of all windows, in order, numbered from 0. */
  method IndexWindows(videoId: string, windows: seq<string>, words: seq<Word>)
    returns (docs: seq<Document>)
    ensures |docs| == |windows|
    ensures forall i :: 0 <= i < |windows| ==> docs[i] == WindowDocument(videoId, i, windows[i], words)
  {
    docs := [];
    var i := 0;
    while i < |windows|
      invariant 0 <= i <= |windows| && |docs| == i
      invariant forall j :: 0 <= j < i ==> docs[j] == WindowDocument(videoId, j, windows[j], words)
    {
      var doc := IndexWindow(videoId, i, windows[i], words);
      docs := docs + [doc];
      i := i + 1;
    }
  }

  /** process_transcript. `transcript` is the transcript file's content
      (None when it does not exist), `globbed` what the two globs found, and
      `split` the text splitter (window size 800, overlap 150). */
  method ProcessTranscript(filename: string, transcript: Option<string>,
                           globbed: seq<DetailedFile>, split: string -> seq<string>)
    returns (r: Indexing)
    ensures transcript.None? <==> r == TranscriptMissing
    ensures transcript.Some? ==>
      var windows := split(transcript.value);
      var words := AllWords(SortByPath(globbed));
      && r.Indexed? && r.collection == CollectionName(filename)
      && |r.docs| == |windows|
      && forall i :: 0 <= i < |windows| ==> r.docs[i] == WindowDocument(filename, i, windows[i], words)
  {
    var collection := CollectionName(filename);
    if transcript.None? {
      return TranscriptMissing;
    }
    var allWords := CollectWords(SortByPath(globbed));

    var docs := IndexWindows(filename, split(transcript.value), allWords);
    r := Indexed(collection, docs);
  }

  /** Each document's "timestamp" is the MM:SS rendering of its start, whose
      fields add up to the whole seconds of the start. */
  lemma WindowDocumentTimes(videoId: string, i: nat, window: string, words: seq<Word>)
    ensures var d := WindowDocument(videoId, i, window, words);
      && d.metadata.chunkIndex == i && d.pageContent == window
      && d.metadata.timestamp == FormatTimestamp(d.metadata.startTime)
      && Minutes(d.metadata.startTime) * 60 + Seconds(d.metadata.startTime) == d.metadata.startTime.Floor
      && (Words(window) == [] ==> d.metadata.startTime == 0.0 && d.metadata.endTime == 0.0)
  {
    FormatTimestampFields(WindowDocument(videoId, i, window, words).metadata.startTime);
  }
}
