/** Question answering over one indexed lecture (backend/rag_query.py):
    query trimming, the process-wide memo cache of search results, the
    distance filter, the choice and de-duplication of timestamps, and the
    answers returned on each failure. Opening the vector store, the
    similarity search and the language model are oracles handed to the
    query; their results are inputs of the model. */
module RagQuery {
  import opened Wrappers
  import opened Strings
  import VectorPipeline

  /** Distances above this are discarded (lower is more similar). */
  const Threshold: real := 2.0
  /** At most this many results are used as context. */
  const TopK: nat := 4
  /** The number of results asked of the similarity search. */
  const SearchK: nat := 8

  const EmptyQueryMessage := "Please provide a valid question."
  const NoRelevantMessage := "I couldn't find relevant information in the lecture to answer your question. Please try rephrasing your question."
  const NoTimestampsText := "No timestamps available"
  const ContextSeparator := "\n---\n"

  /** One search result: the page content, the "timestamp" and
      "start_time" metadata (either may be absent) and the distance. */
  datatype Hit = Hit(content: string, timestamp: Option<string>, startTime: Option<real>, score: real)

  /** The dictionary rag_query returns: the answer text and the timestamps
      it used. */
  datatype Answer = Answer(answer: string, usedTimestamps: seq<string>)

  /** The variables filled into the human turn of the chat prompt. */
  datatype Prompt = Prompt(context: string, timestamps: string, question: string)

  /** A document as the indexer stored it, returned with distance score. */
  function HitOf(d: VectorPipeline.Document, score: real): Hit
  {
    Hit(d.pageContent, Some(d.metadata.timestamp), Some(d.metadata.startTime), score)
  }

  // ---------------------------------------------------------------------
  // Distance filter and top 4

  /** The results within the threshold, in their original order. */
  function Relevant(hits: seq<Hit>): (r: seq<Hit>)
    ensures |r| <= |hits|
  {
    if hits == [] then []
    else
      var rest := Relevant(hits[..|hits| - 1]);
      var last := hits[|hits| - 1];
      if last.score <= Threshold then rest + [last] else rest
  }

  /** [doc for doc, score in docs_scores if score <= threshold][:4] */
  function Kept(hits: seq<Hit>): seq<Hit>
  {
    var r := Relevant(hits);
    if |r| <= TopK then r else r[..TopK]
  }

  /** A result is kept by the filter exactly when it is within the
      threshold. */
  lemma {:induction false} RelevantMembers(hits: seq<Hit>)
    ensures forall h :: h in Relevant(hits) <==> h in hits && h.score <= Threshold
  {
    if hits != [] {
      RelevantMembers(hits[..|hits| - 1]);
      assert hits == hits[..|hits| - 1] + [hits[|hits| - 1]];
    }
  }

  /** The filter keeps order: filtering a concatenation concatenates the
      filtered parts. */
  lemma {:induction false} RelevantAppend(a: seq<Hit>, b: seq<Hit>)
    ensures Relevant(a + b) == Relevant(a) + Relevant(b)
    decreases |b|
  {
    if b == [] {
      assert a + b == a;
    } else {
      var b' := b[..|b| - 1];
      assert (a + b)[..|a + b| - 1] == a + b';
      RelevantAppend(a, b');
    }
  }

  /** The kept results are the first min(4, n) of the n results within the
      threshold. */
  lemma KeptIsPrefix(hits: seq<Hit>)
    ensures var r := Relevant(hits); var k := Kept(hits);
      |k| == (if |r| <= TopK then |r| else TopK) && k == r[..|k|]
  {
  }

  /** Nothing is kept exactly when no result is within the threshold. */
  lemma KeptEmptyIff(hits: seq<Hit>)
    ensures Kept(hits) == [] <==> forall i :: 0 <= i < |hits| ==> hits[i].score > Threshold
  {
    RelevantMembers(hits);
    if exists i :: 0 <= i < |hits| && hits[i].score <= Threshold {
      var i :| 0 <= i < |hits| && hits[i].score <= Threshold;
      assert hits[i] in hits;
    }
    if Kept(hits) != [] {
      assert Relevant(hits)[0] in Relevant(hits);
    }
  }

  // ---------------------------------------------------------------------
  // Timestamps

  /** The timestamp a kept result contributes: its "timestamp" metadata
      when that is a non-empty string, otherwise MM:SS of its "start_time"
      when that is present, otherwise none. */
  function DocTimestamp(h: Hit): Option<string>
  {
    if h.timestamp.Some? && h.timestamp.value != [] then Some(h.timestamp.value)
    else if h.startTime.Some? then Some(VectorPipeline.FormatTimestamp(h.startTime.value))
    else None
  }

  /** The timestamps of the results, in order, skipping results without
      one. */
  function Timestamps(docs: seq<Hit>): seq<string>
  {
    if docs == [] then []
    else
      var rest := Timestamps(docs[..|docs| - 1]);
      match DocTimestamp(docs[|docs| - 1])
      case None => rest
      case Some(t) => rest + [t]
  }

  /** A string is among the timestamps exactly when some result
      contributes it. */
  lemma {:induction false} TimestampsMembers(docs: seq<Hit>)
    ensures forall t :: t in Timestamps(docs) <==>
      exists i :: 0 <= i < |docs| && DocTimestamp(docs[i]) == Some(t)
  {
    if docs != [] {
      var init := docs[..|docs| - 1];
      TimestampsMembers(init);
      forall t | t in Timestamps(docs)
        ensures exists i :: 0 <= i < |docs| && DocTimestamp(docs[i]) == Some(t)
      {
        if t !in Timestamps(init) {
          assert DocTimestamp(docs[|docs| - 1]) == Some(t);
        } else {
          var i :| 0 <= i < |init| && DocTimestamp(init[i]) == Some(t);
          assert docs[i] == init[i];
        }
      }
      forall t, i | 0 <= i < |docs| && DocTimestamp(docs[i]) == Some(t)
        ensures t in Timestamps(docs)
      {
        if i < |init| {
          assert init[i] == docs[i];
        }
      }
    }
  }

  /** A document stored by the indexer always carries a non-empty
      "timestamp", so the answer uses the MM:SS rendering of the window's
      start and never falls back to "start_time". */
  lemma IndexedDocTimestamp(videoId: string, i: nat, window: string, words: seq<VectorPipeline.Word>, score: real)
    ensures var d := VectorPipeline.WindowDocument(videoId, i, window, words);
      DocTimestamp(HitOf(d, score)) == Some(VectorPipeline.FormatTimestamp(d.metadata.startTime))
  {
  }

  /** The timestamp loop: appends each result's timestamp, when it has one. */
  method CollectTimestamps(docs: seq<Hit>) returns (timestamps: seq<string>)
    ensures timestamps == Timestamps(docs)
  {
    timestamps := [];
    for i := 0 to |docs|
      invariant timestamps == Timestamps(docs[..i])
    {
      assert docs[..i + 1][..i] == docs[..i];
      var d := docs[i];
      if d.timestamp.Some? && d.timestamp.value != [] {
        timestamps := timestamps + [d.timestamp.value];
      } else if d.startTime.Some? {
        timestamps := timestamps + [VectorPipeline.FormatTimestamp(d.startTime.value)];
      }
    }
    assert docs[..|docs|] == docs;
  }

  // ---------------------------------------------------------------------
  // list(dict.fromkeys(timestamps))

  predicate NoDuplicates(xs: seq<string>)
  {
    forall i, j :: 0 <= i < j < |xs| ==> xs[i] != xs[j]
  }

  /** Each string once, at its first occurrence. */
  function Dedup(xs: seq<string>): seq<string>
  {
    if xs == [] then []
    else
      var prefix := Dedup(xs[..|xs| - 1]);
      if xs[|xs| - 1] in prefix then prefix else prefix + [xs[|xs| - 1]]
  }

  /** De-duplication keeps exactly the strings of its input, each once. */
  lemma {:induction false} DedupMembers(xs: seq<string>)
    ensures forall x :: x in Dedup(xs) <==> x in xs
    ensures NoDuplicates(Dedup(xs))
  {
    if xs != [] {
      DedupMembers(xs[..|xs| - 1]);
      assert xs == xs[..|xs| - 1] + [xs[|xs| - 1]];
    }
  }

  /** a occurs in xs, and for the first time before b does. */
  predicate FirstBefore(xs: seq<string>, a: string, b: string)
  {
    var fa := VectorPipeline.FirstIndex(xs, a);
    var fb := VectorPipeline.FirstIndex(xs, b);
    fa.Some? && fb.Some? && fa.value < fb.value
  }

  /** The strings come out in the order of their first occurrences. */
  lemma {:induction false} DedupFirstOccurrenceOrder(xs: seq<string>)
    ensures forall i, j :: 0 <= i < j < |Dedup(xs)| ==> FirstBefore(xs, Dedup(xs)[i], Dedup(xs)[j])
  {
    if xs != [] {
      var init := xs[..|xs| - 1];
      var x := xs[|xs| - 1];
      assert xs == init + [x];
      var p := Dedup(init);
      var r := Dedup(xs);
      DedupFirstOccurrenceOrder(init);
      DedupMembers(init);
      forall i, j | 0 <= i < j < |r|
        ensures FirstBefore(xs, r[i], r[j])
      {
        assert r[i] == p[i] && r[i] in init;
        FirstIndexExtend(init, x, r[i]);
        FirstIndexExtend(init, x, r[j]);
        if j < |p| {
          assert r[j] == p[j] && r[j] in init;
          assert FirstBefore(init, p[i], p[j]);
        } else {
          assert r[j] == x && x !in init;
        }
      }
    }
  }

  /** Appending an element does not move the first occurrence of anything
      already present; a new element is found at the end. */
  lemma {:induction false} FirstIndexExtend(xs: seq<string>, x: string, y: string)
    ensures y in xs ==> VectorPipeline.FirstIndex(xs + [x], y) == VectorPipeline.FirstIndex(xs, y)
    ensures y !in xs && y == x ==> VectorPipeline.FirstIndex(xs + [x], y) == Some(|xs|)
    decreases |xs|
  {
    if xs == [] {
      assert xs + [x] == [x];
    } else if xs[0] != y {
      assert (xs + [x])[1..] == xs[1..] + [x];
      assert y in xs ==> y in xs[1..];
      FirstIndexExtend(xs[1..], x, y);
    }
  }

  /** A list without duplicates is left as it is. */
  lemma {:induction false} DedupOfDistinct(xs: seq<string>)
    requires NoDuplicates(xs)
    ensures Dedup(xs) == xs
  {
    if xs != [] {
      var init := xs[..|xs| - 1];
      DedupOfDistinct(init);
      assert xs[|xs| - 1] !in init;
      assert xs == init + [xs[|xs| - 1]];
    }
  }

  // ---------------------------------------------------------------------
  // The answer

  /** The page contents joined with "\n---\n". */
  function Context(docs: seq<Hit>): string
  {
    Join(seq(|docs|, i requires 0 <= i < |docs| => docs[i].content), ContextSeparator)
  }

  /** ", ".join(unique_timestamps) if unique_timestamps else
      "No timestamps available" */
  function TimestampField(ts: seq<string>): string
  {
    if ts == [] then NoTimestampsText else Join(ts, ", ")
  }

  /** The answer once the search results are known: the fixed message when
      nothing is relevant, otherwise the model's reply with the
      de-duplicated timestamps, or an error answer without timestamps when
      generation fails. */
  function Respond(query: string, hits: seq<Hit>, generate: Prompt -> Result<string, string>): Answer
  {
    var docs := Kept(hits);
    if docs == [] then Answer(NoRelevantMessage, [])
    else
      var unique := Dedup(Timestamps(docs));
      match generate(Prompt(Context(docs), TimestampField(unique), query))
      case Ok(reply) => Answer(reply, unique)
      case Err(e) => Answer("Error generating response: " + e, [])
  }

  /** The used timestamps are distinct, and each is the timestamp of one of
      the first four results within the threshold. */
  lemma RespondTimestamps(query: string, hits: seq<Hit>, generate: Prompt -> Result<string, string>)
    ensures var a := Respond(query, hits, generate);
      && NoDuplicates(a.usedTimestamps)
      && forall t :: t in a.usedTimestamps ==>
           exists i :: 0 <= i < |Kept(hits)| && Kept(hits)[i].score <= Threshold
                    && DocTimestamp(Kept(hits)[i]) == Some(t)
  {
    var docs := Kept(hits);
    RelevantMembers(hits);
    DedupMembers(Timestamps(docs));
    TimestampsMembers(docs);
    forall i | 0 <= i < |docs|
      ensures docs[i].score <= Threshold
    {
      assert docs[i] in Relevant(hits);
    }
  }

  /** On success every timestamp of the kept results appears in the answer,
      once, in order of first appearance; the prompt announces them. */
  lemma RespondSuccess(query: string, hits: seq<Hit>, generate: Prompt -> Result<string, string>)
    requires Kept(hits) != []
    ensures var docs := Kept(hits);
      var unique := Dedup(Timestamps(docs));
      var reply := generate(Prompt(Context(docs), TimestampField(unique), query));
      && (reply.Ok? ==> Respond(query, hits, generate) == Answer(reply.value, unique))
      && (reply.Err? ==> Respond(query, hits, generate).usedTimestamps == [])
      && forall t :: t in Timestamps(docs) <==> t in unique
  {
    DedupMembers(Timestamps(Kept(hits)));
  }

  /** The part of rag_query after retrieval, as it runs: filter, collect
      the timestamps in a loop, de-duplicate, generate. */
  method BuildAnswer(query: string, hits: seq<Hit>, generate: Prompt -> Result<string, string>)
    returns (a: Answer)
    ensures a == Respond(query, hits, generate)
  {
    var docs := Kept(hits);
    if docs == [] {
      return Answer(NoRelevantMessage, []);
    }
    var timestamps := CollectTimestamps(docs);
    var unique := Dedup(timestamps);
    var reply := generate(Prompt(Context(docs), TimestampField(unique), query));
    if reply.Err? {
      return Answer("Error generating response: " + reply.error, []);
    }
    a := Answer(reply.value, unique);
  }

  /** The memo key: the video id and the query joined with ':'. */
  function CacheKey(videoId: string, query: string): string
  {
    videoId + ":" + query
  }

  /** The key does not tell its parts apart: two different (video, query)
      pairs can share one cache entry. */
  lemma CacheKeyCollision()
    ensures CacheKey("a", "b:c") == CacheKey("a:b", "c")
  {
  }

  /** The process-wide state of rag_query: its memo cache. Entries are
      added on a successful search and never evicted. searchLog records
      the queries sent to the similarity search. */
  class RagEngine {
    var cache: map<string, seq<Hit>>
    ghost var searchLog: seq<string>

    constructor()
      ensures cache == map[] && searchLog == []
    {
      cache := map[];
      searchLog := [];
    }

    /** rag_query(video_id, user_query). openStore gives the error raised
        when the collection cannot be opened, search the results or error
        of a similarity search with k results, generate the model's reply
        or error. */
    method Query(videoId: string, userQuery: string,
                 openStore: string -> Option<string>,
                 search: (string, string, nat) -> Result<seq<Hit>, string>,
                 generate: Prompt -> Result<string, string>)
      returns (a: Answer)
      modifies this
      ensures var query := Trim(userQuery);
        var collection := VectorPipeline.CollectionName(videoId);
        var key := CacheKey(videoId, query);
        if query == [] then
          a == Answer(EmptyQueryMessage, []) && cache == old(cache) && searchLog == old(searchLog)
        else if openStore(collection).Some? then
          && a == Answer("Error accessing vector database for " + videoId
                         + ". Please ensure the lecture has been processed. Error: "
                         + openStore(collection).value, [])
          && cache == old(cache) && searchLog == old(searchLog)
        else if key in old(cache) then
          a == Respond(query, old(cache)[key], generate) && cache == old(cache) && searchLog == old(searchLog)
        else
          && searchLog == old(searchLog) + [query]
          && match search(collection, query, SearchK)
             case Err(e) =>
               a == Answer("Error searching for relevant content: " + e, []) && cache == old(cache)
             case Ok(hits) =>
               a == Respond(query, hits, generate) && cache == old(cache)[key := hits]
    {
      var query := Trim(userQuery);
      if query == [] {
        return Answer(EmptyQueryMessage, []);
      }
      var collection := VectorPipeline.CollectionName(videoId);
      var openError := openStore(collection);
      if openError.Some? {
        return Answer("Error accessing vector database for " + videoId
                      + ". Please ensure the lecture has been processed. Error: " + openError.value, []);
      }
      var key := CacheKey(videoId, query);
      var hits;
      if key in cache {
        hits := cache[key];
      } else {
        searchLog := searchLog + [query];
        var found := search(collection, query, SearchK);
        if found.Err? {
          return Answer("Error searching for relevant content: " + found.error, []);
        }
        hits := found.value;
        cache := cache[key := hits];
      }
      a := BuildAnswer(query, hits, generate);
    }
  }
}
