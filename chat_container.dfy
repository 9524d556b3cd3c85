/** The chat panel (frontend/src/components/ChatContainer.tsx): reading
    and re-formatting timestamps, finding the first timestamp in an answer,
    and the message list that sending a question extends. The HTTP calls
    are parameters: their outcome is handed to the methods. */
module ChatContainer {
  import opened Wrappers
  import opened Strings
  import VectorPipeline

  // ---------------------------------------------------------------------
  // parseTimestamp and formatTimestamp

  /** JavaScript's Number(part) for a field of decimal digits (the empty
      field is 0); anything else is NaN, written None. */
  function FieldNumber(part: string): Option<nat>
  {
    if AllDigits(part) then Some(ParseNat(part)) else None
  }

  predicate AllFieldsNumeric(parts: seq<string>)
  {
    forall k :: 0 <= k < |parts| ==> AllDigits(parts[k])
  }

  /** parseTimestamp: "h:m:s" or "m:s" in seconds; any other number of
      fields gives 0. None is NaN, which arithmetic on a non-numeric field
      of a two- or three-field text propagates. */
  function ParseTimestamp(ts: string): Option<nat>
  {
    var parts := SplitOn(ts, ':');
    if |parts| == 3 then
      if AllFieldsNumeric(parts) then
        Some(ParseNat(parts[0]) * 3600 + ParseNat(parts[1]) * 60 + ParseNat(parts[2]))
      else None
    else if |parts| == 2 then
      if AllFieldsNumeric(parts) then Some(ParseNat(parts[0]) * 60 + ParseNat(parts[1]))
      else None
    else Some(0)
  }

  /** formatTimestamp: the seconds as zero-padded minutes and seconds; the
      minutes are not reduced modulo 60 and may take more than two digits.
      NaN renders as "NaN" in both fields. */
  function FormatTimestamp(ts: string): string
  {
    match ParseTimestamp(ts)
    case None => "NaN:NaN"
    case Some(t) => ZeroPad(t / 60, 2) + ":" + ZeroPad(t % 60, 2)
  }

  lemma DigitsHoldNoColon(p: string)
    requires AllDigits(p)
    ensures ':' !in p
  {
  }

  /** The text of three fields joined with colons. */
  lemma JoinThree(a: string, b: string, c: string)
    ensures Join([a, b, c], [':']) == a + ":" + b + ":" + c
  {
    var parts := [a, b, c];
    assert parts[1..][1..] == [c];
    assert Join(parts[1..], [':']) == b + [':'] + c;
    assert a + [':'] + (b + [':'] + c) == a + ":" + b + ":" + c;
  }

  lemma JoinTwo(a: string, b: string)
    ensures Join([a, b], [':']) == a + ":" + b
  {
    assert [a, b][1..] == [b];
  }

  /** Three numeric fields give hours, minutes and seconds. */
  lemma {:induction false} ParseThreeFields(h: string, m: string, s: string)
    requires AllDigits(h) && AllDigits(m) && AllDigits(s)
    ensures ParseTimestamp(h + ":" + m + ":" + s)
            == Some(ParseNat(h) * 3600 + ParseNat(m) * 60 + ParseNat(s))
  {
    DigitsHoldNoColon(h);
    DigitsHoldNoColon(m);
    DigitsHoldNoColon(s);
    JoinThree(h, m, s);
    SplitOnJoin([h, m, s], ':');
  }

  /** Two numeric fields give minutes and seconds. */
  lemma {:induction false} ParseTwoFields(m: string, s: string)
    requires AllDigits(m) && AllDigits(s)
    ensures ParseTimestamp(m + ":" + s) == Some(ParseNat(m) * 60 + ParseNat(s))
  {
    DigitsHoldNoColon(m);
    DigitsHoldNoColon(s);
    JoinTwo(m, s);
    SplitOnJoin([m, s], ':');
  }

  /** A text without a colon, numeric or not, reads as 0 seconds. */
  lemma ParseOneField(ts: string)
    requires ':' !in ts
    ensures ParseTimestamp(ts) == Some(0)
  {
    SplitOnWhole(ts, ':');
  }

  /** Four or more fields also read as 0 seconds, whatever they hold. */
  lemma {:induction false} ParseManyFields(parts: seq<string>)
    requires |parts| >= 4
    requires forall k :: 0 <= k < |parts| ==> ':' !in parts[k]
    ensures ParseTimestamp(Join(parts, [':'])) == Some(0)
  {
    SplitOnJoin(parts, ':');
  }

  /** A non-numeric field among two or three gives NaN, and the formatted
      timestamp is then "NaN:NaN". */
  lemma {:induction false} ParseNotNumeric(parts: seq<string>, k: nat)
    requires |parts| == 2 || |parts| == 3
    requires forall j :: 0 <= j < |parts| ==> ':' !in parts[j]
    requires k < |parts| && !AllDigits(parts[k])
    ensures ParseTimestamp(Join(parts, [':'])) == None
    ensures FormatTimestamp(Join(parts, [':'])) == "NaN:NaN"
  {
    SplitOnJoin(parts, ':');
  }

  lemma DivMod60(t: nat)
    ensures (t / 60) * 60 + t % 60 == t
  {
  }

  /** The formatted text is minutes (at least two digits), a colon and two
      digits of seconds below 60, and together they count the seconds the
      input counts. */
  lemma FormatShape(ts: string)
    requires ParseTimestamp(ts).Some?
    ensures var r, t := FormatTimestamp(ts), ParseTimestamp(ts).value;
            && |r| >= 5 && r[|r| - 3] == ':'
            && AllDigits(r[..|r| - 3]) && AllDigits(r[|r| - 2..])
            && ParseNat(r[|r| - 2..]) < 60
            && ParseNat(r[..|r| - 3]) * 60 + ParseNat(r[|r| - 2..]) == t
  {
    var t := ParseTimestamp(ts).value;
    var mm, ss := ZeroPad(t / 60, 2), ZeroPad(t % 60, 2);
    assert |NatToString(t % 60)| <= 2 by {
      if t % 60 >= 10 {
        assert NatToString(t % 60) == NatToString(t % 60 / 10) + [DigitChar(t % 60 % 10)];
      }
    }
    assert FormatTimestamp(ts) == mm + ":" + ss;
    DivMod60(t);
    ColonPair(mm, ss);
  }

  lemma ColonPair(mm: string, ss: string)
    requires |ss| == 2
    ensures var r := mm + ":" + ss; |r| == |mm| + 3 && r[|r| - 3] == ':' && r[..|r| - 3] == mm && r[|r| - 2..] == ss
  {
  }

  /** Formatting keeps the number of seconds: reading the formatted text
      gives back what reading the input gave. */
  lemma {:induction false} FormatKeepsSeconds(ts: string)
    requires ParseTimestamp(ts).Some?
    ensures ParseTimestamp(FormatTimestamp(ts)) == ParseTimestamp(ts)
  {
    var t := ParseTimestamp(ts).value;
    var mm, ss := ZeroPad(t / 60, 2), ZeroPad(t % 60, 2);
    assert FormatTimestamp(ts) == mm + ":" + ss;
    ParseTwoFields(mm, ss);
    DivMod60(t);
  }

  /** Formatting an already formatted timestamp changes nothing. */
  lemma {:induction false} FormatIdempotent(ts: string)
    requires ParseTimestamp(ts).Some?
    ensures FormatTimestamp(FormatTimestamp(ts)) == FormatTimestamp(ts)
  {
    FormatKeepsSeconds(ts);
  }

  /** "MM:SS" with two-digit fields and at most 59 seconds comes back
      unchanged. */
  lemma {:induction false} FormatRoundTrip(mm: string, ss: string)
    requires |mm| == 2 && AllDigits(mm)
    requires |ss| == 2 && AllDigits(ss) && ParseNat(ss) <= 59
    ensures FormatTimestamp(mm + ":" + ss) == mm + ":" + ss
  {
    ParseTwoFields(mm, ss);
    var t := ParseNat(mm) * 60 + ParseNat(ss);
    assert t / 60 == ParseNat(mm) && t % 60 == ParseNat(ss);
    TwoDigitsRoundTrip(mm);
    TwoDigitsRoundTrip(ss);
  }

  /** A document timestamp the indexer wrote for a start under 100
      minutes is shown unchanged when the panel formats it again. */
  lemma {:induction false} IndexedTimestampUnchanged(seconds: real)
    requires 0.0 <= seconds < 6000.0
    ensures FormatTimestamp(VectorPipeline.FormatTimestamp(seconds)) == VectorPipeline.FormatTimestamp(seconds)
  {
    VectorPipeline.FormatTimestampShape(seconds);
    var t := VectorPipeline.FormatTimestamp(seconds);
    FormatRoundTrip(t[..2], t[3..]);
    assert t == t[..2] + ":" + t[3..];
  }

  // ---------------------------------------------------------------------
  // The first match of /\b(\d{1,2}:\d{2}(?::\d{2})?)\b/g

  /** The characters \w matches, on either side of a \b. */
  predicate IsWordChar(c: char) { IsAsciiAlnum(c) || c == '_' }

  /** \b at position j: a word character on exactly one side. */
  predicate Boundary(s: string, j: nat)
    requires j <= |s|
  {
    (0 < j && IsWordChar(s[j - 1])) != (j < |s| && IsWordChar(s[j]))
  }

  /** The length of a candidate with d leading digits, with or without the
      optional ":dd" group. */
  function CandidateLength(d: nat, long: bool): nat
  {
    d + 3 + if long then 3 else 0
  }

  /** The pattern matches at i with d leading digits and the optional group
      taken (long) or not. */
  predicate FitsAt(s: string, i: nat, d: nat, long: bool)
  {
    var n := CandidateLength(d, long);
    && i + n <= |s|
    && Boundary(s, i)
    && AllDigits(s[i..i + d]) && s[i + d] == ':' && AllDigits(s[i + d + 1..i + d + 3])
    && (long ==> s[i + d + 3] == ':' && AllDigits(s[i + d + 4..i + d + 6]))
    && Boundary(s, i + n)
  }

  /** The length of the match starting at i, if any: the greedy \d{1,2}
      tries two digits before one, the greedy optional group is tried
      before leaving it out, and the first alternative that reaches the
      closing \b wins. */
  function MatchLength(s: string, i: nat): (r: Option<nat>)
    ensures r.Some? ==> exists d, long :: 1 <= d <= 2 && FitsAt(s, i, d, long)
                                      && r.value == CandidateLength(d, long)
    ensures r.None? ==> forall d, long :: 1 <= d <= 2 ==> !FitsAt(s, i, d, long)
  {
    if FitsAt(s, i, 2, true) then Some(CandidateLength(2, true))
    else if FitsAt(s, i, 2, false) then Some(CandidateLength(2, false))
    else if FitsAt(s, i, 1, true) then Some(CandidateLength(1, true))
    else if FitsAt(s, i, 1, false) then Some(CandidateLength(1, false))
    else None
  }

  /** The leftmost match at or after position i, as (start, length). */
  function FirstMatch(s: string, i: nat): (r: Option<(nat, nat)>)
    requires i <= |s|
    ensures r.Some? ==> && i <= r.value.0
                        && MatchLength(s, r.value.0) == Some(r.value.1)
                        && r.value.0 + r.value.1 <= |s|
                        && forall k :: i <= k < r.value.0 ==> MatchLength(s, k).None?
    ensures r.None? ==> forall k :: i <= k <= |s| ==> MatchLength(s, k).None?
    decreases |s| - i
  {
    match MatchLength(s, i)
    case Some(n) => Some((i, n))
    case None => if i == |s| then None else FirstMatch(s, i + 1)
  }

  /** timestamps[0] of the answer, or None when the answer holds none. */
  function FirstTimestamp(answer: string): Option<string>
  {
    match FirstMatch(answer, 0)
    case None => None
    case Some((i, n)) => Some(answer[i..i + n])
  }

  /** The text a match covers, cut into its digit fields. */
  lemma {:induction false} MatchedText(s: string, i: nat, d: nat, long: bool)
    requires 1 <= d <= 2 && FitsAt(s, i, d, long)
    ensures var m, a, b := s[i..i + CandidateLength(d, long)], s[i..i + d], s[i + d + 1..i + d + 3];
            && AllDigits(a) && AllDigits(b) && |a| == d && |b| == 2
            && (!long ==> m == a + ":" + b)
            && (long ==> AllDigits(s[i + d + 4..i + d + 6]) && m == a + ":" + b + ":" + s[i + d + 4..i + d + 6])
  {
    var a, b := s[i..i + d], s[i + d + 1..i + d + 3];
    var m := s[i..i + CandidateLength(d, long)];
    if long {
      var c := s[i + d + 4..i + d + 6];
      assert |m| == |a + ":" + b + ":" + c|;
      assert forall k :: 0 <= k < |m| ==> m[k] == (a + ":" + b + ":" + c)[k];
    } else {
      assert |m| == |a + ":" + b|;
      assert forall k :: 0 <= k < |m| ==> m[k] == (a + ":" + b)[k];
    }
  }

  /** Two or three colon-separated digit fields, the first of one or two
      digits and the others of two: the texts the pattern captures. */
  predicate TimestampFields(m: string)
  {
    var parts := SplitOn(m, ':');
    && (|parts| == 2 || |parts| == 3)
    && AllFieldsNumeric(parts)
    && 1 <= |parts[0]| <= 2
    && forall k :: 1 <= k < |parts| ==> |parts[k]| == 2
  }

  lemma {:induction false} FieldsOfMatch(s: string, i: nat, d: nat, long: bool)
    requires 1 <= d <= 2 && FitsAt(s, i, d, long)
    ensures TimestampFields(s[i..i + CandidateLength(d, long)])
  {
    MatchedText(s, i, d, long);
    var a, b := s[i..i + d], s[i + d + 1..i + d + 3];
    if long {
      var c := s[i + d + 4..i + d + 6];
      JoinThree(a, b, c);
      SplitOnJoin([a, b, c], ':');
    } else {
      JoinTwo(a, b);
      SplitOnJoin([a, b], ':');
    }
  }

  /** Whatever the pattern captures has the fields the pattern names, so
      parseTimestamp never sees NaN there. */
  lemma {:induction false} FirstTimestampFields(answer: string)
    requires FirstTimestamp(answer).Some?
    ensures TimestampFields(FirstTimestamp(answer).value)
    ensures ParseTimestamp(FirstTimestamp(answer).value).Some?
  {
    var (i, n) := FirstMatch(answer, 0).value;
    var d, long :| 1 <= d <= 2 && FitsAt(answer, i, d, long) && n == CandidateLength(d, long);
    FieldsOfMatch(answer, i, d, long);
  }

  /** The assistant message's timestamp: formatTimestamp of the first
      match, or undefined. */
  function AnswerTimestamp(answer: string): (r: Option<string>)
    ensures r.Some? <==> FirstTimestamp(answer).Some?
  {
    match FirstTimestamp(answer)
    case None => None
    case Some(m) => Some(FormatTimestamp(m))
  }

  /** A timestamp shown with an answer is never "NaN:NaN": it reads as
      the same number of seconds as the text the answer cited. */
  lemma {:induction false} AnswerTimestampSeconds(answer: string)
    requires AnswerTimestamp(answer).Some?
    ensures ParseTimestamp(AnswerTimestamp(answer).value)
            == ParseTimestamp(FirstTimestamp(answer).value)
    ensures ParseTimestamp(AnswerTimestamp(answer).value).Some?
  {
    FirstTimestampFields(answer);
    FormatKeepsSeconds(FirstTimestamp(answer).value);
  }

  // ---------------------------------------------------------------------
  // The message list

  datatype Sender = User | Assistant

  /** What a message says. The fixed texts of the panel are kept as
      constructors and spelled out by BodyText. */
  datatype Body = Said(text: string) | Welcome(filename: string) | NoLecture | QueryFailed

  datatype ChatMessage = ChatMessage(body: Body, sender: Sender, timestamp: Option<string>)

  /** The body of a question sent to the query endpoint. */
  datatype Query = Query(videoId: string, query: string)

  const LoadFailedMessage: string := "Failed to load lecture data"

  /** The text shown for a message body. */
  function BodyText(body: Body): string
  {
    match body
    case Said(text) => text
    case Welcome(filename) =>
      "Welcome! I'm ready to answer questions about your lecture: \"" + filename
      + "\". You can ask me anything about the content, key concepts, or specific topics covered in the lecture."
    case NoLecture => "No lecture is currently loaded. Please upload a lecture first."
    case QueryFailed => "Sorry, I encountered an error while processing your question. Please try again."
  }

  /** `!currentVideoId` is false for null and for the empty string alike. */
  predicate Loaded(videoId: Option<string>)
  {
    videoId.Some? && videoId.value != ""
  }

  /** The assistant's reply: the answer with its timestamp, or the apology
      when the request failed (network error, a status that is not OK, or
      a body without a text answer). */
  function ReplyMessage(reply: Option<string>): ChatMessage
  {
    match reply
    case None => ChatMessage(QueryFailed, Assistant, None)
    case Some(answer) => ChatMessage(Said(answer), Assistant, AnswerTimestamp(answer))
  }

  /** What handleSend appends: the user's question, then either the
      no-lecture notice or the reply. */
  function SentMessages(message: string, videoId: Option<string>, reply: Option<string>): seq<ChatMessage>
  {
    [ChatMessage(Said(message), User, None)]
    + [if Loaded(videoId) then ReplyMessage(reply) else ChatMessage(NoLecture, Assistant, None)]
  }

  /** Sending appends exactly two messages, the question first and an
      assistant message second; the assistant text is the answer only when
      a lecture is loaded and the request succeeded, and the timestamp is
      set only when that answer cites one. */
  lemma SentMessagesContent(message: string, videoId: Option<string>, reply: Option<string>)
    ensures var sent := SentMessages(message, videoId, reply);
            && |sent| == 2
            && sent[0] == ChatMessage(Said(message), User, None)
            && sent[1].sender == Assistant
            && (!Loaded(videoId) ==> sent[1].body == NoLecture)
            && (Loaded(videoId) && reply.None? ==> sent[1].body == QueryFailed)
            && (Loaded(videoId) && reply.Some? ==> sent[1].body == Said(reply.value))
            && (sent[1].timestamp.Some? <==> Loaded(videoId) && reply.Some? && FirstTimestamp(reply.value).Some?)
  {
  }

  /** Sending never changes or drops the messages already shown. */
  lemma SendKeepsHistory(history: seq<ChatMessage>, message: string, videoId: Option<string>, reply: Option<string>)
    ensures var after := history + SentMessages(message, videoId, reply);
            |after| == |history| + 2 && after[..|history|] == history
  {
    var after := history + SentMessages(message, videoId, reply);
    assert after[..|history|] == history;
  }

  /** The chat panel's state. */
  class Chat {
    var messages: seq<ChatMessage>
    var loading: bool
    var currentVideoId: Option<string>
    var error: Option<string>
    /** The questions posted to the query endpoint, in order. */
    var queries: seq<Query>

    constructor()
      ensures messages == [] && !loading && currentVideoId == None && error == None && queries == []
    {
      messages := [];
      loading := false;
      currentVideoId := None;
      error := None;
      queries := [];
    }

    /** The mount-time fetch of the lecture list: None when the request or
        its decoding failed. A non-empty list selects its last lecture and
        replaces the messages with the welcome. */
    method LoadLectures(lectures: Option<seq<string>>)
      modifies this
      ensures lectures.None? ==> error == Some(LoadFailedMessage)
                                 && messages == old(messages) && currentVideoId == old(currentVideoId)
      ensures lectures.Some? && lectures.value != [] ==>
                var latest := lectures.value[|lectures.value| - 1];
                && currentVideoId == Some(latest)
                && messages == [ChatMessage(Welcome(latest), Assistant, None)]
                && error == old(error)
      ensures lectures == Some([]) ==> messages == old(messages) && currentVideoId == old(currentVideoId)
                                       && error == old(error)
      ensures loading == old(loading) && queries == old(queries)
    {
      match lectures
      case None =>
        error := Some(LoadFailedMessage);
      case Some(names) =>
        if names != [] {
          var latest := names[|names| - 1];
          currentVideoId := Some(latest);
          messages := [ChatMessage(Welcome(latest), Assistant, None)];
        }
    }

    /** handleSend; reply is the outcome of the query request, consulted
        only when a lecture is loaded. */
    method HandleSend(message: string, reply: Option<string>)
      modifies this
      ensures messages == old(messages) + SentMessages(message, old(currentVideoId), reply)
      ensures queries == if Loaded(old(currentVideoId))
                         then old(queries) + [Query(old(currentVideoId).value, message)]
                         else old(queries)
      ensures loading == if Loaded(old(currentVideoId)) then false else old(loading)
      ensures currentVideoId == old(currentVideoId) && error == old(error)
    {
      if !Loaded(currentVideoId) {
        messages := messages + [ChatMessage(Said(message), User, None), ChatMessage(NoLecture, Assistant, None)];
        return;
      }
      messages := messages + [ChatMessage(Said(message), User, None)];
      loading := true;
      queries := queries + [Query(currentVideoId.value, message)];
      messages := messages + [ReplyMessage(reply)];
      loading := false;
    }
  }
}
