/** The chat page: the small Markdown renderer for assistant answers and the session state
    that sending a message and receiving the answer change. */
module ChatPage {
  import opened Wrappers
  import opened Seqs
  import opened ChatController

  // ---------------------------------------------------------------------------------------
  // renderMarkdown
  // ---------------------------------------------------------------------------------------

  /** The characters `.` does not match in a regular expression without the `s` flag. */
  predicate IsLineTerminator(c: char)
  {
    c == '\n' || c == '\r' || c as int == 0x2028 || c as int == 0x2029
  }

  predicate EndsWith(s: string, suffix: string)
  {
    |suffix| <= |s| && s[|s| - |suffix|..] == suffix
  }

  predicate MarkerAt(s: string, q: nat)
  {
    q + 2 <= |s| && s[q] == '*' && s[q + 1] == '*'
  }

  /** The lazy `.*?\*\*` tried from `q`: the position of the first `**` at or after `q` that no
      line terminator precedes, if there is one. */
  function CloseFrom(s: string, q: nat): (r: Option<nat>)
    decreases |s| - q
    ensures r.Some? ==> q <= r.value && MarkerAt(s, r.value)
    ensures r.Some? ==> forall i :: q <= i < r.value ==> !IsLineTerminator(s[i]) && !MarkerAt(s, i)
  {
    if q + 2 > |s| then None
    else if MarkerAt(s, q) then Some(q)
    else if IsLineTerminator(s[q]) then None
    else CloseFrom(s, q + 1)
  }

  /** A piece that `(\*\*.*?\*\*)` matches as a whole: two markers, then text without a line
      terminator and without a marker, then the first marker after them. */
  predicate IsBoldMatch(piece: string)
  {
    && |piece| >= 4 && StartsWith(piece, "**") && EndsWith(piece, "**")
    && (forall i :: 2 <= i < |piece| - 2 ==> !IsLineTerminator(piece[i]) && !MarkerAt(piece, i))
  }

  /** The end of the match of `(\*\*.*?\*\*)` that starts at `p`, if one does. */
  function MatchAt(s: string, p: nat): (r: Option<nat>)
    ensures r.Some? ==> p + 4 <= r.value <= |s| && IsBoldMatch(s[p..r.value])
  {
    if !MarkerAt(s, p) then None
    else match CloseFrom(s, p + 2)
      case None => None
      case Some(q) =>
        var piece := s[p..q + 2];
        assert forall i :: 2 <= i < |piece| - 2 ==> piece[i] == s[p + i] && (MarkerAt(piece, i) <==> MarkerAt(s, p + i));
        assert piece[..2] == s[p..p + 2] && piece[|piece| - 2..] == s[q..q + 2];
        Some(q + 2)
  }

  /** The leftmost position at or after `p` where a match starts. */
  function FirstMatchFrom(s: string, p: nat): (r: Option<nat>)
    decreases |s| - p
    ensures r.Some? ==> p <= r.value < |s| && MatchAt(s, r.value).Some?
    ensures r.Some? ==> forall j :: p <= j < r.value ==> MatchAt(s, j).None?
    ensures r.None? ==> forall j :: p <= j < |s| ==> MatchAt(s, j).None?
  {
    if p >= |s| then None
    else if MatchAt(s, p).Some? then Some(p)
    else FirstMatchFrom(s, p + 1)
  }

  /** `content.split(/(\*\*.*?\*\*)/g)`: the text between matches, with each match (the capture
      group) kept between them, so the pieces alternate plain, match, plain, ..., plain. */
  function BoldSplit(s: string): (r: seq<string>)
    decreases |s|
    ensures |r| % 2 == 1
    ensures forall k :: 0 <= k < |r| && k % 2 == 1 ==> IsBoldMatch(r[k])
  {
    match FirstMatchFrom(s, 0)
    case None => [s]
    case Some(p) =>
      var e := MatchAt(s, p).value;
      var rest := BoldSplit(s[e..]);
      assert forall k :: 2 <= k < 2 + |rest| ==> ([s[..p], s[p..e]] + rest)[k] == rest[k - 2];
      [s[..p], s[p..e]] + rest
  }

  function Concat(pieces: seq<string>): string
  {
    if pieces == [] then [] else pieces[0] + Concat(pieces[1..])
  }

  lemma {:induction false} ConcatAppend(a: seq<string>, b: seq<string>)
    ensures Concat(a + b) == Concat(a) + Concat(b)
  {
    if a != [] {
      assert (a + b)[1..] == a[1..] + b;
      ConcatAppend(a[1..], b);
    } else {
      assert a + b == b;
    }
  }

  /** Splitting loses nothing: the pieces put back together are the line. */
  lemma {:induction false} BoldSplitLossless(s: string)
    decreases |s|
    ensures Concat(BoldSplit(s)) == s
  {
    match FirstMatchFrom(s, 0)
    case None =>
    case Some(p) =>
      var e := MatchAt(s, p).value;
      BoldSplitLossless(s[e..]);
      ConcatAppend([s[..p], s[p..e]], BoldSplit(s[e..]));
      assert Concat([s[..p], s[p..e]]) == s[..p] + s[p..e];
      assert s[..p] + s[p..e] + s[e..] == s;
  }

  datatype Segment = PlainText(text: string) | Strong(text: string)

  /** `part.slice(2, -2)`: empty when the part is shorter than four characters. */
  function Inner(part: string): string
  {
    if |part| >= 4 then part[2..|part| - 2] else ""
  }

  /** One rendered part: a part that starts and ends with `**` is shown bold without the two
      markers at each end; any other part is shown as it is. */
  function RenderPart(part: string): (r: Segment)
    ensures r.Strong? <==> StartsWith(part, "**") && EndsWith(part, "**")
    ensures r.PlainText? ==> r.text == part
    ensures r.Strong? && |part| >= 4 ==> part == "**" + r.text + "**"
    ensures r.Strong? && |part| < 4 ==> r.text == ""
  {
    if StartsWith(part, "**") && EndsWith(part, "**") then
      assert |part| >= 4 ==> part == part[..2] + part[2..|part| - 2] + part[|part| - 2..];
      Strong(Inner(part))
    else PlainText(part)
  }

  function RenderParts(parts: seq<string>): (r: seq<Segment>)
    ensures |r| == |parts|
    ensures forall k :: 0 <= k < |parts| ==> r[k] == RenderPart(parts[k])
  {
    if parts == [] then [] else [RenderPart(parts[0])] + RenderParts(parts[1..])
  }

  /** The Markdown a segment is written with. */
  function Markup(segment: Segment): string
  {
    match segment
    case PlainText(text) => text
    case Strong(text) => "**" + text + "**"
  }

  function MarkupAll(segments: seq<Segment>): string
  {
    if segments == [] then [] else Markup(segments[0]) + MarkupAll(segments[1..])
  }

  /** Every match is shown bold, with exactly the text between its markers. */
  lemma BoldMatchesShownBold(content: string, k: nat)
    requires k < |BoldSplit(content)| && k % 2 == 1
    ensures RenderParts(BoldSplit(content))[k] == Strong(Inner(BoldSplit(content)[k]))
    ensures Markup(RenderParts(BoldSplit(content))[k]) == BoldSplit(content)[k]
  {
  }

  /** Rendering keeps the text: writing the rendered parts back as Markdown gives the line's
      content, unless a part is a lone `**` or `***`, whose stars vanish. */
  lemma {:induction false} RenderPartsKeepText(parts: seq<string>)
    requires forall k :: 0 <= k < |parts| ==> parts[k] != "**" && parts[k] != "***"
    ensures MarkupAll(RenderParts(parts)) == Concat(parts)
  {
    if parts != [] {
      RenderPartsKeepText(parts[1..]);
      assert RenderParts(parts)[1..] == RenderParts(parts[1..]);
      var p := parts[0];
      if StartsWith(p, "**") && EndsWith(p, "**") {
        assert |p| >= 4;
      }
    }
  }

  /** A line holding only `**` is shown as an empty bold element. */
  lemma LoneMarkersVanish()
    ensures BoldSplit("**") == ["**"]
    ensures RenderParts(BoldSplit("**")) == [Strong("")]
  {
    assert FirstMatchFrom("**", 0).None? by {
      assert MatchAt("**", 0).None? && MatchAt("**", 1).None?;
    }
  }

  /** One element of the rendered answer. */
  datatype Block =
    | Heading(level: nat, text: string)
    | BulletItem(parts: seq<Segment>)
    | TextSpan(parts: seq<Segment>, newline: bool)

  const BulletMark: string := "\U{2022} "

  predicate IsHeadingLine(line: string)
  {
    StartsWith(line, "### ") || StartsWith(line, "## ") || StartsWith(line, "# ")
  }

  predicate IsBulletLine(line: string)
  {
    StartsWith(line, "- ") || StartsWith(line, BulletMark)
  }

  /** The three heading prefixes exclude one another, so the order they are tried in does
      not matter. */
  lemma HeadingPrefixesExclusive(line: string)
    ensures !(StartsWith(line, "### ") && StartsWith(line, "## "))
    ensures !(StartsWith(line, "### ") && StartsWith(line, "# "))
    ensures !(StartsWith(line, "## ") && StartsWith(line, "# "))
  {
    if StartsWith(line, "### ") { assert line[2] == '#'; assert line[1] == '#'; }
    if StartsWith(line, "## ") { assert line[1] == '#'; }
  }

  /** One line of the answer: a heading of level 3, 2 or 1 shows the line after its prefix; a
      bullet shows its content after the two-character mark; any other line is a span ended
      by a newline unless it is the last line. Bold markup is applied to bullets and spans
      only. */
  function RenderLine(line: string, notLast: bool): (r: Block)
    ensures r.Heading? <==> IsHeadingLine(line)
    ensures r.Heading? ==> 1 <= r.level <= 3 && r.level + 1 <= |line| && r.text == line[r.level + 1..]
    ensures r.Heading? ==> (r.level == 3 <==> StartsWith(line, "### "))
    ensures r.Heading? ==> (r.level == 2 <==> StartsWith(line, "## "))
    ensures r.Heading? ==> (r.level == 1 <==> StartsWith(line, "# "))
    ensures r.BulletItem? <==> !IsHeadingLine(line) && IsBulletLine(line)
    ensures r.BulletItem? ==> r.parts == RenderParts(BoldSplit(line[2..]))
    ensures r.TextSpan? ==> r.parts == RenderParts(BoldSplit(line)) && r.newline == notLast
  {
    HeadingPrefixesExclusive(line);
    if StartsWith(line, "### ") then Heading(3, line[4..])
    else if StartsWith(line, "## ") then Heading(2, line[3..])
    else if StartsWith(line, "# ") then Heading(1, line[2..])
    else
      var isBullet := IsBulletLine(line);
      var content := if isBullet then line[2..] else line;
      var parts := RenderParts(BoldSplit(content));
      if isBullet then BulletItem(parts) else TextSpan(parts, notLast)
  }

  /** `renderMarkdown(text)`: one block per line of `text.split('\n')`, in order; only the last
      line goes without a newline. */
  function RenderMarkdown(text: string): (r: seq<Block>)
    ensures |r| == |Split(text, '\n')|
    ensures forall i :: 0 <= i < |r| ==> r[i] == RenderLine(Split(text, '\n')[i], i < |r| - 1)
    ensures forall i :: 0 <= i < |r| && r[i].TextSpan? ==> (r[i].newline <==> i < |r| - 1)
  {
    var lines := Split(text, '\n');
    seq(|lines|, i requires 0 <= i < |lines| => RenderLine(lines[i], i < |lines| - 1))
  }

  /** A plain line with no lone `**` or `***` piece is rendered without losing a character. */
  lemma PlainLineKeepsText(line: string)
    requires !IsHeadingLine(line) && !IsBulletLine(line)
    requires forall k :: 0 <= k < |BoldSplit(line)| ==> BoldSplit(line)[k] != "**" && BoldSplit(line)[k] != "***"
    ensures MarkupAll(RenderLine(line, false).parts) == line
  {
    RenderPartsKeepText(BoldSplit(line));
    BoldSplitLossless(line);
  }

  /** The lines rendered are exactly the lines of the answer: joined back with newlines they
      give the answer's text. */
  lemma RenderedLinesAreTheText(text: string)
    ensures Join(Split(text, '\n'), '\n') == text
    ensures |RenderMarkdown(text)| == |Split(text, '\n')|
  {
    SplitJoin(text, '\n');
  }

  // ---------------------------------------------------------------------------------------
  // sendMessage
  // ---------------------------------------------------------------------------------------

  datatype MessageKind = TextMessage | ChartMessage

  /** A message of the conversation; the id and the timestamp are left out. */
  datatype Message = Message(role: string, content: string, kind: MessageKind, html: Option<string>, sqlQuery: Option<string>)

  /** What the `/chat` call produced: the server's reply (`Ok` for a 2xx status, `Fail` with
      the body's `error` otherwise) or a failure of the request itself with its message. */
  datatype Delivery = Delivered(reply: Reply<ChatResponse>) | RequestFailed(message: string)

  /** The body of the `/chat` request. */
  datatype ChatRequest = ChatRequest(message: string, conversationHistory: seq<ChatMessage>)

  const ApologyText: string := "I apologize, but I could not process your request."
  const ErrorPrefix: string := "Sorry, I encountered an error: "
  const ErrorSuffix: string := ". Please make sure the OPENAI_API_KEY is configured in the backend."
  const DefaultErrorText: string := "Failed to get response"

  /** What `trim` leaves: a piece of the input with no whitespace at either end, and nothing
      when the input is all whitespace. */
  lemma TrimmedText(input: string)
    ensures Trim(input) != "" ==>
      !IsJsWhitespace(Trim(input)[0]) && !IsJsWhitespace(Trim(input)[|Trim(input)| - 1]) && Contains(input, Trim(input))
    ensures (forall i :: 0 <= i < |input| ==> IsJsWhitespace(input[i])) ==> Trim(input) == ""
  {
    var start := TrimStart(input);
    var r := TrimEnd(start);
    assert r == Trim(input);
    if r != "" {
      assert r[0] == start[0];
      assert r == input[|input| - |start|..][..|r|];
      assert OccursAt(input, r, |input| - |start|);
    }
    if start != "" {
      assert start[0] == input[|input| - |start|];
    }
  }

  /** `messageText || input.trim()`: a suggestion is sent as it is; typed input is sent without
      the whitespace at its ends. */
  function TextToSend(messageText: string, input: string): (r: string)
    ensures messageText != "" ==> r == messageText
    ensures messageText == "" && r != "" ==>
      !IsJsWhitespace(r[0]) && !IsJsWhitespace(r[|r| - 1]) && Contains(input, r)
    ensures messageText == "" && (forall i :: 0 <= i < |input| ==> IsJsWhitespace(input[i])) ==> r == ""
  {
    if messageText != "" then messageText
    else
      TrimmedText(input);
      Trim(input)
  }

  /** `messages.slice(-10)` with each message reduced to its role and content. */
  function HistoryOf(messages: seq<Message>): (r: seq<ChatMessage>)
    ensures |r| == if |messages| <= 10 then |messages| else 10
    ensures forall i :: 0 <= i < |r| ==>
      var m := messages[|messages| - |r| + i]; r[i] == ChatMessage(m.role, m.content)
  {
    var recent := Last(messages, 10);
    seq(|recent|, i requires 0 <= i < |recent| => ChatMessage(recent[i].role, recent[i].content))
  }

  /** The message added for the answer, or for the failure. A text answer shows its content,
      or the apology when the content is empty; a chart answer, which has no content, carries
      the apology as its text and the chart's HTML; a failure shows the error, the server's or
      the request's. */
  function AssistantMessage(d: Delivery): (r: Message)
    ensures r.role == "assistant" && r.content != ""
    ensures d.RequestFailed? ==> r == Message("assistant", ErrorPrefix + d.message + ErrorSuffix, TextMessage, None, None)
    ensures d.Delivered? && d.reply.Fail? ==>
      r.content == ErrorPrefix + (if d.reply.message != "" then d.reply.message else DefaultErrorText) + ErrorSuffix
    ensures d.Delivered? && d.reply.Ok? && d.reply.value.TextResponse? ==>
      r == Message("assistant", if d.reply.value.content != "" then d.reply.value.content else ApologyText, TextMessage, None, None)
    ensures d.Delivered? && d.reply.Ok? && d.reply.value.QueryAnswer? ==>
      r == Message("assistant", if d.reply.value.content != "" then d.reply.value.content else ApologyText, TextMessage,
                   None, Some(d.reply.value.sqlQuery))
    ensures d.Delivered? && d.reply.Ok? && d.reply.value.ChartResponse? ==>
      r == Message("assistant", ApologyText, ChartMessage, Some(d.reply.value.html), Some(d.reply.value.sqlQuery))
  {
    var failure := (message: string) => Message("assistant", ErrorPrefix + message + ErrorSuffix, TextMessage, None, None);
    match d
    case RequestFailed(message) => failure(message)
    case Delivered(Fail(_, error)) => failure(if error != "" then error else DefaultErrorText)
    case Delivered(Ok(response)) =>
      match response
      case TextResponse(_, content) =>
        Message("assistant", if content != "" then content else ApologyText, TextMessage, None, None)
      case QueryAnswer(content, sqlQuery, _) =>
        Message("assistant", if content != "" then content else ApologyText, TextMessage, None, Some(sqlQuery))
      case ChartResponse(html, _, sqlQuery, _) =>
        Message("assistant", ApologyText, ChartMessage, Some(html), Some(sqlQuery))
  }

  /** The back end's classifier sees the last five messages of the page's conversation (of
      the ten the page sends) and then the message being sent. */
  lemma {:induction false} ClassifierSeesLastFive(messages: seq<Message>, text: string)
    ensures ClassifierMessages(HistoryOf(messages), text) == HistoryOf(Last(messages, 5)) + [ChatMessage("user", text)]
  {
    var h := HistoryOf(messages);
    var l := Last(messages, 5);
    assert Last(h, 5) == HistoryOf(l) by {
      assert |Last(h, 5)| == |HistoryOf(l)|;
      forall i | 0 <= i < |HistoryOf(l)|
        ensures Last(h, 5)[i] == HistoryOf(l)[i]
      {
        assert Last(h, 5)[i] == h[|h| - |Last(h, 5)| + i];
        assert HistoryOf(l)[i] == ChatMessage(l[|l| - |HistoryOf(l)| + i].role, l[|l| - |HistoryOf(l)| + i].content);
        assert l[|l| - |HistoryOf(l)| + i] == messages[|messages| - |l| + (|l| - |HistoryOf(l)| + i)];
      }
    }
  }

  /** The state of the chat page. */
  class ChatSession {
    var messages: seq<Message>
    var input: string
    var isLoading: bool

    constructor ()
      ensures messages == [] && input == "" && !isLoading
    {
      messages := [];
      input := "";
      isLoading := false;
    }

    /** The part of `sendMessage` before the request: nothing happens while an answer is
      awaited or when there is nothing to send; otherwise the user's message is appended, the
      input cleared, the page marked as loading, and the request carries the text and the last
      ten messages from before this one. */
    method Send(messageText: string) returns (request: Option<ChatRequest>)
      modifies this
      ensures var text := TextToSend(messageText, old(input));
        && (request.None? <==> text == "" || old(isLoading))
        && (request.None? ==> messages == old(messages) && input == old(input) && isLoading == old(isLoading))
        && (request.Some? ==>
              && request.value == ChatRequest(text, HistoryOf(old(messages)))
              && messages == old(messages) + [Message("user", text, TextMessage, None, None)]
              && input == ""
              && isLoading)
    {
      var text := TextToSend(messageText, input);
      if text == "" || isLoading {
        return None;
      }
      request := Some(ChatRequest(text, HistoryOf(messages)));
      messages := messages + [Message("user", text, TextMessage, None, None)];
      input := "";
      isLoading := true;
    }

    /** The part of `sendMessage` after the request: the answer, or the error, is appended and
      the page stops loading; whatever was typed meanwhile stays in the input. */
    method Receive(d: Delivery)
      modifies this
      ensures messages == old(messages) + [AssistantMessage(d)]
      ensures input == old(input) && !isLoading
    {
      messages := messages + [AssistantMessage(d)];
      isLoading := false;
    }

    /** `sendMessage` as a whole, the answer being `d`: nothing happens while an answer is
      awaited or when there is nothing to send; otherwise exactly the user's message and then
      the reply are added, and the page is ready for the next message. */
    method SendMessage(messageText: string, d: Delivery) returns (request: Option<ChatRequest>)
      modifies this
      ensures request.None? <==> TextToSend(messageText, old(input)) == "" || old(isLoading)
      ensures request.None? ==> messages == old(messages) && input == old(input) && isLoading == old(isLoading)
      ensures request.Some? ==>
        && request.value.message == TextToSend(messageText, old(input))
        && messages == old(messages) + [Message("user", request.value.message, TextMessage, None, None), AssistantMessage(d)]
        && input == "" && !isLoading
    {
      request := Send(messageText);
      if request.Some? {
        Receive(d);
      }
    }
  }
}
