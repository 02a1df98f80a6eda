/**
 * The page's two workflow actions (callWorkflowDirectly and callWorkflowWithAppendMessage)
 * and the card rendered for the first.  Both read the event stream of the workflow's
 * streaming endpoint chunk by chunk, carrying the unterminated text over in a buffer; the
 * first collects one display line per event in a per-call entry of the page state, the
 * second appends a chat message per event of a known type.
 *
 * The page state is a value: every `setWorkflowStates(prev => ({...prev, [id]: v}))` is a
 * map update on the state the handler threads through.
 */
module WorkflowPanel {
  import opened Wrappers
  import opened Decimal
  import opened EventStream
  import opened WorkflowEvents
  import opened Actions
  import opened Collections

  /** How the reader ends: `done`, or a rejected read. */
  datatype ReadEnd = Done | ReadFailed

  /** The response body as the reader delivers it: decoded text chunks, then the end. */
  datatype Body = Body(chunks: seq<string>, end: ReadEnd)

  /** The outcome of the `fetch` call: rejected, or a response that may lack a body. */
  datatype FetchResult = NetworkError | Response(status: int, body: Option<Body>)

  /** `response.ok` and a body to read: the only way past the guards into the read loop. */
  predicate Streams(fetch: FetchResult) {
    fetch.Response? && 200 <= fetch.status <= 299 && fetch.body.Some?
  }

  /** The whole body was read to `done`. */
  predicate Completes(fetch: FetchResult) {
    Streams(fetch) && fetch.body.value.end == Done
  }

  /** The per-call entry of the workflow card state. */
  datatype WorkflowCallState = WorkflowCallState(events: seq<string>, isStreaming: bool)

  type WorkflowStates = map<string, WorkflowCallState>

  const ErrorLine := "❌ エラーが発生しました"
  const ErrorReply := "エラーが発生しました"
  const AppendReply := "Workflow実行完了"
  const Placeholder := "⏳ 実行中..."
  const ReplyPrefix := "Workflow完了: "
  const ReplySuffix := "個のイベント"

  /** The events carried by the frames that the whole body completes. */
  function StreamEvents(body: Body, parse: Parser): seq<WorkflowEvent> {
    ParsedEvents(Frames(Concat(body.chunks)), parse)
  }

  /** The value callWorkflowDirectly returns after reading count events. */
  function DirectReply(count: nat): string {
    ReplyPrefix + NatToDecimal(count) + ReplySuffix
  }

  /** The count a reply of callWorkflowDirectly reports, if it is a success reply. */
  function ReportedCount(reply: string): Option<nat> {
    if |reply| >= |ReplyPrefix| + |ReplySuffix| && ReplyPrefix <= reply
       && reply[|reply| - |ReplySuffix|..] == ReplySuffix
    then
      var digits := reply[|ReplyPrefix|..|reply| - |ReplySuffix|];
      if digits != [] && forall k :: 0 <= k < |digits| ==> IsDigit(digits[k])
      then Some(DigitsValue(digits))
      else None
    else None
  }

  /** The success reply reports the number of lines, and is told apart from the error reply. */
  lemma ReplyReportsCount(count: nat)
    ensures ReportedCount(DirectReply(count)) == Some(count)
    ensures ReportedCount(ErrorReply) == None
  {
  }

  /**
   * callWorkflowDirectly.  On success the entry holds one line per event of the completed
   * frames, in order, and streaming is off; on any failure (fetch rejected, status not OK,
   * no body, a read rejected) it holds only the error line.  Other entries are untouched.
   */
  method CallWorkflowDirectly(states: WorkflowStates, id: string, fetch: FetchResult, parse: Parser)
    returns (states': WorkflowStates, reply: string)
    ensures Completes(fetch) ==>
      var evs := StreamEvents(fetch.body.value, parse);
      && states' == states[id := WorkflowCallState(DisplayLines(evs), false)]
      && reply == DirectReply(|evs|)
    ensures !Completes(fetch) ==>
      states' == states[id := WorkflowCallState([ErrorLine], false)] && reply == ErrorReply
  {
    states' := states[id := WorkflowCallState([], true)];
    if !Streams(fetch) {
      UpdateTwice(states, id, WorkflowCallState([], true), WorkflowCallState([ErrorLine], false));
      states' := states'[id := WorkflowCallState([ErrorLine], false)];
      reply := ErrorReply;
      return;
    }
    var body := fetch.body.value;
    var buffer := "";
    var events: seq<string> := [];
    var i := 0;
    while i < |body.chunks|
      invariant 0 <= i <= |body.chunks|
      invariant buffer == Buffered(body.chunks[..i])
      invariant events == DisplayLines(ParsedEvents(FedFrames(body.chunks[..i]), parse))
      invariant states' == states[id := WorkflowCallState(events, true)]
    {
      ChunkStep(body.chunks, i, parse);
      ghost var shown := events;
      buffer, events, states' := ShowChunk(buffer, body.chunks[i], parse, id, events, states');
      UpdateTwice(states, id, WorkflowCallState(shown, true), WorkflowCallState(events, true));
      i := i + 1;
    }
    assert body.chunks[..i] == body.chunks;
    FeedingMatchesSplit(body.chunks);
    if body.end == ReadFailed {
      UpdateTwice(states, id, WorkflowCallState(events, true), WorkflowCallState([ErrorLine], false));
      states' := states'[id := WorkflowCallState([ErrorLine], false)];
      reply := ErrorReply;
      return;
    }
    UpdateTwice(states, id, WorkflowCallState(events, true), WorkflowCallState(events, false));
    states' := states'[id := WorkflowCallState(events, false)];
    reply := DirectReply(|events|);
  }

  /**
   * One chunk of callWorkflowDirectly's read loop: the chunk is appended to the buffer,
   * the frames it completes are shown, and the unterminated rest becomes the buffer.
   */
  method ShowChunk(buffer: string, chunk: string, parse: Parser, id: string, events: seq<string>, states: WorkflowStates)
    returns (buffer': string, events': seq<string>, states': WorkflowStates)
    requires id in states && states[id] == WorkflowCallState(events, true)
    ensures buffer' == Tail(buffer + chunk)
    ensures events' == events + DisplayLines(ParsedEvents(Frames(buffer + chunk), parse))
    ensures states' == states[id := WorkflowCallState(events', true)]
  {
    var lines := Split(buffer + chunk);
    buffer' := lines[|lines| - 1];
    lines := lines[..|lines| - 1];
    events', states' := ShowFrames(lines, parse, id, events, states);
  }

  /**
   * The body of callWorkflowDirectly's frame loop: a `data: ` frame that is not the
   * sentinel and parses adds its line to the collected lines and publishes them in the
   * call's entry; any other frame changes nothing.
   */
  method ShowFrame(line: string, parse: Parser, id: string, events: seq<string>, states: WorkflowStates)
    returns (events': seq<string>, states': WorkflowStates)
    requires id in states && states[id] == WorkflowCallState(events, true)
    ensures events' == events + DisplayLines(ParsedEvents([line], parse))
    ensures states' == states[id := WorkflowCallState(events', true)]
  {
    ParsedEventsSingle(line, parse);
    events', states' := events, states;
    var data := DataPayload(line);
    if data.Some? && data.value != DoneSentinel {
      var eventData := parse(data.value);
      if eventData.Some? {
        var displayText := DescribeWithFallback(eventData.value);
        if displayText != "" {
          events' := events + [displayText];
          states' := states[id := WorkflowCallState(events', true)];
        }
      }
    }
  }

  /** callWorkflowDirectly's loop over the frames one chunk completes. */
  method ShowFrames(lines: seq<string>, parse: Parser, id: string, events: seq<string>, states: WorkflowStates)
    returns (events': seq<string>, states': WorkflowStates)
    requires id in states && states[id] == WorkflowCallState(events, true)
    ensures events' == events + DisplayLines(ParsedEvents(lines, parse))
    ensures states' == states[id := WorkflowCallState(events', true)]
  {
    events', states' := events, states;
    assert states == states[id := WorkflowCallState(events, true)];
    var j := 0;
    while j < |lines|
      invariant 0 <= j <= |lines|
      invariant events' == events + DisplayLines(ParsedEvents(lines[..j], parse))
      invariant states' == states[id := WorkflowCallState(events', true)]
    {
      FrameStep(lines, j, parse);
      AppendAssoc(events, DisplayLines(ParsedEvents(lines[..j], parse)), DisplayLines(ParsedEvents([lines[j]], parse)));
      ghost var shown := events';
      events', states' := ShowFrame(lines[j], parse, id, events', states');
      UpdateTwice(states, id, WorkflowCallState(shown, true), WorkflowCallState(events', true));
      j := j + 1;
    }
    assert lines[..j] == lines;
  }

  /** callWorkflowWithAppendMessage's loop over the frames one chunk completes. */
  method AnnounceFrames(lines: seq<string>, parse: Parser, chat: seq<string>) returns (chat': seq<string>)
    ensures chat' == chat + AnnouncedLines(ParsedEvents(lines, parse))
  {
    chat' := chat;
    var j := 0;
    while j < |lines|
      invariant 0 <= j <= |lines|
      invariant chat' == chat + AnnouncedLines(ParsedEvents(lines[..j], parse))
    {
      FrameStep(lines, j, parse);
      AppendAssoc(chat, AnnouncedLines(ParsedEvents(lines[..j], parse)), AnnouncedLines(ParsedEvents([lines[j]], parse)));
      chat' := AnnounceFrame(lines[j], parse, chat');
      j := j + 1;
    }
    assert lines[..j] == lines;
  }

  /** One chunk of callWorkflowWithAppendMessage's read loop. */
  method AnnounceChunk(buffer: string, chunk: string, parse: Parser, chat: seq<string>)
    returns (buffer': string, chat': seq<string>)
    ensures buffer' == Tail(buffer + chunk)
    ensures chat' == chat + AnnouncedLines(ParsedEvents(Frames(buffer + chunk), parse))
  {
    var lines := Split(buffer + chunk);
    buffer' := lines[|lines| - 1];
    lines := lines[..|lines| - 1];
    chat' := AnnounceFrames(lines, parse, chat);
  }

  /**
   * The body of callWorkflowWithAppendMessage's frame loop: a `data: ` frame that is not
   * the sentinel, parses and has a known type appends its line to the chat.
   */
  method AnnounceFrame(line: string, parse: Parser, chat: seq<string>) returns (chat': seq<string>)
    ensures chat' == chat + AnnouncedLines(ParsedEvents([line], parse))
  {
    ParsedEventsSingle(line, parse);
    chat' := chat;
    var data := DataPayload(line);
    if data.Some? && data.value != DoneSentinel {
      var eventData := parse(data.value);
      if eventData.Some? {
        assert [eventData.value][..0] == [];
        var displayText := Describe(eventData.value).GetOr("");
        if displayText != "" {
          chat' := chat + [displayText];
        }
      }
    }
  }

  /**
   * callWorkflowWithAppendMessage.  Appends one chat message per event of a known type
   * of the completed frames, in order; messages appended before a rejected read stay.
   * Any failure makes the reply the error text.
   */
  method CallWorkflowWithAppendMessage(chat: seq<string>, fetch: FetchResult, parse: Parser)
    returns (chat': seq<string>, reply: string)
    ensures !Streams(fetch) ==> chat' == chat && reply == ErrorReply
    ensures Streams(fetch) ==> chat' == chat + AnnouncedLines(StreamEvents(fetch.body.value, parse))
    ensures Streams(fetch) ==> reply == (if Completes(fetch) then AppendReply else ErrorReply)
  {
    chat' := chat;
    if !Streams(fetch) {
      reply := ErrorReply;
      return;
    }
    var body := fetch.body.value;
    var buffer := "";
    var i := 0;
    while i < |body.chunks|
      invariant 0 <= i <= |body.chunks|
      invariant buffer == Buffered(body.chunks[..i])
      invariant chat' == chat + AnnouncedLines(ParsedEvents(FedFrames(body.chunks[..i]), parse))
    {
      ChunkStep(body.chunks, i, parse);
      AppendAssoc(chat, AnnouncedLines(ParsedEvents(FedFrames(body.chunks[..i]), parse)),
                  AnnouncedLines(ParsedEvents(Frames(buffer + body.chunks[i]), parse)));
      buffer, chat' := AnnounceChunk(buffer, body.chunks[i], parse, chat');
      i := i + 1;
    }
    assert body.chunks[..i] == body.chunks;
    FeedingMatchesSplit(body.chunks);
    reply := if body.end == ReadFailed then ErrorReply else AppendReply;
  }

  /**
   * Reading chunk i: the new buffer, and the lines and messages of the frames the chunk
   * completes, which come after those of the frames completed before.
   */
  lemma ChunkStep(chunks: seq<string>, i: nat, parse: Parser)
    requires i < |chunks|
    ensures Buffered(chunks[..i + 1]) == Tail(Buffered(chunks[..i]) + chunks[i])
    ensures var added := ParsedEvents(Frames(Buffered(chunks[..i]) + chunks[i]), parse);
      && DisplayLines(ParsedEvents(FedFrames(chunks[..i + 1]), parse))
         == DisplayLines(ParsedEvents(FedFrames(chunks[..i]), parse)) + DisplayLines(added)
      && AnnouncedLines(ParsedEvents(FedFrames(chunks[..i + 1]), parse))
         == AnnouncedLines(ParsedEvents(FedFrames(chunks[..i]), parse)) + AnnouncedLines(added)
  {
    var init := chunks[..i];
    var frames := Frames(Buffered(init) + chunks[i]);
    assert chunks[..i + 1][..i] == init;
    ParsedEventsAppend(FedFrames(init), frames, parse);
    DisplayLinesAppend(ParsedEvents(FedFrames(init), parse), ParsedEvents(frames, parse));
    AnnouncedLinesAppend(ParsedEvents(FedFrames(init), parse), ParsedEvents(frames, parse));
  }

  /** Handling frame j of a chunk's frames adds that frame's line or message. */
  lemma FrameStep(lines: seq<string>, j: nat, parse: Parser)
    requires j < |lines|
    ensures DisplayLines(ParsedEvents(lines[..j + 1], parse))
         == DisplayLines(ParsedEvents(lines[..j], parse)) + DisplayLines(ParsedEvents([lines[j]], parse))
    ensures AnnouncedLines(ParsedEvents(lines[..j + 1], parse))
         == AnnouncedLines(ParsedEvents(lines[..j], parse)) + AnnouncedLines(ParsedEvents([lines[j]], parse))
  {
    assert lines[..j + 1] == lines[..j] + [lines[j]];
    ParsedEventsAppend(lines[..j], [lines[j]], parse);
    DisplayLinesAppend(ParsedEvents(lines[..j], parse), ParsedEvents([lines[j]], parse));
    AnnouncedLinesAppend(ParsedEvents(lines[..j], parse), ParsedEvents([lines[j]], parse));
  }

  /** The text of the workflow card, and whether the streaming cursor follows it. */
  datatype WorkflowCard = WorkflowCard(lines: seq<string>, cursor: bool)

  /**
   * The card callWorkflowDirectly renders, None when it renders nothing.  A call without
   * an entry reads as no events and not streaming.
   */
  function RenderWorkflowCard(states: WorkflowStates, id: string, status: ActionStatus): (card: Option<WorkflowCard>)
    ensures card.Some? <==>
      ShownByStatus(status) || (id in states && (states[id].isStreaming || states[id].events != []))
    ensures card.Some? && id in states && states[id].events != [] ==> card.value.lines == states[id].events
    ensures card.Some? && (id !in states || states[id].events == []) ==> card.value.lines == [Placeholder]
    ensures card.Some? ==> (card.value.cursor <==> id in states && states[id].isStreaming)
  {
    var entry := if id in states then states[id] else WorkflowCallState([], false);
    if ShownByStatus(status) || entry.isStreaming || |entry.events| > 0 then
      Some(WorkflowCard((if |entry.events| == 0 then [Placeholder] else []) + entry.events, entry.isStreaming))
    else None
  }

  /** While the handler runs, the card is shown, with the cursor, even before the first event. */
  lemma StreamingCardShown(states: WorkflowStates, id: string, events: seq<string>, status: ActionStatus)
    ensures RenderWorkflowCard(states[id := WorkflowCallState(events, true)], id, status)
         == Some(WorkflowCard(if events == [] then [Placeholder] else events, true))
  {
  }

  /** After a failure the card shows the error line alone, without the cursor. */
  lemma FailedCardShowsError(states: WorkflowStates, id: string, status: ActionStatus)
    ensures RenderWorkflowCard(states[id := WorkflowCallState([ErrorLine], false)], id, status)
         == Some(WorkflowCard([ErrorLine], false))
  {
  }

  /**
   * The tail after the last delimiter is never interpreted: a body whose text is complete
   * frames followed by an unterminated rest yields exactly the events of those frames.
   */
  lemma UnterminatedTailDiscarded(body: Body, frames: seq<string>, rest: string, parse: Parser)
    requires forall k :: 0 <= k < |frames| ==> IsFrame(frames[k])
    requires NoDelimiter(rest)
    requires Concat(body.chunks) == Terminated(frames) + rest
    ensures StreamEvents(body, parse) == ParsedEvents(frames, parse)
  {
    SplitTerminated(frames, rest);
  }

  /**
   * The lines depend on the body text alone, not on where the chunk boundaries fall: a
   * frame split across chunks is interpreted once.
   */
  lemma ChunkingIrrelevant(b1: Body, b2: Body, parse: Parser)
    requires Concat(b1.chunks) == Concat(b2.chunks)
    ensures ParsedEvents(FedFrames(b1.chunks), parse) == ParsedEvents(FedFrames(b2.chunks), parse)
    ensures Buffered(b1.chunks) == Buffered(b2.chunks)
  {
    FeedingMatchesSplit(b1.chunks);
    FeedingMatchesSplit(b2.chunks);
  }
}
