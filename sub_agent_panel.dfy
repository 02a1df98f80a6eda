/**
 * The page's callSubAgentDirectly action: it streams the sub-agent's answer, adds the
 * text of every `text-delta` chunk to the answer so far, and keeps each call's text and
 * streaming flag in an entry of the page state keyed by the call's id.  The render
 * function picks what the call's card shows from that entry, the action status and the
 * handler's result.
 */
module SubAgentPanel {
  import opened Wrappers
  import opened Actions
  import opened Collections
  import EventStream

  /** One chunk of the agent's data stream: its `type` and its `payload.text`. */
  datatype AgentChunk = AgentChunk(kind: string, text: Option<string>)

  /** `stream.processDataStream` returns, or the stream (or its creation) throws. */
  datatype RunEnd = Finished | Thrown

  /** What the agent's stream delivers to the handler: the chunks, then how it ends. */
  datatype AgentRun = AgentRun(chunks: seq<AgentChunk>, end: RunEnd)

  /** The per-call entry of the sub-agent card state. */
  datatype StreamState = StreamState(text: string, isStreaming: bool)

  type StreamStates = map<string, StreamState>

  const TextDelta := "text-delta"
  const SubAgentErrorReply := "エラーが発生しました"
  const Thinking := "⏳ 考えています..."

  /** The text a chunk adds to the answer: its payload text if it is a text delta. */
  function DeltaText(chunk: AgentChunk): string {
    if chunk.kind == TextDelta then Shown(chunk.text) else ""
  }

  /** The answer streamed by the chunks: their delta texts, in order. */
  function StreamedText(chunks: seq<AgentChunk>): string {
    if chunks == [] then ""
    else StreamedText(chunks[..|chunks| - 1]) + DeltaText(chunks[|chunks| - 1])
  }

  /** The answer of a concatenated stream is the two answers concatenated. */
  lemma {:induction false} StreamedTextAppend(a: seq<AgentChunk>, b: seq<AgentChunk>)
    ensures StreamedText(a + b) == StreamedText(a) + StreamedText(b)
    decreases |b|
  {
    if b == [] {
      assert a + b == a;
    } else {
      var b' := b[..|b| - 1];
      assert (a + b)[..|a + b| - 1] == a + b';
      StreamedTextAppend(a, b');
      AppendAssoc(StreamedText(a), StreamedText(b'), DeltaText(b[|b| - 1]));
    }
  }

  /** The text shown while streaming only grows: an earlier text is a prefix of a later one. */
  lemma StreamedTextGrows(chunks: seq<AgentChunk>, i: nat, j: nat)
    requires i <= j <= |chunks|
    ensures StreamedText(chunks[..i]) <= StreamedText(chunks[..j])
  {
    assert chunks[..j] == chunks[..i] + chunks[i..j];
    StreamedTextAppend(chunks[..i], chunks[i..j]);
  }

  /** A chunk of any other type adds nothing, wherever it comes. */
  lemma OtherChunksIgnored(before: seq<AgentChunk>, chunk: AgentChunk, after: seq<AgentChunk>)
    requires chunk.kind != TextDelta
    ensures StreamedText(before + [chunk] + after) == StreamedText(before + after)
  {
    StreamedTextAppend(before + [chunk], after);
    StreamedTextAppend(before, after);
    assert (before + [chunk])[..|before|] == before;
  }

  /** Every delta contributes its text: the answer holds one delta's text per delta, in order. */
  lemma {:induction false} DeltasOnly(texts: seq<string>)
    ensures StreamedText(Deltas(texts)) == EventStream.Concat(texts)
    decreases |texts|
  {
    if texts != [] {
      var init := texts[..|texts| - 1];
      DeltasOnly(init);
      assert Deltas(texts)[..|Deltas(texts)| - 1] == Deltas(init);
    }
  }

  /** The text-delta chunks carrying the given texts. */
  function Deltas(texts: seq<string>): (chunks: seq<AgentChunk>)
    ensures |chunks| == |texts|
  {
    if texts == [] then []
    else Deltas(texts[..|texts| - 1]) + [AgentChunk(TextDelta, Some(texts[|texts| - 1]))]
  }

  /**
   * callSubAgentDirectly.  The entry is set to streaming with no text, grows by each
   * delta, and ends holding the whole answer with streaming off, the answer being the
   * result; if the stream throws, the entry is reset to no text, not streaming, and the
   * result is the error text.  No other entry changes.
   */
  method CallSubAgentDirectly(states: StreamStates, id: string, run: AgentRun)
    returns (states': StreamStates, reply: string)
    ensures run.end == Finished ==>
      states' == states[id := StreamState(StreamedText(run.chunks), false)]
      && reply == StreamedText(run.chunks)
    ensures run.end == Thrown ==>
      states' == states[id := StreamState("", false)] && reply == SubAgentErrorReply
  {
    states' := states[id := StreamState("", true)];
    var fullText := "";
    var i := 0;
    while i < |run.chunks|
      invariant 0 <= i <= |run.chunks|
      invariant fullText == StreamedText(run.chunks[..i])
      invariant states' == states[id := StreamState(fullText, true)]
    {
      var chunk := run.chunks[i];
      assert run.chunks[..i + 1][..i] == run.chunks[..i];
      if chunk.kind == TextDelta {
        fullText := fullText + Shown(chunk.text);
        UpdateTwice(states, id, StreamState(StreamedText(run.chunks[..i]), true), StreamState(fullText, true));
        states' := states'[id := StreamState(fullText, true)];
      }
      i := i + 1;
    }
    assert run.chunks[..i] == run.chunks;
    if run.end == Thrown {
      UpdateTwice(states, id, StreamState(fullText, true), StreamState("", false));
      states' := states'[id := StreamState("", false)];
      reply := SubAgentErrorReply;
      return;
    }
    UpdateTwice(states, id, StreamState(fullText, true), StreamState(fullText, false));
    states' := states'[id := StreamState(fullText, false)];
    reply := fullText;
  }

  /** The text of the sub-agent card, and whether the streaming cursor follows it. */
  datatype AgentCard = AgentCard(text: string, cursor: bool)

  /**
   * The card callSubAgentDirectly renders, None when it renders nothing.  A call without
   * an entry reads as no text and not streaming; `result` is the handler's result, None
   * while there is none.
   */
  function RenderSubAgentCard(states: StreamStates, id: string, status: ActionStatus, result: Option<string>)
    : (card: Option<AgentCard>)
    ensures card.Some? <==>
      ShownByStatus(status) || (id in states && (states[id].isStreaming || states[id].text != ""))
    ensures card.Some? && status == Complete && Truthy(result) ==> card.value.text == result.value
    ensures card.Some? && !(status == Complete && Truthy(result)) ==>
      card.value.text == (if id in states && states[id].text != "" then states[id].text else Thinking)
    ensures card.Some? ==> (card.value.cursor <==> id in states && states[id].isStreaming)
  {
    var entry := if id in states then states[id] else StreamState("", false);
    if ShownByStatus(status) || entry.isStreaming || entry.text != "" then
      var displayText :=
        if status == Complete && Truthy(result) then result.value
        else if entry.text != "" then entry.text
        else Thinking;
      Some(AgentCard(displayText, entry.isStreaming))
    else None
  }

  /** Once the call completes with a non-empty answer, the card shows that answer alone. */
  lemma CompletedCardShowsAnswer(states: StreamStates, id: string, answer: string)
    requires answer != ""
    ensures RenderSubAgentCard(states[id := StreamState(answer, false)], id, Complete, Some(answer))
         == Some(AgentCard(answer, false))
  {
  }

  /**
   * An empty answer is falsy, so a completed call whose stream had no text keeps showing
   * the thinking placeholder.
   */
  lemma EmptyAnswerShowsThinking(states: StreamStates, id: string)
    ensures RenderSubAgentCard(states[id := StreamState("", false)], id, Complete, Some(""))
         == Some(AgentCard(Thinking, false))
  {
  }

  /** After a failure the completed card shows the error result, without the cursor. */
  lemma FailedCardShowsError(states: StreamStates, id: string)
    ensures RenderSubAgentCard(states[id := StreamState("", false)], id, Complete, Some(SubAgentErrorReply))
         == Some(AgentCard(SubAgentErrorReply, false))
  {
  }

  /** Before the handler runs, a call with no entry renders nothing. */
  lemma NoCardBeforeExecution(states: StreamStates, id: string)
    requires id !in states
    ensures RenderSubAgentCard(states, id, InProgress, None) == None
  {
  }
}
