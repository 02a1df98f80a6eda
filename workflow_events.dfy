/**
 * How the page turns one stream frame into a display line: the frame's JSON payload is
 * parsed into the few properties the page reads, the event is put into a category by the
 * chain of `type` tests, and each category has its own line.  Both workflow handlers of
 * the page use this mapping; only one of them falls back to a line for unknown types.
 */
module WorkflowEvents {
  import opened Wrappers
  import opened EventStream

  /**
   * The properties read from a parsed event: `type`, `payload.stepName`,
   * `payload.output.type` and `payload.output.message`.  None stands for undefined
   * (the property, or an object on the way to it, is missing).
   */
  datatype WorkflowEvent = WorkflowEvent(
    kind: Option<string>,
    stepName: Option<string>,
    outputType: Option<string>,
    outputMessage: Option<string>)

  /** `JSON.parse` followed by the reads above; None when it throws. */
  type Parser = string -> Option<WorkflowEvent>

  const WorkflowStart := "workflow-start"
  const WorkflowStepStart := "workflow-step-start"
  const WorkflowStepOutput := "workflow-step-output"
  const WorkflowStepResult := "workflow-step-result"
  const WorkflowFinish := "workflow-finish"
  const StepProgressType := "step-progress"
  const DefaultStepName := "step"

  /** `stepName || "step"`: the step name when it is truthy, "step" otherwise. */
  function StepLabel(name: Option<string>): (shown: string)
    ensures shown != ""
    ensures Truthy(name) ==> shown == name.value
  {
    if Truthy(name) then name.value else DefaultStepName
  }

  /** The branch of the page's if-else chain an event falls into. */
  datatype Category =
    | WorkflowStarted
    | StepStarted
    | StepProgress
    | StepOutput
    | StepFinished
    | WorkflowFinished
    | Unknown

  function CategoryOf(ev: WorkflowEvent): Category {
    if ev.kind == Some(WorkflowStart) then WorkflowStarted
    else if ev.kind == Some(WorkflowStepStart) then StepStarted
    else if ev.kind == Some(WorkflowStepOutput) then
      (if ev.outputType == Some(StepProgressType) then StepProgress else StepOutput)
    else if ev.kind == Some(WorkflowStepResult) then StepFinished
    else if ev.kind == Some(WorkflowFinish) then WorkflowFinished
    else Unknown
  }

  /** The emoji and space each category's line begins with. */
  function Badge(c: Category): string {
    match c
    case WorkflowStarted => "🚀 "
    case StepStarted => "▶️ "
    case StepProgress => "📝 "
    case StepOutput => "📤 "
    case StepFinished => "✅ "
    case WorkflowFinished => "🏁 "
    case Unknown => "📦 "
  }

  /**
   * The line for an event of a known type (the chain without its final else), None for
   * an unknown type: what callWorkflowWithAppendMessage computes.
   */
  function Describe(ev: WorkflowEvent): (line: Option<string>)
    ensures line.None? <==> CategoryOf(ev) == Unknown
  {
    match CategoryOf(ev)
    case WorkflowStarted => Some("🚀 Workflow開始")
    case StepStarted => Some("▶️ " + StepLabel(ev.stepName) + "開始")
    case StepProgress => Some("📝 " + Shown(ev.outputMessage))
    case StepOutput => Some("📤 " + Shown(ev.stepName) + " 出力")
    case StepFinished => Some("✅ " + StepLabel(ev.stepName) + "完了")
    case WorkflowFinished => Some("🏁 Workflow完了")
    case Unknown => None
  }

  /**
   * The line callWorkflowDirectly computes: the same, but an unknown type is shown as
   * "📦 " and the type.  Total, and never empty.
   */
  function DescribeWithFallback(ev: WorkflowEvent): (line: string)
    ensures line != []
    ensures CategoryOf(ev) != Unknown ==> Describe(ev) == Some(line)
  {
    Describe(ev).GetOr("📦 " + Shown(ev.kind))
  }

  /** Every line, with or without the fallback, begins with its category's badge. */
  lemma LineBadge(ev: WorkflowEvent)
    ensures Badge(CategoryOf(ev)) <= DescribeWithFallback(ev)
    ensures Describe(ev).Some? ==> Badge(CategoryOf(ev)) <= Describe(ev).value
    ensures CategoryOf(ev) == Unknown ==> DescribeWithFallback(ev) == Badge(Unknown) + Shown(ev.kind)
  {
  }

  /** The category a display line announces, read off its badge. */
  function LineCategory(line: string): Option<Category> {
    if Badge(WorkflowStarted) <= line then Some(WorkflowStarted)
    else if Badge(StepStarted) <= line then Some(StepStarted)
    else if Badge(StepProgress) <= line then Some(StepProgress)
    else if Badge(StepOutput) <= line then Some(StepOutput)
    else if Badge(StepFinished) <= line then Some(StepFinished)
    else if Badge(WorkflowFinished) <= line then Some(WorkflowFinished)
    else if Badge(Unknown) <= line then Some(Unknown)
    else None
  }

  /** Every line says which branch produced it: the badges tell the categories apart. */
  lemma LineRevealsCategory(ev: WorkflowEvent)
    ensures LineCategory(DescribeWithFallback(ev)) == Some(CategoryOf(ev))
  {
    var line := DescribeWithFallback(ev);
    var c := CategoryOf(ev);
    LineBadge(ev);
    assert line[0] == Badge(c)[0];
  }

  /** A step start or result without a truthy step name is shown under the name "step". */
  lemma StepNameDefaults(ev: WorkflowEvent)
    requires !Truthy(ev.stepName)
    ensures ev.kind == Some(WorkflowStepStart) ==> DescribeWithFallback(ev) == "▶️ step開始"
    ensures ev.kind == Some(WorkflowStepResult) ==> DescribeWithFallback(ev) == "✅ step完了"
  {
  }

  /** A step-progress record written by a step is shown as "📝 " and its message. */
  lemma ProgressShowsMessage(ev: WorkflowEvent, message: string)
    requires ev.kind == Some(WorkflowStepOutput) && ev.outputType == Some(StepProgressType)
    requires ev.outputMessage == Some(message)
    ensures Describe(ev) == Some("📝 " + message)
  {
  }

  /**
   * The event a frame carries: a `data: ` frame whose payload is not the `[DONE]`
   * sentinel and parses.  Every other frame is skipped.
   */
  function FrameEvent(frame: string, parse: Parser): (r: Option<WorkflowEvent>)
    ensures r.Some? <==>
      DataPrefix <= frame && frame[|DataPrefix|..] != DoneSentinel && parse(frame[|DataPrefix|..]).Some?
    ensures r.Some? ==> r == parse(frame[|DataPrefix|..])
  {
    match DataPayload(frame)
    case None => None
    case Some(data) => if data == DoneSentinel then None else parse(data)
  }

  /** The events the frames carry, in frame order. */
  function ParsedEvents(frames: seq<string>, parse: Parser): seq<WorkflowEvent> {
    if frames == [] then []
    else
      var last := FrameEvent(frames[|frames| - 1], parse);
      ParsedEvents(frames[..|frames| - 1], parse) + (if last.Some? then [last.value] else [])
  }

  lemma {:induction false} ParsedEventsAppend(a: seq<string>, b: seq<string>, parse: Parser)
    ensures ParsedEvents(a + b, parse) == ParsedEvents(a, parse) + ParsedEvents(b, parse)
    decreases |b|
  {
    if b == [] {
      assert a + b == a;
    } else {
      var b' := b[..|b| - 1];
      assert (a + b)[..|a + b| - 1] == a + b';
      assert (a + b)[|a + b| - 1] == b[|b| - 1];
      ParsedEventsAppend(a, b', parse);
    }
  }

  /** The events of a single frame. */
  lemma ParsedEventsSingle(frame: string, parse: Parser)
    ensures ParsedEvents([frame], parse) == (if FrameEvent(frame, parse).Some? then [FrameEvent(frame, parse).value] else [])
  {
  }

  /** A frame that carries no event leaves the events of the frames around it as they are. */
  lemma SkippedFrame(before: seq<string>, frame: string, after: seq<string>, parse: Parser)
    requires FrameEvent(frame, parse).None?
    ensures ParsedEvents(before + [frame] + after, parse)
         == ParsedEvents(before, parse) + ParsedEvents(after, parse)
  {
    ParsedEventsAppend(before + [frame], after, parse);
    ParsedEventsAppend(before, [frame], parse);
    ParsedEventsSingle(frame, parse);
  }

  /** The `[DONE]` sentinel is skipped without ending the stream: later frames still count. */
  lemma SentinelSkipped(before: seq<string>, after: seq<string>, parse: Parser)
    ensures ParsedEvents(before + [DataPrefix + DoneSentinel] + after, parse)
         == ParsedEvents(before, parse) + ParsedEvents(after, parse)
  {
    var f := DataPrefix + DoneSentinel;
    assert f[|DataPrefix|..] == DoneSentinel;
    SkippedFrame(before, f, after, parse);
  }

  /** A payload that fails to parse is skipped, and processing goes on with the next frame. */
  lemma UnparsableSkipped(before: seq<string>, payload: string, after: seq<string>, parse: Parser)
    requires parse(payload).None?
    ensures ParsedEvents(before + [DataPrefix + payload] + after, parse)
         == ParsedEvents(before, parse) + ParsedEvents(after, parse)
  {
    var f := DataPrefix + payload;
    assert f[|DataPrefix|..] == payload;
    SkippedFrame(before, f, after, parse);
  }

  /** A frame that does not start with `data: ` is skipped. */
  lemma NonDataSkipped(before: seq<string>, frame: string, after: seq<string>, parse: Parser)
    requires !(DataPrefix <= frame)
    ensures ParsedEvents(before + [frame] + after, parse)
         == ParsedEvents(before, parse) + ParsedEvents(after, parse)
  {
    SkippedFrame(before, frame, after, parse);
  }

  /** callWorkflowDirectly's lines: one per event, in order. */
  function DisplayLines(evs: seq<WorkflowEvent>): (lines: seq<string>)
    ensures |lines| == |evs|
  {
    if evs == [] then []
    else DisplayLines(evs[..|evs| - 1]) + [DescribeWithFallback(evs[|evs| - 1])]
  }

  /** Line k is the line of event k: one entry per event, in order. */
  lemma {:induction false} DisplayLinesAt(evs: seq<WorkflowEvent>, k: nat)
    requires k < |evs|
    ensures DisplayLines(evs)[k] == DescribeWithFallback(evs[k])
    decreases |evs|
  {
    if k < |evs| - 1 {
      DisplayLinesAt(evs[..|evs| - 1], k);
    }
  }

  /** callWorkflowWithAppendMessage's messages: one per event of a known type, in order. */
  function AnnouncedLines(evs: seq<WorkflowEvent>): seq<string> {
    if evs == [] then []
    else
      var last := Describe(evs[|evs| - 1]);
      AnnouncedLines(evs[..|evs| - 1]) + (if last.Some? then [last.value] else [])
  }

  /** The events of a known type, in order. */
  function KnownEvents(evs: seq<WorkflowEvent>): (known: seq<WorkflowEvent>)
    ensures forall k :: 0 <= k < |known| ==> CategoryOf(known[k]) != Unknown
  {
    if evs == [] then []
    else
      var last := evs[|evs| - 1];
      KnownEvents(evs[..|evs| - 1]) + (if CategoryOf(last) != Unknown then [last] else [])
  }

  /**
   * The two handlers agree except for the fallback: the messages announced are exactly
   * the direct handler's lines for the events of a known type.
   */
  lemma {:induction false} AnnouncedAreKnownLines(evs: seq<WorkflowEvent>)
    ensures AnnouncedLines(evs) == DisplayLines(KnownEvents(evs))
    decreases |evs|
  {
    if evs != [] {
      var init := evs[..|evs| - 1];
      var last := evs[|evs| - 1];
      AnnouncedAreKnownLines(init);
      if CategoryOf(last) != Unknown {
        var k := KnownEvents(init) + [last];
        assert k[..|k| - 1] == KnownEvents(init);
        assert DisplayLines(k) == DisplayLines(KnownEvents(init)) + [DescribeWithFallback(last)];
      } else {
        assert KnownEvents(evs) == KnownEvents(init);
      }
    }
  }

  /** When every type is known, nothing is filtered out. */
  lemma {:induction false} AllKnownKeepsEvery(evs: seq<WorkflowEvent>)
    requires forall k :: 0 <= k < |evs| ==> CategoryOf(evs[k]) != Unknown
    ensures KnownEvents(evs) == evs
    decreases |evs|
  {
    if evs != [] {
      var init := evs[..|evs| - 1];
      AllKnownKeepsEvery(init);
      assert init + [evs[|evs| - 1]] == evs;
    }
  }

  /** When every type is known, the two handlers show the same lines. */
  lemma AllKnownAgree(evs: seq<WorkflowEvent>)
    requires forall k :: 0 <= k < |evs| ==> CategoryOf(evs[k]) != Unknown
    ensures AnnouncedLines(evs) == DisplayLines(evs)
  {
    AllKnownKeepsEvery(evs);
    AnnouncedAreKnownLines(evs);
  }

  /** A single event is kept exactly when its type is known. */
  lemma KnownEventsSingle(ev: WorkflowEvent)
    ensures KnownEvents([ev]) == (if CategoryOf(ev) != Unknown then [ev] else [])
  {
    assert [ev][..0] == [];
  }

  /** The filter keeps every known event and the order: it distributes over concatenation. */
  lemma {:induction false} KnownEventsAppend(a: seq<WorkflowEvent>, b: seq<WorkflowEvent>)
    ensures KnownEvents(a + b) == KnownEvents(a) + KnownEvents(b)
    decreases |b|
  {
    if b == [] {
      assert a + b == a;
    } else {
      var b' := b[..|b| - 1];
      var last := b[|b| - 1];
      assert (a + b)[..|a + b| - 1] == a + b';
      assert (a + b)[|a + b| - 1] == last;
      KnownEventsAppend(a, b');
      var tail := if CategoryOf(last) != Unknown then [last] else [];
      assert KnownEvents(a + b) == KnownEvents(a) + KnownEvents(b') + tail;
      assert KnownEvents(b) == KnownEvents(b') + tail;
    }
  }

  /** An event of an unrecognised type posts no message, wherever it comes. */
  lemma UnknownPostsNothing(before: seq<WorkflowEvent>, ev: WorkflowEvent, after: seq<WorkflowEvent>)
    requires CategoryOf(ev) == Unknown
    ensures AnnouncedLines(before + [ev] + after) == AnnouncedLines(before) + AnnouncedLines(after)
  {
    AnnouncedLinesAppend(before + [ev], after);
    AnnouncedLinesAppend(before, [ev]);
    assert [ev][..0] == [];
  }

  lemma DisplayLinesAppend(a: seq<WorkflowEvent>, b: seq<WorkflowEvent>)
    ensures DisplayLines(a + b) == DisplayLines(a) + DisplayLines(b)
  {
    var l := DisplayLines(a + b);
    var r := DisplayLines(a) + DisplayLines(b);
    assert |l| == |r|;
    forall k | 0 <= k < |l| ensures l[k] == r[k] {
      DisplayLinesAt(a + b, k);
      if k < |a| {
        assert (a + b)[k] == a[k];
        DisplayLinesAt(a, k);
      } else {
        assert (a + b)[k] == b[k - |a|];
        DisplayLinesAt(b, k - |a|);
      }
    }
  }

  lemma {:induction false} AnnouncedLinesAppend(a: seq<WorkflowEvent>, b: seq<WorkflowEvent>)
    ensures AnnouncedLines(a + b) == AnnouncedLines(a) + AnnouncedLines(b)
    decreases |b|
  {
    if b == [] {
      assert a + b == a;
    } else {
      var b' := b[..|b| - 1];
      assert (a + b)[..|a + b| - 1] == a + b';
      assert (a + b)[|a + b| - 1] == b[|b| - 1];
      AnnouncedLinesAppend(a, b');
    }
  }
}
