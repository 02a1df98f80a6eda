/**
 * The client-side framing of an event stream: incoming text is cut at every blank-line
 * delimiter "\n\n" with the semantics of JavaScript's String.prototype.split (leftmost,
 * non-overlapping occurrences), the last piece is kept as the unterminated carry-over
 * buffer, and only frames of the form "data: <payload>" are looked at further.
 */
module EventStream {
  import opened Wrappers

  const Delimiter: string := "\n\n"
  const DataPrefix: string := "data: "
  const DoneSentinel: string := "[DONE]"

  /** A blank-line delimiter starts at index i of s. */
  predicate DelimiterAt(s: string, i: int) {
    0 <= i && i + 1 < |s| && s[i] == '\n' && s[i + 1] == '\n'
  }

  /** s holds no blank-line delimiter anywhere. */
  predicate NoDelimiter(s: string) {
    forall i :: 0 <= i < |s| ==> !DelimiterAt(s, i)
  }

  /**
   * A piece that split can put before a delimiter: it holds no delimiter and does not end
   * with a newline (otherwise the delimiter would have been found one character earlier).
   */
  predicate IsFrame(f: string) {
    NoDelimiter(f) && (f == [] || f[|f| - 1] != '\n')
  }

  /** The leftmost delimiter of s at or after index from, if any. */
  function FindDelimiter(s: string, from: nat): (r: Option<nat>)
    ensures r.Some? ==> from <= r.value && DelimiterAt(s, r.value)
    ensures r.Some? ==> forall j :: from <= j < r.value ==> !DelimiterAt(s, j)
    ensures r.None? ==> forall j :: from <= j ==> !DelimiterAt(s, j)
    decreases |s| - from
  {
    if from + 1 >= |s| then None
    else if DelimiterAt(s, from) then Some(from)
    else FindDelimiter(s, from + 1)
  }

  /** The leftmost delimiter of s, if any. */
  function FirstDelimiter(s: string): Option<nat> {
    FindDelimiter(s, 0)
  }

  /** A delimiter with none before it is the one FirstDelimiter finds. */
  lemma FirstDelimiterIs(s: string, i: nat)
    requires DelimiterAt(s, i)
    requires forall j :: 0 <= j < i ==> !DelimiterAt(s, j)
    ensures FirstDelimiter(s) == Some(i)
  {
  }

  /** `s.split("\n\n")`: never empty; the last piece is what follows the last delimiter. */
  function Split(s: string): (parts: seq<string>)
    ensures |parts| >= 1
    decreases |s|
  {
    match FirstDelimiter(s)
    case None => [s]
    case Some(i) => [s[..i]] + Split(s[i + 2..])
  }

  /** The complete frames of s: every piece of the split but the last. */
  function Frames(s: string): seq<string> {
    var parts := Split(s);
    parts[..|parts| - 1]
  }

  /** The carry-over buffer: the last piece of the split, `lines.pop() || ""`. */
  function Tail(s: string): string {
    var parts := Split(s);
    parts[|parts| - 1]
  }

  /** Each frame followed by its delimiter, in order. */
  function Terminated(frames: seq<string>): string {
    if frames == [] then "" else frames[0] + Delimiter + Terminated(frames[1..])
  }

  /** All chunks received so far, in order. */
  function Concat(chunks: seq<string>): string {
    if chunks == [] then "" else Concat(chunks[..|chunks| - 1]) + chunks[|chunks| - 1]
  }

  lemma TerminatedCons(f: string, rest: seq<string>)
    ensures Terminated([f] + rest) == f + Delimiter + Terminated(rest)
  {
  }

  /** Unfolds Frames and Tail at the leftmost delimiter. */
  lemma SplitAt(s: string, i: nat)
    requires FirstDelimiter(s) == Some(i)
    ensures Frames(s) == [s[..i]] + Frames(s[i + 2..])
    ensures Tail(s) == Tail(s[i + 2..])
  {
  }

  /** The pieces of a split, joined back with their delimiters, give the input back. */
  lemma {:induction false} SplitRejoins(s: string)
    ensures Terminated(Frames(s)) + Tail(s) == s
    decreases |s|
  {
    match FirstDelimiter(s)
    case None =>
    case Some(i) =>
      SplitAt(s, i);
      SplitRejoins(s[i + 2..]);
      TerminatedCons(s[..i], Frames(s[i + 2..]));
      assert s == s[..i] + Delimiter + s[i + 2..];
  }

  /** A split finds every delimiter: no piece holds one, and no frame ends with a newline. */
  lemma {:induction false} SplitPiecesClean(s: string)
    ensures forall k :: 0 <= k < |Frames(s)| ==> IsFrame(Frames(s)[k])
    ensures NoDelimiter(Tail(s))
    decreases |s|
  {
    match FirstDelimiter(s)
    case None =>
    case Some(i) =>
      SplitAt(s, i);
      SplitPiecesClean(s[i + 2..]);
      var f := s[..i];
      forall j | 0 <= j < |f| ensures !DelimiterAt(f, j) {
        assert !DelimiterAt(s, j);
      }
      if i > 0 {
        assert !DelimiterAt(s, i - 1);
      }
      assert IsFrame(f);
  }

  /** A text with no delimiter is not split at all. */
  lemma SplitWithoutDelimiter(t: string)
    requires NoDelimiter(t)
    ensures Split(t) == [t]
  {
  }

  /** A frame followed by its delimiter is split off as exactly that frame. */
  lemma SplitFirstFrame(f: string, rest: string)
    requires IsFrame(f)
    ensures Split(f + Delimiter + rest) == [f] + Split(rest)
  {
    var s := f + Delimiter + rest;
    forall j | 0 <= j < |f| ensures !DelimiterAt(s, j) {
      if j + 1 < |f| {
        assert !DelimiterAt(f, j);
      }
    }
    FirstDelimiterIs(s, |f|);
    assert s[..|f|] == f && s[|f| + 2..] == rest;
  }

  /**
   * The converse of SplitRejoins: frames that split could have produced, followed by a
   * delimiter-free tail, split back into exactly those frames and that tail.
   */
  lemma {:induction false} SplitTerminated(frames: seq<string>, tail: string)
    requires forall k :: 0 <= k < |frames| ==> IsFrame(frames[k])
    requires NoDelimiter(tail)
    ensures Split(Terminated(frames) + tail) == frames + [tail]
    ensures Frames(Terminated(frames) + tail) == frames
    ensures Tail(Terminated(frames) + tail) == tail
    decreases |frames|
  {
    if frames == [] {
      assert Terminated(frames) + tail == tail;
      SplitWithoutDelimiter(tail);
    } else {
      SplitTerminated(frames[1..], tail);
      assert Terminated(frames) + tail == frames[0] + Delimiter + (Terminated(frames[1..]) + tail);
      SplitFirstFrame(frames[0], Terminated(frames[1..]) + tail);
      assert frames == [frames[0]] + frames[1..];
    }
  }

  /**
   * Splitting more text leaves the complete frames already found untouched: splitting
   * s + c gives the frames of s followed by the split of s's tail plus c.
   */
  lemma {:induction false} SplitAppend(s: string, c: string)
    ensures Split(s + c) == Frames(s) + Split(Tail(s) + c)
    decreases |s|
  {
    match FirstDelimiter(s)
    case None =>
    case Some(i) =>
      SplitAt(s, i);
      var t := s + c;
      forall j | 0 <= j < i ensures !DelimiterAt(t, j) {
        assert !DelimiterAt(s, j);
      }
      FirstDelimiterIs(t, i);
      assert t[..i] == s[..i] && t[i + 2..] == s[i + 2..] + c;
      SplitAppend(s[i + 2..], c);
  }

  /** One feed step in terms of a whole-stream split. */
  lemma FeedStep(seen: string, c: string)
    ensures Frames(seen + c) == Frames(seen) + Frames(Tail(seen) + c)
    ensures Tail(seen + c) == Tail(Tail(seen) + c)
  {
    SplitAppend(seen, c);
    var p := Split(Tail(seen) + c);
    var all := Frames(seen) + p;
    assert Split(seen + c) == all;
    assert all[..|all| - 1] == Frames(seen) + p[..|p| - 1];
  }

  /**
   * Frames are handled once and in order: the frames complete after some text are a
   * prefix of those complete after any continuation of it.
   */
  lemma FramesGrow(seen: string, more: string)
    ensures Frames(seen) <= Frames(seen + more)
  {
    FeedStep(seen, more);
  }

  /** The carry-over buffer after the reader has fed the chunks in one at a time. */
  function Buffered(chunks: seq<string>): string {
    if chunks == [] then "" else Tail(Buffered(chunks[..|chunks| - 1]) + chunks[|chunks| - 1])
  }

  /** The frames the reader has split off, chunk by chunk, in order. */
  function FedFrames(chunks: seq<string>): seq<string> {
    if chunks == [] then []
    else
      var init := chunks[..|chunks| - 1];
      FedFrames(init) + Frames(Buffered(init) + chunks[|chunks| - 1])
  }

  /**
   * Feeding the chunks one at a time ends with the frames and the rest of splitting all
   * of the text at once: where the chunk boundaries fall makes no difference.
   */
  lemma {:induction false} FeedingMatchesSplit(chunks: seq<string>)
    ensures FedFrames(chunks) == Frames(Concat(chunks))
    ensures Buffered(chunks) == Tail(Concat(chunks))
    decreases |chunks|
  {
    if chunks != [] {
      var init := chunks[..|chunks| - 1];
      var c := chunks[|chunks| - 1];
      FeedingMatchesSplit(init);
      FeedStep(Concat(init), c);
    }
  }

  /**
   * After every chunk, the text received so far is the frames split off, each followed by
   * its delimiter, and then the buffer, which holds no delimiter.
   */
  lemma FedTextRejoins(chunks: seq<string>)
    ensures Terminated(FedFrames(chunks)) + Buffered(chunks) == Concat(chunks)
    ensures NoDelimiter(Buffered(chunks))
  {
    FeedingMatchesSplit(chunks);
    SplitRejoins(Concat(chunks));
    SplitPiecesClean(Concat(chunks));
  }

  /** `line.startsWith("data: ") ? line.slice(6) : (not a data frame)`. */
  function DataPayload(frame: string): (payload: Option<string>)
    ensures payload.Some? <==> DataPrefix <= frame
    ensures payload.Some? ==> frame == DataPrefix + payload.value
  {
    if DataPrefix <= frame then Some(frame[|DataPrefix|..]) else None
  }
}
