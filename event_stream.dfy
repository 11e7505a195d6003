/**
 * The incremental reader of the completion service's event stream: a
 * simplified subset of server-sent events (section 9.2.6 of the WHATWG HTML
 * Living Standard).  Each decoded chunk is appended to a string buffer; the
 * buffer is split on "\n\n"; every piece but the last is a complete frame and
 * the last is kept for the next chunk.  A frame `data: <payload>` carries a
 * JSON payload, and the payload `[DONE]` ends the stream.
 *
 * JSON parsing and the `choices[0].delta.content` lookup are the parameter
 * `extract`: `None` when parsing throws, otherwise the content found (which
 * may be the empty string).
 */
module EventStream {
  import opened Wrappers
  import opened Text
  import opened Protocol

  const Delimiter: string := "\n\n"
  const DataPrefix: string := "data: "
  const DoneSentinel: string := "[DONE]"

  /** What a stream produces for the page: a content fragment, or the end. */
  datatype StreamEvent = Data(content: string) | Complete

  predicate DelimAt(s: string, i: nat) {
    i + 1 < |s| && s[i] == '\n' && s[i + 1] == '\n'
  }

  ghost predicate HasDelim(s: string) {
    exists i: nat :: DelimAt(s, i)
  }

  /** The leftmost "\n\n" at or after `from` (see FindDelimSpec). */
  function FindDelim(s: string, from: nat): (r: Option<nat>)
    ensures r.Some? ==> from <= r.value && DelimAt(s, r.value)
    decreases |s| - from
  {
    if from + 1 >= |s| then None
    else if DelimAt(s, from) then Some(from)
    else FindDelim(s, from + 1)
  }

  /** FindDelim finds a delimiter, the leftmost one at or after `from`, or reports that there is none. */
  lemma {:induction false} FindDelimSpec(s: string, from: nat)
    ensures var r := FindDelim(s, from);
      && (r.Some? ==> from <= r.value && DelimAt(s, r.value))
      && (r.Some? ==> forall j: nat :: from <= j < r.value ==> !DelimAt(s, j))
      && (r.None? ==> forall j: nat :: from <= j ==> !DelimAt(s, j))
    decreases |s| - from
  {
    if from + 1 < |s| && !DelimAt(s, from) {
      FindDelimSpec(s, from + 1);
    }
  }

  /** Every frame followed by its delimiter, concatenated. */
  function Flatten(parts: seq<string>): string {
    if parts == [] then "" else parts[0] + Delimiter + Flatten(parts[1..])
  }

  /**
   * `parts = buffer.split("\n\n"); buffer = parts.pop()`: the complete frames
   * and the trailing fragment (see SplitFramesSpec).
   */
  function SplitFrames(s: string): (seq<string>, string)
    decreases |s|
  {
    match FindDelim(s, 0)
    case None => ([], s)
    case Some(i) =>
      var tail := SplitFrames(s[i + 2..]);
      ([s[..i]] + tail.0, tail.1)
  }

  /**
   * Putting the delimiters back after the frames and appending the fragment
   * reassembles the input; neither a frame nor the fragment contains a
   * delimiter.
   */
  lemma {:induction false} SplitFramesSpec(s: string)
    ensures Flatten(SplitFrames(s).0) + SplitFrames(s).1 == s
    ensures !HasDelim(SplitFrames(s).1)
    ensures forall k :: 0 <= k < |SplitFrames(s).0| ==> !HasDelim(SplitFrames(s).0[k])
    decreases |s|
  {
    var f := FindDelim(s, 0);
    FindDelimSpec(s, 0);
    if f.Some? {
      var i := f.value;
      var head := s[..i];
      SplitFramesSpec(s[i + 2..]);
      assert !HasDelim(head) by {
        forall j: nat | DelimAt(head, j) ensures false {
          assert DelimAt(s, j);
        }
      }
      var tail := SplitFrames(s[i + 2..]);
      assert SplitFrames(s).0 == [head] + tail.0;
      assert ([head] + tail.0)[1..] == tail.0;
      assert s == head + Delimiter + s[i + 2..];
    }
  }

  lemma NoDelimSplit(s: string)
    requires !HasDelim(s)
    ensures SplitFrames(s) == ([], s)
  {
    FindDelimSpec(s, 0);
    assert FindDelim(s, 0) == None;
  }

  /** A delimiter found in `x` is also the leftmost one of `x + s`. */
  lemma {:induction false} FindDelimAppend(x: string, s: string, from: nat)
    requires FindDelim(x, from).Some?
    ensures FindDelim(x + s, from) == FindDelim(x, from)
    decreases |x| - from
  {
    assert DelimAt(x, from) == DelimAt(x + s, from);
    if !DelimAt(x, from) {
      FindDelimAppend(x, s, from + 1);
    }
  }

  /**
   * Splitting is compatible with appending: splitting `x + s` yields the
   * frames of `x`, then the frames of `x`'s fragment followed by `s`.  This
   * is why the fragment can be kept between chunks.
   */
  lemma {:induction false} SplitAppend(x: string, s: string)
    ensures SplitFrames(x + s).0 == SplitFrames(x).0 + SplitFrames(SplitFrames(x).1 + s).0
    ensures SplitFrames(x + s).1 == SplitFrames(SplitFrames(x).1 + s).1
    decreases |x|, 1
  {
    var f := FindDelim(x, 0);
    if f.Some? {
      SplitAppendAt(x, s, f.value);
    } else {
      assert SplitFrames(x) == ([], x);
    }
  }

  /** SplitAppend when `x` has its leftmost delimiter at `i`. */
  lemma {:induction false} SplitAppendAt(x: string, s: string, i: nat)
    requires FindDelim(x, 0) == Some(i)
    ensures SplitFrames(x + s).0 == SplitFrames(x).0 + SplitFrames(SplitFrames(x).1 + s).0
    ensures SplitFrames(x + s).1 == SplitFrames(SplitFrames(x).1 + s).1
    decreases |x|, 0
  {
    var tail := x[i + 2..];
    SplitAppend(tail, s);
    SplitAtDelim(x, i);
    SplitAtDelimAppend(x, s, i);
    ConsFrames(x[..i], SplitFrames(tail), SplitFrames(SplitFrames(tail).1 + s), SplitFrames(x), SplitFrames(tail + s), SplitFrames(x + s));
  }

  /** SplitAtDelim for `x + s` when the leftmost delimiter of `x` is at `i`. */
  lemma SplitAtDelimAppend(x: string, s: string, i: nat)
    requires FindDelim(x, 0) == Some(i)
    ensures SplitFrames(x + s) == ([x[..i]] + SplitFrames(x[i + 2..] + s).0, SplitFrames(x[i + 2..] + s).1)
  {
    FindDelimAppend(x, s, 0);
    assert (x + s)[i + 2..] == x[i + 2..] + s;
    assert (x + s)[..i] == x[..i];
    SplitAtDelim(x + s, i);
  }

  /** The bookkeeping of SplitAppendAt, on the splits as plain values. */
  lemma ConsFrames(head: string, t: (seq<string>, string), b: (seq<string>, string),
                   sx: (seq<string>, string), st: (seq<string>, string), sxs: (seq<string>, string))
    requires st == (t.0 + b.0, b.1)
    requires sx == ([head] + t.0, t.1)
    requires sxs == ([head] + st.0, st.1)
    ensures sxs.0 == sx.0 + b.0 && sxs.1 == b.1
  {
    assert [head] + (t.0 + b.0) == ([head] + t.0) + b.0;
  }

  /** One step of SplitFrames: the frame before the leftmost delimiter, then the split of what follows it. */
  lemma SplitAtDelim(s: string, i: nat)
    requires FindDelim(s, 0) == Some(i)
    ensures SplitFrames(s) == ([s[..i]] + SplitFrames(s[i + 2..]).0, SplitFrames(s[i + 2..]).1)
  {
  }

  // ---------------------------------------------------------------------
  // Frames
  // ---------------------------------------------------------------------

  predicate IsDataFrame(part: string) { StartsWith(part, DataPrefix) }

  /** `part.slice(6)` of a data frame. */
  function FramePayload(part: string): string
    requires IsDataFrame(part)
  {
    part[|DataPrefix|..]
  }

  predicate IsDoneFrame(part: string) {
    IsDataFrame(part) && FramePayload(part) == DoneSentinel
  }

  /**
   * The events one frame other than `[DONE]` produces: a data frame whose
   * payload parses to non-empty content yields that content; anything else
   * (not a data frame, a parse failure, empty content) yields nothing.
   */
  function FrameEvents(part: string, extract: string -> Option<string>): (r: seq<StreamEvent>)
    ensures |r| <= 1
    ensures r != [] <==> IsDataFrame(part) && Truthy(extract(FramePayload(part)))
    ensures r != [] ==> r[0] == Data(extract(FramePayload(part)).value)
  {
    if IsDataFrame(part) then
      match extract(FramePayload(part))
      case Some(c) => if c != "" then [Data(c)] else []
      case None => []
    else []
  }


  /** The events of a run of frames, none of them `[DONE]`, in frame order. */
  function DataEvents(parts: seq<string>, extract: string -> Option<string>): (r: seq<StreamEvent>)
    ensures forall k :: 0 <= k < |r| ==> r[k].Data?
  {
    if parts == [] then [] else FrameEvents(parts[0], extract) + DataEvents(parts[1..], extract)
  }

  /** Position of the first `[DONE]` frame, or the number of frames when there is none. */
  function FirstDone(parts: seq<string>): (k: nat)
    ensures k <= |parts|
    ensures k < |parts| ==> IsDoneFrame(parts[k])
  {
    if parts == [] then 0
    else if IsDoneFrame(parts[0]) then 0
    else 1 + FirstDone(parts[1..])
  }

  /** No frame before FirstDone is `[DONE]`: it is the first one. */
  lemma {:induction false} FirstDoneSpec(parts: seq<string>)
    ensures forall j :: 0 <= j < FirstDone(parts) ==> !IsDoneFrame(parts[j])
  {
    if parts != [] && !IsDoneFrame(parts[0]) {
      FirstDoneSpec(parts[1..]);
      assert forall j :: 1 <= j < |parts| ==> parts[j] == parts[1..][j - 1];
    }
  }

  /**
   * The loop over the complete frames of one chunk.  It returns the events it
   * emits and whether it met `[DONE]`, after which it stops: the result is
   * the data events of the frames before the first `[DONE]`, followed by
   * one `Complete` when there is a `[DONE]`.
   */
  function ProcessParts(parts: seq<string>, extract: string -> Option<string>): (seq<StreamEvent>, bool) {
    if parts == [] then ([], false)
    else if IsDoneFrame(parts[0]) then ([Complete], true)
    else
      var rest := ProcessParts(parts[1..], extract);
      (FrameEvents(parts[0], extract) + rest.0, rest.1)
  }

  /**
   * ProcessParts stops exactly when there is a `[DONE]` frame, and yields
   * the data events of the frames before the first one, then `Complete`.
   */
  lemma {:induction false} ProcessPartsSpec(parts: seq<string>, extract: string -> Option<string>)
    ensures ProcessParts(parts, extract).1 <==> FirstDone(parts) < |parts|
    ensures ProcessParts(parts, extract).0 ==
      DataEvents(parts[..FirstDone(parts)], extract) + (if ProcessParts(parts, extract).1 then [Complete] else [])
  {
    if parts == [] {
    } else if IsDoneFrame(parts[0]) {
      assert parts[..0] == [];
    } else {
      ProcessPartsSpec(parts[1..], extract);
      assert parts[..FirstDone(parts)] == [parts[0]] + parts[1..][..FirstDone(parts[1..])];
    }
  }

  /** The events of a run of frames: all data, except a final `Complete` when a `[DONE]` was met. */
  lemma ProcessPartsShape(parts: seq<string>, extract: string -> Option<string>)
    ensures var r := ProcessParts(parts, extract);
      && (r.1 ==> |r.0| > 0 && r.0[|r.0| - 1] == Complete)
      && forall k :: 0 <= k < |r.0| - (if r.1 then 1 else 0) ==> r.0[k].Data?
  {
    ProcessPartsSpec(parts, extract);
  }

  /** Processing two runs of frames one after the other is processing their concatenation. */
  lemma {:induction false} ProcessPartsAppend(ps: seq<string>, qs: seq<string>, extract: string -> Option<string>)
    ensures ProcessParts(ps + qs, extract) ==
      if ProcessParts(ps, extract).1 then ProcessParts(ps, extract)
      else (ProcessParts(ps, extract).0 + ProcessParts(qs, extract).0, ProcessParts(qs, extract).1)
    decreases |ps|
  {
    if ps != [] && !IsDoneFrame(ps[0]) {
      assert (ps + qs)[0] == ps[0];
      assert (ps + qs)[1..] == ps[1..] + qs;
      ProcessPartsAppend(ps[1..], qs, extract);
      var head := FrameEvents(ps[0], extract);
      var p1 := ProcessParts(ps[1..], extract);
      var q := ProcessParts(qs, extract);
      if !p1.1 {
        assert head + (p1.0 + q.0) == (head + p1.0) + q.0;
      }
    } else if ps != [] {
      assert (ps + qs)[0] == ps[0];
    } else {
      assert ps + qs == qs;
      assert [] + ProcessParts(qs, extract).0 == ProcessParts(qs, extract).0;
    }
  }

  // ---------------------------------------------------------------------
  // A whole stream
  // ---------------------------------------------------------------------

  /**
   * The reader fed the chunks one by one, starting from `buffer`: each chunk
   * is appended to the buffer, the complete frames are processed and the
   * fragment is kept; after `[DONE]` nothing more is read.
   */
  function Feed(buffer: string, chunks: seq<string>, extract: string -> Option<string>): seq<StreamEvent>
    decreases |chunks|
  {
    if chunks == [] then []
    else
      var split := SplitFrames(buffer + chunks[0]);
      var step := ProcessParts(split.0, extract);
      if step.1 then step.0 else step.0 + Feed(split.1, chunks[1..], extract)
  }

  lemma {:induction false} FeedIsOneShot(buffer: string, chunks: seq<string>, extract: string -> Option<string>)
    requires !HasDelim(buffer)
    ensures Feed(buffer, chunks, extract) == ProcessParts(SplitFrames(buffer + Concat(chunks)).0, extract).0
    decreases |chunks|
  {
    if chunks == [] {
      assert buffer + Concat(chunks) == buffer;
      NoDelimSplit(buffer);
    } else {
      var x := buffer + chunks[0];
      var later := Concat(chunks[1..]);
      var split := SplitFrames(x);
      assert buffer + Concat(chunks) == x + later;
      SplitAppend(x, later);
      SplitFramesSpec(x);
      var qs := SplitFrames(split.1 + later).0;
      assert SplitFrames(x + later).0 == split.0 + qs;
      ProcessPartsAppend(split.0, qs, extract);
      FeedIsOneShot(split.1, chunks[1..], extract);
      var step := ProcessParts(split.0, extract);
      if step.1 {
        assert Feed(buffer, chunks, extract) == step.0;
      } else {
        assert Feed(buffer, chunks, extract) == step.0 + Feed(split.1, chunks[1..], extract);
      }
    }
  }

  /**
   * Chunk-boundary independence: however the stream is cut into chunks, the
   * reader emits the events it would emit for the whole stream split at once.
   */
  lemma ChunkBoundaryIndependence(chunks: seq<string>, extract: string -> Option<string>)
    ensures Feed("", chunks, extract) == ProcessParts(SplitFrames(Concat(chunks)).0, extract).0
  {
    assert !HasDelim("");
    assert "" + Concat(chunks) == Concat(chunks);
    FeedIsOneShot("", chunks, extract);
  }

  /** Cutting the stream differently changes nothing the page receives. */
  lemma RechunkingPreservesEvents(a: seq<string>, b: seq<string>, extract: string -> Option<string>)
    requires Concat(a) == Concat(b)
    ensures Feed("", a, extract) == Feed("", b, extract)
  {
    ChunkBoundaryIndependence(a, extract);
    ChunkBoundaryIndependence(b, extract);
  }

  /**
   * Everything the page receives for a stream the reader reads to its end:
   * the fed events, then `Complete` when the reader reports done without a
   * `[DONE]` frame having been seen.  The trailing fragment is dropped.
   * Exactly one `Complete` is emitted, and it is the last event.
   */
  function RunToEnd(chunks: seq<string>, extract: string -> Option<string>): (r: seq<StreamEvent>)
    ensures |r| > 0 && r[|r| - 1] == Complete
    ensures forall k :: 0 <= k < |r| - 1 ==> r[k].Data?
  {
    var all := ProcessParts(SplitFrames(Concat(chunks)).0, extract);
    ChunkBoundaryIndependence(chunks, extract);
    ProcessPartsShape(SplitFrames(Concat(chunks)).0, extract);
    if all.1 then Feed("", chunks, extract) else Feed("", chunks, extract) + [Complete]
  }

  // ---------------------------------------------------------------------
  // Facts used by the imperative reader
  // ---------------------------------------------------------------------

  lemma {:induction false} DataEventsSnoc(ps: seq<string>, p: string, extract: string -> Option<string>)
    ensures DataEvents(ps + [p], extract) == DataEvents(ps, extract) + FrameEvents(p, extract)
    decreases |ps|
  {
    if ps == [] {
      assert ps + [p] == [p];
      assert [p][1..] == [];
    } else {
      assert (ps + [p])[1..] == ps[1..] + [p];
      DataEventsSnoc(ps[1..], p, extract);
    }
  }

  /**
   * One more chunk for a reader that has not met `[DONE]`: the frames of all
   * chunks so far are the earlier frames followed by those split from the
   * kept fragment plus the new chunk, and so are the events.
   */
  lemma ReaderStep(received: seq<string>, text: string, extract: string -> Option<string>)
    requires !ProcessParts(SplitFrames(Concat(received)).0, extract).1
    ensures var before := SplitFrames(Concat(received));
      var step := SplitFrames(before.1 + text);
      var after := SplitFrames(Concat(received + [text]));
      after.1 == step.1
      && ProcessParts(after.0, extract) ==
           (ProcessParts(before.0, extract).0 + ProcessParts(step.0, extract).0, ProcessParts(step.0, extract).1)
  {
    ConcatSnoc(received, text);
    var before := SplitFrames(Concat(received));
    SplitAppend(Concat(received), text);
    ProcessPartsAppend(before.0, SplitFrames(before.1 + text).0, extract);
  }
}
