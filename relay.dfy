/**
 * The relay of src/background/openaiApi.js: the table of ongoing requests
 * (`ongoingRequests`, keyed by request id), `sendToOpenAI`, the stream reader
 * (`readStream`/`processChunk`), `handleError` and `cancelCurrentRequest`.
 *
 * `chrome.tabs.sendMessage` calls are appended to the coordinator's outbox.
 * The awaited results (the stored API key, the HTTP response) are parameters;
 * the response body arrives through the reader's `ProcessChunk` and
 * `HandleError` calls, one per settled `reader.read()`.
 */
module Relay {
  import opened Wrappers
  import opened Protocol
  import opened Decimal
  import opened Text
  import opened EventStream
  import opened PromptResolver

  /** An `AbortController`: the signal is a flag that `abort()` sets. */
  class AbortController {
    var aborted: bool

    constructor ()
      ensures !aborted
    {
      aborted := false;
    }

    method Abort()
      modifies this
      ensures aborted
    {
      aborted := true;
    }
  }

  /** `{ controller, tabId }` of an ongoing request. */
  datatype Entry = Entry(controller: AbortController, tabId: TabId)

  /** The state the relay shares between requests: the table and the tab messages sent so far. */
  class Coordinator {
    var ongoing: map<Option<RequestId>, Entry>
    var outbox: seq<Outgoing>

    constructor ()
      ensures ongoing == map[] && outbox == []
    {
      ongoing := map[];
      outbox := [];
    }
  }

  /** The completion service's answer to the POST: a rejected `fetch`, or a response. */
  datatype HttpResponse = NetworkFailure(message: string) | Response(ok: bool, status: nat, statusText: string)

  const InvalidTab := "Invalid tab ID."
  const ApiKeyNotSet := "API key not set. Please set it in the extension settings."
  const CanceledText := "Request was canceled."
  const ReadErrorText := "Error reading data."

  function ServerError(status: nat, statusText: string): string {
    "Server error: " + NatToString(status) + " " + statusText
  }

  /**
   * The checks `sendToOpenAI` makes before it touches the table: a tab id
   * that is a non-zero number, then a non-empty stored API key.
   */
  function AdmissionError(p: Payload, apiKey: Option<string>): (r: Option<string>)
    ensures !(p.tabId.TabNumber? && p.tabId.id != 0) ==> r == Some(InvalidTab)
    ensures p.tabId.TabNumber? && p.tabId.id != 0 ==> (r.None? <==> Truthy(apiKey))
    ensures r.Some? ==> r.value in {InvalidTab, ApiKeyNotSet}
  {
    if !(p.tabId.TabNumber? && p.tabId.id != 0) then Some(InvalidTab)
    else if !Truthy(apiKey) then Some(ApiKeyNotSet)
    else None
  }

  /** The message list `sendToOpenAI` posts, or the error thrown while building it. */
  function ComposeMessages(p: Payload, prompts: seq<PromptDef>): (r: Result<seq<ChatMessage>, string>)
    ensures r.Err? <==> ResolveSystemContent(prompts, p.promptType, p.promptLanguage).Err?
    ensures r.Ok? ==> |r.value| > 0 && r.value[|r.value| - 1] == ChatMessage(User, p.text)
  {
    match ResolveSystemContent(prompts, p.promptType, p.promptLanguage)
    case Err(e) => Err(e)
    case Ok(system) => Ok(BuildMessages(system, p.previousContext, p.text))
  }

  /**
   * What `sendToOpenAI` ends with: the messages it streamed a response for,
   * or the message of the error it threw.
   */
  function SendOutcome(p: Payload, apiKey: Option<string>, prompts: seq<PromptDef>, response: HttpResponse)
    : (r: Result<seq<ChatMessage>, string>)
    ensures AdmissionError(p, apiKey).Some? ==> r == Err(AdmissionError(p, apiKey).value)
    ensures r.Ok? <==> AdmissionError(p, apiKey).None? && ComposeMessages(p, prompts).Ok?
                       && response.Response? && response.ok
    ensures r.Ok? ==> r == ComposeMessages(p, prompts)
  {
    if AdmissionError(p, apiKey).Some? then Err(AdmissionError(p, apiKey).value)
    else match ComposeMessages(p, prompts)
      case Err(e) => Err(e)
      case Ok(messages) =>
        match response
        case NetworkFailure(m) => Err(m)
        case Response(ok, status, statusText) =>
          if ok then Ok(messages) else Err(ServerError(status, statusText))
  }

  /** The `streamError` text `handleError` sends for an error of the given name. */
  function ErrorText(errorName: string): (r: string)
    ensures r == CanceledText <==> errorName == "AbortError"
    ensures r in {CanceledText, ReadErrorText}
  {
    if errorName == "AbortError" then CanceledText else ReadErrorText
  }

  function ToMessage(e: StreamEvent, requestId: Option<RequestId>): TabMessage {
    match e
    case Data(c) => StreamData(c, requestId)
    case Complete => StreamComplete(requestId)
  }

  /** The `chrome.tabs.sendMessage` payloads for a run of events of one request. */
  function ToMessages(events: seq<StreamEvent>, requestId: Option<RequestId>): (r: seq<TabMessage>)
    ensures |r| == |events|
  {
    if events == [] then [] else [ToMessage(events[0], requestId)] + ToMessages(events[1..], requestId)
  }

  lemma {:induction false} ToMessagesIndex(events: seq<StreamEvent>, requestId: Option<RequestId>, k: nat)
    requires k < |events|
    ensures ToMessages(events, requestId)[k] == ToMessage(events[k], requestId)
    decreases k
  {
    if k > 0 {
      ToMessagesIndex(events[1..], requestId, k - 1);
    }
  }

  /** The same messages, each sent to the request's tab. */
  function Addressed(tab: TabField, messages: seq<TabMessage>): (r: seq<Outgoing>)
    ensures |r| == |messages|
  {
    if messages == [] then [] else [Outgoing(tab, messages[0])] + Addressed(tab, messages[1..])
  }

  lemma {:induction false} ToMessagesAppend(a: seq<StreamEvent>, b: seq<StreamEvent>, requestId: Option<RequestId>)
    ensures ToMessages(a + b, requestId) == ToMessages(a, requestId) + ToMessages(b, requestId)
    decreases |a|
  {
    if a == [] {
      assert a + b == b;
    } else {
      assert (a + b)[1..] == a[1..] + b;
      ToMessagesAppend(a[1..], b, requestId);
    }
  }

  lemma {:induction false} AddressedAppend(tab: TabField, a: seq<TabMessage>, b: seq<TabMessage>)
    ensures Addressed(tab, a + b) == Addressed(tab, a) + Addressed(tab, b)
    decreases |a|
  {
    if a == [] {
      assert a + b == b;
    } else {
      assert (a + b)[1..] == a[1..] + b;
      AddressedAppend(tab, a[1..], b);
    }
  }

  predicate IsTerminal(m: TabMessage) { m.StreamComplete? || m.StreamError? }

  /** A frame before the first `[DONE]` that is not `[DONE]` itself leaves the first `[DONE]` further on. */
  lemma PastFrame(parts: seq<string>, i: nat)
    requires i <= FirstDone(parts) && i < |parts| && !IsDoneFrame(parts[i])
    ensures i + 1 <= FirstDone(parts)
  {
  }

  /** The messages of the frames up to and including frame `i`, none of them `[DONE]`. */
  lemma DispatchStep(parts: seq<string>, i: nat, extract: string -> Option<string>, requestId: Option<RequestId>)
    requires i < |parts|
    ensures ToMessages(DataEvents(parts[..i + 1], extract), requestId)
         == ToMessages(DataEvents(parts[..i], extract), requestId) + ToMessages(FrameEvents(parts[i], extract), requestId)
  {
    assert parts[..i + 1] == parts[..i] + [parts[i]];
    DataEventsSnoc(parts[..i], parts[i], extract);
    ToMessagesAppend(DataEvents(parts[..i], extract), FrameEvents(parts[i], extract), requestId);
  }

  /** Frame `i` is the first `[DONE]`: the run's messages are those before it and then the completion. */
  lemma DispatchDone(parts: seq<string>, i: nat, extract: string -> Option<string>, requestId: Option<RequestId>)
    requires i <= FirstDone(parts) && i < |parts| && IsDoneFrame(parts[i])
    ensures ProcessParts(parts, extract).1
    ensures ToMessages(ProcessParts(parts, extract).0, requestId)
         == ToMessages(DataEvents(parts[..i], extract), requestId) + [StreamComplete(requestId)]
  {
    FirstDoneSpec(parts);
    ProcessPartsSpec(parts, extract);
    assert FirstDone(parts) == i;
    ToMessagesAppend(DataEvents(parts[..i], extract), [Complete], requestId);
  }

  /** No `[DONE]` among the frames: the run's events are the data events of all of them. */
  lemma {:induction false} DispatchEnd(parts: seq<string>, extract: string -> Option<string>)
    requires FirstDone(parts) == |parts|
    ensures ProcessParts(parts, extract) == (DataEvents(parts[..|parts|], extract), false)
    decreases |parts|
  {
    assert parts[..|parts|] == parts;
    if parts != [] {
      var tail := parts[1..];
      assert !IsDoneFrame(parts[0]);
      DispatchEnd(tail, extract);
      assert tail[..|tail|] == tail;
    }
  }

  /** The messages of data events are all `streamData`. */
  lemma DataMessages(events: seq<StreamEvent>, requestId: Option<RequestId>)
    requires forall k :: 0 <= k < |events| ==> events[k].Data?
    ensures forall k :: 0 <= k < |events| ==> ToMessages(events, requestId)[k].StreamData?
  {
    forall k | 0 <= k < |events|
      ensures ToMessages(events, requestId)[k].StreamData?
    {
      ToMessagesIndex(events, requestId, k);
    }
  }

  /** Messages for data events followed by a run that ends in the completion: one terminal message, last. */
  lemma TerminalRun(before: seq<StreamEvent>, step: seq<StreamEvent>, requestId: Option<RequestId>)
    requires forall k :: 0 <= k < |before| ==> before[k].Data?
    requires |step| > 0 && step[|step| - 1] == Complete
    requires forall k :: 0 <= k < |step| - 1 ==> step[k].Data?
    ensures var m := ToMessages(before + step, requestId);
      |m| > 0 && IsTerminal(m[|m| - 1]) && forall k :: 0 <= k < |m| - 1 ==> m[k].StreamData?
  {
    var all := before + step;
    var m := ToMessages(all, requestId);
    ToMessagesIndex(all, requestId, |all| - 1);
    forall k | 0 <= k < |m| - 1
      ensures m[k].StreamData?
    {
      ToMessagesIndex(all, requestId, k);
      assert all[k].Data?;
    }
  }

  /**
   * The loop of `processChunk` over the complete frames, in order: the
   * messages it sends and whether it met `[DONE]`.  A data frame whose
   * content is non-empty yields `streamData`; a `[DONE]` frame yields
   * `streamComplete` and ends the loop, so the frames after it are not
   * looked at.
   */
  method ScanFrames(parts: seq<string>, extract: string -> Option<string>, requestId: Option<RequestId>)
    returns (out: seq<TabMessage>, done: bool)
    ensures done == ProcessParts(parts, extract).1
    ensures out == ToMessages(ProcessParts(parts, extract).0, requestId)
  {
    out := [];
    done := false;
    var i := 0;
    while i < |parts| && !done
      invariant 0 <= i <= FirstDone(parts)
      invariant !done ==> out == ToMessages(DataEvents(parts[..i], extract), requestId)
      invariant done ==> i < |parts| && IsDoneFrame(parts[i])
      invariant done ==> out == ToMessages(DataEvents(parts[..i], extract), requestId) + [StreamComplete(requestId)]
      decreases |parts| - i, if done then 0 else 1
    {
      var part := parts[i];
      if Text.StartsWith(part, DataPrefix) {
        var data := part[|DataPrefix|..];
        if data == DoneSentinel {
          out := out + [StreamComplete(requestId)];
          done := true;
        } else {
          var content := extract(data);
          if content.Some? && content.value != "" {
            out := out + [StreamData(content.value, requestId)];
          }
        }
      }
      if !done {
        PastFrame(parts, i);
        DispatchStep(parts, i, extract, requestId);
        i := i + 1;
      }
    }
    if done {
      DispatchDone(parts, i, extract, requestId);
    } else {
      DispatchEnd(parts, extract);
    }
  }

  /**
   * A reader still reading: what it sent is exactly what splitting all chunks
   * so far at once yields, none of them `[DONE]`, and its buffer is that
   * split's fragment.
   */
  ghost predicate Streaming(received: seq<string>, buffer: string, sent: seq<TabMessage>,
                            extract: string -> Option<string>, requestId: Option<RequestId>)
  {
    var split := SplitFrames(Concat(received));
    var pp := ProcessParts(split.0, extract);
    !pp.1 && sent == ToMessages(pp.0, requestId) && buffer == split.1
  }

  /** A reader that stopped: exactly one terminal message, sent last. */
  ghost predicate Stopped(sent: seq<TabMessage>) {
    |sent| > 0 && IsTerminal(sent[|sent| - 1]) && forall k :: 0 <= k < |sent| - 1 ==> sent[k].StreamData?
  }

  /** A reader still reading has sent only `streamData`. */
  lemma StreamingSentData(received: seq<string>, buffer: string, sent: seq<TabMessage>,
                          extract: string -> Option<string>, requestId: Option<RequestId>)
    requires Streaming(received, buffer, sent, extract, requestId)
    ensures forall k :: 0 <= k < |sent| ==> sent[k].StreamData?
  {
    var pp := ProcessParts(SplitFrames(Concat(received)).0, extract);
    ProcessPartsShape(SplitFrames(Concat(received)).0, extract);
    DataMessages(pp.0, requestId);
  }

  /** One more chunk for a reading reader keeps it streaming, or stops it when a `[DONE]` frame arrives. */
  lemma ChunkStep(received: seq<string>, buffer: string, sent: seq<TabMessage>, text: string,
                  extract: string -> Option<string>, requestId: Option<RequestId>)
    requires Streaming(received, buffer, sent, extract, requestId)
    ensures var step := SplitFrames(buffer + text);
      var pp := ProcessParts(step.0, extract);
      var sent' := sent + ToMessages(pp.0, requestId);
      && (pp.1 ==> Stopped(sent'))
      && (!pp.1 ==> Streaming(received + [text], step.1, sent', extract, requestId))
  {
    ReaderStep(received, text, extract);
    var before := ProcessParts(SplitFrames(Concat(received)).0, extract);
    var pp := ProcessParts(SplitFrames(buffer + text).0, extract);
    ProcessPartsShape(SplitFrames(Concat(received)).0, extract);
    ProcessPartsShape(SplitFrames(buffer + text).0, extract);
    ToMessagesAppend(before.0, pp.0, requestId);
    if pp.1 {
      TerminalRun(before.0, pp.0, requestId);
    }
  }

  /**
   * The reader `readStream` sets up for one response body.  `buffer` is the
   * kept fragment and `reading` says whether another `reader.read()` is
   * pending.  The ghost `received` holds the chunks read so far and `sent`
   * the messages this reader has sent.
   */
  class StreamReader {
    const coord: Coordinator
    const tabId: TabId
    const requestId: Option<RequestId>
    const extract: string -> Option<string>
    var buffer: string
    var reading: bool
    ghost var received: seq<string>
    ghost var sent: seq<TabMessage>

    /**
     * While reading, what was sent is exactly what splitting all chunks so far
     * at once yields (no `[DONE]` among them) and the buffer is that split's
     * fragment.  Once stopped, exactly one terminal message was sent, last.
     */
    ghost predicate Valid()
      reads this
    {
      if reading then Streaming(received, buffer, sent, extract, requestId) else Stopped(sent)
    }

    constructor (coord: Coordinator, tabId: TabId, requestId: Option<RequestId>, extract: string -> Option<string>)
      ensures this.coord == coord && this.tabId == tabId && this.requestId == requestId && this.extract == extract
      ensures Valid() && reading && buffer == "" && received == [] && sent == []
    {
      this.coord := coord;
      this.tabId := tabId;
      this.requestId := requestId;
      this.extract := extract;
      buffer := "";
      reading := true;
      received := [];
      sent := [];
    }

    /** `processChunk({ done: true })`: the body is exhausted. */
    method ProcessDone()
      requires Valid() && reading
      modifies this, coord
      ensures Valid() && !reading
      ensures sent == old(sent) + [StreamComplete(requestId)]
      ensures coord.outbox == old(coord.outbox) + [Outgoing(TabNumber(tabId), StreamComplete(requestId))]
      ensures coord.ongoing == old(coord.ongoing) - {requestId}
      ensures buffer == old(buffer) && received == old(received)
    {
      StreamingSentData(received, buffer, sent, extract, requestId);
      coord.outbox := coord.outbox + [Outgoing(TabNumber(tabId), StreamComplete(requestId))];
      sent := sent + [StreamComplete(requestId)];
      coord.ongoing := coord.ongoing - {requestId};
      reading := false;
    }

    /**
     * `processChunk({ done: false, value })`: the chunk is appended to the
     * buffer, the complete frames are dispatched in order and the fragment is
     * kept for the next chunk.
     */
    method ProcessChunk(text: string)
      requires Valid() && reading
      modifies this, coord
      ensures Valid()
      ensures received == old(received) + [text]
      ensures var split := SplitFrames(old(buffer) + text);
        var pp := ProcessParts(split.0, extract);
        && buffer == split.1
        && reading == !pp.1
        && sent == old(sent) + ToMessages(pp.0, requestId)
        && coord.outbox == old(coord.outbox) + Addressed(TabNumber(tabId), ToMessages(pp.0, requestId))
        && coord.ongoing == if pp.1 then old(coord.ongoing) - {requestId} else old(coord.ongoing)
    {
      ghost var step := SplitFrames(buffer + text);
      ghost var pp := ProcessParts(step.0, extract);
      ghost var sent' := sent + ToMessages(pp.0, requestId);
      assert if pp.1 then Stopped(sent') else Streaming(received + [text], step.1, sent', extract, requestId) by {
        ChunkStep(received, buffer, sent, text, extract, requestId);
      }
      received := received + [text];

      var split := SplitFrames(buffer + text);
      buffer := split.1;
      var out, done := ScanFrames(split.0, extract, requestId);
      coord.outbox := coord.outbox + Addressed(TabNumber(tabId), out);
      sent := sent + out;
      if done {
        coord.ongoing := coord.ongoing - {requestId};
        reading := false;
      }
    }

    /**
     * `handleError`: a rejected read sends `streamError` ("Request was
     * canceled." for an `AbortError`, "Error reading data." otherwise) and
     * removes the request from the table.
     */
    method HandleError(errorName: string)
      requires Valid() && reading
      modifies this, coord
      ensures Valid() && !reading
      ensures sent == old(sent) + [StreamError(ErrorText(errorName), requestId)]
      ensures coord.outbox == old(coord.outbox) + [Outgoing(TabNumber(tabId), StreamError(ErrorText(errorName), requestId))]
      ensures coord.ongoing == old(coord.ongoing) - {requestId}
      ensures buffer == old(buffer) && received == old(received)
    {
      StreamingSentData(received, buffer, sent, extract, requestId);
      var error := if errorName == "AbortError" then CanceledText else ReadErrorText;
      coord.outbox := coord.outbox + [Outgoing(TabNumber(tabId), StreamError(error, requestId))];
      sent := sent + [StreamError(error, requestId)];
      coord.ongoing := coord.ongoing - {requestId};
      reading := false;
    }
  }

  /**
   * `sendToOpenAI(payload, ongoingRequests)`.  The tab id and the API key are
   * checked first; then the request is entered into the table, and only
   * after that is the prompt looked up and the response checked, so a
   * prompt that is not found, a rejected `fetch` or a non-ok response throws
   * with the entry left in the table.  On success a reader is started.
   */
  method SendToOpenAI(coord: Coordinator, p: Payload, apiKey: Option<string>, prompts: seq<PromptDef>,
                      response: HttpResponse, extract: string -> Option<string>)
    returns (outcome: Result<seq<ChatMessage>, string>, reader: StreamReader?)
    modifies coord
    ensures outcome == SendOutcome(p, apiKey, prompts, response)
    ensures coord.outbox == old(coord.outbox)
    ensures AdmissionError(p, apiKey).Some? ==> coord.ongoing == old(coord.ongoing)
    ensures AdmissionError(p, apiKey).None? ==>
      && p.requestId in coord.ongoing
      && coord.ongoing == old(coord.ongoing)[p.requestId := coord.ongoing[p.requestId]]
      && coord.ongoing[p.requestId].tabId == p.tabId.id
      && fresh(coord.ongoing[p.requestId].controller)
      && !coord.ongoing[p.requestId].controller.aborted
    ensures (reader != null) == outcome.Ok?
    ensures reader != null ==>
      && fresh(reader) && reader.Valid() && reader.reading && reader.sent == []
      && reader.coord == coord && reader.tabId == p.tabId.id && reader.requestId == p.requestId
      && reader.extract == extract
  {
    reader := null;
    if !(p.tabId.TabNumber? && p.tabId.id != 0) {
      outcome := Err(InvalidTab);
      return;
    }
    if !Truthy(apiKey) {
      outcome := Err(ApiKeyNotSet);
      return;
    }
    var controller := new AbortController();
    coord.ongoing := coord.ongoing[p.requestId := Entry(controller, p.tabId.id)];

    var composed := ComposeMessages(p, prompts);
    if composed.Err? {
      outcome := Err(composed.error);
      return;
    }
    match response {
      case NetworkFailure(m) =>
        outcome := Err(m);
      case Response(ok, status, statusText) =>
        if !ok {
          outcome := Err(ServerError(status, statusText));
        } else {
          outcome := Ok(composed.value);
          reader := new StreamReader(coord, p.tabId.id, p.requestId, extract);
        }
    }
  }

  /**
   * `cancelCurrentRequest(payload, ongoingRequests)`: an ongoing request is
   * aborted and removed from the table; an unknown id only logs a warning.
   */
  method CancelCurrentRequest(coord: Coordinator, requestId: Option<RequestId>)
    modifies coord, if requestId in coord.ongoing then {coord.ongoing[requestId].controller} else {}
    ensures requestId in old(coord.ongoing) ==>
      coord.ongoing == old(coord.ongoing) - {requestId} && old(coord.ongoing)[requestId].controller.aborted
    ensures requestId !in old(coord.ongoing) ==> coord.ongoing == old(coord.ongoing)
    ensures coord.outbox == old(coord.outbox)
  {
    if requestId in coord.ongoing {
      var entry := coord.ongoing[requestId];
      entry.controller.Abort();
      coord.ongoing := coord.ongoing - {requestId};
    }
  }
}
