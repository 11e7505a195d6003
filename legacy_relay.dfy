/**
 * The older background listener of background.js.  It answers `getTabId`,
 * handles `sendToOpenAI` in three asynchronous steps and `cancelRequest`.
 *
 * A `sendToOpenAI` goes through these steps:
 *   1. load `prompts.json`, look the prompt up, fill in `{language}`, read
 *      the stored API key, enter the request into the table and post
 *      (`OnMessage`);
 *   2. the post settles (`SettleFetch`);
 *   3. the body is read chunk by chunk (`LegacyReader`).
 * A cancel can arrive between any two of these steps, which is why they are
 * separate methods.
 *
 * Unlike src/background/openaiApi.js, this listener looks the prompt up
 * before it reads the key and always substitutes the language.  It also
 * never removes a table entry except on cancel.  Its texts are in Russian.
 */
module LegacyRelay {
  import opened Wrappers
  import opened Protocol
  import opened Decimal
  import opened Text
  import opened EventStream
  import opened PromptResolver
  import opened Relay

  const PromptsLoadFailed := "Ошибка при загрузке JSON с промптами."
  const PromptMissing := "Промпт не найден."
  const KeyMissing := "API ключ не установлен. Пожалуйста, установите его в настройках расширения."
  const ConnectFailed := "Ошибка при подключении к OpenAI API."
  const Canceled := "Запрос был отменен."
  const ReadFailed := "Ошибка при чтении данных."

  function ServerFailure(status: nat, statusText: string): string {
    "Ошибка сервера: " + NatToString(status) + " " + statusText
  }

  /** `{ controller, tabId }`: the tab id is stored as the request gave it, unchecked. */
  datatype LegacyEntry = LegacyEntry(controller: AbortController, tab: TabField)

  /** The listener's module state: the table and the tab messages sent so far. */
  class Background {
    var ongoing: map<Option<RequestId>, LegacyEntry>
    var outbox: seq<Outgoing>

    constructor ()
      ensures ongoing == map[] && outbox == []
    {
      ongoing := map[];
      outbox := [];
    }
  }

  /**
   * The system prompt of background.js: the prompt's content with every
   * `{language}` replaced by the request's language, which is "undefined"
   * when the request has none.
   */
  function LegacySystemContent(prompt: PromptDef, promptLanguage: Option<string>): string {
    FillPlaceholder(prompt.systemContent, LanguageText(promptLanguage))
  }

  /**
   * The first step of `sendToOpenAI`: the `prompts.json` list (`None` when
   * loading it failed), then the prompt, then the stored key.  On success,
   * the messages posted: the system prompt, then the user's text.
   */
  function Prepare(p: Payload, promptsFile: Option<seq<PromptDef>>, apiKey: Option<string>)
    : (r: Result<seq<ChatMessage>, string>)
    ensures promptsFile.None? ==> r == Err(PromptsLoadFailed)
    ensures promptsFile.Some? && FindPrompt(promptsFile.value, p.promptType).None? ==> r == Err(PromptMissing)
    ensures promptsFile.Some? && FindPrompt(promptsFile.value, p.promptType).Some? ==>
      (r.Err? <==> !Truthy(apiKey)) && (r.Err? ==> r.error == KeyMissing)
    ensures r.Ok? ==>
      && promptsFile.Some? && FindPrompt(promptsFile.value, p.promptType).Some?
      && r.value == [ChatMessage(System, LegacySystemContent(FindPrompt(promptsFile.value, p.promptType).value, p.promptLanguage)),
                     ChatMessage(User, p.text)]
  {
    match promptsFile
    case None => Err(PromptsLoadFailed)
    case Some(prompts) =>
      match FindPrompt(prompts, p.promptType)
      case None => Err(PromptMissing)
      case Some(prompt) =>
        var system := LegacySystemContent(prompt, p.promptLanguage);
        if !Truthy(apiKey) then Err(KeyMissing)
        else Ok([ChatMessage(System, system), ChatMessage(User, p.text)])
  }

  /**
   * The older listener fills the placeholder whatever the language: a
   * template cut at its placeholders into pieces becomes those pieces joined
   * with the language, or with "undefined" when there is none.
   */
  lemma LegacyFillsEveryPlaceholder(pieces: seq<string>, promptLanguage: Option<string>)
    requires forall k :: 0 <= k < |pieces| ==> !HasPlaceholder(pieces[k])
    ensures LegacySystemContent(PromptDef("", JoinWith(pieces, Placeholder)), promptLanguage)
         == JoinWith(pieces, promptLanguage.GetOr("undefined"))
  {
    FillIsJoin(pieces, LanguageText(promptLanguage));
  }

  /**
   * The reply the listener passes to `sendResponse` for `getTabId` and for a
   * failed preparation of `sendToOpenAI`: the tab of the sender (a sender
   * without a tab makes `sender.tab.id` throw, and nothing is sent), or the
   * error of the failed step. Only the `getTabId` reply is sent while the
   * listener runs; the listener returns `undefined`, so a preparation error,
   * sent from a later callback, reaches a closed channel.
   */
  function ImmediateReply(request: Request, sender: Sender, promptsFile: Option<seq<PromptDef>>, apiKey: Option<string>)
    : (r: Option<Reply>)
    ensures request.action == "getTabId" ==> (r.Some? <==> sender.tab.Some?)
    ensures r.Some? && request.action == "getTabId" ==> r == Some(TabIdReply(sender.tab.value))
    ensures request.action == "sendToOpenAI" ==>
      (r.None? <==> Prepare(request.fields, promptsFile, apiKey).Ok?)
    ensures r.Some? && request.action == "sendToOpenAI" ==>
      r == Some(FailureReply(Prepare(request.fields, promptsFile, apiKey).error))
    ensures request.action != "getTabId" && request.action != "sendToOpenAI" ==> r.None?
  {
    if request.action == "getTabId" then
      if sender.tab.Some? then Some(TabIdReply(sender.tab.value)) else None
    else if request.action == "sendToOpenAI" then
      match Prepare(request.fields, promptsFile, apiKey)
      case Err(e) => Some(FailureReply(e))
      case Ok(_) => None
    else None
  }

  /** A posted request whose `fetch` has not settled yet. */
  datatype PendingFetch = PendingFetch(
    requestId: Option<RequestId>,
    tab: TabField,
    controller: AbortController,
    messages: seq<ChatMessage>)

  /**
   * One call of the listener.  The awaited values are parameters: the
   * prompt list (`None` when loading it failed) and the stored key.  A
   * `sendToOpenAI` whose first step succeeds enters the request into the
   * table and returns the pending post.
   */
  method OnMessage(bg: Background, request: Request, sender: Sender,
                   promptsFile: Option<seq<PromptDef>>, apiKey: Option<string>)
    returns (reply: Option<Reply>, pending: Option<PendingFetch>)
    modifies bg
    modifies if request.action == "cancelRequest" && request.fields.requestId in bg.ongoing
             then {bg.ongoing[request.fields.requestId].controller} else {}
    ensures reply == ImmediateReply(request, sender, promptsFile, apiKey)
    ensures bg.outbox == old(bg.outbox)
    ensures pending.Some? <==> request.action == "sendToOpenAI" && Prepare(request.fields, promptsFile, apiKey).Ok?
    ensures pending.Some? ==>
      && pending.value.messages == Prepare(request.fields, promptsFile, apiKey).value
      && pending.value.requestId == request.fields.requestId
      && pending.value.tab == request.fields.tabId
      && fresh(pending.value.controller) && !pending.value.controller.aborted
      && bg.ongoing == old(bg.ongoing)[request.fields.requestId := LegacyEntry(pending.value.controller, request.fields.tabId)]
    ensures pending.None? && request.action != "cancelRequest" ==> bg.ongoing == old(bg.ongoing)
    ensures request.action == "cancelRequest" ==> bg.ongoing == old(bg.ongoing) - {request.fields.requestId}
    ensures request.action == "cancelRequest" && request.fields.requestId in old(bg.ongoing) ==>
      old(bg.ongoing)[request.fields.requestId].controller.aborted
  {
    reply := None;
    pending := None;
    if request.action == "getTabId" {
      if sender.tab.Some? {
        reply := Some(TabIdReply(sender.tab.value));
      }
    } else if request.action == "sendToOpenAI" {
      var p := request.fields;
      if promptsFile.None? {
        reply := Some(FailureReply(PromptsLoadFailed));
        return;
      }
      var prompt := FindPrompt(promptsFile.value, p.promptType);
      if prompt.None? {
        reply := Some(FailureReply(PromptMissing));
        return;
      }
      var system := FillPlaceholder(prompt.value.systemContent, LanguageText(p.promptLanguage));
      if !Truthy(apiKey) {
        reply := Some(FailureReply(KeyMissing));
        return;
      }
      var controller := new AbortController();
      bg.ongoing := bg.ongoing[p.requestId := LegacyEntry(controller, p.tabId)];
      pending := Some(PendingFetch(p.requestId, p.tabId, controller,
                                   [ChatMessage(System, system), ChatMessage(User, p.text)]));
    } else if request.action == "cancelRequest" {
      var id := request.fields.requestId;
      if id in bg.ongoing {
        bg.ongoing[id].controller.Abort();
        bg.ongoing := bg.ongoing - {id};
      }
    }
  }

  /**
   * The reply once the post settles: a rejected `fetch` is answered with the
   * connection error unless the request was aborted (then only the tab is
   * told), a non-ok response with the server error, an ok one with success.
   */
  function FetchReply(response: HttpResponse, aborted: bool): (r: Option<Reply>)
    ensures r.None? <==> response.NetworkFailure? && aborted
    ensures r == Some(SuccessReply) <==> response.Response? && response.ok
    ensures response.Response? && !response.ok ==> r == Some(FailureReply(ServerFailure(response.status, response.statusText)))
    ensures response.NetworkFailure? && !aborted ==> r == Some(FailureReply(ConnectFailed))
  {
    match response
    case NetworkFailure(_) => if aborted then None else Some(FailureReply(ConnectFailed))
    case Response(ok, status, statusText) =>
      if ok then Some(SuccessReply) else Some(FailureReply(ServerFailure(status, statusText)))
  }

  /**
   * The post of `pending` settles with `response`.  No outcome removes the
   * table entry.  An ok response starts a reader.
   */
  method SettleFetch(bg: Background, pending: PendingFetch, response: HttpResponse, extract: string -> Option<string>)
    returns (reply: Option<Reply>, reader: LegacyReader?)
    modifies bg
    ensures reply == FetchReply(response, pending.controller.aborted)
    ensures bg.outbox == old(bg.outbox) +
      if response.NetworkFailure? && pending.controller.aborted
      then [Outgoing(pending.tab, StreamError(Canceled, pending.requestId))] else []
    ensures bg.ongoing == old(bg.ongoing)
    ensures (reader != null) <==> response.Response? && response.ok
    ensures reader != null ==>
      && fresh(reader) && reader.Valid() && reader.reading && reader.sent == []
      && reader.bg == bg && reader.tab == pending.tab && reader.requestId == pending.requestId
      && reader.controller == pending.controller && reader.extract == extract
  {
    reader := null;
    match response {
      case NetworkFailure(_) =>
        if pending.controller.aborted {
          bg.outbox := bg.outbox + [Outgoing(pending.tab, StreamError(Canceled, pending.requestId))];
          reply := None;
        } else {
          reply := Some(FailureReply(ConnectFailed));
        }
      case Response(ok, status, statusText) =>
        if !ok {
          reply := Some(FailureReply(ServerFailure(status, statusText)));
        } else {
          reader := new LegacyReader(bg, pending.tab, pending.requestId, pending.controller, extract);
          reply := Some(SuccessReply);
        }
    }
  }

  /**
   * The `read` loop of background.js over one response body: the same
   * framing and frame handling as src/background/openaiApi.js, but the end
   * of the stream leaves the table alone, and a read error is reported as
   * a cancel whenever the request's controller was aborted.
   */
  class LegacyReader {
    const bg: Background
    const tab: TabField
    const requestId: Option<RequestId>
    const controller: AbortController
    const extract: string -> Option<string>
    var buffer: string
    var reading: bool
    ghost var received: seq<string>
    ghost var sent: seq<TabMessage>

    /** As for the newer reader: while reading, what the chunks so far yield at once; then one terminal message, last. */
    ghost predicate Valid()
      reads this
    {
      if reading then Streaming(received, buffer, sent, extract, requestId) else Stopped(sent)
    }

    constructor (bg: Background, tab: TabField, requestId: Option<RequestId>, controller: AbortController,
                 extract: string -> Option<string>)
      ensures this.bg == bg && this.tab == tab && this.requestId == requestId
      ensures this.controller == controller && this.extract == extract
      ensures Valid() && reading && buffer == "" && received == [] && sent == []
    {
      this.bg := bg;
      this.tab := tab;
      this.requestId := requestId;
      this.controller := controller;
      this.extract := extract;
      buffer := "";
      reading := true;
      received := [];
      sent := [];
    }

    /** A read that reports `done`: the tab is told the stream completed; the entry stays. */
    method ProcessDone()
      requires Valid() && reading
      modifies this, bg
      ensures Valid() && !reading
      ensures sent == old(sent) + [StreamComplete(requestId)]
      ensures bg.outbox == old(bg.outbox) + [Outgoing(tab, StreamComplete(requestId))]
      ensures bg.ongoing == old(bg.ongoing)
      ensures buffer == old(buffer) && received == old(received)
    {
      StreamingSentData(received, buffer, sent, extract, requestId);
      bg.outbox := bg.outbox + [Outgoing(tab, StreamComplete(requestId))];
      sent := sent + [StreamComplete(requestId)];
      reading := false;
    }

    /** A read with a chunk: the complete frames are handled in order and the fragment is kept; the entry stays. */
    method ProcessChunk(text: string)
      requires Valid() && reading
      modifies this, bg
      ensures Valid()
      ensures received == old(received) + [text]
      ensures var split := SplitFrames(old(buffer) + text);
        var pp := ProcessParts(split.0, extract);
        && buffer == split.1
        && reading == !pp.1
        && sent == old(sent) + ToMessages(pp.0, requestId)
        && bg.outbox == old(bg.outbox) + Addressed(tab, ToMessages(pp.0, requestId))
      ensures bg.ongoing == old(bg.ongoing)
    {
      ghost var step := SplitFrames(buffer + text);
      ghost var pp := ProcessParts(step.0, extract);
      ghost var sent' := sent + ToMessages(pp.0, requestId);
      assert if pp.1 then Stopped(sent') else Streaming(received + [text], step.1, sent', extract, requestId) by {
        ChunkStep(received, buffer, sent, text, extract, requestId);
      }
      received := received + [text];

      var split := SplitFrames(buffer + text);
      buffer := split.1;
      var out, done := ScanFrames(split.0, extract, requestId);
      bg.outbox := bg.outbox + Addressed(tab, out);
      sent := sent + out;
      if done {
        reading := false;
      }
    }

    /** A rejected read: a cancel when the controller was aborted, a read error otherwise; the entry stays. */
    method HandleError()
      requires Valid() && reading
      modifies this, bg
      ensures Valid() && !reading
      ensures var error := if controller.aborted then Canceled else ReadFailed;
        && sent == old(sent) + [StreamError(error, requestId)]
        && bg.outbox == old(bg.outbox) + [Outgoing(tab, StreamError(error, requestId))]
      ensures bg.ongoing == old(bg.ongoing)
      ensures buffer == old(buffer) && received == old(received)
    {
      StreamingSentData(received, buffer, sent, extract, requestId);
      var error := if controller.aborted then Canceled else ReadFailed;
      bg.outbox := bg.outbox + [Outgoing(tab, StreamError(error, requestId))];
      sent := sent + [StreamError(error, requestId)];
      reading := false;
    }
  }
}
