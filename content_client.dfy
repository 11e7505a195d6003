/**
 * `ContentMessageHandler` of src/content/MessageHandler.js: the page's side
 * of a request.  It keeps the current request id, the tab id it learned and
 * a markdown buffer; it sends `{ action, payload }` to the background and
 * acts on the stream events that carry the current id.
 *
 * Each `chrome.runtime.sendMessage` call is appended to `outbox`, and what
 * its callback receives is a parameter of the method that sends it; `alert`
 * calls are appended to `alerts`.  Fresh request ids (`Date.now() +
 * Math.random()`) are parameters too.
 */
module ContentClient {
  import opened Wrappers
  import opened Protocol
  import opened PromptResolver
  import opened Relay
  import opened Dispatcher
  import opened ChatContext

  /** The message object `sendMessage(action, payload)` sends: the fields are nested under `payload`. */
  datatype Envelope = Envelope(action: string, payload: Payload)

  /**
   * How the background's listener reads an envelope: it looks for the fields
   * at the top level, where only `action` is, so every field is absent.
   */
  function AsReceived(e: Envelope): (r: Request)
    ensures r.action == e.action && r.fields == NoFields
  {
    Request(e.action, NoFields)
  }

  /**
   * The promise `sendMessage` returns: it resolves with `response.data` when
   * there is no `lastError` and the reply has `success` set; otherwise it
   * rejects, with the `lastError` or with the reply's error or "Unknown error.".
   */
  function Settle(d: Delivery): (r: Result<Option<TabId>, string>)
    ensures r.Ok? <==> d.Replied? && d.reply.success == Some(true)
    ensures r.Ok? ==> r.value == d.reply.data
    ensures d.LastError? ==> r == Err(d.message)
    ensures d.Replied? && r.Err? ==> r.error == OrUnknown(d.reply.error)
  {
    match d
    case LastError(m) => Err(m)
    case Replied(reply) =>
      if reply.success != Some(true) then Err(OrUnknown(reply.error)) else Ok(reply.data)
  }

  /** `error.message || "Unknown error."` of a rejected send. */
  function AlertText(message: string): (r: string)
    ensures r != "" && (message != "" ==> r == message)
  {
    OrUnknown(Some(message))
  }

  /** The `tabId` field built from `currentTabId`: `null`/`undefined` or a number. */
  function TabFieldOf(tab: Option<TabId>): (r: TabField)
    ensures r.TabNumber? <==> tab.Some?
    ensures r.TabNumber? ==> r.id == tab.value
  {
    if tab.Some? then TabNumber(tab.value) else NoTab
  }

  /**
   * The background's `getTabId` reply has no `success` field, so whatever it
   * carries the page's `sendMessage` rejects it and `getCurrentTabId` ends
   * with `null`.
   */
  lemma TabIdNeverLearned(sender: Sender, apiKey: Option<string>, prompts: seq<PromptDef>, response: HttpResponse)
    ensures var reply := DispatchReply(AsReceived(Envelope("getTabId", NoFields)), sender, apiKey, prompts, response);
      reply.Some? && Settle(Replied(reply.value)).Err?
  {
  }

  /**
   * Every `sendToOpenAI` the page sends reaches the background without a tab
   * id, so it is refused: the reply is the internal-error failure and no
   * request is started.
   */
  lemma NestedRequestRefused(payload: Payload, sender: Sender, apiKey: Option<string>,
                             prompts: seq<PromptDef>, response: HttpResponse)
    ensures var request := AsReceived(Envelope("sendToOpenAI", payload));
      && AdmissionError(request.fields, apiKey) == Some(InvalidTab)
      && DispatchReply(request, sender, apiKey, prompts, response) == Some(FailureReply(InternalError))
      && Settle(Replied(FailureReply(InternalError))) == Err(InternalError)
  {
  }

  class ContentMessageHandler {
    var currentRequestId: Option<RequestId>
    var currentTabId: Option<TabId>
    var markdownBuffer: string
    var outbox: seq<Envelope>
    var alerts: seq<string>
    const store: ChatStore

    /** `new ContentMessageHandler()`, sharing the page's chat store. */
    constructor (store: ChatStore)
      ensures this.store == store
      ensures currentRequestId == None && currentTabId == None && markdownBuffer == ""
      ensures outbox == [] && alerts == []
    {
      this.store := store;
      currentRequestId := None;
      currentTabId := None;
      markdownBuffer := "";
      outbox := [];
      alerts := [];
    }

    /** `clearContext()`: the buffer is emptied and the request id cleared, nothing else. */
    method ClearContext()
      modifies this
      ensures markdownBuffer == "" && currentRequestId == None
      ensures currentTabId == old(currentTabId) && outbox == old(outbox) && alerts == old(alerts)
    {
      markdownBuffer := "";
      currentRequestId := None;
    }

    /**
     * `getCurrentTabId()`: asks the background for the tab id; the resolved
     * `data`, or `null` when the send is rejected.
     */
    method GetCurrentTabId(answer: Delivery) returns (tab: Option<TabId>)
      modifies this
      ensures outbox == old(outbox) + [Envelope("getTabId", NoFields)]
      ensures tab == if Settle(answer).Ok? then Settle(answer).value else None
      ensures currentRequestId == old(currentRequestId) && currentTabId == old(currentTabId)
      ensures markdownBuffer == old(markdownBuffer) && alerts == old(alerts)
    {
      outbox := outbox + [Envelope("getTabId", NoFields)];
      var settled := Settle(answer);
      if settled.Ok? {
        tab := settled.value;
      } else {
        tab := None;
      }
    }

    /**
     * `sendRequest(text, promptType, promptLanguage)`: clears the state, takes
     * the fresh id, learns the tab id, then sends `sendToOpenAI` carrying both;
     * a rejected send is alerted.
     */
    method SendRequest(text: string, promptType: Option<string>, promptLanguage: Option<string>,
                       freshId: RequestId, tabAnswer: Delivery, sendAnswer: Delivery)
      modifies this
      ensures currentRequestId == Some(freshId) && markdownBuffer == ""
      ensures currentTabId == (if Settle(tabAnswer).Ok? then Settle(tabAnswer).value else None)
      ensures outbox == old(outbox) + [Envelope("getTabId", NoFields),
        Envelope("sendToOpenAI", Payload(text, promptType, promptLanguage, None, TabFieldOf(currentTabId), Some(freshId)))]
      ensures alerts == old(alerts) + (if Settle(sendAnswer).Err? then [AlertText(Settle(sendAnswer).error)] else [])
    {
      ClearContext();
      currentRequestId := Some(freshId);
      currentTabId := GetCurrentTabId(tabAnswer);
      var payload := Payload(text, promptType, promptLanguage, None, TabFieldOf(currentTabId), currentRequestId);
      outbox := outbox + [Envelope("sendToOpenAI", payload)];
      var settled := Settle(sendAnswer);
      if settled.Err? {
        alerts := alerts + [AlertText(settled.error)];
      }
    }

    /**
     * `sendRequestWithContext(text)`: the same start as `sendRequest`, but the
     * call of `getContext`, which the module never imports, throws before
     * anything is sent; the rejection is not handled, so nothing is alerted.
     */
    method SendRequestWithContext(text: string, freshId: RequestId, tabAnswer: Delivery)
      modifies this
      ensures currentRequestId == Some(freshId) && markdownBuffer == ""
      ensures currentTabId == (if Settle(tabAnswer).Ok? then Settle(tabAnswer).value else None)
      ensures outbox == old(outbox) + [Envelope("getTabId", NoFields)]
      ensures alerts == old(alerts)
    {
      ClearContext();
      currentRequestId := Some(freshId);
      currentTabId := GetCurrentTabId(tabAnswer);
    }

    /**
     * `cancelCurrentRequest()`: only with an id set, sends `cancelRequest`
     * with it, and clears the state only once that send resolves.
     */
    method CancelCurrentRequest(answer: Delivery)
      modifies this
      ensures !IdSet(old(currentRequestId)) ==>
        outbox == old(outbox) && currentRequestId == old(currentRequestId) && markdownBuffer == old(markdownBuffer)
      ensures IdSet(old(currentRequestId)) ==>
        outbox == old(outbox) + [Envelope("cancelRequest", NoFields.(requestId := old(currentRequestId)))]
      ensures IdSet(old(currentRequestId)) && Settle(answer).Ok? ==> currentRequestId == None && markdownBuffer == ""
      ensures IdSet(old(currentRequestId)) && Settle(answer).Err? ==>
        currentRequestId == old(currentRequestId) && markdownBuffer == old(markdownBuffer)
      ensures currentTabId == old(currentTabId) && alerts == old(alerts)
    {
      if IdSet(currentRequestId) {
        outbox := outbox + [Envelope("cancelRequest", NoFields.(requestId := currentRequestId))];
        if Settle(answer).Ok? {
          ClearContext();
        }
      }
    }

    /**
     * The `onMessage` listener: a message whose id is not the current one is
     * ignored.  `streamData` appends its content to the assistant buffer;
     * `streamError` alerts its error, or "Unknown error."; `streamComplete`
     * calls `setNeedNewMessage`, which the chat module does not export, and the
     * resulting exception is caught, so it changes nothing.
     */
    method OnMessage(m: TabMessage)
      requires store.Valid()
      modifies this, store
      ensures store.Valid()
      ensures currentRequestId == old(currentRequestId) && currentTabId == old(currentTabId)
      ensures markdownBuffer == old(markdownBuffer) && outbox == old(outbox)
      ensures !SameRequest(MessageRequestId(m), currentRequestId) ==>
        alerts == old(alerts) && store.State() == old(store.State())
      ensures SameRequest(MessageRequestId(m), currentRequestId) && m.StreamData? ==>
        alerts == old(alerts) && store.State() == Appended(old(store.State()), m.content, false)
      ensures SameRequest(MessageRequestId(m), currentRequestId) && m.StreamError? ==>
        alerts == old(alerts) + [OrUnknown(Some(m.error))] && store.State() == old(store.State())
      ensures SameRequest(MessageRequestId(m), currentRequestId) && m.StreamComplete? ==>
        alerts == old(alerts) && store.State() == old(store.State())
    {
      if !SameRequest(MessageRequestId(m), currentRequestId) {
        return;
      }
      match m {
        case StreamData(content, _) =>
          store.AppendResultText(content, false);
        case StreamComplete(_) =>
        case StreamError(error, _) =>
          alerts := alerts + [OrUnknown(Some(error))];
        case OpenLMenu(_, _) =>
      }
    }
  }
}
