/**
 * The older page-side client of src/common/api.js: module variables
 * `currentRequestId`, `currentTabId` and `markdownBuffer`, and requests whose
 * fields sit at the top level of the message, next to `action`.
 *
 * Each `chrome.runtime.sendMessage` call is appended to `outbox`, and the
 * `response` its callback receives is a parameter (`None` is `undefined`,
 * which is what the callback gets when no reply arrives).  `alert` calls are
 * appended to `alerts`.  The listener calls `appendResultText`, which
 * `./utils` does not export; `appendCalls` records those calls, each of
 * which throws.
 */
module LegacyClient {
  import opened Wrappers
  import opened Protocol
  import opened PromptResolver
  import opened ContentClient
  import opened LegacyRelay

  /**
   * `getCurrentTabId()` resolves with the reply's `tabId`, or with `null`
   * when there is no reply or the reply has no `tabId`.
   */
  function TabIdOf(response: Option<Reply>): (r: Option<TabId>)
    ensures r.Some? <==> response.Some? && response.value.tabId.Some?
    ensures r.Some? ==> r.value == response.value.tabId.value
  {
    if response.Some? then response.value.tabId else None
  }

  /**
   * The alert the `sendToOpenAI` callback raises: none for a reply whose
   * `success` is true; none when there is no reply at all, since reading
   * `response.error` on `undefined` throws before `alert` is reached;
   * otherwise the reply's error, or "Unknown error.".
   */
  function SendAlert(response: Option<Reply>): (r: Option<string>)
    ensures r.Some? <==> response.Some? && response.value.success != Some(true)
    ensures r.Some? ==> r.value == OrUnknown(response.value.error) && r.value != ""
  {
    if response.Some? && response.value.success != Some(true) then Some(OrUnknown(response.value.error)) else None
  }

  /**
   * The older listener answers `getTabId` from a tab with the tab's id, and
   * the older client resolves its tab id with that id.
   */
  lemma TabIdLearned(tab: TabId, promptsFile: Option<seq<PromptDef>>, apiKey: Option<string>)
    ensures TabIdOf(ImmediateReply(Request("getTabId", NoFields), Sender(Some(tab)), promptsFile, apiKey)) == Some(tab)
  {
  }

  class ApiClient {
    var currentRequestId: Option<RequestId>
    var currentTabId: Option<TabId>
    var markdownBuffer: string
    var outbox: seq<Request>
    var alerts: seq<string>
    var appendCalls: seq<string>

    /** The module's initial state. */
    constructor ()
      ensures currentRequestId == None && currentTabId == None && markdownBuffer == ""
      ensures outbox == [] && alerts == [] && appendCalls == []
    {
      currentRequestId := None;
      currentTabId := None;
      markdownBuffer := "";
      outbox := [];
      alerts := [];
      appendCalls := [];
    }

    /** `clearContext()`: the buffer is emptied and the request id cleared. */
    method ClearContext()
      modifies this
      ensures markdownBuffer == "" && currentRequestId == None
      ensures currentTabId == old(currentTabId) && outbox == old(outbox)
      ensures alerts == old(alerts) && appendCalls == old(appendCalls)
    {
      markdownBuffer := "";
      currentRequestId := None;
    }

    /** `getCurrentTabId()`: asks for the tab id with a `getTabId` request. */
    method GetCurrentTabId(response: Option<Reply>) returns (tab: Option<TabId>)
      modifies this
      ensures tab == TabIdOf(response)
      ensures outbox == old(outbox) + [Request("getTabId", NoFields)]
      ensures currentRequestId == old(currentRequestId) && currentTabId == old(currentTabId)
      ensures markdownBuffer == old(markdownBuffer) && alerts == old(alerts) && appendCalls == old(appendCalls)
    {
      outbox := outbox + [Request("getTabId", NoFields)];
      if response.Some? && response.value.tabId.Some? {
        tab := response.value.tabId;
      } else {
        tab := None;
      }
    }

    /**
     * `sendRequest(text)`: clears the state, takes the fresh id, learns the
     * tab id, then sends `sendToOpenAI` with the text, the page's prompt and
     * language, the tab id and the request id as top-level fields.
     */
    method SendRequest(text: string, promptType: Option<string>, promptLanguage: Option<string>,
                       freshId: RequestId, tabResponse: Option<Reply>, sendResponse: Option<Reply>)
      modifies this
      ensures currentRequestId == Some(freshId) && markdownBuffer == ""
      ensures currentTabId == TabIdOf(tabResponse)
      ensures outbox == old(outbox) + [Request("getTabId", NoFields),
        Request("sendToOpenAI", Payload(text, promptType, promptLanguage, None, TabFieldOf(currentTabId), Some(freshId)))]
      ensures alerts == old(alerts) + (if SendAlert(sendResponse).Some? then [SendAlert(sendResponse).value] else [])
      ensures appendCalls == old(appendCalls)
    {
      ClearContext();
      currentRequestId := Some(freshId);
      currentTabId := GetCurrentTabId(tabResponse);
      outbox := outbox + [Request("sendToOpenAI",
        Payload(text, promptType, promptLanguage, None, TabFieldOf(currentTabId), currentRequestId))];
      if sendResponse.Some? && sendResponse.value.success != Some(true) {
        alerts := alerts + [OrUnknown(sendResponse.value.error)];
      }
    }

    /**
     * `cancelCurrentRequest()`: only with an id set, sends `cancelRequest`
     * with it and clears the state at once, without waiting for any reply.
     */
    method CancelCurrentRequest()
      modifies this
      ensures !IdSet(old(currentRequestId)) ==>
        outbox == old(outbox) && currentRequestId == old(currentRequestId) && markdownBuffer == old(markdownBuffer)
      ensures IdSet(old(currentRequestId)) ==>
        && outbox == old(outbox) + [Request("cancelRequest", NoFields.(requestId := old(currentRequestId)))]
        && currentRequestId == None && markdownBuffer == ""
      ensures currentTabId == old(currentTabId) && alerts == old(alerts) && appendCalls == old(appendCalls)
    {
      if IdSet(currentRequestId) {
        outbox := outbox + [Request("cancelRequest", NoFields.(requestId := currentRequestId))];
        ClearContext();
      }
    }

    /**
     * The `onMessage` listener: a message whose id is not the current one is
     * ignored, and of the others only `streamData` is acted on.
     */
    method OnMessage(m: TabMessage)
      modifies this
      ensures appendCalls == old(appendCalls) +
        if SameRequest(MessageRequestId(m), currentRequestId) && m.StreamData? then [m.content] else []
      ensures currentRequestId == old(currentRequestId) && currentTabId == old(currentTabId)
      ensures markdownBuffer == old(markdownBuffer) && outbox == old(outbox) && alerts == old(alerts)
    {
      if !SameRequest(MessageRequestId(m), currentRequestId) {
        return;
      }
      if m.StreamData? {
        appendCalls := appendCalls + [m.content];
      }
    }
  }
}
