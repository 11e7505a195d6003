/**
 * The messages exchanged between the page (content script), the background
 * context and the completion service, as the extension's JavaScript builds
 * them.  Optional fields are `Option`s: `None` is JavaScript's `undefined`
 * (or `null` where the code stores `null`).
 */
module Protocol {
  import opened Wrappers

  /** Request ids are `Date.now() + Math.random()`: numbers. */
  type RequestId = real

  /** Chrome tab ids are integers. */
  type TabId = int

  datatype Role = System | User | Assistant

  /** One entry of the chat-completion `messages` list and of the chat context. */
  datatype ChatMessage = ChatMessage(role: Role, content: string)

  /** The `tabId` field of a request as the background receives it. */
  datatype TabField = NoTab | TabNumber(id: int) | TabNotNumber

  /** The fields of a `sendToOpenAI`/`cancelRequest` request. */
  datatype Payload = Payload(
    text: string,
    promptType: Option<string>,
    promptLanguage: Option<string>,
    previousContext: Option<seq<ChatMessage>>,
    tabId: TabField,
    requestId: Option<RequestId>)

  /** A request whose top-level fields are all absent. */
  const NoFields := Payload("", None, None, None, NoTab, None)

  /** A request as the background's listener reads it: an action and top-level fields. */
  datatype Request = Request(action: string, fields: Payload)

  /** `sender` of `onMessage`: `sender.tab` is absent for messages that do not come from a tab. */
  datatype Sender = Sender(tab: Option<TabId>)

  /** A reply passed to `sendResponse`; absent fields are `undefined`. */
  datatype Reply = Reply(success: Option<bool>, error: Option<string>, tabId: Option<TabId>, data: Option<TabId>)

  function TabIdReply(tab: TabId): Reply { Reply(None, None, Some(tab), None) }
  const SuccessReply := Reply(Some(true), None, None, None)
  function FailureReply(error: string): Reply { Reply(Some(false), Some(error), None, None) }

  /** What the callback of `chrome.runtime.sendMessage` sees: `lastError` set, or a reply. */
  datatype Delivery = LastError(message: string) | Replied(reply: Reply)

  /**
   * Messages the background pushes to a tab with `chrome.tabs.sendMessage`:
   * the stream events of a request, and the context menu's `openLMenu`,
   * which carries no request id.
   */
  datatype TabMessage =
    | StreamData(content: string, requestId: Option<RequestId>)
    | StreamComplete(requestId: Option<RequestId>)
    | StreamError(error: string, requestId: Option<RequestId>)
    | OpenLMenu(text: string, chosenPrompt: string)

  /** `message.requestId`: `undefined` on an `openLMenu` message. */
  function MessageRequestId(m: TabMessage): Option<RequestId> {
    if m.OpenLMenu? then None else m.requestId
  }

  /**
   * `message.requestId !== currentRequestId` is false: both are the same
   * number.  An absent id (`undefined`) never equals the cleared id (`null`).
   */
  predicate SameRequest(messageId: Option<RequestId>, current: Option<RequestId>) {
    messageId.Some? && current.Some? && messageId.value == current.value
  }

  /** `if (currentRequestId)`: a request id is set and is not 0. */
  predicate IdSet(current: Option<RequestId>) {
    current.Some? && current.value != 0.0
  }

  /** One `chrome.tabs.sendMessage(tab, message)` call. */
  datatype Outgoing = Outgoing(tab: TabField, message: TabMessage)

  /** JavaScript truthiness of an optional string: present and non-empty. */
  predicate Truthy(s: Option<string>) { s.Some? && s.value != "" }

  /** `e || "Unknown error."` */
  function OrUnknown(e: Option<string>): (r: string)
    ensures r != ""
    ensures Truthy(e) ==> r == e.value
  {
    if Truthy(e) then e.value else "Unknown error."
  }
}
