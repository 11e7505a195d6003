/**
 * `handleMessages` of src/background/messageHandler.js: the background's
 * dispatch on `request.action` over the one module-level table of ongoing
 * requests (the `Coordinator` every call receives), and its reply policy.
 */
module Dispatcher {
  import opened Wrappers
  import opened Protocol
  import opened PromptResolver
  import opened Relay

  /** The only error text a failing request is answered with. */
  const InternalError := "Internal error occurred."

  /**
   * The reply `handleMessages` passes to `sendResponse`, or `None` when it
   * never calls it.  A `getTabId` from a sender without a tab fails on
   * `sender.tab.id` and is answered like any other exception.
   */
  function DispatchReply(request: Request, sender: Sender, apiKey: Option<string>,
                         prompts: seq<PromptDef>, response: HttpResponse): (r: Option<Reply>)
    ensures r.Some? <==> request.action == "getTabId" || request.action == "sendToOpenAI"
    ensures request.action == "getTabId" && sender.tab.Some? ==>
      r == Some(TabIdReply(sender.tab.value)) && r.value.success.None?
    ensures request.action == "sendToOpenAI" ==>
      (r == Some(SuccessReply) <==> SendOutcome(request.fields, apiKey, prompts, response).Ok?)
    ensures r.Some? && r.value.success != Some(true) && r.value.tabId.None? ==> r == Some(FailureReply(InternalError))
  {
    if request.action == "getTabId" then
      if sender.tab.Some? then Some(TabIdReply(sender.tab.value)) else Some(FailureReply(InternalError))
    else if request.action == "sendToOpenAI" then
      if SendOutcome(request.fields, apiKey, prompts, response).Ok? then Some(SuccessReply)
      else Some(FailureReply(InternalError))
    else None
  }

  /**
   * One `handleMessages(request, sender, sendResponse)` call.  The stored API
   * key, the `prompts.json` list and the completion service's response are
   * the values the awaited calls produce; `reader` is the stream reader a
   * successful `sendToOpenAI` starts.
   */
  method HandleMessages(coord: Coordinator, request: Request, sender: Sender, apiKey: Option<string>,
                        prompts: seq<PromptDef>, response: HttpResponse, extract: string -> Option<string>)
    returns (reply: Option<Reply>, reader: StreamReader?)
    modifies coord
    modifies if request.action == "cancelRequest" && request.fields.requestId in coord.ongoing
             then {coord.ongoing[request.fields.requestId].controller} else {}
    ensures reply == DispatchReply(request, sender, apiKey, prompts, response)
    ensures coord.outbox == old(coord.outbox)
    ensures request.action == "sendToOpenAI" && AdmissionError(request.fields, apiKey).None? ==>
      request.fields.requestId in coord.ongoing
      && coord.ongoing == old(coord.ongoing)[request.fields.requestId := coord.ongoing[request.fields.requestId]]
      && coord.ongoing[request.fields.requestId].tabId == request.fields.tabId.id
    ensures request.action == "cancelRequest" ==> coord.ongoing == old(coord.ongoing) - {request.fields.requestId}
    ensures request.action == "cancelRequest" && request.fields.requestId in old(coord.ongoing) ==>
      old(coord.ongoing)[request.fields.requestId].controller.aborted
    ensures request.action !in {"sendToOpenAI", "cancelRequest"} ||
            (request.action == "sendToOpenAI" && AdmissionError(request.fields, apiKey).Some?) ==>
      coord.ongoing == old(coord.ongoing)
    ensures (reader != null) <==> reply == Some(SuccessReply)
    ensures reader != null ==> fresh(reader) && reader.Valid() && reader.reading && reader.coord == coord
  {
    reader := null;
    if request.action == "getTabId" {
      if sender.tab.Some? {
        reply := Some(TabIdReply(sender.tab.value));
      } else {
        reply := Some(FailureReply(InternalError));
      }
    } else if request.action == "sendToOpenAI" {
      var outcome;
      outcome, reader := SendToOpenAI(coord, request.fields, apiKey, prompts, response, extract);
      if outcome.Ok? {
        reply := Some(SuccessReply);
      } else {
        reply := Some(FailureReply(InternalError));
      }
    } else if request.action == "cancelRequest" {
      CancelCurrentRequest(coord, request.fields.requestId);
      reply := None;
    } else {
      reply := None;
    }
  }
}
