/**
 * The conversation kept by src/common/chatUtils.js: the role-tagged
 * `chatContext` sent back as previous context, and the buffer that collects
 * the assistant's streamed answer until it is complete.  The DOM updates the
 * same functions make are not modelled.
 */
module ChatContext {
  import opened Protocol
  import opened Text

  /** The store's state as values: the context and the assistant buffer. */
  datatype Conversation = Conversation(context: seq<ChatMessage>, buffer: string)

  /** `appendResultText(text, isComplete)` on the state as values. */
  function Appended(c: Conversation, text: string, isComplete: bool): (r: Conversation)
    ensures !isComplete ==> r.context == c.context && r.buffer == c.buffer + text
    ensures isComplete ==> r.context == c.context + [ChatMessage(Assistant, c.buffer + text)] && r.buffer == ""
  {
    var buffer := c.buffer + text;
    if isComplete then Conversation(c.context + [ChatMessage(Assistant, buffer)], "")
    else Conversation(c.context, buffer)
  }

  /** A run of pieces of an answer that is still streaming. */
  function AppendAll(c: Conversation, pieces: seq<string>): Conversation
    decreases |pieces|
  {
    if pieces == [] then c else AppendAll(Appended(c, pieces[0], false), pieces[1..])
  }

  /**
   * Streaming pieces and then completing the answer adds exactly one assistant
   * message, holding everything buffered in arrival order, and empties the buffer.
   */
  lemma {:induction false} StreamedAnswer(c: Conversation, pieces: seq<string>, last: string)
    ensures Appended(AppendAll(c, pieces), last, true)
         == Conversation(c.context + [ChatMessage(Assistant, c.buffer + Concat(pieces) + last)], "")
    decreases |pieces|
  {
    if pieces == [] {
      assert c.buffer + Concat(pieces) == c.buffer;
    } else {
      var next := Appended(c, pieces[0], false);
      StreamedAnswer(next, pieces[1..], last);
      calc {
        next.buffer + Concat(pieces[1..]) + last;
        (c.buffer + pieces[0]) + Concat(pieces[1..]) + last;
        c.buffer + (pieces[0] + Concat(pieces[1..])) + last;
        c.buffer + Concat(pieces) + last;
      }
    }
  }

  /** Only the page's own and the assistant's messages ever enter the context. */
  ghost predicate Conversational(context: seq<ChatMessage>) {
    forall k :: 0 <= k < |context| ==> context[k].role != System
  }

  /** The module-level `chatContext` and `assistantMessageBuffer`. */
  class ChatStore {
    var chatContext: seq<ChatMessage>
    var assistantBuffer: string

    ghost predicate Valid()
      reads this
    {
      Conversational(chatContext)
    }

    function State(): Conversation
      reads this
    {
      Conversation(chatContext, assistantBuffer)
    }

    constructor ()
      ensures Valid() && chatContext == [] && assistantBuffer == ""
    {
      chatContext := [];
      assistantBuffer := "";
    }

    /** `appendResultText(text, isComplete)`: buffer the text; on completion move the buffer into the context. */
    method AppendResultText(text: string, isComplete: bool)
      requires Valid()
      modifies this
      ensures Valid()
      ensures State() == Appended(old(State()), text, isComplete)
    {
      assistantBuffer := assistantBuffer + text;
      if isComplete {
        AddAssistantMessage(assistantBuffer);
        assistantBuffer := "";
      }
    }

    /** `addUserMessage(text)`: one user entry at the end. */
    method AddUserMessage(text: string)
      requires Valid()
      modifies this
      ensures Valid()
      ensures chatContext == old(chatContext) + [ChatMessage(User, text)]
      ensures assistantBuffer == old(assistantBuffer)
    {
      chatContext := chatContext + [ChatMessage(User, text)];
    }

    /** `addAssistantMessage(text)`: one assistant entry at the end. */
    method AddAssistantMessage(text: string)
      requires Valid()
      modifies this
      ensures Valid()
      ensures chatContext == old(chatContext) + [ChatMessage(Assistant, text)]
      ensures assistantBuffer == old(assistantBuffer)
    {
      chatContext := chatContext + [ChatMessage(Assistant, text)];
    }

    /** `resetContext()`: an empty context and an empty buffer. */
    method ResetContext()
      modifies this
      ensures Valid()
      ensures chatContext == [] && assistantBuffer == ""
    {
      chatContext := [];
      assistantBuffer := "";
    }

    /** `getContext()`: the context itself, unchanged. */
    method GetContext() returns (context: seq<ChatMessage>)
      requires Valid()
      ensures context == chatContext && Conversational(context)
    {
      context := chatContext;
    }
  }
}
