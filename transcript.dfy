/**
 * The chat transcript both chat pages keep in memory, and the one update the
 * stream decoders make to it: the placeholder assistant message (found by its
 * id) is given the whole text accumulated so far. Also the shapes both
 * pages exchange with the chat function.
 */
module Transcript {
  import opened Base

  datatype Message = Message(id: string, role: string, content: string, createdAt: int)

  /** The employee record a chat page loads (the columns it uses). */
  datatype EmployeeInfo = EmployeeInfo(id: string, name: string, expertise: string, avatarUrl: Option<string>)

  /** One message of the transcript posted to the chat function. */
  datatype ChatTurn = ChatTurn(role: string, content: string)

  /** The JSON body posted to `/functions/v1/chat`. */
  datatype ChatRequest = ChatRequest(messages: seq<ChatTurn>, expertise: string, memory: seq<string>)

  /**
   * What `fetch` gave: a rejected promise (a network failure, with the
   * error's message), a non-OK status, an OK response without a body, or
   * the body's chunks.
   */
  datatype ChatResponse = Rejected(message: string) | NotOk | NoBody | Body(chunks: seq<string>)

  /** `prev.map(m => m.id === id ? { ...m, content: text } : m)` */
  function ShowContent(msgs: seq<Message>, id: string, text: string): seq<Message> {
    seq(|msgs|, i requires 0 <= i < |msgs| =>
      if msgs[i].id == id then msgs[i].(content := text) else msgs[i])
  }

  /**
   * The transcript while a reply streams in: unchanged until some text has
   * arrived, afterwards every message with the placeholder's id shows `text`
   * and every other message is as it was.
   */
  ghost predicate Streaming(msgs: seq<Message>, before: seq<Message>, id: string, text: string) {
    |msgs| == |before| &&
    forall i :: 0 <= i < |msgs| ==>
      msgs[i] == if before[i].id == id && text != "" then before[i].(content := text) else before[i]
  }

  /** Showing new text replaces what the placeholder showed before. */
  lemma ShowContentAgain(msgs: seq<Message>, before: seq<Message>, id: string, shown: string, text: string)
    requires Streaming(msgs, before, id, shown)
    requires text != ""
    ensures Streaming(ShowContent(msgs, id, text), before, id, text)
  {
  }
}
