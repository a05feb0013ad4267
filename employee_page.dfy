/**
 * The chat page of one AI employee (src/pages/Employee.tsx): the state the
 * page keeps and its `handleSend` action.
 *
 * The database inserts, the memory query, the `fetch` to the chat function
 * and `crypto.randomUUID()`/`new Date()` are not performed here: their
 * results are parameters of `HandleSend` (`userInsertError`, `memory`,
 * `response`, the two ids and `now`). What the page writes to the
 * `messages` table and what it posts to the chat function are recorded in
 * the fields `persisted` and `requests`.
 */
module EmployeeChat {
  import opened Base
  import opened Transcript
  import opened BufferedSse

  /** A row inserted into the `messages` table. */
  datatype MessageRow = MessageRow(conversationId: string, role: string, content: string)

  const SendFailed: string := "Failed to send message"
  const NoReply: string := "Failed to get AI response"

  /** The send button does something only with text, a conversation and a loaded employee. */
  predicate CanSend(input: string, conversationId: Option<string>, employee: Option<EmployeeInfo>) {
    Trim(input) != "" && conversationId.Some? && employee.Some?
  }

  /** `[...messages, { role: "user", content }].map(m => ({ role, content }))` */
  function Outgoing(prior: seq<Message>, text: string): (turns: seq<ChatTurn>)
    ensures |turns| == |prior| + 1
    ensures forall i :: 0 <= i < |prior| ==> turns[i] == ChatTurn(prior[i].role, prior[i].content)
    ensures turns[|prior|] == ChatTurn("user", text)
  {
    if prior == [] then [ChatTurn("user", text)]
    else [ChatTurn(prior[0].role, prior[0].content)] + Outgoing(prior[1..], text)
  }

  class EmployeePage {
    var input: string
    var conversationId: Option<string>
    var employee: Option<EmployeeInfo>
    var messages: seq<Message>
    var sending: bool
    /** The error toasts shown, oldest first. */
    var toasts: seq<string>
    /** The rows this page inserted into `messages`, oldest first. */
    var persisted: seq<MessageRow>
    /** The bodies this page posted to the chat function, oldest first. */
    var requests: seq<ChatRequest>

    /** The page once the employee and its latest conversation are loaded. */
    constructor (employee: Option<EmployeeInfo>, conversationId: Option<string>, history: seq<Message>)
      ensures this.employee == employee && this.conversationId == conversationId
      ensures messages == history && input == "" && !sending
      ensures toasts == [] && persisted == [] && requests == []
    {
      this.employee := employee;
      this.conversationId := conversationId;
      messages := history;
      input := "";
      sending := false;
      toasts := [];
      persisted := [];
      requests := [];
    }

    /** Typing into the input box. */
    method SetInput(text: string)
      modifies this
      ensures input == text
      ensures messages == old(messages) && persisted == old(persisted) && requests == old(requests)
      ensures toasts == old(toasts) && sending == old(sending)
      ensures conversationId == old(conversationId) && employee == old(employee)
    {
      input := text;
    }

    /**
     * `handleSend` (src/pages/Employee.tsx:121-234). `userInsertError` is the
     * message of the error the user-row insert returned, if any; `memory` is
     * `memory.data`; `userId`/`replyId` are the two generated message ids.
     */
    method HandleSend(userInsertError: Option<string>, memory: Option<seq<string>>, response: ChatResponse,
                      parse: string -> Parsed, userId: string, replyId: string, now: int)
      modifies this
      ensures conversationId == old(conversationId) && employee == old(employee)
      ensures !CanSend(old(input), old(conversationId), old(employee)) ==>
        input == old(input) && messages == old(messages) && sending == old(sending) &&
        toasts == old(toasts) && persisted == old(persisted) && requests == old(requests)
      ensures CanSend(old(input), old(conversationId), old(employee)) ==>
        var text := Trim(old(input));
        var userRow := MessageRow(old(conversationId).value, "user", text);
        var userMsg := Message(userId, "user", text, now);
        input == "" && !sending &&
        match userInsertError
        case Some(e) =>
          messages == old(messages) && persisted == old(persisted) && requests == old(requests) &&
          toasts == old(toasts) + [ErrorText(e, SendFailed)]
        case None =>
          requests == old(requests) +
            [ChatRequest(Outgoing(old(messages), text), old(employee).value.expertise, memory.GetOr([]))] &&
          match response
          case Body(chunks) =>
            var reply := Decode(parse, chunks);
            Streaming(messages, old(messages) + [userMsg, Message(replyId, "assistant", "", now)], replyId, reply) &&
            persisted == old(persisted) + [userRow, MessageRow(old(conversationId).value, "assistant", reply)] &&
            toasts == old(toasts)
          case Rejected(e) =>
            messages == old(messages) + [userMsg] &&
            persisted == old(persisted) + [userRow] &&
            toasts == old(toasts) + [ErrorText(e, SendFailed)]
          case _ =>
            messages == old(messages) + [userMsg] &&
            persisted == old(persisted) + [userRow] &&
            toasts == old(toasts) + [NoReply]
    {
      if !CanSend(input, conversationId, employee) {
        return;
      }
      var userMessage := Trim(input);
      input := "";
      sending := true;

      if userInsertError.Some? {
        toasts := toasts + [ErrorText(userInsertError.value, SendFailed)];
      } else {
        Converse(userMessage, memory, response, parse, userId, replyId, now);
      }
      sending := false;
    }

    /**
     * The part of `handleSend` after the user row is stored: the request,
     * the placeholder, the decode loop and the assistant row
     * (src/pages/Employee.tsx:139-224). A rejected `fetch` shows its own
     * message; a non-OK or bodyless response shows "Failed to get AI response".
     */
    method Converse(text: string, memory: Option<seq<string>>, response: ChatResponse,
                    parse: string -> Parsed, userId: string, replyId: string, now: int)
      requires conversationId.Some? && employee.Some?
      modifies this
      ensures input == old(input) && sending == old(sending)
      ensures conversationId == old(conversationId) && employee == old(employee)
      ensures requests == old(requests) +
        [ChatRequest(Outgoing(old(messages), text), employee.value.expertise, memory.GetOr([]))]
      ensures var userRow := MessageRow(conversationId.value, "user", text);
        var userMsg := Message(userId, "user", text, now);
        match response
        case Body(chunks) =>
          var reply := Decode(parse, chunks);
          Streaming(messages, old(messages) + [userMsg, Message(replyId, "assistant", "", now)], replyId, reply) &&
          persisted == old(persisted) + [userRow, MessageRow(conversationId.value, "assistant", reply)] &&
          toasts == old(toasts)
        case Rejected(e) =>
          messages == old(messages) + [userMsg] &&
          persisted == old(persisted) + [userRow] &&
          toasts == old(toasts) + [ErrorText(e, SendFailed)]
        case _ =>
          messages == old(messages) + [userMsg] &&
          persisted == old(persisted) + [userRow] &&
          toasts == old(toasts) + [NoReply]
    {
      var conversation := conversationId.value;
      persisted := persisted + [MessageRow(conversation, "user", text)];
      var prior := messages;
      messages := messages + [Message(userId, "user", text, now)];

      requests := requests + [ChatRequest(Outgoing(prior, text), employee.value.expertise, memory.GetOr([]))];
      if response.Rejected? {
        toasts := toasts + [ErrorText(response.message, SendFailed)];
        return;
      }
      if !response.Body? {
        toasts := toasts + [NoReply];
        return;
      }

      messages := messages + [Message(replyId, "assistant", "", now)];
      var assistantContent, shown := DecodeStream(parse, response.chunks, messages, replyId);
      messages := shown;
      persisted := persisted + [MessageRow(conversation, "assistant", assistantContent)];
    }
  }
}
