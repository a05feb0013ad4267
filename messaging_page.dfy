/**
 * The messaging page (src/pages/AIMessaging.tsx): pick one of the user's
 * employees and chat with it. Unlike the employee page, the message is sent
 * untrimmed, nothing is written to the database, memory is always empty and
 * the reply is decoded chunk by chunk (module ChunkSse).
 *
 * The two message ids (`Date.now().toString()` and `(Date.now() + 1).toString()`),
 * the timestamp and the `fetch` result are parameters of `HandleSend`.
 */
module MessagingPage {
  import opened Base
  import opened Transcript
  import ChunkSse

  const DefaultExpertise: string := "Technology"
  const SendFailed: string := "Failed to send message. Please try again."

  /** The outgoing transcript: role `"user"` stays, every other role is sent as `"assistant"`. */
  function AsTurns(msgs: seq<Message>): (turns: seq<ChatTurn>)
    ensures |turns| == |msgs|
    ensures forall i :: 0 <= i < |msgs| ==>
      turns[i].content == msgs[i].content &&
      (turns[i].role == "user" <==> msgs[i].role == "user") &&
      (turns[i].role == "user" || turns[i].role == "assistant")
  {
    if msgs == [] then []
    else [ChatTurn(if msgs[0].role == "user" then "user" else "assistant", msgs[0].content)] + AsTurns(msgs[1..])
  }

  /** `employees.find(e => e.id === id)` */
  function Find(employees: seq<EmployeeInfo>, id: string): (found: Option<EmployeeInfo>)
    ensures found.None? <==> forall i :: 0 <= i < |employees| ==> employees[i].id != id
    ensures found.Some? ==> (found.value.id == id &&
      exists i :: 0 <= i < |employees| && employees[i] == found.value &&
        (forall k :: 0 <= k < i ==> employees[k].id != id))
  {
    if employees == [] then None
    else if employees[0].id == id then Some(employees[0])
    else
      var rest := Find(employees[1..], id);
      assert forall i :: 1 <= i < |employees| ==> employees[i] == employees[1..][i - 1];
      rest
  }

  /** `employee?.expertise || "Technology"` */
  function ExpertiseFor(employees: seq<EmployeeInfo>, id: string): (expertise: string)
    ensures expertise != ""
    ensures Find(employees, id).None? ==> expertise == DefaultExpertise
    ensures Find(employees, id).Some? && Find(employees, id).value.expertise != "" ==>
      expertise == Find(employees, id).value.expertise
    ensures Find(employees, id).Some? && Find(employees, id).value.expertise == "" ==> expertise == DefaultExpertise
  {
    match Find(employees, id)
    case None => DefaultExpertise
    case Some(e) => if e.expertise != "" then e.expertise else DefaultExpertise
  }

  /** `!input.trim() || !selectedEmployee || sending` turned around. */
  predicate CanSend(input: string, selectedEmployee: string, sending: bool) {
    Trim(input) != "" && selectedEmployee != "" && !sending
  }

  class AIMessagingPage {
    var employees: seq<EmployeeInfo>
    var selectedEmployee: string
    var messages: seq<Message>
    var input: string
    var sending: bool
    /** The error toasts shown, oldest first. */
    var toasts: seq<string>
    /** The bodies posted to the chat function, oldest first. */
    var requests: seq<ChatRequest>

    /** The page once the user's employees are loaded. */
    constructor (employees: seq<EmployeeInfo>)
      ensures this.employees == employees && selectedEmployee == ""
      ensures messages == [] && input == "" && !sending && toasts == [] && requests == []
    {
      this.employees := employees;
      selectedEmployee := "";
      messages := [];
      input := "";
      sending := false;
      toasts := [];
      requests := [];
    }

    /**
     * `handleSend` (src/pages/AIMessaging.tsx:61-157). The user message is
     * shown before the request and stays when it fails; on an OK response
     * without a body the placeholder stays empty.
     */
    method HandleSend(response: ChatResponse, parse: string -> ChunkSse.Parsed,
                      userId: string, replyId: string, now: int)
      modifies this
      ensures employees == old(employees) && selectedEmployee == old(selectedEmployee)
      ensures !CanSend(old(input), old(selectedEmployee), old(sending)) ==>
        input == old(input) && sending == old(sending) && messages == old(messages) &&
        toasts == old(toasts) && requests == old(requests)
      ensures CanSend(old(input), old(selectedEmployee), old(sending)) ==>
        var userMsg := Message(userId, "user", old(input), now);
        var placeholder := Message(replyId, "assistant", "", now);
        input == "" && !sending &&
        requests == old(requests) +
          [ChatRequest(AsTurns(old(messages) + [userMsg]), ExpertiseFor(employees, selectedEmployee), [])] &&
        match response
        case Rejected(_) =>
          messages == old(messages) + [userMsg] && toasts == old(toasts) + [SendFailed]
        case NotOk =>
          messages == old(messages) + [userMsg] && toasts == old(toasts) + [SendFailed]
        case NoBody =>
          messages == old(messages) + [userMsg, placeholder] && toasts == old(toasts)
        case Body(chunks) =>
          Streaming(messages, old(messages) + [userMsg, placeholder], replyId, ChunkSse.Decode(parse, chunks)) &&
          toasts == old(toasts)
    {
      if !CanSend(input, selectedEmployee, sending) {
        return;
      }
      messages := messages + [Message(userId, "user", input, now)];
      input := "";
      sending := true;
      requests := requests + [ChatRequest(AsTurns(messages), ExpertiseFor(employees, selectedEmployee), [])];
      Receive(response, parse, replyId, now);
      sending := false;
    }

    /**
     * The part of `handleSend` after the request is sent: the error toast,
     * or the placeholder and the read loop (src/pages/AIMessaging.tsx:97-153).
     * A rejected `fetch` and a non-OK status end in the same fixed toast.
     */
    method Receive(response: ChatResponse, parse: string -> ChunkSse.Parsed, replyId: string, now: int)
      modifies this
      ensures employees == old(employees) && selectedEmployee == old(selectedEmployee)
      ensures input == old(input) && sending == old(sending) && requests == old(requests)
      ensures var placeholder := Message(replyId, "assistant", "", now);
        match response
        case Rejected(_) =>
          messages == old(messages) && toasts == old(toasts) + [SendFailed]
        case NotOk =>
          messages == old(messages) && toasts == old(toasts) + [SendFailed]
        case NoBody =>
          messages == old(messages) + [placeholder] && toasts == old(toasts)
        case Body(chunks) =>
          Streaming(messages, old(messages) + [placeholder], replyId, ChunkSse.Decode(parse, chunks)) &&
          toasts == old(toasts)
    {
      if response.Rejected? || response.NotOk? {
        toasts := toasts + [SendFailed];
        return;
      }
      messages := messages + [Message(replyId, "assistant", "", now)];
      if response.Body? {
        var assistantMessage, shown := ChunkSse.DecodeStream(parse, response.chunks, messages, replyId);
        messages := shown;
      }
    }
  }

  /** Role mapping keeps the transcript's contents and order and only renames roles. */
  lemma {:induction false} AsTurnsAppend(a: seq<Message>, b: seq<Message>)
    ensures AsTurns(a + b) == AsTurns(a) + AsTurns(b)
  {
    if a != [] {
      assert (a + b)[1..] == a[1..] + b;
      AsTurnsAppend(a[1..], b);
    } else {
      assert a + b == b;
    }
  }
}
