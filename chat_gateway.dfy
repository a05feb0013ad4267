/**
 * The chat edge function (supabase/functions/chat/index.ts): checks the
 * request, assembles the system prompt (persona, then company, roster and
 * shared-knowledge blocks when there is something to say, then the
 * formatting instruction), decides whether images are wanted, forwards the
 * conversation to the AI gateway and maps its status.
 *
 * The persona prompts and the long instruction paragraphs are opaque
 * constants here: only which one is chosen and where it goes matter. The
 * environment variable and the gateway's reply are parameters.
 */
module ChatGateway {
  import opened Base

  /** A message as the client sent it; `content` is not required to be a string. */
  datatype Content = Text(text: string) | NotText
  datatype ChatMessage = ChatMessage(role: string, content: Content)

  datatype MemoryItem = MemoryItem(factlet: string, employeeName: Option<string>)
  datatype Colleague = Colleague(name: string, expertise: string, level: string, role: string, hasOfferLetter: bool)
  datatype CompanyInfo = CompanyInfo(
    companyName: Option<string>, industry: Option<string>, mission: Option<string>,
    vision: Option<string>, values: Option<string>, culture: Option<string>,
    benefits: Option<string>, productsServices: Option<string>, policies: Option<string>)

  /**
   * The JSON request body. `messages` is None when it is missing or not an
   * array; an absent `memory` or `employees` is the empty list.
   */
  datatype ChatBody = ChatBody(
    messages: Option<seq<ChatMessage>>, expertise: Option<string>, memory: seq<MemoryItem>,
    employees: seq<Colleague>, companyInfo: Option<CompanyInfo>, generateImage: bool)

  /** The body posted to the AI gateway. */
  datatype GatewayRequest = GatewayRequest(model: string, messages: seq<ChatMessage>, stream: bool,
                                           modalities: Option<seq<string>>)

  /**
   * What the gateway answered: its status and, when OK, the event stream;
   * or the message of the error a rejected `fetch` threw.
   */
  datatype GatewayReply = GatewayReply(ok: bool, status: int, body: seq<string>) | GatewayRejected(message: string)

  /** What the function answers. */
  datatype Reply = Preflight | EventStream(body: seq<string>) | JsonError(status: int, error: string)

  /** The keys of `EXPERTISE_PROMPTS`. */
  datatype Persona = HRExpert | MarketingExpert | TechnologyExpert | FinanceExpert | GtmExpert | ReportExpert

  function PersonaKey(p: Persona): string {
    match p
    case HRExpert => "HR"
    case MarketingExpert => "Marketing"
    case TechnologyExpert => "Technology"
    case FinanceExpert => "Finance"
    case GtmExpert => "GTM & Market Analysis"
    case ReportExpert => "Report Polishing"
  }

  const PromptKeys: set<string> := {"HR", "Marketing", "Technology", "Finance", "GTM & Market Analysis", "Report Polishing"}

  /** Stand-ins for the persona prompt texts (each non-empty). */
  function PersonaText(p: Persona): string {
    "<" + PersonaKey(p) + " persona prompt>"
  }

  const ImageModel: string := "google/gemini-2.5-flash-image-preview"
  const TextModel: string := "google/gemini-2.5-flash"
  const MessagesRequired: string := "Messages array is required"
  const KeyMissing: string := "LOVABLE_API_KEY is not configured"
  const RateLimited: string := "Rate limits exceeded, please try again later."
  const PaymentRequired: string := "Payment required, please add funds to your workspace."
  const GatewayError: string := "AI gateway error"

  /** Stand-ins for the instruction paragraphs that close each block. */
  const CompanyGuidance: string := "\n\n<company guidance>"
  const RosterGuidance: string := "\n\n<organization guidance>"
  const MemoryGuidance: string := "\n\n<knowledge base guidance>"
  const FormattingNote: string := "\n\n<formatting instruction>"
  const OfferOnFile: string := " [Has offer letter on file]"
  const NoOfferYet: string := " [No offer letter yet]"

  /** The ten phrases that ask for an image. */
  const ImageKeywords: seq<string> := ["generate image", "create image", "create a picture", "generate a picture",
    "make an image", "make a picture", "draw", "illustrate", "show me a picture", "visualize"]

  /** `EXPERTISE_PROMPTS[expertise] || EXPERTISE_PROMPTS["Technology"]` */
  function PersonaFor(expertise: Option<string>): (p: Persona)
    ensures expertise.Some? && expertise.value in PromptKeys ==> PersonaKey(p) == expertise.value
    ensures expertise.None? || expertise.value !in PromptKeys ==> p == TechnologyExpert
  {
    match expertise
    case None => TechnologyExpert
    case Some(e) =>
      if e == "HR" then HRExpert
      else if e == "Marketing" then MarketingExpert
      else if e == "Finance" then FinanceExpert
      else if e == "GTM & Market Analysis" then GtmExpert
      else if e == "Report Polishing" then ReportExpert
      else TechnologyExpert
  }

  /** `if (field) companyDetails.push(`${name}: ${field}`)` as a piece of the list. */
  function Detail(heading: string, field: Option<string>): seq<string> {
    if Truthy(field) then [heading + field.value] else []
  }

  /** The company lines, in the fixed field order, one per truthy field. */
  function CompanyLines(c: CompanyInfo): seq<string> {
    Detail("Company: ", c.companyName) + Detail("Industry: ", c.industry) + Detail("Mission: ", c.mission) +
    Detail("Vision: ", c.vision) + Detail("Core Values: ", c.values) + Detail("Culture: ", c.culture) +
    Detail("Benefits: ", c.benefits) + Detail("Products/Services: ", c.productsServices) +
    Detail("Policies: ", c.policies)
  }

  predicate AnyDetail(c: CompanyInfo) {
    Truthy(c.companyName) || Truthy(c.industry) || Truthy(c.mission) || Truthy(c.vision) ||
    Truthy(c.values) || Truthy(c.culture) || Truthy(c.benefits) || Truthy(c.productsServices) ||
    Truthy(c.policies)
  }

  function CompanyBlock(info: Option<CompanyInfo>): string {
    if info.Some? && CompanyLines(info.value) != [] then
      "\n\nCompany Information:\n" + Join(CompanyLines(info.value), "\n") + CompanyGuidance
    else ""
  }

  /** `${name} - ${expertise} (${level} ${role})${offerStatus}` */
  function RosterLine(e: Colleague): string {
    e.name + " - " + e.expertise + " (" + e.level + " " + e.role + ")" + (if e.hasOfferLetter then OfferOnFile else NoOfferYet)
  }

  function RosterLines(employees: seq<Colleague>): (lines: seq<string>)
    ensures |lines| == |employees|
    ensures forall i :: 0 <= i < |employees| ==> lines[i] == RosterLine(employees[i])
  {
    if employees == [] then [] else [RosterLine(employees[0])] + RosterLines(employees[1..])
  }

  function RosterBlock(employees: seq<Colleague>): string {
    if employees != [] then
      "\n\nYour Organization:\nYou work in an organization with " + NatToString(|employees|) +
      " team members. Here is your complete team:\n\n" + Join(RosterLines(employees), "\n") + RosterGuidance
    else ""
  }

  /** `m.employee_name ? `[${m.employee_name}]: ${m.factlet}` : m.factlet` */
  function MemoryLine(m: MemoryItem): string {
    if Truthy(m.employeeName) then "[" + m.employeeName.value + "]: " + m.factlet else m.factlet
  }

  function MemoryLines(memory: seq<MemoryItem>): (lines: seq<string>)
    ensures |lines| == |memory|
    ensures forall i :: 0 <= i < |memory| ==> lines[i] == MemoryLine(memory[i])
  {
    if memory == [] then [] else [MemoryLine(memory[0])] + MemoryLines(memory[1..])
  }

  function MemoryBlock(memory: seq<MemoryItem>): string {
    if memory != [] then
      "\n\nShared Knowledge Base (from all team members):\n" + Join(MemoryLines(memory), "\n") + MemoryGuidance
    else ""
  }

  /** The optional context blocks, in their fixed order. */
  function ContextBlocks(body: ChatBody): string {
    CompanyBlock(body.companyInfo) + RosterBlock(body.employees) + MemoryBlock(body.memory)
  }

  /** The system prompt the function sends: persona, context, formatting instruction. */
  function SystemPrompt(body: ChatBody): string {
    PersonaText(PersonaFor(body.expertise)) + ContextBlocks(body) + FormattingNote
  }

  /** The lowercased text mentions one of the image phrases. */
  predicate MentionsImage(text: string) {
    exists k :: 0 <= k < |ImageKeywords| && Contains(ToLower(text), ImageKeywords[k])
  }

  /** `messages.some(m => typeof m.content === 'string' && ...)` */
  predicate AsksForImage(messages: seq<ChatMessage>) {
    exists i :: 0 <= i < |messages| && messages[i].content.Text? && MentionsImage(messages[i].content.text)
  }

  predicate ImageMode(body: ChatBody)
    requires body.messages.Some?
  {
    body.generateImage || AsksForImage(body.messages.value)
  }

  /** The gateway request: the system message, then the client's messages unchanged. */
  function GatewayBody(systemPrompt: string, messages: seq<ChatMessage>, images: bool): (r: GatewayRequest)
    ensures r.stream && r.messages == [ChatMessage("system", Text(systemPrompt))] + messages
    ensures r.model == (if images then ImageModel else TextModel)
    ensures r.modalities.Some? <==> images
  {
    GatewayRequest(if images then ImageModel else TextModel,
                   [ChatMessage("system", Text(systemPrompt))] + messages, true,
                   if images then Some(["image", "text"]) else None)
  }

  /** The answer for the gateway's reply. */
  function MapReply(reply: GatewayReply): (r: Reply)
    ensures reply.GatewayRejected? ==> r == JsonError(500, reply.message)
    ensures reply.GatewayReply? && reply.ok ==> r == EventStream(reply.body)
    ensures reply.GatewayReply? && !reply.ok && reply.status == 429 ==> r == JsonError(429, RateLimited)
    ensures reply.GatewayReply? && !reply.ok && reply.status == 402 ==> r == JsonError(402, PaymentRequired)
    ensures reply.GatewayReply? && !reply.ok && reply.status != 429 && reply.status != 402 ==>
      r == JsonError(500, GatewayError)
  {
    if reply.GatewayRejected? then JsonError(500, reply.message)
    else if reply.ok then EventStream(reply.body)
    else if reply.status == 429 then JsonError(429, RateLimited)
    else if reply.status == 402 then JsonError(402, PaymentRequired)
    else JsonError(500, GatewayError)
  }

  /** `if (field) companyDetails.push(`${heading}${field}`)` */
  method PushDetail(details: seq<string>, heading: string, field: Option<string>) returns (grown: seq<string>)
    ensures grown == details + Detail(heading, field)
  {
    grown := details;
    if Truthy(field) {
      grown := grown + [heading + field.value];
    } else {
      assert details + [] == details;
    }
  }

  /**
   * `companyDetails` grown one field at a time, in the fixed order
   * (supabase/functions/chat/index.ts:315-324).
   */
  method CollectCompanyDetails(c: CompanyInfo) returns (details: seq<string>)
    ensures details == CompanyLines(c)
  {
    details := PushDetail([], "Company: ", c.companyName);
    assert [] + Detail("Company: ", c.companyName) == Detail("Company: ", c.companyName);
    details := PushDetail(details, "Industry: ", c.industry);
    details := PushDetail(details, "Mission: ", c.mission);
    details := PushDetail(details, "Vision: ", c.vision);
    details := PushDetail(details, "Core Values: ", c.values);
    details := PushDetail(details, "Culture: ", c.culture);
    details := PushDetail(details, "Benefits: ", c.benefits);
    details := PushDetail(details, "Products/Services: ", c.productsServices);
    details := PushDetail(details, "Policies: ", c.policies);
  }

  /** The company block appended when the client sent company details with at least one field. */
  method AppendCompany(prompt: string, info: Option<CompanyInfo>) returns (grown: string)
    ensures grown == prompt + CompanyBlock(info)
  {
    grown := prompt;
    if info.Some? {
      var companyDetails := CollectCompanyDetails(info.value);
      if |companyDetails| > 0 {
        grown := grown + ("\n\nCompany Information:\n" + Join(companyDetails, "\n") + CompanyGuidance);
        return;
      }
    }
    assert prompt + "" == prompt;
  }

  /** `systemPrompt` grown by `+=` (supabase/functions/chat/index.ts:310-349). */
  method BuildSystemPrompt(body: ChatBody) returns (systemPrompt: string)
    ensures systemPrompt == SystemPrompt(body)
  {
    var persona := PersonaText(PersonaFor(body.expertise));
    systemPrompt := AppendCompany(persona, body.companyInfo);
    if |body.employees| > 0 {
      systemPrompt := systemPrompt + RosterBlock(body.employees);
    } else {
      assert systemPrompt + RosterBlock(body.employees) == systemPrompt;
    }
    if |body.memory| > 0 {
      systemPrompt := systemPrompt + MemoryBlock(body.memory);
    } else {
      assert systemPrompt + MemoryBlock(body.memory) == systemPrompt;
    }
    ghost var c, r, m := CompanyBlock(body.companyInfo), RosterBlock(body.employees), MemoryBlock(body.memory);
    calc {
      systemPrompt;
      persona + c + r + m;
      { AppendAssoc(persona + c, r, m); }
      (persona + c) + (r + m);
      { AppendAssoc(persona, c, r + m); }
      persona + (c + (r + m));
      { AppendAssoc(c, r, m); }
      persona + ContextBlocks(body);
    }
    systemPrompt := systemPrompt + FormattingNote;
  }

  /**
   * The whole handler (supabase/functions/chat/index.ts:292-422); `sent` is
   * the gateway request, if one was made. `bodyError` is the message of the
   * exception reading the body threw (not JSON, or a `null` body that cannot
   * be destructured); `body` is then not looked at.
   */
  method Handle(httpMethod: string, bodyError: Option<string>, body: ChatBody, apiKey: Option<string>,
                gateway: GatewayReply)
    returns (reply: Reply, sent: Option<GatewayRequest>)
    ensures httpMethod == "OPTIONS" ==> reply == Preflight && sent == None
    ensures httpMethod != "OPTIONS" && bodyError.Some? ==> reply == JsonError(500, bodyError.value) && sent == None
    ensures httpMethod != "OPTIONS" && bodyError.None? && body.messages.None? ==>
      reply == JsonError(500, MessagesRequired) && sent == None
    ensures httpMethod != "OPTIONS" && bodyError.None? && body.messages.Some? && !Truthy(apiKey) ==>
      reply == JsonError(500, KeyMissing) && sent == None
    ensures httpMethod != "OPTIONS" && bodyError.None? && body.messages.Some? && Truthy(apiKey) ==>
      sent == Some(GatewayBody(SystemPrompt(body), body.messages.value, ImageMode(body))) &&
      reply == MapReply(gateway)
  {
    if httpMethod == "OPTIONS" {
      return Preflight, None;
    }
    if bodyError.Some? {
      return JsonError(500, bodyError.value), None;
    }
    if body.messages.None? {
      return JsonError(500, MessagesRequired), None;
    }
    if !Truthy(apiKey) {
      return JsonError(500, KeyMissing), None;
    }
    var systemPrompt := BuildSystemPrompt(body);
    var images := ImageMode(body);
    sent := Some(GatewayBody(systemPrompt, body.messages.value, images));
    reply := MapReply(gateway);
  }

  /** Every persona is found under its own key: the lookup inverts `PersonaKey`. */
  lemma PersonaLookup(p: Persona)
    ensures PersonaKey(p) in PromptKeys && PersonaFor(Some(PersonaKey(p))) == p
  {
  }

  /** The company block is there exactly when some of the nine fields is set. */
  lemma CompanyBlockPresent(info: Option<CompanyInfo>)
    ensures CompanyBlock(info) != "" <==> info.Some? && AnyDetail(info.value)
  {
    if info.Some? {
      var c := info.value;
      assert CompanyLines(c) != [] <==> AnyDetail(c) by {
        assert |CompanyLines(c)| ==
          |Detail("Company: ", c.companyName)| + |Detail("Industry: ", c.industry)| + |Detail("Mission: ", c.mission)| +
          |Detail("Vision: ", c.vision)| + |Detail("Core Values: ", c.values)| + |Detail("Culture: ", c.culture)| +
          |Detail("Benefits: ", c.benefits)| + |Detail("Products/Services: ", c.productsServices)| +
          |Detail("Policies: ", c.policies)|;
      }
    }
  }

  /** The prompt starts with the persona and always ends with the formatting instruction. */
  lemma PromptFrame(body: ChatBody)
    ensures StartsWith(SystemPrompt(body), PersonaText(PersonaFor(body.expertise)))
    ensures EndsWith(SystemPrompt(body), FormattingNote)
  {
    Framed(PersonaText(PersonaFor(body.expertise)), ContextBlocks(body), FormattingNote);
  }

  /** The roster and knowledge blocks are there exactly when their lists are non-empty. */
  lemma OptionalBlocks(body: ChatBody)
    ensures RosterBlock(body.employees) != "" <==> body.employees != []
    ensures MemoryBlock(body.memory) != "" <==> body.memory != []
  {
  }

  /** Image mode does not depend on which message asks: any one of them is enough. */
  lemma AnyMessageAsks(body: ChatBody, i: nat)
    requires body.messages.Some? && i < |body.messages.value|
    requires body.messages.value[i].content.Text? && MentionsImage(body.messages.value[i].content.text)
    ensures ImageMode(body)
  {
  }

  /** A message whose content is not a string never switches image mode on. */
  lemma NonTextNeverAsks(messages: seq<ChatMessage>, role: string)
    ensures AsksForImage(messages + [ChatMessage(role, NotText)]) == AsksForImage(messages)
  {
    var more := messages + [ChatMessage(role, NotText)];
    if AsksForImage(more) {
      var i :| 0 <= i < |more| && more[i].content.Text? && MentionsImage(more[i].content.text);
      assert more[i] == messages[i];
    }
    if AsksForImage(messages) {
      var i :| 0 <= i < |messages| && messages[i].content.Text? && MentionsImage(messages[i].content.text);
      assert more[i] == messages[i];
    }
  }

  /** The phrases are matched without regard to ASCII case. */
  lemma MentionsImageIgnoresCase(text: string)
    ensures MentionsImage(ToLower(text)) <==> MentionsImage(text)
  {
    ToLowerIdempotent(text);
  }
}
